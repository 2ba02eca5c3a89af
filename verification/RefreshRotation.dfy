/** Rotating the refresh token of a session, with any number of refreshes and logouts at the same time. */
module RefreshRotation {

  import opened Wrappers
  import opened Sequences

  /** Tokens carry the sequence they were issued for; those of old sessions do not. A token stands for its hash. */
  datatype Token = Versioned(sequence: nat) | Legacy(text: string)

  datatype Session = Session(token: Token, sequence: nat, revoked: bool, expiresAt: nat)

  const MAX_SAFE_INTEGER: nat := 9007199254740991

  function ExpectedSequence(t: Token): nat { if t.Versioned? then t.sequence else 0 }

  function NextSequence(t: Token): nat { ExpectedSequence(t) + 1 }

  /** A token whose next sequence cannot be written is refused before anything else happens. */
  predicate IsAcceptable(t: Token) { NextSequence(t) <= MAX_SAFE_INTEGER }

  // The two tables.

  datatype Tables = Tables(session: Session, consumed: set<Token>)

  predicate CanRotate(s: Session, t: Token, now: nat) {
    s.token == t && s.sequence == ExpectedSequence(t) && !s.revoked && now < s.expiresAt
  }

  function RotatedTables(tables: Tables, t: Token): Tables {
    Tables(tables.session.(token := Versioned(NextSequence(t)), sequence := NextSequence(t)),
           if t.Legacy? then tables.consumed + {t} else tables.consumed)
  }

  /** The session has moved past the token. */
  predicate IsReplay(tables: Tables, t: Token) {
    match t
    case Versioned(n) => tables.session.sequence > n
    case Legacy(_) => t in tables.consumed
  }

  predicate CanLogOut(tables: Tables, t: Token) {
    match t
    case Versioned(n) => tables.session.sequence >= n
    case Legacy(_) => tables.session.token == t || t in tables.consumed
  }

  /** The consumed tokens go right after the revocation; nothing looks at them any more. */
  function RevokedTables(tables: Tables, condition: bool): Tables {
    if !tables.session.revoked && condition then Tables(tables.session.(revoked := true), {}) else tables
  }

  class SessionStore {
    var session: Session
    var consumed: set<Token>

    function Contents(): Tables
      reads this
    {
      Tables(session, consumed)
    }

    constructor (session: Session)
      ensures Contents() == Tables(session, {})
    {
      this.session, consumed := session, {};
    }

    method RotateRefreshToken(t: Token, now: nat) returns (rotated: bool)
      modifies this
      ensures rotated == CanRotate(old(session), t, now)
      ensures Contents() == if rotated then RotatedTables(old(Contents()), t) else old(Contents())
    {
      rotated := session.token == t && session.sequence == ExpectedSequence(t) && !session.revoked
          && session.expiresAt > now;
      if rotated {
        if t.Legacy? { consumed := consumed + {t}; }
        session := session.(token := Versioned(NextSequence(t)), sequence := NextSequence(t));
      }
    }

    method Revoke(condition: bool)
      modifies this
      ensures Contents() == RevokedTables(old(Contents()), condition)
    {
      if !session.revoked && condition {
        session := session.(revoked := true);
        consumed := {};
      }
    }

    method RevokeReplayedSession(t: Token)
      modifies this
      ensures Contents() == RevokedTables(old(Contents()), IsReplay(old(Contents()), t))
    {
      var replayed := if t.Versioned? then session.sequence > t.sequence else t in consumed;
      Revoke(replayed);
    }

    method Logout(t: Token)
      modifies this
      ensures Contents() == RevokedTables(old(Contents()), CanLogOut(old(Contents()), t))
    {
      var known := if t.Versioned? then session.sequence >= t.sequence else session.token == t || t in consumed;
      Revoke(known);
    }
  }

  // Refreshes and logouts at the same time: every statement is one step.

  /**
   A refresh remembers whether its token had been rotated when it was presented, and in the end whether it had been
   rotated by the time of its second statement.
   */
  datatype Refresh =
    | Presented(token: Token, used: bool)
    | Failed(token: Token, used: bool)
    | Rotated(sequence: nat)
    | Refused(token: Token, used: bool)

  /** The tokens that have been rotated, in order, are kept for the record. */
  datatype State = State(tables: Tables, now: nat, refreshes: map<nat, Refresh>, used: seq<Token>)

  datatype Step =
    | Present(refresh: nat, token: Token)
    | Rotate(refresh: nat)
    | RevokeReplay(refresh: nat)
    | LogOut(token: Token)
    | Tick(now: nat)
    | Stop(refresh: nat)

  predicate Enabled(s: State, step: Step) {
    match step
    case Present(n, t) => n !in s.refreshes && IsAcceptable(t)
    case Rotate(n) => n in s.refreshes && s.refreshes[n].Presented?
    case RevokeReplay(n) => n in s.refreshes && s.refreshes[n].Failed?
    case LogOut(_) => true
    case Tick(now) => s.now <= now
    case Stop(_) => true
  }

  function Next(s: State, step: Step): State
    requires Enabled(s, step)
  {
    match step
    case Present(n, t) => s.(refreshes := s.refreshes[n := Presented(t, t in s.used)])
    case Rotate(n) =>
      var r := s.refreshes[n];
      if CanRotate(s.tables.session, r.token, s.now)
      then s.(tables := RotatedTables(s.tables, r.token), used := s.used + [r.token],
          refreshes := s.refreshes[n := Rotated(NextSequence(r.token))])
      else s.(refreshes := s.refreshes[n := Failed(r.token, r.used)])
    case RevokeReplay(n) =>
      var r := s.refreshes[n];
      s.(tables := RevokedTables(s.tables, IsReplay(s.tables, r.token)),
          refreshes := s.refreshes[n := Refused(r.token, r.token in s.used)])
    case LogOut(t) => s.(tables := RevokedTables(s.tables, CanLogOut(s.tables, t)))
    case Tick(now) => s.(now := now)
    case Stop(n) => s.(refreshes := s.refreshes - {n})
  }

  /** A new session, or one from before tokens carried their sequence. */
  ghost predicate IsStart(s: State) {
    && !s.tables.session.revoked && s.tables.consumed == {} && s.refreshes == map[] && s.used == []
    && s.tables.session.sequence == ExpectedSequence(s.tables.session.token)
  }

  function After(start: State, steps: seq<Step>): Option<State>
    decreases |steps|
  {
    if steps == [] then Some(start)
    else
      match After(start, steps[..|steps| - 1])
      case None => None
      case Some(s) => if Enabled(s, steps[|steps| - 1]) then Some(Next(s, steps[|steps| - 1])) else None
  }

  ghost predicate IsRun(start: State, steps: seq<Step>) { IsStart(start) && After(start, steps).Some? }

  // What every step keeps.

  /** The token the session was started with, and then the one issued for each sequence. */
  function Issued(first: Token, i: nat): Token { if i == 0 then first else Versioned(ExpectedSequence(first) + i) }

  ghost predicate HistoryFits(first: Token, s: State) {
    && s.tables.session.sequence == ExpectedSequence(first) + |s.used|
    && s.tables.session.token == Issued(first, |s.used|)
    && forall i :: 0 <= i < |s.used| ==> s.used[i] == Issued(first, i)
  }

  /** Whatever has been rotated is recognised, until the session is revoked. */
  ghost predicate UsedIsRecognised(s: State) {
    s.tables.session.revoked || forall t :: t in s.used ==> IsReplay(s.tables, t)
  }

  ghost predicate ConsumedIsUsed(s: State) { forall t :: t in s.tables.consumed ==> t in s.used }

  ghost predicate RefreshFits(s: State, r: Refresh) {
    match r
    case Presented(t, used) => used ==> t in s.used
    case Failed(t, used) => used ==> t in s.used
    case Rotated(_) => true
    case Refused(t, used) => used ==> s.tables.session.revoked
  }

  ghost predicate RefreshesFit(s: State) { forall n :: n in s.refreshes ==> RefreshFits(s, s.refreshes[n]) }

  ghost predicate Inv(first: Token, s: State) {
    HistoryFits(first, s) && UsedIsRecognised(s) && ConsumedIsUsed(s) && RefreshesFit(s)
  }

  lemma RotationKeepsHistory(first: Token, s: State, t: Token)
    requires HistoryFits(first, s) && CanRotate(s.tables.session, t, s.now)
    ensures HistoryFits(first, s.(tables := RotatedTables(s.tables, t), used := s.used + [t]))
  {
  }

  lemma RotatingKeeps(first: Token, s: State, n: nat)
    requires Inv(first, s) && Enabled(s, Rotate(n))
    ensures Inv(first, Next(s, Rotate(n)))
  {
    var r, next := s.refreshes[n], Next(s, Rotate(n));
    assert RefreshFits(s, r);
    if CanRotate(s.tables.session, r.token, s.now) {
      RotationKeepsHistory(first, s, r.token);
      forall t | t in next.used ensures IsReplay(next.tables, t) {
        if t in s.used { assert IsReplay(s.tables, t); }
      }
    }
    forall m | m in next.refreshes ensures RefreshFits(next, next.refreshes[m]) {
      if m != n { assert RefreshFits(s, s.refreshes[m]); }
    }
  }

  lemma RevokingKeeps(first: Token, s: State, n: nat)
    requires Inv(first, s) && Enabled(s, RevokeReplay(n))
    ensures Inv(first, Next(s, RevokeReplay(n)))
  {
    assert RefreshFits(s, s.refreshes[n]);
    var next := Next(s, RevokeReplay(n));
    forall m | m in next.refreshes ensures RefreshFits(next, next.refreshes[m]) {
      if m != n { assert RefreshFits(s, s.refreshes[m]); }
    }
  }

  lemma StepKeeps(first: Token, s: State, step: Step)
    requires Inv(first, s) && Enabled(s, step)
    ensures Inv(first, Next(s, step))
  {
    match step {
      case Rotate(n) => RotatingKeeps(first, s, n);
      case RevokeReplay(n) => RevokingKeeps(first, s, n);
      case Present(n, t) =>
        forall m | m in Next(s, step).refreshes ensures RefreshFits(Next(s, step), Next(s, step).refreshes[m]) {
          if m != n { assert RefreshFits(s, s.refreshes[m]); }
        }
      case LogOut(t) =>
        forall m | m in s.refreshes ensures RefreshFits(Next(s, step), s.refreshes[m]) {
          assert RefreshFits(s, s.refreshes[m]);
        }
      case Tick(now) =>
        forall m | m in s.refreshes ensures RefreshFits(Next(s, step), s.refreshes[m]) {
          assert RefreshFits(s, s.refreshes[m]);
        }
      case Stop(n) =>
        forall m | m in Next(s, step).refreshes ensures RefreshFits(Next(s, step), s.refreshes[m]) {
          assert RefreshFits(s, s.refreshes[m]);
        }
    }
  }

  lemma {:induction false} RunsKeepInv(start: State, steps: seq<Step>)
    requires IsRun(start, steps)
    ensures Inv(start.tables.session.token, After(start, steps).value)
    decreases |steps|
  {
    if steps != [] {
      RunsKeepInv(start, steps[..|steps| - 1]);
      StepKeeps(start.tables.session.token, After(start, steps[..|steps| - 1]).value, steps[|steps| - 1]);
    }
  }

  // Over every run.

  /** The sequence never goes back, and a revoked session stays revoked. */
  lemma {:induction false} SessionsOnlyMoveOn(start: State, steps: seq<Step>, k: nat)
    requires IsRun(start, steps) && k <= |steps|
    ensures After(start, steps[..k]).Some?
    ensures var earlier, later := After(start, steps[..k]).value.tables.session,
              After(start, steps).value.tables.session;
      earlier.sequence <= later.sequence && (earlier.revoked ==> later.revoked && later.sequence == earlier.sequence)
    decreases |steps|
  {
    if k == |steps| {
      assert steps[..k] == steps;
    } else {
      var before := steps[..|steps| - 1];
      assert before[..k] == steps[..k];
      SessionsOnlyMoveOn(start, before, k);
      RunsKeepInv(start, before);
    }
  }

  /** The rotated tokens are exactly the tokens issued for the sequences passed, each rotated once. */
  lemma EverySequenceRotatesOnce(start: State, steps: seq<Step>)
    requires IsRun(start, steps)
    ensures var s, first := After(start, steps).value, start.tables.session.token;
      && |s.used| == s.tables.session.sequence - start.tables.session.sequence
      && (forall i :: 0 <= i < |s.used| ==>
           s.used[i] == Issued(first, i) && ExpectedSequence(s.used[i]) == start.tables.session.sequence + i)
      && Distinct(s.used)
  {
    RunsKeepInv(start, steps);
  }

  /** A refresh that is refused although its token has been rotated by then leaves the session revoked. */
  lemma ReplaysEndInRevocation(start: State, steps: seq<Step>, n: nat)
    requires IsRun(start, steps) && n in After(start, steps).value.refreshes
    requires After(start, steps).value.refreshes[n].Refused? && After(start, steps).value.refreshes[n].used
    ensures After(start, steps).value.tables.session.revoked
  {
    RunsKeepInv(start, steps);
    assert RefreshFits(After(start, steps).value, After(start, steps).value.refreshes[n]);
  }

  /** In particular if the token had been rotated before it was presented: until then it counts as rotated. */
  lemma PresentedReplaysStayReplays(start: State, steps: seq<Step>, n: nat)
    requires IsRun(start, steps) && n in After(start, steps).value.refreshes
    requires var r := After(start, steps).value.refreshes[n]; (r.Presented? || r.Failed?) && r.used
    ensures After(start, steps).value.refreshes[n].token in After(start, steps).value.used
  {
    RunsKeepInv(start, steps);
    assert RefreshFits(After(start, steps).value, After(start, steps).value.refreshes[n]);
  }

  /** Of the tokens that were ever issued, exactly the rotated ones count as replays; the current one never does. */
  lemma OnlyRotatedTokensAreReplays(start: State, steps: seq<Step>, i: nat)
    requires IsRun(start, steps) && !After(start, steps).value.tables.session.revoked
    requires i <= |After(start, steps).value.used|
    ensures var s := After(start, steps).value;
      IsReplay(s.tables, Issued(start.tables.session.token, i)) <==> Issued(start.tables.session.token, i) in s.used
    ensures var s := After(start, steps).value;
      Issued(start.tables.session.token, i) in s.used <==> i < |s.used|
  {
    RunsKeepInv(start, steps);
    var s, t := After(start, steps).value, Issued(start.tables.session.token, i);
    if i < |s.used| {
      assert s.used[i] == t;
    } else {
      forall j | 0 <= j < |s.used| ensures s.used[j] != t {
        assert ExpectedSequence(s.used[j]) == ExpectedSequence(start.tables.session.token) + j;
        assert ExpectedSequence(t) == ExpectedSequence(start.tables.session.token) + i;
      }
    }
  }

  /** Logging out with any token issued so far, the newest included, leaves the session revoked. */
  lemma LoggingOutRevokes(start: State, steps: seq<Step>, i: nat)
    requires IsRun(start, steps) && i <= |After(start, steps).value.used|
    ensures Next(After(start, steps).value, LogOut(Issued(start.tables.session.token, i))).tables.session.revoked
  {
    RunsKeepInv(start, steps);
    var s := After(start, steps).value;
    if i < |s.used| { assert s.used[i] in s.used; }
  }

  /** A token that is still to be issued does nothing, nor does one without a sequence that was never issued. */
  lemma UnknownTokensLogNobodyOut(start: State, steps: seq<Step>, t: Token)
    requires IsRun(start, steps)
    requires match t
             case Versioned(n) => After(start, steps).value.tables.session.sequence < n
             case Legacy(_) => forall i: nat :: Issued(start.tables.session.token, i) != t
    ensures Next(After(start, steps).value, LogOut(t)) == After(start, steps).value
  {
    RunsKeepInv(start, steps);
    var s, first := After(start, steps).value, start.tables.session.token;
    assert Issued(first, |s.used|) == s.tables.session.token;
    forall i | 0 <= i < |s.used| ensures s.used[i] == Issued(first, i) {}
    assert t.Legacy? ==> t !in s.used;
  }

  /** Whoever presents the newest token in time, and is not overtaken, gets the next one. */
  lemma CurrentTokenRotates(start: State, steps: seq<Step>, n: nat)
    requires IsRun(start, steps)
    requires var s := After(start, steps).value;
      && n in s.refreshes && s.refreshes[n].Presented?
           && s.refreshes[n].token == Issued(start.tables.session.token, |s.used|)
      && !s.tables.session.revoked && s.now < s.tables.session.expiresAt
    ensures var s, next := After(start, steps).value, Next(After(start, steps).value, Rotate(n));
      && next.refreshes[n] == Rotated(s.tables.session.sequence + 1)
      && next.tables.session.token == Versioned(s.tables.session.sequence + 1)
           && next.tables.session.sequence == s.tables.session.sequence + 1
  {
    RunsKeepInv(start, steps);
  }
}
