/** Revoking the access of removed project members: until when a key stays revoked, whatever the order of events. */
module MemberRevocation {

  import opened Wrappers
  import opened Uml

  type Key = string

  /** The revocation tells removals of the same member apart. */
  datatype Eviction = Eviction(key: Key, userId: Id, revocation: nat)

  datatype Pending = Pending(key: Key, documentIds: set<Id>)

  type Evictions = map<Key, Eviction>

  /** The gateway's fields that concern revocation. */
  datatype Revocations = Revocations(
    revoked: map<Key, nat>, pending: map<nat, Pending>, evictions: map<Id, Evictions>, issued: nat)

  const NONE_REVOKED := Revocations(map[], map[], map[], 0)

  // Granting and removing.

  function WithoutPrevious(r: Revocations, key: Key): map<nat, Pending> {
    if key in r.revoked then r.pending - {r.revoked[key]} else r.pending
  }

  function Granted(r: Revocations, key: Key): Revocations {
    r.(pending := WithoutPrevious(r, key), revoked := r.revoked - {key})
  }

  function EvictionsAt(evictions: map<Id, Evictions>, id: Id): Evictions {
    if id in evictions then evictions[id] else map[]
  }

  /** A removal first cancels what an earlier one left, as granting does. */
  function Removed(r: Revocations, key: Key, userId: Id, documentIds: set<Id>): Revocations {
    Listed(Granted(r, key), key, userId, documentIds)
  }

  function Listed(r: Revocations, key: Key, userId: Id, documentIds: set<Id>): Revocations {
    if documentIds == {} then r.(issued := r.issued + 1)
    else
      Revocations(r.revoked[key := r.issued], r.pending[r.issued := Pending(key, documentIds)],
                  WithEvictions(r.evictions, Eviction(key, userId, r.issued), documentIds), r.issued + 1)
  }

  function WithEvictions(evictions: map<Id, Evictions>, e: Eviction, documentIds: set<Id>): (all: map<Id, Evictions>)
    ensures forall id :: EvictionsAt(all, id) == if id in documentIds then EvictionsAt(evictions, id)[e.key := e]
              else EvictionsAt(evictions, id)
    ensures forall id :: id in all ==> id in evictions || id in documentIds
  {
    map id | id in evictions.Keys + documentIds ::
      if id in documentIds then EvictionsAt(evictions, id)[e.key := e] else evictions[id]
  }

  lemma WithNoEvictions(evictions: map<Id, Evictions>, e: Eviction)
    ensures WithEvictions(evictions, e, {}) == evictions
  {
  }

  lemma WithOneMore(evictions: map<Id, Evictions>, e: Eviction, documentIds: set<Id>, id: Id)
    requires id !in documentIds
    ensures var some := WithEvictions(evictions, e, documentIds);
      WithEvictions(evictions, e, documentIds + {id}) == some[id := EvictionsAt(some, id)[e.key := e]]
  {
  }

  // Processing a document.

  function Taken(r: Revocations, id: Id): Revocations { r.(evictions := r.evictions - {id}) }

  /** One eviction completed for one document. */
  function CompletedOne(r: Revocations, id: Id, e: Eviction): Revocations {
    if e.revocation !in r.pending then r
    else
      var p := r.pending[e.revocation];
      var rest := p.documentIds - {id};
      if rest != {} then r.(pending := r.pending[e.revocation := p.(documentIds := rest)])
      else
        r.(pending := r.pending - {e.revocation},
           revoked := if p.key in r.revoked && r.revoked[p.key] == e.revocation then r.revoked - {p.key} else r.revoked)
  }

  /** All of them, in the order in which they were remembered. */
  function Completed(r: Revocations, id: Id, taken: seq<Eviction>): Revocations
    decreases |taken|
  {
    if taken == [] then r else CompletedOne(Completed(r, id, taken[..|taken| - 1]), id, taken[|taken| - 1])
  }

  // Runs, with their history.

  datatype Change = WasGranted | WasRemoved(revocation: nat)

  /** The latest change of each key, what each removal listed, and the pairs processed. */
  datatype History = History(latest: map<Key, Change>, listed: map<nat, Pending>, processed: set<(nat, Id)>)

  /** Evictions in flight have been taken by the critical work of their document. */
  datatype State = State(now: Revocations, inFlight: map<Id, seq<Eviction>>, history: History)

  const START := State(NONE_REVOKED, map[], History(map[], map[], {}))

  datatype Step =
    | Grants(key: Key)
    | Removes(key: Key, userId: Id, documentIds: set<Id>)
    | Takes(id: Id, taken: seq<Eviction>)
    | Completes(id: Id)

  /** The remembered evictions in some order, each once. */
  ghost predicate Lists(taken: seq<Eviction>, evictions: Evictions) {
    forall e :: e in taken <==> e.key in evictions && evictions[e.key] == e
  }

  ghost predicate Enabled(s: State, step: Step) {
    match step
    case Grants(_) => true
    case Removes(_, _, _) => true
    case Takes(id, taken) => id !in s.inFlight && Lists(taken, EvictionsAt(s.now.evictions, id))
    case Completes(id) => id in s.inFlight
  }

  function OneCompleted(s: State, id: Id, e: Eviction): State {
    s.(now := CompletedOne(s.now, id, e),
        history := s.history.(processed := s.history.processed + {(e.revocation, id)}))
  }

  /** The evictions are completed in the order in which they were remembered. */
  function AllCompleted(s: State, id: Id, taken: seq<Eviction>): State
    decreases |taken|
  {
    if taken == [] then s else OneCompleted(AllCompleted(s, id, taken[..|taken| - 1]), id, taken[|taken| - 1])
  }

  function RemovalListed(s: State, key: Key, userId: Id, documentIds: set<Id>): State {
    s.(now := Listed(s.now, key, userId, documentIds),
       history := s.history.(latest := s.history.latest[key := WasRemoved(s.now.issued)],
                             listed := s.history.listed[s.now.issued := Pending(key, documentIds)]))
  }

  function AccessGranted(s: State, key: Key): State {
    s.(now := Granted(s.now, key), history := s.history.(latest := s.history.latest[key := WasGranted]))
  }

  function Next(s: State, step: Step): State {
    match step
    case Grants(key) => AccessGranted(s, key)
    case Removes(key, userId, documentIds) => RemovalListed(AccessGranted(s, key), key, userId, documentIds)
    case Takes(id, taken) => s.(now := Taken(s.now, id), inFlight := s.inFlight[id := taken])
    case Completes(id) =>
      if id !in s.inFlight then s else AllCompleted(s, id, s.inFlight[id]).(inFlight := s.inFlight - {id})
  }

  // What every step keeps.

  /** The documents of a removal that are still to be processed. */
  function Remaining(h: History, revocation: nat): set<Id> {
    if revocation in h.listed then set id | id in h.listed[revocation].documentIds
        && (revocation, id) !in h.processed else {}
  }

  /** Revoked keys and pending removals correspond to each other. */
  ghost predicate Paired(r: Revocations) {
    && (forall key :: key in r.revoked ==> r.revoked[key] in r.pending && r.pending[r.revoked[key]].key == key)
    && (forall n :: n in r.pending ==> r.pending[n].key in r.revoked && r.revoked[r.pending[n].key] == n)
    && (forall n :: n in r.pending ==> n < r.issued && r.pending[n].documentIds != {})
  }

  ghost predicate EvictionFits(s: State, e: Eviction) {
    e.revocation < s.now.issued && (e.revocation in s.now.pending ==> s.now.pending[e.revocation].key == e.key)
  }

  ghost predicate RememberedFit(s: State, id: Id) {
    forall key :: key in EvictionsAt(s.now.evictions, id) ==>
      EvictionsAt(s.now.evictions, id)[key].key == key && EvictionFits(s, EvictionsAt(s.now.evictions, id)[key])
  }

  ghost predicate FlightFits(s: State, id: Id) {
    id in s.inFlight ==> forall e :: e in s.inFlight[id] ==> EvictionFits(s, e)
  }

  ghost predicate EvictionsFit(s: State) { (forall id :: RememberedFit(s, id)) && forall id :: FlightFits(s, id) }

  ghost predicate PendingFits(s: State, n: nat) {
    n in s.now.pending ==>
      && n in s.history.listed && s.now.pending[n].key == s.history.listed[n].key
      && s.now.pending[n].documentIds == Remaining(s.history, n)
      && s.now.pending[n].key in s.history.latest && s.history.latest[s.now.pending[n].key] == WasRemoved(n)
  }

  ghost predicate LatestFits(s: State, key: Key) {
    key in s.history.latest && s.history.latest[key].WasRemoved? ==>
      var n := s.history.latest[key].revocation;
      && n in s.history.listed && s.history.listed[n].key == key
      && (n !in s.now.pending ==> Remaining(s.history, n) == {})
  }

  ghost predicate HistoryFits(s: State) {
    && (forall n: nat :: n in s.history.listed <==> n < s.now.issued)
    && (forall p :: p in s.history.processed ==> p.0 < s.now.issued)
    && (forall n :: PendingFits(s, n)) && (forall key :: LatestFits(s, key))
  }

  ghost predicate Remembered(s: State, revocation: nat, key: Key, id: Id) {
    key in EvictionsAt(s.now.evictions, id) && EvictionsAt(s.now.evictions, id)[key].revocation == revocation
  }

  ghost predicate InFlight(s: State, revocation: nat, id: Id) {
    id in s.inFlight && exists e :: e in s.inFlight[id] && e.revocation == revocation
  }

  /** No document is waited for in vain. */
  ghost predicate Progresses(s: State) {
    forall n, id :: n in s.now.pending && id in s.now.pending[n].documentIds ==>
      Remembered(s, n, s.now.pending[n].key, id) || InFlight(s, n, id)
  }

  ghost predicate Inv(s: State) { Paired(s.now) && EvictionsFit(s) && HistoryFits(s) && Progresses(s) }

  lemma RevokedWhileRemaining(s: State, key: Key)
    requires Inv(s)
    ensures key in s.now.revoked <==> StillRevoked(s.history, key)
  {
    if key in s.now.revoked {
      var n := s.now.revoked[key];
      assert n in s.now.pending && s.now.pending[n].key == key && PendingFits(s, n);
    }
    assert LatestFits(s, key);
    if key in s.history.latest && s.history.latest[key].WasRemoved? {
      assert PendingFits(s, s.history.latest[key].revocation);
    }
  }

  // Granting.

  lemma GrantKeepsPairs(s: State, key: Key)
    requires Inv(s)
    ensures Paired(AccessGranted(s, key).now)
  {
  }

  lemma GrantKeepsEvictions(s: State, key: Key)
    requires Inv(s)
    ensures EvictionsFit(AccessGranted(s, key))
  {
    forall id ensures RememberedFit(AccessGranted(s, key), id) { assert RememberedFit(s, id); }
    forall id ensures FlightFits(AccessGranted(s, key), id) { assert FlightFits(s, id); }
  }

  lemma GrantKeepsHistory(s: State, key: Key)
    requires Inv(s)
    ensures HistoryFits(AccessGranted(s, key))
  {
    var next := AccessGranted(s, key);
    forall n ensures PendingFits(next, n) { assert PendingFits(s, n); }
    forall other ensures LatestFits(next, other) {
      assert LatestFits(s, other);
      if key in s.now.revoked { assert PendingFits(s, s.now.revoked[key]); }
    }
  }

  lemma GrantKeeps(s: State, key: Key)
    requires Inv(s)
    ensures Inv(AccessGranted(s, key)) && key !in AccessGranted(s, key).now.revoked
  {
    GrantKeepsPairs(s, key);
    GrantKeepsEvictions(s, key);
    GrantKeepsHistory(s, key);
  }

  // Listing a removal.

  lemma ListingKeepsPairs(s: State, key: Key, userId: Id, documentIds: set<Id>)
    requires Inv(s) && key !in s.now.revoked
    ensures Paired(RemovalListed(s, key, userId, documentIds).now)
  {
  }

  lemma ListingKeepsEvictions(s: State, key: Key, userId: Id, documentIds: set<Id>)
    requires Inv(s) && key !in s.now.revoked
    ensures EvictionsFit(RemovalListed(s, key, userId, documentIds))
  {
    var next := RemovalListed(s, key, userId, documentIds);
    forall e | EvictionFits(s, e) ensures EvictionFits(next, e) { }
    forall id ensures RememberedFit(next, id) { assert RememberedFit(s, id); }
    forall id ensures FlightFits(next, id) { assert FlightFits(s, id); }
  }

  lemma ListingKeepsRemaining(s: State, key: Key, userId: Id, documentIds: set<Id>, n: nat)
    requires Inv(s) && n < s.now.issued
    ensures Remaining(RemovalListed(s, key, userId, documentIds).history, n) == Remaining(s.history, n)
  {
  }

  lemma ListingLeavesAll(s: State, key: Key, userId: Id, documentIds: set<Id>)
    requires Inv(s)
    ensures Remaining(RemovalListed(s, key, userId, documentIds).history, s.now.issued) == documentIds
  {
    var h := RemovalListed(s, key, userId, documentIds).history;
    assert forall id :: (s.now.issued, id) !in h.processed;
  }

  lemma ListingKeepsHistory(s: State, key: Key, userId: Id, documentIds: set<Id>)
    requires Inv(s) && key !in s.now.revoked
    ensures HistoryFits(RemovalListed(s, key, userId, documentIds))
  {
    var next := RemovalListed(s, key, userId, documentIds);
    ListingLeavesAll(s, key, userId, documentIds);
    forall n ensures PendingFits(next, n) {
      assert PendingFits(s, n);
      if n in s.now.pending { ListingKeepsRemaining(s, key, userId, documentIds, n); }
    }
    forall other ensures LatestFits(next, other) {
      assert LatestFits(s, other);
      if other != key && other in s.history.latest && s.history.latest[other].WasRemoved? {
        ListingKeepsRemaining(s, key, userId, documentIds, s.history.latest[other].revocation);
      }
    }
  }

  lemma ListingKeepsProgress(s: State, key: Key, userId: Id, documentIds: set<Id>)
    requires Inv(s) && key !in s.now.revoked
    ensures Progresses(RemovalListed(s, key, userId, documentIds))
  {
    var next := RemovalListed(s, key, userId, documentIds);
    forall n, id | n in next.now.pending && id in next.now.pending[n].documentIds
      ensures Remembered(next, n, next.now.pending[n].key, id) || InFlight(next, n, id)
    {
      if n != s.now.issued {
        assert n in s.now.pending && s.now.pending[n].key != key;
        assert Remembered(s, n, s.now.pending[n].key, id) || InFlight(s, n, id);
      }
    }
  }

  lemma RemovalKeeps(s: State, key: Key, userId: Id, documentIds: set<Id>)
    requires Inv(s)
    ensures Inv(RemovalListed(AccessGranted(s, key), key, userId, documentIds))
  {
    var granted := AccessGranted(s, key);
    GrantKeeps(s, key);
    ListingKeepsPairs(granted, key, userId, documentIds);
    ListingKeepsEvictions(granted, key, userId, documentIds);
    ListingKeepsHistory(granted, key, userId, documentIds);
    ListingKeepsProgress(granted, key, userId, documentIds);
  }

  // Taking evictions.

  lemma TakingKeeps(s: State, id: Id, taken: seq<Eviction>)
    requires Inv(s) && Enabled(s, Takes(id, taken))
    ensures Inv(Next(s, Takes(id, taken)))
  {
    var next := Next(s, Takes(id, taken));
    assert next.now.pending == s.now.pending && next.now.issued == s.now.issued;
    forall other ensures RememberedFit(next, other) {
      assert RememberedFit(s, other);
      assert EvictionsAt(next.now.evictions, other) == if other == id then map[]
      else EvictionsAt(s.now.evictions, other);
    }
    assert RememberedFit(s, id);
    forall e | e in taken ensures EvictionFits(next, e) {
      var remembered := EvictionsAt(s.now.evictions, id);
      assert e.key in remembered && remembered[e.key] == e && EvictionFits(s, e);
    }
    forall other ensures FlightFits(next, other) { assert FlightFits(s, other); }
    forall n ensures PendingFits(next, n) { assert PendingFits(s, n); }
    forall key ensures LatestFits(next, key) { assert LatestFits(s, key); }
    TakingKeepsProgress(s, id, taken);
  }

  lemma TakingKeepsProgress(s: State, id: Id, taken: seq<Eviction>)
    requires Inv(s) && Enabled(s, Takes(id, taken))
    ensures Progresses(Next(s, Takes(id, taken)))
  {
    var next := Next(s, Takes(id, taken));
    forall n, other | n in next.now.pending && other in next.now.pending[n].documentIds
      ensures Remembered(next, n, next.now.pending[n].key, other) || InFlight(next, n, other)
    {
      var key := s.now.pending[n].key;
      if other == id && Remembered(s, n, key, id) {
        var e := EvictionsAt(s.now.evictions, id)[key];
        assert RememberedFit(s, id) && e.key == key && e in taken;
        assert InFlight(next, n, id);
      } else if InFlight(s, n, other) {
        assert InFlight(next, n, other);
      }
    }
  }

  // Completing evictions.

  lemma CompletingOneKeepsPairs(s: State, id: Id, e: Eviction)
    requires Inv(s)
    ensures Paired(OneCompleted(s, id, e).now)
  {
  }

  lemma CompletingOneShrinks(s: State, id: Id, e: Eviction)
    requires Inv(s)
    ensures var next := OneCompleted(s, id, e);
      && next.inFlight == s.inFlight && next.now.issued == s.now.issued && next.now.evictions == s.now.evictions
      && (forall n :: n in next.now.pending ==>
            && n in s.now.pending && next.now.pending[n].key == s.now.pending[n].key
            && next.now.pending[n].documentIds
                 == (if n == e.revocation then s.now.pending[n].documentIds - {id} else s.now.pending[n].documentIds))
  {
  }

  lemma CompletingOneKeepsRemaining(s: State, id: Id, e: Eviction, n: nat)
    ensures Remaining(OneCompleted(s, id, e).history, n) ==
            if n == e.revocation then Remaining(s.history, n) - {id} else Remaining(s.history, n)
  {
  }

  lemma CompletingOneKeepsHistory(s: State, id: Id, e: Eviction)
    requires Inv(s) && EvictionFits(s, e)
    ensures HistoryFits(OneCompleted(s, id, e))
  {
    var next := OneCompleted(s, id, e);
    CompletingOneShrinks(s, id, e);
    forall n ensures PendingFits(next, n) {
      assert PendingFits(s, n);
      CompletingOneKeepsRemaining(s, id, e, n);
    }
    forall key ensures LatestFits(next, key) {
      assert LatestFits(s, key);
      if key in s.history.latest && s.history.latest[key].WasRemoved? {
        var n := s.history.latest[key].revocation;
        assert PendingFits(s, n);
        CompletingOneKeepsRemaining(s, id, e, n);
      }
    }
  }

  lemma CompletingOneKeeps(s: State, id: Id, e: Eviction)
    requires Inv(s) && EvictionFits(s, e)
    ensures Inv(OneCompleted(s, id, e))
  {
    var next := OneCompleted(s, id, e);
    CompletingOneKeepsPairs(s, id, e);
    CompletingOneKeepsHistory(s, id, e);
    CompletingOneShrinks(s, id, e);
    forall other ensures RememberedFit(next, other) { assert RememberedFit(s, other); }
    forall other ensures FlightFits(next, other) { assert FlightFits(s, other); }
    forall n, other | n in next.now.pending && other in next.now.pending[n].documentIds
      ensures Remembered(next, n, next.now.pending[n].key, other) || InFlight(next, n, other)
    {
      assert n in s.now.pending && other in s.now.pending[n].documentIds;
    }
  }

  /** What a run completes is what the gateway completes. */
  lemma {:induction false} AllCompletedNow(s: State, id: Id, taken: seq<Eviction>)
    ensures AllCompleted(s, id, taken).now == Completed(s.now, id, taken)
    decreases |taken|
  {
    if taken != [] { AllCompletedNow(s, id, taken[..|taken| - 1]); }
  }

  lemma {:induction false} CompletingAllKeeps(s: State, id: Id, taken: seq<Eviction>)
    requires Inv(s) && forall e :: e in taken ==> EvictionFits(s, e)
    ensures Inv(AllCompleted(s, id, taken)) && AllCompleted(s, id, taken).inFlight == s.inFlight
    ensures forall e :: EvictionFits(s, e) ==> EvictionFits(AllCompleted(s, id, taken), e)
    ensures forall e :: e in taken && e.revocation in AllCompleted(s, id, taken).now.pending ==>
              id !in AllCompleted(s, id, taken).now.pending[e.revocation].documentIds
    decreases |taken|
  {
    if taken != [] {
      var init, last := taken[..|taken| - 1], taken[|taken| - 1];
      assert taken == init + [last];
      CompletingAllKeeps(s, id, init);
      var before := AllCompleted(s, id, init);
      CompletingOneKeeps(before, id, last);
      CompletingOneShrinks(before, id, last);
    }
  }

  lemma CompletionKeeps(s: State, id: Id)
    requires Inv(s) && id in s.inFlight
    ensures Inv(Next(s, Completes(id)))
  {
    var completed, next := AllCompleted(s, id, s.inFlight[id]), Next(s, Completes(id));
    assert FlightFits(s, id);
    CompletingAllKeeps(s, id, s.inFlight[id]);
    forall other ensures RememberedFit(next, other) { assert RememberedFit(completed, other); }
    forall other ensures FlightFits(next, other) { assert FlightFits(completed, other); }
    forall n ensures PendingFits(next, n) { assert PendingFits(completed, n); }
    forall key ensures LatestFits(next, key) { assert LatestFits(completed, key); }
    forall n, other | n in next.now.pending && other in next.now.pending[n].documentIds
      ensures Remembered(next, n, next.now.pending[n].key, other) || InFlight(next, n, other)
    {
      if InFlight(completed, n, other) {
        var e :| e in s.inFlight[other] && e.revocation == n;
        assert other != id;
        assert InFlight(next, n, other);
      }
    }
  }

  // Every run.

  lemma StepKeeps(s: State, step: Step)
    requires Inv(s) && Enabled(s, step)
    ensures Inv(Next(s, step))
  {
    match step {
      case Grants(key) => GrantKeeps(s, key);
      case Removes(key, userId, documentIds) => RemovalKeeps(s, key, userId, documentIds);
      case Takes(id, taken) => TakingKeeps(s, id, taken);
      case Completes(id) => CompletionKeeps(s, id);
    }
  }

  ghost function After(steps: seq<Step>): Option<State>
    decreases |steps|
  {
    if steps == [] then Some(START)
    else
      match After(steps[..|steps| - 1])
      case None => None
      case Some(s) => if Enabled(s, steps[|steps| - 1]) then Some(Next(s, steps[|steps| - 1])) else None
  }

  lemma StartIsSound()
    ensures Inv(START)
  {
    forall id ensures RememberedFit(START, id) { }
    forall id ensures FlightFits(START, id) { }
    forall n ensures PendingFits(START, n) { }
    forall key ensures LatestFits(START, key) { }
  }

  lemma {:induction false} RunsKeepInv(steps: seq<Step>)
    requires After(steps).Some?
    ensures Inv(After(steps).value)
    decreases |steps|
  {
    if steps == [] {
      StartIsSound();
    } else {
      RunsKeepInv(steps[..|steps| - 1]);
      StepKeeps(After(steps[..|steps| - 1]).value, steps[|steps| - 1]);
    }
  }

  /** When the latest removal of the member listed documents of which some are still to be processed. */
  predicate StillRevoked(h: History, key: Key) {
    key in h.latest && h.latest[key].WasRemoved? && Remaining(h, h.latest[key].revocation) != {}
  }

  /**
   In every run a removed member's key stays revoked until each document listed by the latest removal has been
   processed, or access is granted again, and not a moment longer. In particular the evictions of an older removal
   never clear a newer revocation.
   */
  lemma RevokedUntilProcessed(steps: seq<Step>, key: Key)
    requires After(steps).Some?
    ensures key in After(steps).value.now.revoked <==> StillRevoked(After(steps).value.history, key)
  {
    RunsKeepInv(steps);
    RevokedWhileRemaining(After(steps).value, key);
  }

  // Nothing is waited for in vain, and nothing is done twice.

  /** The removal listed the document, which has not been processed for it. */
  ghost predicate IsDue(s: State, e: Eviction, id: Id) {
    e.revocation in s.history.listed && id in s.history.listed[e.revocation].documentIds
        && (e.revocation, id) !in s.history.processed
  }

  ghost predicate RememberedDue(s: State, id: Id) {
    forall key :: key in EvictionsAt(s.now.evictions, id) ==>
      && IsDue(s, EvictionsAt(s.now.evictions, id)[key], id)
      && !InFlight(s, EvictionsAt(s.now.evictions, id)[key].revocation, id)
  }

  ghost predicate FlightDue(s: State, id: Id) {
    id in s.inFlight ==> forall e :: e in s.inFlight[id] ==> IsDue(s, e, id)
  }

  ghost predicate AllDue(s: State) { (forall id :: RememberedDue(s, id)) && forall id :: FlightDue(s, id) }

  lemma ListingKeepsDue(s: State, key: Key, userId: Id, documentIds: set<Id>)
    requires Inv(s) && AllDue(s)
    ensures AllDue(RemovalListed(s, key, userId, documentIds))
  {
    var next := RemovalListed(s, key, userId, documentIds);
    forall id ensures RememberedDue(next, id) {
      assert RememberedDue(s, id) && FlightFits(s, id);
      assert (s.now.issued, id) !in s.history.processed;
      forall n: nat | InFlight(next, n, id) ensures InFlight(s, n, id) && n < s.now.issued {
        var e :| e in s.inFlight[id] && e.revocation == n;
        assert EvictionFits(s, e);
      }
    }
    forall id ensures FlightDue(next, id) { assert FlightDue(s, id) && FlightFits(s, id); }
  }

  lemma GrantKeepsDue(s: State, key: Key)
    requires AllDue(s)
    ensures AllDue(AccessGranted(s, key))
  {
    forall id ensures RememberedDue(AccessGranted(s, key), id) {
      assert RememberedDue(s, id);
      assert forall n: nat :: InFlight(AccessGranted(s, key), n, id) <==> InFlight(s, n, id);
    }
    forall id ensures FlightDue(AccessGranted(s, key), id) { assert FlightDue(s, id); }
  }

  lemma TakingKeepsDue(s: State, id: Id, taken: seq<Eviction>)
    requires AllDue(s) && Enabled(s, Takes(id, taken))
    ensures AllDue(Next(s, Takes(id, taken)))
  {
    var next := Next(s, Takes(id, taken));
    forall other ensures RememberedDue(next, other) {
      assert RememberedDue(s, other);
      assert EvictionsAt(next.now.evictions, other) == if other == id then map[]
      else EvictionsAt(s.now.evictions, other);
      if other != id { assert forall n: nat :: InFlight(next, n, other) <==> InFlight(s, n, other); }
    }
    assert RememberedDue(s, id);
    forall e | e in taken ensures IsDue(next, e, id) { assert EvictionsAt(s.now.evictions, id)[e.key] == e; }
    forall other ensures FlightDue(next, other) { assert FlightDue(s, other); }
  }

  lemma {:induction false} CompletingAllProcesses(s: State, id: Id, taken: seq<Eviction>, n: nat, other: Id)
    ensures var next := AllCompleted(s, id, taken);
      && next.inFlight == s.inFlight && next.now.evictions == s.now.evictions && next.history.listed == s.history.listed
      && ((n, other) in next.history.processed <==>
            (n, other) in s.history.processed || (other == id && exists e :: e in taken && e.revocation == n))
    decreases |taken|
  {
    if taken != [] {
      var init, last := taken[..|taken| - 1], taken[|taken| - 1];
      CompletingAllProcesses(s, id, init, n, other);
      assert taken == init + [last];
    }
  }

  lemma CompletionKeepsDue(s: State, id: Id)
    requires AllDue(s) && id in s.inFlight
    ensures AllDue(Next(s, Completes(id)))
  {
    var next := Next(s, Completes(id));
    CompletingAllProcesses(s, id, s.inFlight[id], 0, id);
    forall other ensures RememberedDue(next, other) {
      assert RememberedDue(s, other);
      forall key | key in EvictionsAt(next.now.evictions, other)
        ensures var e := EvictionsAt(next.now.evictions, other)[key];
                IsDue(next, e, other) && !InFlight(next, e.revocation, other)
      {
        var e := EvictionsAt(s.now.evictions, other)[key];
        assert IsDue(s, e, other) && !InFlight(s, e.revocation, other);
        CompletingAllProcesses(s, id, s.inFlight[id], e.revocation, other);
      }
    }
    forall other ensures FlightDue(next, other) {
      assert FlightDue(s, other);
      if other in next.inFlight {
        forall e | e in next.inFlight[other] ensures IsDue(next, e, other) {
          CompletingAllProcesses(s, id, s.inFlight[id], e.revocation, other);
        }
      }
    }
  }

  lemma {:induction false} RunsKeepDue(steps: seq<Step>)
    requires After(steps).Some?
    ensures AllDue(After(steps).value)
    decreases |steps|
  {
    if steps != [] {
      var before, step := After(steps[..|steps| - 1]).value, steps[|steps| - 1];
      RunsKeepInv(steps[..|steps| - 1]);
      RunsKeepDue(steps[..|steps| - 1]);
      match step {
        case Grants(key) => GrantKeepsDue(before, key);
        case Removes(key, userId, documentIds) =>
          GrantKeeps(before, key);
          GrantKeepsDue(before, key);
          ListingKeepsDue(AccessGranted(before, key), key, userId, documentIds);
        case Takes(id, taken) => TakingKeepsDue(before, id, taken);
        case Completes(id) => CompletionKeepsDue(before, id);
      }
    } else {
      forall id ensures RememberedDue(START, id) { }
      forall id ensures FlightDue(START, id) { }
    }
  }

  /**
   While a key is revoked, the documents still to be processed are exactly those whose eviction is remembered or in
   flight: none is waited for in vain, and none is evicted again once it has been processed.
   */
  lemma RevocationsProgress(steps: seq<Step>, key: Key, id: Id)
    requires After(steps).Some? && key in After(steps).value.now.revoked
    ensures var s := After(steps).value;
      var n := s.now.revoked[key];
      id in Remaining(s.history, n) <==> Remembered(s, n, key, id) || InFlight(s, n, id)
  {
    var s := After(steps).value;
    var n := s.now.revoked[key];
    RunsKeepInv(steps);
    RunsKeepDue(steps);
    assert PendingFits(s, n) && RememberedDue(s, id) && FlightDue(s, id);
    if InFlight(s, n, id) {
      var e :| e in s.inFlight[id] && e.revocation == n;
      assert IsDue(s, e, id);
    }
    if Remembered(s, n, key, id) { assert IsDue(s, EvictionsAt(s.now.evictions, id)[key], id); }
  }
}
