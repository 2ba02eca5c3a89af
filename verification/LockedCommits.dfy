/**
 The log, the leases and the queue of a document together. Commands, replacements and the granting of leases all wait
 their turn in the queue; leases may end at any time, and so may the document, when its project is deleted.
 */
module LockedCommits {

  import opened Wrappers
  import opened Uml
  import D = DocumentLog
  import L = LockStore
  import Q = MutationQueue
  import Integrity

  /** What the log of the document is built on, and the capacity of the queue. */
  datatype Setting = Setting(ctx: D.Context, capacity: nat)

  function DocumentId(c: Setting): Id { c.ctx.diagramId }

  /** What an operation in the queue is for. A replacement remembers that no lock was in its way. */
  datatype Task =
    | CommandOf(socketId: Id, request: D.Request)
    | LeaseOf
    | ReplacementOf(expected: nat, model: Model, cleared: bool)
    | RemovalOf
    | BroadcastOf

  datatype Server = Server(
    log: D.State,
    leases: L.Leases,
    now: nat,
    queue: Q.Queue,
    lines: Q.Lines,
    tasks: map<nat, Task>)

  function Line(c: Setting, s: Server): seq<Q.Entry> { Q.LineOf(s.lines, DocumentId(c)) }

  /** The operation is in the line of the document, and what it waits for has finished. */
  ghost predicate Runs(c: Setting, s: Server, ticket: nat) {
    Q.Holds(Line(c, s), ticket) && ticket in s.tasks && Q.MayStart(s.queue.promises, ticket)
  }

  // Steps.

  datatype Step =
    | Joins(task: Task, priority: Q.Priority)
    | Leaves
    | OthersJoin(id: Id, priority: Q.Priority)
    | OthersLeave(id: Id)
    | Reads(ticket: nat)
    | Checks(ticket: nat, updatedAt: string)
    | Finishes(ticket: nat)
    | Clears(ticket: nat)
    | Replaces(ticket: nat, updatedAt: string)
    | Removes
    | Leases(op: L.Operation, ticket: nat)
    | Tick(now: nat)

  /** Taking and renewing leases of the document; everything else can only end them. */
  predicate Grants(c: Setting, op: L.Operation) {
    match op
    case Acquire(request, _, _) => request.documentId == DocumentId(c)
    case Renew(request, _, _) => request.documentId == DocumentId(c)
    case _ => false
  }

  /** Another socket has a live lease on an element the command affects. */
  ghost predicate IsLocked(c: Setting, s: Server, socketId: Id, d: Diagram, command: Command) {
    && c.ctx.affected(d, command).Some?
    && L.OwnedByAnother(L.Live(s.leases, DocumentId(c), s.now), DocumentId(c), c.ctx.affected(d, command).value,
         socketId)
  }

  /** Some element of the document has a live lease. */
  ghost predicate HasLease(c: Setting, s: Server, elementIds: set<Id>) {
    exists e :: e in elementIds && (DocumentId(c), e) in L.Live(s.leases, DocumentId(c), s.now)
  }

  ghost predicate FoundLocked(c: Setting, s: Server, ticket: nat)
    requires ticket in s.log.attempts && s.log.attempts[ticket].Read? && ticket in s.tasks && s.tasks[ticket].CommandOf?
  {
    IsLocked(c, s, s.tasks[ticket].socketId, s.log.attempts[ticket].model.diagram, s.tasks[ticket].request.command)
  }

  ghost predicate Enabled(c: Setting, s: Server, step: Step) {
    match step
    case Joins(task, priority) =>
      |Line(c, s)| < Q.CapacityFor(c.capacity, priority) && (task.ReplacementOf? ==> !task.cleared)
    case Leaves => Line(c, s) != []
    case OthersJoin(id, priority) => id != DocumentId(c)
        && |Q.LineOf(s.lines, id)| < Q.CapacityFor(c.capacity, priority)
    case OthersLeave(id) => id != DocumentId(c) && Q.LineOf(s.lines, id) != []
    case Reads(n) => Runs(c, s, n) && s.tasks[n].CommandOf? && D.Enabled(s.log, D.Reads(n, s.tasks[n].request))
    case Checks(n, updatedAt) =>
      Runs(c, s, n) && s.tasks[n].CommandOf? && D.Enabled(s.log, D.Checks(n, false, updatedAt))
    case Finishes(n) => Runs(c, s, n) && s.tasks[n].CommandOf? && D.Enabled(s.log, D.Finishes(n))
    case Clears(n) =>
      && Runs(c, s, n) && s.tasks[n].ReplacementOf? && s.log.log.present && s.log.log.revision == s.tasks[n].expected
      && !HasLease(c, s, ElementIds(s.log.log.model.diagram))
    case Replaces(n, updatedAt) => Runs(c, s, n) && s.tasks[n].ReplacementOf? && s.tasks[n].cleared
        && Integrity.XmlSafe(updatedAt)
    case Removes => s.log.log.present
    case Leases(op, n) => Grants(c, op) ==> Runs(c, s, n) && s.tasks[n].LeaseOf?
    case Tick(now) => s.now <= now
  }

  function Joined(c: Setting, s: Server, task: Task, priority: Q.Priority): Server {
    s.(queue := Q.Enqueued(s.queue, DocumentId(c)),
       lines := s.lines[DocumentId(c) := Line(c, s) + [Q.Entry(s.queue.issued, priority)]],
       tasks := s.tasks[s.queue.issued := task])
  }

  /** The operation at the head has ended, whatever it has come to. */
  function HeadLeft(c: Setting, s: Server): Server
    requires Line(c, s) != []
  {
    var ticket := Line(c, s)[0].ticket;
    s.(queue := Q.Finished(s.queue, DocumentId(c), ticket), lines := s.lines[DocumentId(c) := Line(c, s)[1..]],
       tasks := s.tasks - {ticket}, log := s.log.(attempts := s.log.attempts - {ticket}))
  }

  ghost function Logged(c: Setting, s: Server, step: D.Step): Server
    requires D.Enabled(s.log, step)
  {
    s.(log := D.Next(c.ctx, s.log, step))
  }

  ghost function Next(c: Setting, s: Server, step: Step): Server
    requires Enabled(c, s, step)
  {
    match step
    case Joins(task, priority) => Joined(c, s, task, priority)
    case Leaves => HeadLeft(c, s)
    case OthersJoin(id, priority) =>
      s.(queue := Q.Enqueued(s.queue, id),
          lines := s.lines[id := Q.LineOf(s.lines, id) + [Q.Entry(s.queue.issued, priority)]])
    case OthersLeave(id) =>
      s.(queue := Q.Finished(s.queue, id, Q.LineOf(s.lines, id)[0].ticket),
          lines := s.lines[id := Q.LineOf(s.lines, id)[1..]])
    case Reads(n) => Logged(c, s, D.Reads(n, s.tasks[n].request))
    case Checks(n, updatedAt) => Logged(c, s, D.Checks(n, FoundLocked(c, s, n), updatedAt))
    case Finishes(n) => Logged(c, s, D.Finishes(n))
    case Clears(n) => s.(tasks := s.tasks[n := s.tasks[n].(cleared := true)])
    case Replaces(n, updatedAt) => Logged(c, s, D.Replaces(s.tasks[n].expected, s.tasks[n].model, updatedAt))
    case Removes => Logged(c, s, D.Removes)
    case Leases(op, _) => s.(leases := L.Apply(s.leases, op, s.now))
    case Tick(now) => s.(now := now)
  }

  ghost predicate IsStart(c: Setting, s: Server) {
    && D.IgnoresMetadata(c.ctx) && D.IsStart(c.ctx, s.log) && s.leases == map[] && s.tasks == map[]
    && s.queue == Q.Queue(map[], map[], Q.Promises(map[], {}), 0) && s.lines == map[]
  }

  // What every step keeps.

  ghost predicate IsHead(c: Setting, s: Server, ticket: nat) { Line(c, s) != [] && Line(c, s)[0].ticket == ticket }

  ghost predicate QueueFits(c: Setting, s: Server) {
    Q.Sound(c.capacity, s.queue, s.lines) && forall n :: n in s.tasks ==> Q.Holds(Line(c, s), n)
  }

  /** Only the command at the head of the line is under way. */
  ghost predicate AttemptRuns(c: Setting, s: Server, n: nat) {
    IsHead(c, s, n) && n in s.tasks && s.tasks[n].CommandOf? && n in s.log.attempts
        && s.log.attempts[n].request == s.tasks[n].request
  }

  ghost predicate AttemptsRun(c: Setting, s: Server) { forall n :: n in s.log.attempts ==> AttemptRuns(c, s, n) }

  /** A command that has passed its lock check is still not in the way of anyone. */
  ghost predicate Unlocked(c: Setting, s: Server, n: nat) {
    n in s.log.attempts && s.log.attempts[n].Ready? && n in s.tasks && s.tasks[n].CommandOf? && s.log.log.present ==>
      var request := s.log.attempts[n].request;
      && request.base in s.log.log.revisions
      && c.ctx.affected(s.log.log.revisions[request.base].diagram, request.command).Some?
      && !IsLocked(c, s, s.tasks[n].socketId, s.log.log.revisions[request.base].diagram, request.command)
  }

  ghost predicate AllUnlocked(c: Setting, s: Server) { forall n :: n in s.log.attempts ==> Unlocked(c, s, n) }

  /** The same for a replacement that has been cleared, as long as it can still succeed. */
  ghost predicate StillClear(c: Setting, s: Server, n: nat) {
    n in s.tasks && s.tasks[n].ReplacementOf? && s.tasks[n].cleared ==>
      && IsHead(c, s, n) && s.tasks[n].expected <= s.log.log.revision
      && (s.log.log.present && s.log.log.revision == s.tasks[n].expected ==>
            !HasLease(c, s, ElementIds(s.log.log.model.diagram)))
  }

  ghost predicate AllClear(c: Setting, s: Server) { forall n :: n in s.tasks ==> StillClear(c, s, n) }

  ghost predicate Inv(c: Setting, s: Server) {
    D.Inv(c.ctx, s.log) && QueueFits(c, s) && AttemptsRun(c, s) && AllUnlocked(c, s) && AllClear(c, s)
  }

  /** Of the operations of the document only the one at the head may run. */
  lemma RunningIsTheHead(c: Setting, s: Server, n: nat)
    requires QueueFits(c, s) && Runs(c, s, n)
    ensures IsHead(c, s, n)
  {
    var line := Line(c, s);
    assert Q.InOrder(c.capacity, s.queue, s.lines, DocumentId(c));
    var e :| e in line && e.ticket == n;
    var i :| 0 <= i < |line| && line[i] == e;
    Q.OnlyTheHeadMayStart(s.queue.promises, line, i);
  }

  /** No command is under way but the one that runs. */
  lemma NobodyElseRuns(c: Setting, s: Server, n: nat)
    requires QueueFits(c, s) && AttemptsRun(c, s) && Runs(c, s, n)
    ensures forall m :: m in s.log.attempts ==> m == n
  {
    RunningIsTheHead(c, s, n);
    forall m | m in s.log.attempts ensures m == n { assert AttemptRuns(c, s, m); }
  }

  /** While something else than a command runs, none is under way. */
  lemma NoCommandRuns(c: Setting, s: Server, n: nat)
    requires QueueFits(c, s) && AttemptsRun(c, s) && Runs(c, s, n) && !s.tasks[n].CommandOf?
    ensures s.log.attempts == map[]
  {
    NobodyElseRuns(c, s, n);
    assert n in s.log.attempts ==> AttemptRuns(c, s, n);
  }

  // Leases.

  /** No element of the document has a live lease that it did not have. */
  ghost predicate FewerLeases(c: Setting, s: Server, next: Server) {
    forall e :: (DocumentId(c), e) in L.Live(next.leases, DocumentId(c), next.now) ==>
      && (DocumentId(c), e) in L.Live(s.leases, DocumentId(c), s.now)
      && L.Live(s.leases, DocumentId(c), s.now)[(DocumentId(c), e)].socketId
           == L.Live(next.leases, DocumentId(c), next.now)[(DocumentId(c), e)].socketId
  }

  lemma OperationsEndLeases(c: Setting, s: Server, op: L.Operation)
    requires !Grants(c, op)
    ensures FewerLeases(c, s, s.(leases := L.Apply(s.leases, op, s.now)))
  {
  }

  lemma TimeEndsLeases(c: Setting, s: Server, now: nat)
    requires s.now <= now
    ensures FewerLeases(c, s, s.(now := now))
  {
  }

  lemma FewerLeasesStayUnlocked(c: Setting, s: Server, next: Server)
    requires FewerLeases(c, s, next) && AllUnlocked(c, s) && AllClear(c, s)
    requires next == s.(leases := next.leases, now := next.now)
    ensures AllUnlocked(c, next) && AllClear(c, next)
  {
    forall n | n in next.log.attempts ensures Unlocked(c, next, n) { assert Unlocked(c, s, n); }
    forall n | n in next.tasks ensures StillClear(c, next, n) { assert StillClear(c, s, n); }
  }

  lemma LeasingKeeps(c: Setting, s: Server, op: L.Operation, n: nat)
    requires Inv(c, s) && Enabled(c, s, Leases(op, n))
    ensures Inv(c, Next(c, s, Leases(op, n)))
  {
    var next := Next(c, s, Leases(op, n));
    forall m | m in next.log.attempts ensures AttemptRuns(c, next, m) { assert AttemptRuns(c, s, m); }
    if Grants(c, op) {
      RunningIsTheHead(c, s, n);
      NoCommandRuns(c, s, n);
      forall m | m in next.tasks ensures StillClear(c, next, m) { assert StillClear(c, s, m); }
    } else {
      OperationsEndLeases(c, s, op);
      FewerLeasesStayUnlocked(c, s, next);
    }
  }

  lemma TickingKeeps(c: Setting, s: Server, now: nat)
    requires Inv(c, s) && s.now <= now
    ensures Inv(c, Next(c, s, Tick(now)))
  {
    var next := Next(c, s, Tick(now));
    forall m | m in next.log.attempts ensures AttemptRuns(c, next, m) { assert AttemptRuns(c, s, m); }
    TimeEndsLeases(c, s, now);
    FewerLeasesStayUnlocked(c, s, next);
  }

  // The queue.

  lemma JoiningKeeps(c: Setting, s: Server, task: Task, priority: Q.Priority)
    requires Inv(c, s) && Enabled(c, s, Joins(task, priority))
    ensures Inv(c, Next(c, s, Joins(task, priority)))
  {
    var next, e := Next(c, s, Joins(task, priority)), Q.Entry(s.queue.issued, priority);
    Q.EnqueueKeepsSound(c.capacity, s.queue, s.lines, DocumentId(c), e);
    Q.IssuedIsNowhere(c.capacity, s.queue, s.lines, DocumentId(c));
    forall n | n in next.tasks ensures Q.Holds(Line(c, next), n) { Q.HoldsAppended(Line(c, s), e, n); }
    forall n | n in next.log.attempts ensures AttemptRuns(c, next, n) && Unlocked(c, next, n) {
      assert AttemptRuns(c, s, n) && Unlocked(c, s, n);
    }
    forall n | n in next.tasks ensures StillClear(c, next, n) {
      if n != s.queue.issued { assert StillClear(c, s, n); }
    }
  }

  lemma HoldsLess(line: seq<Q.Entry>, n: nat)
    requires line != [] && Q.Holds(line, n) && n != line[0].ticket
    ensures Q.Holds(line[1..], n)
  {
    var e :| e in line && e.ticket == n;
    assert line == [line[0]] + line[1..];
  }

  lemma LeavingKeeps(c: Setting, s: Server)
    requires Inv(c, s) && Line(c, s) != []
    ensures Inv(c, Next(c, s, Leaves))
  {
    var next, head := Next(c, s, Leaves), Line(c, s)[0].ticket;
    Q.FinishKeepsSound(c.capacity, s.queue, s.lines, DocumentId(c));
    assert Q.InOrder(c.capacity, s.queue, s.lines, DocumentId(c));
    forall n | n in next.tasks ensures Q.Holds(Line(c, next), n) && StillClear(c, next, n) {
      HoldsLess(Line(c, s), n);
      assert StillClear(c, s, n);
    }
    forall n | n in s.log.attempts ensures n == head { assert AttemptRuns(c, s, n); }
    D.StepKeeps(c.ctx, s.log, D.Stops(head));
  }

  lemma OthersKeep(c: Setting, s: Server, next: Server)
    requires Inv(c, s) && Q.Sound(c.capacity, next.queue, next.lines) && Line(c, next) == Line(c, s)
    requires next == s.(queue := next.queue, lines := next.lines)
    ensures Inv(c, next)
  {
    forall n | n in next.log.attempts ensures AttemptRuns(c, next, n) && Unlocked(c, next, n) {
      assert AttemptRuns(c, s, n) && Unlocked(c, s, n);
    }
    forall n | n in next.tasks ensures StillClear(c, next, n) { assert StillClear(c, s, n); }
  }

  // The log.

  lemma ReadingKeeps(c: Setting, s: Server, n: nat)
    requires Inv(c, s) && Enabled(c, s, Reads(n))
    ensures Inv(c, Next(c, s, Reads(n)))
  {
    var next := Next(c, s, Reads(n));
    RunningIsTheHead(c, s, n);
    NobodyElseRuns(c, s, n);
    D.StepKeeps(c.ctx, s.log, D.Reads(n, s.tasks[n].request));
    assert AttemptRuns(c, next, n) && Unlocked(c, next, n);
    forall m | m in next.tasks ensures StillClear(c, next, m) { assert StillClear(c, s, m); }
  }

  /** Passing the check means that nobody else has a live lease on what the command affects. */
  lemma PassedIsUnlocked(c: Setting, s: Server, n: nat, updatedAt: string)
    requires Inv(c, s) && Enabled(c, s, Checks(n, updatedAt))
    ensures Unlocked(c, Next(c, s, Checks(n, updatedAt)), n)
  {
    var a := s.log.attempts[n];
    assert D.AttemptFits(c.ctx, s.log.log, a);
    assert AttemptRuns(c, s, n);
    var outcome := D.Checked(c.ctx, s.log.log, a, FoundLocked(c, s, n), updatedAt);
    if outcome.Proceeds? { assert a.revision == a.request.base && !FoundLocked(c, s, n); }
  }

  lemma CheckingKeeps(c: Setting, s: Server, n: nat, updatedAt: string)
    requires Inv(c, s) && Enabled(c, s, Checks(n, updatedAt))
    ensures Inv(c, Next(c, s, Checks(n, updatedAt)))
  {
    var next := Next(c, s, Checks(n, updatedAt));
    D.StepKeeps(c.ctx, s.log, D.Checks(n, FoundLocked(c, s, n), updatedAt));
    PassedIsUnlocked(c, s, n, updatedAt);
    assert AttemptRuns(c, s, n);
    NobodyElseRuns(c, s, n);
    forall m | m in next.log.attempts ensures AttemptRuns(c, next, m) && Unlocked(c, next, m) { assert m == n; }
    forall m | m in next.tasks ensures StillClear(c, next, m) { assert StillClear(c, s, m); }
  }

  lemma FinishingKeeps(c: Setting, s: Server, n: nat)
    requires Inv(c, s) && Enabled(c, s, Finishes(n))
    ensures Inv(c, Next(c, s, Finishes(n)))
  {
    var next := Next(c, s, Finishes(n));
    RunningIsTheHead(c, s, n);
    NobodyElseRuns(c, s, n);
    D.StepKeeps(c.ctx, s.log, D.Finishes(n));
    forall m | m in next.tasks ensures StillClear(c, next, m) { assert StillClear(c, s, m); }
  }

  lemma ClearingKeeps(c: Setting, s: Server, n: nat)
    requires Inv(c, s) && Enabled(c, s, Clears(n))
    ensures Inv(c, Next(c, s, Clears(n)))
  {
    var next := Next(c, s, Clears(n));
    RunningIsTheHead(c, s, n);
    NoCommandRuns(c, s, n);
    forall m | m in next.tasks ensures StillClear(c, next, m) {
      if m != n { assert StillClear(c, s, m); }
    }
  }

  lemma ReplacingKeeps(c: Setting, s: Server, n: nat, updatedAt: string)
    requires Inv(c, s) && Enabled(c, s, Replaces(n, updatedAt))
    ensures Inv(c, Next(c, s, Replaces(n, updatedAt)))
  {
    var next := Next(c, s, Replaces(n, updatedAt));
    D.StepKeeps(c.ctx, s.log, D.Replaces(s.tasks[n].expected, s.tasks[n].model, updatedAt));
    NoCommandRuns(c, s, n);
    RunningIsTheHead(c, s, n);
    forall m | m in next.tasks ensures StillClear(c, next, m) { assert StillClear(c, s, m); }
  }

  /** The document may go while a command or a replacement is under way, which then comes to nothing. */
  lemma RemovingKeeps(c: Setting, s: Server)
    requires Inv(c, s) && Enabled(c, s, Removes)
    ensures Inv(c, Next(c, s, Removes))
  {
    var next := Next(c, s, Removes);
    D.StepKeeps(c.ctx, s.log, D.Removes);
    forall m | m in next.log.attempts ensures AttemptRuns(c, next, m) && Unlocked(c, next, m) {
      assert AttemptRuns(c, s, m) && Unlocked(c, s, m);
    }
    forall m | m in next.tasks ensures StillClear(c, next, m) { assert StillClear(c, s, m); }
  }

  // Every run.

  lemma StepKeeps(c: Setting, s: Server, step: Step)
    requires Inv(c, s) && Enabled(c, s, step)
    ensures Inv(c, Next(c, s, step))
  {
    match step {
      case Joins(task, priority) => JoiningKeeps(c, s, task, priority);
      case Leaves => LeavingKeeps(c, s);
      case OthersJoin(id, priority) =>
        Q.EnqueueKeepsSound(c.capacity, s.queue, s.lines, id, Q.Entry(s.queue.issued, priority));
        OthersKeep(c, s, Next(c, s, step));
      case OthersLeave(id) =>
        Q.FinishKeepsSound(c.capacity, s.queue, s.lines, id);
        OthersKeep(c, s, Next(c, s, step));
      case Reads(n) => ReadingKeeps(c, s, n);
      case Checks(n, updatedAt) => CheckingKeeps(c, s, n, updatedAt);
      case Finishes(n) => FinishingKeeps(c, s, n);
      case Clears(n) => ClearingKeeps(c, s, n);
      case Replaces(n, updatedAt) => ReplacingKeeps(c, s, n, updatedAt);
      case Removes => RemovingKeeps(c, s);
      case Leases(op, n) => LeasingKeeps(c, s, op, n);
      case Tick(now) => TickingKeeps(c, s, now);
    }
  }

  ghost function After(c: Setting, start: Server, steps: seq<Step>): Option<Server>
    decreases |steps|
  {
    if steps == [] then Some(start)
    else
      match After(c, start, steps[..|steps| - 1])
      case None => None
      case Some(s) => if Enabled(c, s, steps[|steps| - 1]) then Some(Next(c, s, steps[|steps| - 1])) else None
  }

  ghost predicate IsRun(c: Setting, start: Server, steps: seq<Step>) {
    IsStart(c, start) && After(c, start, steps).Some?
  }

  lemma StartIsSound(c: Setting, s: Server)
    requires IsStart(c, s)
    ensures Inv(c, s)
  {
    D.RunsKeepInv(c.ctx, s.log, []);
    forall id ensures Q.InOrder(c.capacity, s.queue, s.lines, id) { }
  }

  lemma {:induction false} RunsKeepInv(c: Setting, start: Server, steps: seq<Step>)
    requires IsRun(c, start, steps)
    ensures Inv(c, After(c, start, steps).value)
    decreases |steps|
  {
    if steps == [] {
      StartIsSound(c, start);
    } else {
      RunsKeepInv(c, start, steps[..|steps| - 1]);
      StepKeeps(c, After(c, start, steps[..|steps| - 1]).value, steps[|steps| - 1]);
    }
  }

  ghost predicate Commits(c: Setting, s: Server, n: nat) {
    Enabled(c, s, Finishes(n)) && D.Finished(c.ctx, s.log.log, s.log.attempts[n]).Committed?
  }

  /** The lease is alive and belongs to another socket than the command. */
  predicate IsOthersLease(c: Setting, s: Server, n: nat, p: L.Place) {
    && p in s.leases && p.0 == DocumentId(c) && s.now < s.leases[p].expiresAt
    && n in s.tasks && s.tasks[n].CommandOf? && s.leases[p].socketId != s.tasks[n].socketId
  }

  lemma CommitAvoidsLeases(c: Setting, s: Server, n: nat, p: L.Place)
    requires Inv(c, s) && Commits(c, s, n) && IsOthersLease(c, s, n, p)
    ensures IsOutside(c, s.log.log, Next(c, s, Finishes(n)).log.log, s.log.attempts[n], p.1)
  {
    var a, log := s.log.attempts[n], s.log.log;
    assert D.AttemptFits(c.ctx, log, a) && AttemptRuns(c, s, n) && Unlocked(c, s, n);
    assert p == (DocumentId(c), p.1) && p in L.Live(s.leases, DocumentId(c), s.now);
  }

  /** The new snapshot is what the command makes of the one before, and the command does not affect the element. */
  ghost predicate IsOutside(c: Setting, before: D.Log, after: D.Log, a: D.Attempt, elementId: Id) {
    && a.Ready? && a.request.base in before.revisions && after.revision == a.request.base + 1
         && after.revision in after.revisions
    && a.request.base in after.revisions && after.revisions[a.request.base] == before.revisions[a.request.base]
    && c.ctx.accepts(before.revisions[a.request.base])
    && D.Produced(c.ctx, before.revisions[a.request.base], a.request.command, a.request.base, a.committedAt)
       == Some(after.revisions[after.revision])
    && c.ctx.affected(before.revisions[a.request.base].diagram, a.request.command).Some?
    && elementId !in c.ctx.affected(before.revisions[a.request.base].diagram, a.request.command).value
  }

  /**
   In every run: at the moment a command commits, no other socket has a live lease on any element that the command
   affects, although the check was made some steps before.
   */
  lemma CommitsAvoidLiveLeases(c: Setting, start: Server, steps: seq<Step>, n: nat, p: L.Place)
    requires IsRun(c, start, steps)
    requires Commits(c, After(c, start, steps).value, n) && IsOthersLease(c, After(c, start, steps).value, n, p)
    ensures var s := After(c, start, steps).value;
      IsOutside(c, s.log.log, Next(c, s, Finishes(n)).log.log, s.log.attempts[n], p.1)
  {
    RunsKeepInv(c, start, steps);
    CommitAvoidsLeases(c, After(c, start, steps).value, n, p);
  }

  /**
   In every run: a command is refused for a lock exactly when it is new, made for the revision it has found, its target
   exists, and another socket has a live lease on an element it affects.
   */
  lemma RefusedForALockExactly(c: Setting, start: Server, steps: seq<Step>, n: nat, updatedAt: string)
    requires IsRun(c, start, steps) && Enabled(c, After(c, start, steps).value, Checks(n, updatedAt))
    ensures var s := After(c, start, steps).value;
      var a := s.log.attempts[n];
      var affected := c.ctx.affected(a.model.diagram, a.request.command);
      D.Checked(c.ctx, s.log.log, a, FoundLocked(c, s, n), updatedAt).Locked? <==>
        && a.request.operationId !in s.log.log.operations && a.revision == a.request.base && affected.Some?
        && exists e :: e in affected.value && IsOthersLease(c, s, n, (DocumentId(c), e))
  {
    RunsKeepInv(c, start, steps);
    var s := After(c, start, steps).value;
    assert AttemptRuns(c, s, n);
    assert forall e :: (DocumentId(c), e) in L.Live(s.leases, DocumentId(c), s.now) <==>
                         (DocumentId(c), e) in s.leases && s.now < s.leases[(DocumentId(c), e)].expiresAt;
  }

  /** In every run: at the moment a replacement is written, no element of the document it replaces has a live lease. */
  lemma ReplacementsAvoidLiveLeases(c: Setting, start: Server, steps: seq<Step>, n: nat, updatedAt: string)
    requires IsRun(c, start, steps) && Enabled(c, After(c, start, steps).value, Replaces(n, updatedAt))
    ensures var s := After(c, start, steps).value;
      Next(c, s, Replaces(n, updatedAt)).log.log != s.log.log ==> !HasLease(c, s, ElementIds(s.log.log.model.diagram))
  {
    RunsKeepInv(c, start, steps);
    var s := After(c, start, steps).value;
    assert StillClear(c, s, n);
  }
}
