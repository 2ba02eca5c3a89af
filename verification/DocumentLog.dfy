/**
 Committing commands and replacements to the revision and operation log, with any number of attempts at the same
 time.
 */
module DocumentLog {

  import opened Wrappers
  import opened Sequences
  import opened Uml
  import Integrity

  /**
   What the log is built on: the validator, the executor and its declared effect, the fingerprint of a base and a
   command, and the ids under which the document is stored.
   */
  datatype Context = Context(
    accepts: Model -> bool, execute: (Diagram, Command) -> Option<Diagram>,
        affected: (Diagram, Command) -> Option<set<Id>>,
    fingerprint: (nat, Command) -> string, projectId: Id, diagramId: Id)

  datatype Request = Request(operationId: Id, actor: Id, base: nat, command: Command)

  datatype Row = Row(actor: Id, fingerprint: string, base: nat, resulting: nat, command: Command, committedAt: string)

  /** The tables: the document, its snapshots and its operations. Deleting the document deletes the others. */
  datatype Log = Log(present: bool, revision: nat, model: Model, revisions: map<nat, Model>, operations: map<Id, Row>)

  // Validation and normalisation.

  function Identified(ctx: Context, m: Model): Model {
    m.(project := m.project.(id := ctx.projectId), diagram := m.diagram.(id := ctx.diagramId))
  }

  function Normalized(ctx: Context, m: Model, revision: nat, updatedAt: string): Model {
    var remapped := Identified(ctx, m);
    remapped.(metadata := remapped.metadata.(revision := revision, updatedAt := updatedAt))
  }

  /** A model is checked as it comes and once more with the ids under which it is stored. */
  function ValidatedAndNormalized(ctx: Context, m: Model, revision: nat, updatedAt: string): Option<Model> {
    if ctx.accepts(m) && ctx.accepts(Identified(ctx, m)) then Some(Normalized(ctx, m, revision, updatedAt)) else None
  }

  /** Revision and time do not matter to the validator. */
  ghost predicate IgnoresMetadata(ctx: Context) {
    forall m, revision, updatedAt ::
      ctx.accepts(Identified(ctx, m)) && Integrity.XmlSafe(updatedAt) ==>
          ctx.accepts(Normalized(ctx, m, revision, updatedAt))
  }

  // An attempt at a command.

  /** The document row has been read, or the command has been applied to it and only the write is left. */
  datatype Attempt =
    | Read(request: Request, revision: nat, model: Model)
    | Ready(request: Request, next: Model, committedAt: string)

  datatype Outcome =
    | Proceeds(next: Model)
    | Committed(revision: nat)
    | Again(revision: nat)
    | Reused
    | Conflict(revision: nat)
    | Locked
    | Invalid
    | NotFound

  /** An operation id that is known answers with what it did before, to the same actor and payload only. */
  function Resolved(ctx: Context, row: Row, request: Request): Outcome {
    if row.actor != request.actor || row.fingerprint != ctx.fingerprint(request.base, request.command) then Reused
    else Again(row.resulting)
  }

  /** The result of a command on a snapshot, as it is going to be stored. */
  function Produced(ctx: Context, m: Model, command: Command, base: nat, updatedAt: string): Option<Model> {
    match ctx.execute(m.diagram, command)
    case None => None
    case Some(next) => ValidatedAndNormalized(ctx, m.(diagram := next), base + 1, updatedAt)
  }

  function Checked(ctx: Context, log: Log, a: Attempt, locked: bool, updatedAt: string): Outcome
    requires a.Read?
  {
    if a.request.operationId in log.operations then Resolved(ctx, log.operations[a.request.operationId], a.request)
    else if a.revision != a.request.base then Conflict(a.revision)
    else if ctx.affected(a.model.diagram, a.request.command).None? then Invalid
    else if locked then Locked
    else
      match Produced(ctx, a.model, a.request.command, a.request.base, updatedAt)
      case None => Invalid
      case Some(next) => Proceeds(next)
  }

  /** The write succeeds only on the revision the command was applied to; otherwise the id is looked up again. */
  function Finished(ctx: Context, log: Log, a: Attempt): Outcome
    requires a.Ready?
  {
    if log.present && log.revision == a.request.base then Committed(a.request.base + 1)
    else if a.request.operationId in log.operations then Resolved(ctx, log.operations[a.request.operationId], a.request)
    else if !log.present then NotFound
    else Conflict(log.revision)
  }

  function Stored(log: Log, next: Model): Log {
    log.(revision := log.revision + 1, model := next, revisions := log.revisions[log.revision + 1 := next])
  }

  function WithOperation(ctx: Context, log: Log, request: Request, committedAt: string): Log {
    log.(operations := log.operations[request.operationId :=
      Row(request.actor, ctx.fingerprint(request.base, request.command), request.base, request.base + 1,
          request.command, committedAt)])
  }

  // Steps.

  /** Attempts by number, and the operation ids in the order of their commits. */
  datatype State = State(log: Log, attempts: map<nat, Attempt>, commits: seq<Id>)

  datatype Step =
    | Reads(attempt: nat, request: Request)
    | Checks(attempt: nat, locked: bool, updatedAt: string)
    | Finishes(attempt: nat)
    | Replaces(expected: nat, model: Model, updatedAt: string)
    | Removes
    | Stops(attempt: nat)

  predicate Enabled(s: State, step: Step) {
    match step
    case Reads(n, _) => s.log.present && n !in s.attempts
    case Checks(n, _, updatedAt) => n in s.attempts && s.attempts[n].Read? && Integrity.XmlSafe(updatedAt)
    case Finishes(n) => n in s.attempts && s.attempts[n].Ready?
    case Replaces(_, _, updatedAt) => Integrity.XmlSafe(updatedAt)
    case Removes => s.log.present
    case Stops(_) => true
  }

  function Next(ctx: Context, s: State, step: Step): State
    requires Enabled(s, step)
  {
    match step
    case Reads(n, request) => s.(attempts := s.attempts[n := Read(request, s.log.revision, s.log.model)])
    case Checks(n, locked, updatedAt) =>
      (match Checked(ctx, s.log, s.attempts[n], locked, updatedAt)
       case Proceeds(next) => s.(attempts := s.attempts[n := Ready(s.attempts[n].request, next, updatedAt)])
       case _ => s.(attempts := s.attempts - {n}))
    case Finishes(n) =>
      var a := s.attempts[n];
      if Finished(ctx, s.log, a).Committed?
      then State(WithOperation(ctx, Stored(s.log, a.next), a.request, a.committedAt), s.attempts - {n},
          s.commits + [a.request.operationId])
      else s.(attempts := s.attempts - {n})
    case Replaces(expected, model, updatedAt) =>
      (match ValidatedAndNormalized(ctx, model, expected + 1, updatedAt)
       case None => s
       case Some(next) => if s.log.present && s.log.revision == expected then s.(log := Stored(s.log, next)) else s)
    case Removes => s.(log := s.log.(present := false, revisions := map[], operations := map[]))
    case Stops(n) => s.(attempts := s.attempts - {n})
  }

  /** The model carries the ids of the document and its revision. */
  predicate IsLabelled(ctx: Context, m: Model, revision: nat) {
    m.project.id == ctx.projectId && m.diagram.id == ctx.diagramId && m.metadata.revision == revision
  }

  /** A new document has one snapshot, well formed. */
  ghost predicate IsStart(ctx: Context, s: State) {
    && s.log.present && s.log.revision == 0 && s.log.revisions == map[0 := s.log.model] && s.log.operations == map[]
    && s.attempts == map[] && s.commits == [] && ctx.accepts(s.log.model) && IsLabelled(ctx, s.log.model, 0)
  }

  // What every step keeps.

  ghost predicate SnapshotsFit(ctx: Context, log: Log) {
    && (forall r :: r in log.revisions <==> log.present && 0 <= r <= log.revision)
    && (log.present ==> log.revisions[log.revision] == log.model)
    && (forall r :: r in log.revisions ==> ctx.accepts(log.revisions[r]) && IsLabelled(ctx, log.revisions[r], r))
  }

  /** The snapshot of an operation is what its command makes of the snapshot before. */
  ghost predicate Replays(ctx: Context, log: Log, row: Row) {
    && row.resulting == row.base + 1 && row.base in log.revisions && row.resulting in log.revisions
    && row.fingerprint == ctx.fingerprint(row.base, row.command)
    && Produced(ctx, log.revisions[row.base], row.command, row.base, row.committedAt)
         == Some(log.revisions[row.resulting])
  }

  ghost predicate OperationsFit(ctx: Context, log: Log) {
    && (forall op :: op in log.operations ==> Replays(ctx, log, log.operations[op]))
    && (forall a, b ::
          a in log.operations && b in log.operations && log.operations[a].base == log.operations[b].base ==> a == b)
  }

  /** What an attempt knows stays true for as long as its revision is the current one. */
  ghost predicate AttemptFits(ctx: Context, log: Log, a: Attempt) {
    match a
    case Read(request, revision, model) =>
      revision <= log.revision && (log.present ==> revision in log.revisions && log.revisions[revision] == model)
    case Ready(request, next, committedAt) =>
      && request.base <= log.revision && ctx.accepts(next)
      && (log.present ==>
            && request.base in log.revisions
            && Produced(ctx, log.revisions[request.base], request.command, request.base, committedAt) == Some(next)
            && (log.revision == request.base ==> request.operationId !in log.operations))
  }

  /** Every commit is recorded once; the records go only with the document. */
  ghost predicate CommitsFit(s: State) {
    Distinct(s.commits) && (s.log.present ==> forall op :: op in s.commits <==> op in s.log.operations)
  }

  ghost predicate Inv(ctx: Context, s: State) {
    && IgnoresMetadata(ctx)
    && SnapshotsFit(ctx, s.log) && OperationsFit(ctx, s.log) && CommitsFit(s)
    && forall n :: n in s.attempts ==> AttemptFits(ctx, s.log, s.attempts[n])
  }

  lemma ProducedIsAccepted(ctx: Context, m: Model, command: Command, base: nat, updatedAt: string)
    requires IgnoresMetadata(ctx) && Integrity.XmlSafe(updatedAt) && Produced(ctx, m, command, base, updatedAt).Some?
    ensures ctx.accepts(Produced(ctx, m, command, base, updatedAt).value)
  {
  }

  /** Storing a snapshot keeps the old ones. */
  lemma StoringKeepsSnapshots(ctx: Context, log: Log, next: Model)
    requires SnapshotsFit(ctx, log) && log.present && ctx.accepts(next) && IsLabelled(ctx, next, log.revision + 1)
    ensures SnapshotsFit(ctx, Stored(log, next))
    ensures forall r :: r in log.revisions ==>
              r in Stored(log, next).revisions && Stored(log, next).revisions[r] == log.revisions[r]
    ensures log.revision + 1 !in log.revisions
  {
  }

  ghost predicate Extends(log: Log, more: Log) {
    && more.present == log.present && log.revision <= more.revision
    && forall r :: r in log.revisions ==> r in more.revisions && more.revisions[r] == log.revisions[r]
  }

  lemma ReplaysStays(ctx: Context, log: Log, more: Log, row: Row)
    requires Extends(log, more) && Replays(ctx, log, row)
    ensures Replays(ctx, more, row)
  {
  }

  lemma AttemptStays(ctx: Context, log: Log, more: Log, a: Attempt)
    requires Extends(log, more) && AttemptFits(ctx, log, a)
               && (more.operations == log.operations || log.revision < more.revision)
    ensures AttemptFits(ctx, more, a)
  {
  }

  lemma ReadingKeeps(ctx: Context, s: State, n: nat, request: Request)
    requires Inv(ctx, s) && Enabled(s, Reads(n, request))
    ensures Inv(ctx, Next(ctx, s, Reads(n, request)))
  {
  }

  lemma CheckingKeeps(ctx: Context, s: State, n: nat, locked: bool, updatedAt: string)
    requires Inv(ctx, s) && Enabled(s, Checks(n, locked, updatedAt))
    ensures Inv(ctx, Next(ctx, s, Checks(n, locked, updatedAt)))
  {
    var a := s.attempts[n];
    if Checked(ctx, s.log, a, locked, updatedAt).Proceeds? {
      ProducedIsAccepted(ctx, a.model, a.request.command, a.request.base, updatedAt);
    }
  }

  lemma StoringKeeps(ctx: Context, s: State, m: Model)
    requires Inv(ctx, s) && s.log.present && ctx.accepts(m) && IsLabelled(ctx, m, s.log.revision + 1)
    ensures Inv(ctx, s.(log := Stored(s.log, m)))
  {
    var more := Stored(s.log, m);
    StoringKeepsSnapshots(ctx, s.log, m);
    forall op | op in more.operations ensures Replays(ctx, more, more.operations[op]) {
      ReplaysStays(ctx, s.log, more, s.log.operations[op]);
    }
    forall n | n in s.attempts ensures AttemptFits(ctx, more, s.attempts[n]) {
      AttemptStays(ctx, s.log, more, s.attempts[n]);
    }
  }

  lemma ReplacingKeeps(ctx: Context, s: State, expected: nat, model: Model, updatedAt: string)
    requires Inv(ctx, s) && Enabled(s, Replaces(expected, model, updatedAt))
    ensures Inv(ctx, Next(ctx, s, Replaces(expected, model, updatedAt)))
  {
    var next := ValidatedAndNormalized(ctx, model, expected + 1, updatedAt);
    if next.Some? && s.log.present && s.log.revision == expected {
      StoringKeeps(ctx, s, next.value);
    }
  }

  lemma RemovingKeeps(ctx: Context, s: State)
    requires Inv(ctx, s) && s.log.present
    ensures Inv(ctx, Next(ctx, s, Removes))
  {
  }

  lemma CommittingKeepsOperations(ctx: Context, log: Log, a: Attempt)
    requires SnapshotsFit(ctx, log) && OperationsFit(ctx, log) && a.Ready? && AttemptFits(ctx, log, a)
    requires log.present && log.revision == a.request.base
    ensures OperationsFit(ctx, WithOperation(ctx, Stored(log, a.next), a.request, a.committedAt))
  {
    var more := WithOperation(ctx, Stored(log, a.next), a.request, a.committedAt);
    StoringKeepsSnapshots(ctx, log, a.next);
    assert Replays(ctx, more, more.operations[a.request.operationId]);
    forall op | op in log.operations
        ensures Replays(ctx, more, log.operations[op]) && log.operations[op].base < log.revision {
      assert Replays(ctx, log, log.operations[op]);
      ReplaysStays(ctx, log, more, log.operations[op]);
    }
  }

  lemma CommittingKeepsAttempts(ctx: Context, log: Log, a: Attempt, other: Attempt)
    requires SnapshotsFit(ctx, log) && a.Ready? && AttemptFits(ctx, log, a) && AttemptFits(ctx, log, other)
    requires log.present && log.revision == a.request.base
    ensures AttemptFits(ctx, WithOperation(ctx, Stored(log, a.next), a.request, a.committedAt), other)
  {
    StoringKeepsSnapshots(ctx, log, a.next);
    AttemptStays(ctx, log, WithOperation(ctx, Stored(log, a.next), a.request, a.committedAt), other);
  }

  lemma CommittingKeeps(ctx: Context, s: State, n: nat)
    requires Inv(ctx, s) && Enabled(s, Finishes(n))
    ensures Inv(ctx, Next(ctx, s, Finishes(n)))
  {
    var a := s.attempts[n];
    if Finished(ctx, s.log, a).Committed? {
      var next := Next(ctx, s, Finishes(n));
      assert AttemptFits(ctx, s.log, a);
      assert SnapshotsFit(ctx, next.log) by { StoringKeepsSnapshots(ctx, s.log, a.next); }
      CommittingKeepsOperations(ctx, s.log, a);
      assert CommitsFit(next) by { DistinctAppend(s.commits, [a.request.operationId]); }
      forall m | m in next.attempts ensures AttemptFits(ctx, next.log, next.attempts[m]) {
        CommittingKeepsAttempts(ctx, s.log, a, s.attempts[m]);
      }
    }
  }

  // Every run.

  lemma StepKeeps(ctx: Context, s: State, step: Step)
    requires Inv(ctx, s) && Enabled(s, step)
    ensures Inv(ctx, Next(ctx, s, step))
  {
    match step {
      case Reads(n, request) => ReadingKeeps(ctx, s, n, request);
      case Checks(n, locked, updatedAt) => CheckingKeeps(ctx, s, n, locked, updatedAt);
      case Finishes(n) => CommittingKeeps(ctx, s, n);
      case Replaces(expected, model, updatedAt) => ReplacingKeeps(ctx, s, expected, model, updatedAt);
      case Removes => RemovingKeeps(ctx, s);
      case Stops(n) =>
    }
  }

  function After(ctx: Context, start: State, steps: seq<Step>): Option<State>
    decreases |steps|
  {
    if steps == [] then Some(start)
    else
      match After(ctx, start, steps[..|steps| - 1])
      case None => None
      case Some(s) => if Enabled(s, steps[|steps| - 1]) then Some(Next(ctx, s, steps[|steps| - 1])) else None
  }

  ghost predicate IsRun(ctx: Context, start: State, steps: seq<Step>) {
    IgnoresMetadata(ctx) && IsStart(ctx, start) && After(ctx, start, steps).Some?
  }

  lemma {:induction false} RunsKeepInv(ctx: Context, start: State, steps: seq<Step>)
    requires IsRun(ctx, start, steps)
    ensures Inv(ctx, After(ctx, start, steps).value)
    decreases |steps|
  {
    if steps != [] {
      RunsKeepInv(ctx, start, steps[..|steps| - 1]);
      StepKeeps(ctx, After(ctx, start, steps[..|steps| - 1]).value, steps[|steps| - 1]);
    }
  }

  /**
   The log has exactly the snapshots 0 to the current revision, every one accepted by the validator and labelled with
   the ids of the document and its revision; the last is the document.
   */
  lemma LogIsComplete(ctx: Context, start: State, steps: seq<Step>)
    requires IsRun(ctx, start, steps)
    ensures var log := After(ctx, start, steps).value.log;
      log.present ==>
        && (forall r: int :: r in log.revisions <==> 0 <= r <= log.revision)
        && log.revisions[log.revision] == log.model
        && (forall r :: r in log.revisions ==> ctx.accepts(log.revisions[r]) && IsLabelled(ctx, log.revisions[r], r))
  {
    RunsKeepInv(ctx, start, steps);
  }

  // What is stored.

  /** The stored model is the given one but for the ids, the revision and the time of the update. */
  predicate IsStoredForm(ctx: Context, given: Model, stored: Model, revision: nat, updatedAt: string) {
    && stored.diagram.elements == given.diagram.elements && stored.diagram.positions == given.diagram.positions
    && stored.diagram.relationships == given.diagram.relationships && stored.diagram.name == given.diagram.name
    && stored.project.name == given.project.name && stored.project.description == given.project.description
    && stored.metadata.createdAt == given.metadata.createdAt && stored.metadata.tags == given.metadata.tags
    && IsLabelled(ctx, stored, revision) && stored.metadata.updatedAt == updatedAt
  }

  /** The validator accepts the model as it comes and under the ids of the document. */
  predicate IsStorable(ctx: Context, m: Model) {
    && ctx.accepts(m)
    && ctx.accepts(Model(Project(ctx.projectId, m.project.name, m.project.description),
                         Diagram(ctx.diagramId, m.diagram.name, m.diagram.elements, m.diagram.relationships,
                                 m.diagram.positions),
                         m.metadata))
  }

  /** One snapshot is added, the model in its stored form, and it becomes the document. */
  ghost predicate Advances(ctx: Context, log: Log, next: Log, given: Model, updatedAt: string) {
    && next.present && next.revision == log.revision + 1
    && next.revision in next.revisions && next.revisions == log.revisions[next.revision := next.model]
    && IsStoredForm(ctx, given, next.model, next.revision, updatedAt)
  }

  /**
   A replacement stores the submitted model exactly when the document is there at the expected revision and the model is
   storable; otherwise it changes nothing.
   */
  lemma ReplacementsAreStored(ctx: Context, s: State, expected: nat, model: Model, updatedAt: string)
    requires Enabled(s, Replaces(expected, model, updatedAt))
    ensures var next := Next(ctx, s, Replaces(expected, model, updatedAt));
      if s.log.present && s.log.revision == expected && IsStorable(ctx, model)
      then Advances(ctx, s.log, next.log, model, updatedAt) && next == s.(log := next.log)
             && next.log.operations == s.log.operations
      else next == s
  {
  }

  /** The snapshot of an operation is the stored form of what the executor makes of the snapshot before. */
  lemma OperationsStoreTheirResult(ctx: Context, start: State, steps: seq<Step>, op: Id)
    requires IsRun(ctx, start, steps) && op in After(ctx, start, steps).value.log.operations
    ensures var log := After(ctx, start, steps).value.log;
      var row := log.operations[op];
      && row.base in log.revisions && row.base + 1 in log.revisions
      && var base := log.revisions[row.base];
         var result := ctx.execute(base.diagram, row.command);
         && result.Some? && IsStorable(ctx, base.(diagram := result.value))
         && IsStoredForm(ctx, base.(diagram := result.value), log.revisions[row.base + 1], row.base + 1,
                         row.committedAt)
  {
    RunsKeepInv(ctx, start, steps);
    assert Replays(ctx, After(ctx, start, steps).value.log, After(ctx, start, steps).value.log.operations[op]);
  }

  /** What a command needs in order to be committed. */
  predicate IsCommittable(ctx: Context, log: Log, request: Request, locked: bool) {
    && request.operationId !in log.operations && request.base == log.revision
    && ctx.affected(log.model.diagram, request.command).Some? && !locked
    && var result := ctx.execute(log.model.diagram, request.command);
       result.Some? && IsStorable(ctx, log.model.(diagram := result.value))
  }

  /** The steps of an attempt with nothing in between. */
  function Attempted(ctx: Context, s: State, n: nat, request: Request, locked: bool, updatedAt: string): State
    requires s.log.present && n !in s.attempts && Integrity.XmlSafe(updatedAt)
  {
    var checked := Next(ctx, Next(ctx, s, Reads(n, request)), Checks(n, locked, updatedAt));
    if n in checked.attempts then Next(ctx, checked, Finishes(n)) else checked
  }

  /**
   An undisturbed attempt commits exactly when the command is new, made for the current revision, not locked, and gives
   a storable model. It then adds that model and its row; otherwise the log stays as it is.
   */
  lemma UndisturbedAttemptsCommit(ctx: Context, s: State, n: nat, request: Request, locked: bool, updatedAt: string)
    requires s.log.present && n !in s.attempts && Integrity.XmlSafe(updatedAt)
    ensures var next := Attempted(ctx, s, n, request, locked, updatedAt);
      && next.attempts == s.attempts
      && if IsCommittable(ctx, s.log, request, locked)
         then
           && Advances(ctx, s.log, next.log,
                  s.log.model.(diagram := ctx.execute(s.log.model.diagram, request.command).value), updatedAt)
           && next.log.operations == s.log.operations[request.operationId :=
                Row(request.actor, ctx.fingerprint(request.base, request.command), request.base, next.log.revision,
                    request.command, updatedAt)]
           && next.commits == s.commits + [request.operationId]
         else next.log == s.log && next.commits == s.commits
  {
    var read := Next(ctx, s, Reads(n, request));
    assert read.attempts - {n} == s.attempts;
    var checked := Next(ctx, read, Checks(n, locked, updatedAt));
    if n in checked.attempts { assert checked.attempts - {n} == s.attempts; }
  }

  /** The snapshot of every operation is what its command makes of the snapshot before it. */
  lemma OperationsReplay(ctx: Context, start: State, steps: seq<Step>, op: Id)
    requires IsRun(ctx, start, steps) && op in After(ctx, start, steps).value.log.operations
    ensures var log := After(ctx, start, steps).value.log;
      var row := log.operations[op];
      && row.resulting == row.base + 1 && row.base in log.revisions && row.resulting in log.revisions
      && Produced(ctx, log.revisions[row.base], row.command, row.base, row.committedAt)
           == Some(log.revisions[row.resulting])
  {
    RunsKeepInv(ctx, start, steps);
  }

  /** However many attempts carry an operation id, at most one of them commits. */
  lemma OperationsCommitOnce(ctx: Context, start: State, steps: seq<Step>)
    requires IsRun(ctx, start, steps)
    ensures Distinct(After(ctx, start, steps).value.commits)
  {
    RunsKeepInv(ctx, start, steps);
  }

  /**
   An attempt whose write finds its revision unchanged inserts a new snapshot and a new operation: the keys of the
   log are never violated, because an operation with the same id would have moved the revision.
   */
  lemma KeysAreNeverViolated(ctx: Context, start: State, steps: seq<Step>, n: nat)
    requires IsRun(ctx, start, steps) && Enabled(After(ctx, start, steps).value, Finishes(n))
    requires Finished(ctx, After(ctx, start, steps).value.log, After(ctx, start, steps).value.attempts[n]).Committed?
    ensures var s := After(ctx, start, steps).value;
      s.attempts[n].request.base + 1 !in s.log.revisions && s.attempts[n].request.operationId !in s.log.operations
  {
    RunsKeepInv(ctx, start, steps);
  }

  /** A known operation id answers with the first result, to the same actor and payload only. */
  lemma RetriesAnswerAlike(ctx: Context, start: State, steps: seq<Step>, request: Request, a: Attempt, locked: bool,
      updatedAt: string)
    requires IsRun(ctx, start, steps) && request.operationId in After(ctx, start, steps).value.log.operations
    requires a.Read? && a.request == request
    requires forall b, c :: ctx.fingerprint(b, c) == ctx.fingerprint(request.base, request.command) ==>
               b == request.base && c == request.command
    ensures var log := After(ctx, start, steps).value.log;
      var row := log.operations[request.operationId];
      && Checked(ctx, log, a, locked, updatedAt) ==
           (if row.actor == request.actor && row.base == request.base && row.command == request.command
            then Again(row.resulting) else Reused)
  {
    RunsKeepInv(ctx, start, steps);
    var row := After(ctx, start, steps).value.log.operations[request.operationId];
    assert Replays(ctx, After(ctx, start, steps).value.log, row);
    assert row.fingerprint == ctx.fingerprint(row.base, row.command);
  }
}
