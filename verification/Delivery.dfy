/**
 How one document's committed operations reach the room: commands, replacements, deletions, evictions and recovery
 as atomic steps between two awaits, in any interleaving and with crashes.
 */
module Delivery {

  import opened Wrappers
  import opened Uml
  import opened MutationQueue

  // What is stored, remembered and sent.

  datatype Row = Row(resulting: nat, delivered: bool)

  /** The document's row and its operations, which go when the document goes. */
  datatype Store = Store(present: bool, revision: nat, rows: map<Id, Row>)

  /** A replacement announced to the gateway; the stamp tells equal announcements apart. */
  datatype Resync = Resync(stamp: nat, revision: nat)

  /** What the gateway remembers of the document until the process ends. */
  datatype Memory = Memory(
    deleted: bool, resync: Option<Resync>, evicting: bool, recovery: bool, scheduled: bool, retrying: bool)

  const FORGOTTEN := Memory(false, None, false, false, false, false)

  datatype Sent = SentOperation(op: Id) | SentResync(revision: nat)

  datatype Work = Mutation | CriticalWork

  /** How far the operation at the head of the queue has come. */
  datatype Phase =
    | Waiting
    | Done(failed: bool)
    // a mutation
    | Committed(op: Id, resulting: nat)
    | Fetched(op: Id, resulting: nat, found: Option<nat>)
    | Announcing(op: Id, resulting: nat, current: nat)
    | Announced(op: Id, resulting: nat, current: nat)
    | Replaced(revision: nat)
    | Removed
    // critical work
    | EvictingDeleted
    | EvictingMembers
    | Asking
    | Asked(pending: bool)
    | Fetching(change: Option<Resync>)
    | DocumentFetched(change: Option<Resync>, latest: Option<nat>)
    | Broadcasting(change: Option<Resync>, revision: nat, pending: bool)
    | Broadcasted(change: Option<Resync>, revision: nat, pending: bool)
    | MarkingAll(latest: Option<nat>)
    | MarkedAll

  /**
   The ending is that of critical work which has left the queue. The rest is history: what was sent; and since the
   process started, which replacements were announced to the gateway, whether a deletion was whose sockets have not been
   evicted, and which operations were undelivered when the document was listed for recovery.
   */
  datatype State = State(
    store: Store, memory: Memory, line: seq<Work>, phase: Phase, ending: Option<bool>,
    sent: set<Sent>, published: set<Resync>, stamps: nat, gone: bool, owed: set<Id>)

  const START := State(Store(true, 0, map[]), FORGOTTEN, [], Waiting, None, {}, {}, 0, false, {})

  predicate HasCriticalWork(m: Memory) { m.deleted || m.evicting || m.resync.Some? || m.recovery }

  predicate RunsMutation(s: State) { s.line != [] && s.line[0].Mutation? }

  predicate RunsCritical(s: State) { s.line != [] && s.line[0].CriticalWork? }

  // Scheduling critical work.

  function Schedule(capacity: nat, s: State): State {
    if s.memory.scheduled || s.memory.retrying then s
    else
      var marked := s.(memory := s.memory.(scheduled := true));
      if |s.line| < capacity then marked.(line := s.line + [CriticalWork]) else marked.(ending := Some(true))
  }

  /** What follows once critical work has ended. */
  function Ended(capacity: nat, s: State, failed: bool): State {
    var rest := s.(memory := s.memory.(scheduled := false), ending := None);
    if !HasCriticalWork(rest.memory) then rest
    else if failed then rest.(memory := rest.memory.(retrying := true))
    else Schedule(capacity, rest)
  }

  function TimerFired(capacity: nat, s: State): State {
    var rest := s.(memory := s.memory.(retrying := false));
    if HasCriticalWork(rest.memory) then Schedule(capacity, rest) else rest
  }

  // Events.

  function NotedReplacement(m: Memory, change: Resync): Memory {
    if m.deleted then m else m.(resync := Some(change))
  }

  function NotedDeletion(m: Memory): Memory { m.(deleted := true, resync := None) }

  function DeletionNoted(capacity: nat, s: State): State { Schedule(capacity, s.(memory := NotedDeletion(s.memory))) }

  function EvictionNoted(capacity: nat, s: State): State {
    Schedule(capacity, s.(memory := s.memory.(evicting := true)))
  }

  function RecoveryNoted(capacity: nat, s: State): State {
    Schedule(capacity, s.(memory := s.memory.(recovery := true)))
  }

  function Published(capacity: nat, s: State, revision: nat): State {
    var change := Resync(s.stamps, revision);
    var noted := s.(memory := NotedReplacement(s.memory, change), published := s.published + {change},
        stamps := s.stamps + 1,
                    phase := Done(false));
    if s.memory.deleted then noted else Schedule(capacity, noted)
  }

  // A command.

  function CommitNew(s: State, op: Id): State {
    var revision := s.store.revision + 1;
    s.(store := Store(true, revision, s.store.rows[op := Row(revision, false)]), phase := Committed(op, revision))
  }

  /** A retry finds the operation it committed before. */
  function FindCommitted(s: State, op: Id): State
    requires op in s.store.rows
  {
    if s.store.rows[op].delivered then s.(phase := Done(false))
    else s.(phase := Committed(op, s.store.rows[op].resulting))
  }

  function Revision(store: Store): Option<nat> { if store.present then Some(store.revision) else None }

  /** A broadcast to a document known to be deleted sends nothing. */
  function Emitted(s: State, sent: Sent): set<Sent> { if s.memory.deleted then s.sent else s.sent + {sent} }

  function MarkOne(store: Store, op: Id): Store {
    if op in store.rows then store.(rows := store.rows[op := store.rows[op].(delivered := true)]) else store
  }

  function MarkEvery(store: Store): Store {
    store.(rows := map op | op in store.rows :: store.rows[op].(delivered := true))
  }

  function Undelivered(store: Store): set<Id> { set op | op in store.rows && !store.rows[op].delivered }

  predicate HasPending(store: Store) { exists op :: op in store.rows && !store.rows[op].delivered }

  // Critical work.

  function AfterEvictions(s: State): State {
    if s.memory.deleted then s.(phase := EvictingDeleted)
    else if s.memory.recovery then s.(phase := Asking)
    else Chosen(s, s.memory.resync)
  }

  /** Without pending operations only a remembered replacement is announced. */
  function Chosen(s: State, change: Option<Resync>): State {
    match change
    case None => s.(phase := Done(false))
    case Some(c) => s.(phase := Broadcasting(change, c.revision, false))
  }

  function Begun(s: State): State {
    var taken := s.(memory := s.memory.(evicting := false));
    if s.memory.deleted then taken.(phase := EvictingDeleted)
    else if s.memory.evicting then taken.(phase := EvictingMembers)
    else AfterEvictions(taken)
  }

  function DeletedEvicted(s: State): State {
    s.(memory := s.memory.(deleted := false, recovery := false), phase := Done(false))
  }

  function AskedContinues(s: State, pending: bool): State {
    if pending then s.(phase := Fetching(s.memory.resync))
    else Chosen(s.(memory := s.memory.(recovery := false)), s.memory.resync)
  }

  function FetchedContinues(s: State, change: Option<Resync>, latest: Option<nat>): State {
    match latest
    case None => s.(phase := MarkingAll(None))
    case Some(revision) => s.(phase := Broadcasting(change, revision, true))
  }

  /** Only the announcement that was there before the broadcast is forgotten. */
  function BroadcastContinues(s: State, change: Option<Resync>, revision: nat, pending: bool): State {
    s.(memory := if s.memory.resync == change then s.memory.(resync := None) else s.memory,
       phase := if pending then MarkingAll(Some(revision)) else Done(false))
  }

  /** The finished operation leaves the queue. */
  function Left(s: State, failed: bool): State
    requires s.line != []
  {
    s.(line := s.line[1..], phase := Waiting, ending := if s.line[0].CriticalWork? then Some(failed) else s.ending)
  }

  /** The process stops and starts again: only the store is left. */
  function Crashed(s: State): State {
    s.(memory := FORGOTTEN, line := [], phase := Waiting, ending := None, published := {}, gone := false, owed := {})
  }

  // One step.

  datatype MutationStep =
    | Arrives                          // a mutation joins the queue
    | Commits(op: Id)                  // a command: commit, or find an earlier commit
    | Fetches                          // ... the database answers with the current document
    | Announces                        // ... the broadcast starts
    | EmitsOperation                   // ... and is sent
    | MarksDelivered                   // ... the operation is marked
    | Replaces | PublishesReplacement  // a replacement and its event
    | Removes | PublishesRemoval       // a deletion and its event

  datatype CriticalStep =
    | Begins | DeletedAreEvicted | MembersAreEvicted
    | Answers | AnswerArrives | LatestIsFetched | LatestArrives
    | EmitsResync | BroadcastReturns | MarksAll | MarkReturns

  datatype EventStep =
    | Ends(failed: bool)               // a mutation ends, or any operation fails
    | Leaves                           // the ended operation leaves the queue
    | ProjectGoes | ProjectEvent       // the project is deleted outside the queue
    | MemberGoes                       // a member is removed from the project
    | Recovers                         // the document is listed with undelivered operations
    | TimerFires
    | EndingRuns                       // the handler that follows critical work
    | Crashes

  datatype Step = OfMutation(mutation: MutationStep) | OfCritical(critical: CriticalStep) | OfEvent(event: EventStep)

  predicate MutationEnabled(capacity: nat, s: State, step: MutationStep) {
    match step
    case Arrives => |s.line| < StandardCapacity(capacity)
    case Commits(op) => RunsMutation(s) && s.phase.Waiting? && s.store.present
    case Fetches => RunsMutation(s) && s.phase.Committed?
    case Announces => RunsMutation(s) && s.phase.Fetched?
    case EmitsOperation => RunsMutation(s) && s.phase.Announcing?
    case MarksDelivered => RunsMutation(s) && s.phase.Announced?
    case Replaces => RunsMutation(s) && s.phase.Waiting? && s.store.present
    case PublishesReplacement => RunsMutation(s) && s.phase.Replaced?
    case Removes => RunsMutation(s) && s.phase.Waiting? && s.store.present
    case PublishesRemoval => RunsMutation(s) && s.phase.Removed?
  }

  function NextMutation(capacity: nat, s: State, step: MutationStep): State
    requires MutationEnabled(capacity, s, step)
  {
    match step
    case Arrives => s.(line := s.line + [Mutation])
    case Commits(op) => if op in s.store.rows then FindCommitted(s, op) else CommitNew(s, op)
    case Fetches => s.(phase := Fetched(s.phase.op, s.phase.resulting, Revision(s.store)))
    case Announces =>
      (match s.phase.found
       case None => s.(phase := Done(false))
       case Some(current) => s.(phase := Announcing(s.phase.op, s.phase.resulting, current)))
    case EmitsOperation =>
      s.(sent := Emitted(s, if s.phase.current == s.phase.resulting then SentOperation(s.phase.op)
          else SentResync(s.phase.current)),
         phase := Announced(s.phase.op, s.phase.resulting, s.phase.current))
    case MarksDelivered => s.(store := MarkOne(s.store, s.phase.op), phase := Done(false))
    case Replaces => s.(store := s.store.(revision := s.store.revision + 1), phase := Replaced(s.store.revision + 1))
    case PublishesReplacement => Published(capacity, s, s.phase.revision)
    case Removes => s.(store := Store(false, s.store.revision, map[]), phase := Removed)
    case PublishesRemoval => DeletionNoted(capacity, s.(phase := Done(false))).(gone := true)
  }

  predicate CriticalEnabled(s: State, step: CriticalStep) {
    RunsCritical(s) &&
    match step
    case Begins => s.phase.Waiting?
    case DeletedAreEvicted => s.phase.EvictingDeleted?
    case MembersAreEvicted => s.phase.EvictingMembers?
    case Answers => s.phase.Asking?
    case AnswerArrives => s.phase.Asked?
    case LatestIsFetched => s.phase.Fetching?
    case LatestArrives => s.phase.DocumentFetched?
    case EmitsResync => s.phase.Broadcasting?
    case BroadcastReturns => s.phase.Broadcasted?
    case MarksAll => s.phase.MarkingAll?
    case MarkReturns => s.phase.MarkedAll?
  }

  function NextCritical(s: State, step: CriticalStep): State
    requires CriticalEnabled(s, step)
  {
    match step
    case Begins => Begun(s)
    case DeletedAreEvicted => DeletedEvicted(s).(gone := false)
    case MembersAreEvicted => AfterEvictions(s)
    case Answers => s.(phase := Asked(HasPending(s.store)))
    case AnswerArrives => AskedContinues(s, s.phase.pending)
    case LatestIsFetched => s.(phase := DocumentFetched(s.phase.change, Revision(s.store)))
    case LatestArrives => FetchedContinues(s, s.phase.change, s.phase.latest)
    case EmitsResync =>
      s.(sent := Emitted(s, SentResync(s.phase.revision)),
          phase := Broadcasted(s.phase.change, s.phase.revision, s.phase.pending))
    case BroadcastReturns => BroadcastContinues(s, s.phase.change, s.phase.revision, s.phase.pending)
    case MarksAll => s.(store := MarkEvery(s.store), phase := MarkedAll)
    case MarkReturns => s.(memory := s.memory.(recovery := false), phase := Done(false))
  }

  predicate EventEnabled(s: State, step: EventStep) {
    match step
    case Ends(failed) => s.line != [] && !s.phase.Done? && (failed || (RunsMutation(s) && s.phase.Waiting?))
    case Leaves => s.line != [] && s.phase.Done?
    case ProjectGoes => s.store.present
    case ProjectEvent => !s.store.present
    case MemberGoes => true
    case Recovers => true
    case TimerFires => s.memory.retrying
    case EndingRuns => s.ending.Some?
    case Crashes => true
  }

  function NextEvent(capacity: nat, s: State, step: EventStep): State
    requires EventEnabled(s, step)
  {
    match step
    case Ends(failed) => s.(phase := Done(failed))
    case Leaves => Left(s, s.phase.failed)
    case ProjectGoes => s.(store := Store(false, s.store.revision, map[]))
    case ProjectEvent => DeletionNoted(capacity, s).(gone := true)
    case MemberGoes => EvictionNoted(capacity, s)
    case Recovers => RecoveryNoted(capacity, s).(owed := s.owed + Undelivered(s.store))
    case TimerFires => TimerFired(capacity, s)
    case EndingRuns => Ended(capacity, s, s.ending.value)
    case Crashes => Crashed(s)
  }

  predicate Enabled(capacity: nat, s: State, step: Step) {
    match step
    case OfMutation(m) => MutationEnabled(capacity, s, m)
    case OfCritical(c) => CriticalEnabled(s, c)
    case OfEvent(e) => EventEnabled(s, e)
  }

  function Next(capacity: nat, s: State, step: Step): State
    requires Enabled(capacity, s, step)
  {
    match step
    case OfMutation(m) => NextMutation(capacity, s, m)
    case OfCritical(c) => NextCritical(s, c)
    case OfEvent(e) => NextEvent(capacity, s, e)
  }

  // What every step keeps.

  /** The room has been told of a revision by a resync to it or to a later one. */
  ghost predicate ToldOf(sent: set<Sent>, revision: nat) { exists r: nat :: revision <= r && SentResync(r) in sent }

  ghost predicate Covered(sent: set<Sent>, op: Id, resulting: nat) {
    SentOperation(op) in sent || ToldOf(sent, resulting)
  }

  /** An operation is marked only after the room was sent it, or a resync to its revision or a later one. */
  ghost predicate DeliveredAreCovered(s: State) {
    forall op :: op in s.store.rows && s.store.rows[op].delivered ==> Covered(s.sent, op, s.store.rows[op].resulting)
  }

  ghost predicate StoreFits(s: State) {
    && (!s.store.present ==> s.store.rows == map[])
    && (forall op :: op in s.store.rows ==> s.store.rows[op].resulting <= s.store.revision)
    && (s.memory.deleted ==> !s.store.present)
  }

  /** The operation is stored with this revision, as long as there is a document. */
  predicate Stored(s: State, op: Id, resulting: nat) {
    s.store.present ==> op in s.store.rows && s.store.rows[op].resulting == resulting
  }

  predicate ChangeAtMost(change: Option<Resync>, revision: nat) { change.Some? ==> change.value.revision <= revision }

  /** What is known between two awaits. Nothing is committed meanwhile, since the queue runs one operation at a time. */
  ghost predicate PhaseFits(s: State) {
    match s.phase
    case Committed(op, resulting) => Stored(s, op, resulting)
    case Fetched(op, resulting, current) =>
      Stored(s, op, resulting) && (s.store.present ==> current.Some?)
          && (current.Some? ==> resulting <= current.value <= s.store.revision)
    case Announcing(op, resulting, current) => Stored(s, op, resulting) && resulting <= current <= s.store.revision
    case Announced(op, resulting, current) =>
      && Stored(s, op, resulting) && resulting <= current
      && (s.store.present ==>
            (if current == resulting then SentOperation(op) else SentResync(current)) in s.sent)
    case Replaced(revision) => revision == s.store.revision
    case Removed => !s.store.present
    case EvictingDeleted => !s.store.present
    case Fetching(change) => ChangeAtMost(change, s.store.revision)
    case DocumentFetched(change, latest) =>
      (s.store.present ==> latest.Some?)
          && (latest.Some? ==> latest.value == s.store.revision && ChangeAtMost(change, latest.value))
    case Broadcasting(change, revision, pending) =>
      ChangeAtMost(change, revision) && revision <= s.store.revision && (pending ==> revision == s.store.revision)
    case Broadcasted(change, revision, pending) =>
      && ChangeAtMost(change, revision) && (pending ==> revision == s.store.revision)
      && (s.store.present ==> ToldOf(s.sent, revision))
    case MarkingAll(latest) =>
      s.store.present ==> latest == Some(s.store.revision) && ToldOf(s.sent, s.store.revision)
    case _ => true
  }

  ghost predicate ResyncFits(s: State) {
    s.memory.resync.Some? ==> s.memory.resync.value.revision <= s.store.revision
  }

  /** Whatever is sent is about an operation that is stored, or a revision that the document has reached. */
  ghost predicate SentFits(s: State) {
    && (forall op :: SentOperation(op) in s.sent && s.store.present ==> op in s.store.rows)
    && forall r: nat :: SentResync(r) in s.sent ==> r <= s.store.revision
  }

  /** A deletion is forgotten only with the eviction of the sockets, and recovery only when nothing is undelivered. */
  ghost predicate NothingIsForgotten(s: State) {
    && (s.gone ==> s.memory.deleted) && (s.store.present ==> s.owed <= s.store.rows.Keys)
    && (forall op :: op in s.owed && op in Undelivered(s.store) ==> s.memory.recovery)
    && (s.phase == Asked(false) || s.phase.MarkedAll? ==> Undelivered(s.store) == {})
  }

  /** A published replacement is forgotten only once the room has been told of it or of something later. */
  ghost predicate PublishedAreKept(s: State) {
    forall c :: c in s.published && s.store.present ==>
      ToldOf(s.sent, c.revision) || (s.memory.resync.Some? && c.revision <= s.memory.resync.value.revision)
  }

  function CriticalsIn(line: seq<Work>): nat {
    if line == [] then 0 else (if line[0].CriticalWork? then 1 else 0) + CriticalsIn(line[1..])
  }

  predicate IsCriticalPhase(p: Phase) {
    || p.EvictingDeleted? || p.EvictingMembers? || p.Asking? || p.Asked? || p.Fetching? || p.DocumentFetched?
    || p.Broadcasting? || p.Broadcasted? || p.MarkingAll? || p.MarkedAll?
  }

  predicate IsMutationPhase(p: Phase) {
    p.Committed? || p.Fetched? || p.Announcing? || p.Announced? || p.Replaced? || p.Removed?
  }

  /** Critical work is in the queue, has just left it, or is not scheduled at all. */
  ghost predicate QueueFits(capacity: nat, s: State) {
    && (s.line == [] ==> s.phase.Waiting?)
    && (IsCriticalPhase(s.phase) ==> RunsCritical(s)) && (IsMutationPhase(s.phase) ==> RunsMutation(s))
    && (s.memory.scheduled <==> CriticalsIn(s.line) == 1 || s.ending.Some?)
    && (s.ending.Some? ==> CriticalsIn(s.line) == 0) && CriticalsIn(s.line) <= 1
    && |s.line| <= StandardCapacity(capacity) + CriticalsIn(s.line)
    && |s.line| <= (if capacity == 0 then 1 else capacity)
  }

  /** Critical work never waits without being scheduled or having a retry timer. */
  ghost predicate WorkIsPlanned(s: State) {
    HasCriticalWork(s.memory) ==> s.memory.scheduled || s.memory.retrying
  }

  ghost predicate Inv(capacity: nat, s: State) {
    && StoreFits(s) && DeliveredAreCovered(s) && PhaseFits(s) && ResyncFits(s) && PublishedAreKept(s)
    && QueueFits(capacity, s) && WorkIsPlanned(s) && SentFits(s) && NothingIsForgotten(s)
  }

  // Proofs, one part of the invariant at a time.

  lemma {:induction false} CriticalsAppended(line: seq<Work>, w: Work)
    ensures CriticalsIn(line + [w]) == CriticalsIn(line) + (if w.CriticalWork? then 1 else 0)
  {
    if line == [] {
      assert line + [w] == [w] && [w][1..] == [];
    } else {
      assert (line + [w])[0] == line[0] && (line + [w])[1..] == line[1..] + [w];
      CriticalsAppended(line[1..], w);
    }
  }

  /** Scheduling changes the queue and the mark, and leaves the work planned. */
  lemma ScheduleKeepsQueue(capacity: nat, s: State)
    requires QueueFits(capacity, s)
    ensures QueueFits(capacity, Schedule(capacity, s))
    ensures var next := Schedule(capacity, s);
      && next == s.(memory := next.memory, line := next.line, ending := next.ending)
      && next.memory == s.memory.(scheduled := next.memory.scheduled)
      && (next.memory.scheduled || next.memory.retrying)
  {
    CriticalsAppended(s.line, CriticalWork);
  }

  // Mutation steps.

  lemma MutationKeepsStore(capacity: nat, s: State, step: MutationStep)
    requires Inv(capacity, s) && MutationEnabled(capacity, s, step)
    ensures StoreFits(NextMutation(capacity, s, step))
  {
  }

  lemma MutationKeepsDelivered(capacity: nat, s: State, step: MutationStep)
    requires Inv(capacity, s) && MutationEnabled(capacity, s, step)
    ensures DeliveredAreCovered(NextMutation(capacity, s, step))
  {
  }

  lemma MutationKeepsPhase(capacity: nat, s: State, step: MutationStep)
    requires Inv(capacity, s) && MutationEnabled(capacity, s, step)
    ensures PhaseFits(NextMutation(capacity, s, step))
  {
  }

  lemma MutationKeepsResync(capacity: nat, s: State, step: MutationStep)
    requires Inv(capacity, s) && MutationEnabled(capacity, s, step)
    ensures ResyncFits(NextMutation(capacity, s, step))
  {
  }

  lemma MutationKeepsPublished(capacity: nat, s: State, step: MutationStep)
    requires Inv(capacity, s) && MutationEnabled(capacity, s, step)
    ensures PublishedAreKept(NextMutation(capacity, s, step))
  {
  }

  /** The queue has to do with nothing else that is remembered or recorded. */
  lemma QueueIgnoresTheRest(capacity: nat, s: State, next: State)
    requires QueueFits(capacity, s) && next.line == s.line && next.phase == s.phase && next.ending == s.ending
    requires next.memory.scheduled == s.memory.scheduled
    ensures QueueFits(capacity, next)
  {
  }

  lemma NotingKeepsQueue(capacity: nat, s: State, next: State)
    requires QueueFits(capacity, s) && next.line == s.line && next.phase == s.phase && next.ending == s.ending
    requires next.memory.scheduled == s.memory.scheduled
    ensures QueueFits(capacity, Schedule(capacity, next))
  {
    QueueIgnoresTheRest(capacity, s, next);
    ScheduleKeepsQueue(capacity, next);
  }

  lemma PublishingKeepsQueue(capacity: nat, s: State, revision: nat)
    requires QueueFits(capacity, s) && RunsMutation(s)
    ensures QueueFits(capacity, Published(capacity, s, revision))
  {
    var change, done := Resync(s.stamps, revision), s.(phase := Done(false));
    NotingKeepsQueue(capacity, done, done.(memory := NotedReplacement(s.memory, change),
                                           published := s.published + {change}, stamps := s.stamps + 1));
  }

  lemma RemovingKeepsQueue(capacity: nat, s: State)
    requires QueueFits(capacity, s) && RunsMutation(s)
    ensures QueueFits(capacity, DeletionNoted(capacity, s.(phase := Done(false))).(gone := true))
  {
    var done := s.(phase := Done(false));
    NotingKeepsQueue(capacity, done, done.(memory := NotedDeletion(s.memory)));
    QueueIgnoresTheRest(capacity, DeletionNoted(capacity, done), DeletionNoted(capacity, done).(gone := true));
  }

  lemma MutationKeepsQueue(capacity: nat, s: State, step: MutationStep)
    requires Inv(capacity, s) && MutationEnabled(capacity, s, step)
    ensures QueueFits(capacity, NextMutation(capacity, s, step))
  {
    match step {
      case Arrives => CriticalsAppended(s.line, Mutation);
      case PublishesReplacement => PublishingKeepsQueue(capacity, s, s.phase.revision);
      case PublishesRemoval => RemovingKeepsQueue(capacity, s);
      case _ =>
    }
  }

  lemma MutationKeepsPlan(capacity: nat, s: State, step: MutationStep)
    requires Inv(capacity, s) && MutationEnabled(capacity, s, step)
    ensures WorkIsPlanned(NextMutation(capacity, s, step))
  {
  }

  lemma MutationKeepsSent(capacity: nat, s: State, step: MutationStep)
    requires Inv(capacity, s) && MutationEnabled(capacity, s, step)
    ensures SentFits(NextMutation(capacity, s, step))
  {
  }

  lemma MutationKeepsMemory(capacity: nat, s: State, step: MutationStep)
    requires Inv(capacity, s) && MutationEnabled(capacity, s, step)
    ensures NothingIsForgotten(NextMutation(capacity, s, step))
  {
  }

  // Critical steps.

  lemma CriticalKeepsStore(capacity: nat, s: State, step: CriticalStep)
    requires Inv(capacity, s) && CriticalEnabled(s, step)
    ensures StoreFits(NextCritical(s, step))
  {
  }

  lemma CriticalKeepsDelivered(capacity: nat, s: State, step: CriticalStep)
    requires Inv(capacity, s) && CriticalEnabled(s, step)
    ensures DeliveredAreCovered(NextCritical(s, step))
  {
  }

  lemma CriticalKeepsPhase(capacity: nat, s: State, step: CriticalStep)
    requires Inv(capacity, s) && CriticalEnabled(s, step)
    ensures PhaseFits(NextCritical(s, step))
  {
  }

  lemma CriticalKeepsResync(capacity: nat, s: State, step: CriticalStep)
    requires Inv(capacity, s) && CriticalEnabled(s, step)
    ensures ResyncFits(NextCritical(s, step))
  {
  }

  lemma CriticalKeepsPublished(capacity: nat, s: State, step: CriticalStep)
    requires Inv(capacity, s) && CriticalEnabled(s, step)
    ensures PublishedAreKept(NextCritical(s, step))
  {
  }

  lemma CriticalKeepsQueue(capacity: nat, s: State, step: CriticalStep)
    requires Inv(capacity, s) && CriticalEnabled(s, step)
    ensures QueueFits(capacity, NextCritical(s, step))
  {
  }

  lemma CriticalKeepsPlan(capacity: nat, s: State, step: CriticalStep)
    requires Inv(capacity, s) && CriticalEnabled(s, step)
    ensures WorkIsPlanned(NextCritical(s, step))
  {
  }

  lemma CriticalKeepsSent(capacity: nat, s: State, step: CriticalStep)
    requires Inv(capacity, s) && CriticalEnabled(s, step)
    ensures SentFits(NextCritical(s, step))
  {
  }

  lemma CriticalKeepsMemory(capacity: nat, s: State, step: CriticalStep)
    requires Inv(capacity, s) && CriticalEnabled(s, step)
    ensures NothingIsForgotten(NextCritical(s, step))
  {
  }

  // Event steps.

  lemma EventKeepsStore(capacity: nat, s: State, step: EventStep)
    requires Inv(capacity, s) && EventEnabled(s, step)
    ensures StoreFits(NextEvent(capacity, s, step))
  {
  }

  lemma EventKeepsDelivered(capacity: nat, s: State, step: EventStep)
    requires Inv(capacity, s) && EventEnabled(s, step)
    ensures DeliveredAreCovered(NextEvent(capacity, s, step))
  {
  }

  lemma PhaseIgnoresMemory(s: State, next: State)
    requires PhaseFits(s) && next.phase == s.phase && next.store == s.store && next.sent == s.sent
    ensures PhaseFits(next)
  {
  }

  lemma EventKeepsPhase(capacity: nat, s: State, step: EventStep)
    requires Inv(capacity, s) && EventEnabled(s, step)
    ensures PhaseFits(NextEvent(capacity, s, step))
  {
    match step {
      case ProjectEvent => PhaseIgnoresMemory(s, NextEvent(capacity, s, step));
      case MemberGoes => PhaseIgnoresMemory(s, NextEvent(capacity, s, step));
      case Recovers => PhaseIgnoresMemory(s, NextEvent(capacity, s, step));
      case TimerFires => PhaseIgnoresMemory(s, NextEvent(capacity, s, step));
      case EndingRuns => PhaseIgnoresMemory(s, NextEvent(capacity, s, step));
      case _ =>
    }
  }

  lemma EventKeepsResync(capacity: nat, s: State, step: EventStep)
    requires Inv(capacity, s) && EventEnabled(s, step)
    ensures ResyncFits(NextEvent(capacity, s, step))
  {
    var next := NextEvent(capacity, s, step);
    assert next.store.revision == s.store.revision;
    assert next.memory.resync == s.memory.resync || next.memory.resync.None?;
  }

  lemma EventKeepsPublished(capacity: nat, s: State, step: EventStep)
    requires Inv(capacity, s) && EventEnabled(s, step)
    ensures PublishedAreKept(NextEvent(capacity, s, step))
  {
  }

  lemma LeavingKeepsQueue(capacity: nat, s: State, failed: bool)
    requires QueueFits(capacity, s) && s.line != []
    ensures QueueFits(capacity, Left(s, failed))
  {
  }

  lemma EndingKeepsQueue(capacity: nat, s: State, failed: bool)
    requires QueueFits(capacity, s) && s.ending.Some?
    ensures QueueFits(capacity, Ended(capacity, s, failed))
  {
    var rest := s.(memory := s.memory.(scheduled := false), ending := None);
    assert QueueFits(capacity, rest);
    ScheduleKeepsQueue(capacity, rest);
    QueueIgnoresTheRest(capacity, rest, rest.(memory := rest.memory.(retrying := true)));
  }

  lemma TimerKeepsQueue(capacity: nat, s: State)
    requires QueueFits(capacity, s)
    ensures QueueFits(capacity, TimerFired(capacity, s))
  {
    ScheduleKeepsQueue(capacity, s.(memory := s.memory.(retrying := false)));
  }

  lemma EventKeepsQueue(capacity: nat, s: State, step: EventStep)
    requires Inv(capacity, s) && EventEnabled(s, step)
    ensures QueueFits(capacity, NextEvent(capacity, s, step))
  {
    match step {
      case ProjectEvent =>
        NotingKeepsQueue(capacity, s, s.(memory := NotedDeletion(s.memory)));
        QueueIgnoresTheRest(capacity, DeletionNoted(capacity, s), NextEvent(capacity, s, step));
      case MemberGoes => NotingKeepsQueue(capacity, s, s.(memory := s.memory.(evicting := true)));
      case Recovers =>
        NotingKeepsQueue(capacity, s, s.(memory := s.memory.(recovery := true)));
        QueueIgnoresTheRest(capacity, RecoveryNoted(capacity, s), NextEvent(capacity, s, step));
      case TimerFires => TimerKeepsQueue(capacity, s);
      case EndingRuns => EndingKeepsQueue(capacity, s, s.ending.value);
      case Leaves => LeavingKeepsQueue(capacity, s, s.phase.failed);
      case _ =>
    }
  }

  lemma EventKeepsPlan(capacity: nat, s: State, step: EventStep)
    requires Inv(capacity, s) && EventEnabled(s, step)
    ensures WorkIsPlanned(NextEvent(capacity, s, step))
  {
  }

  lemma EventKeepsSent(capacity: nat, s: State, step: EventStep)
    requires Inv(capacity, s) && EventEnabled(s, step)
    ensures SentFits(NextEvent(capacity, s, step))
  {
  }

  lemma EventKeepsMemory(capacity: nat, s: State, step: EventStep)
    requires Inv(capacity, s) && EventEnabled(s, step)
    ensures NothingIsForgotten(NextEvent(capacity, s, step))
  {
  }

  // Every run.

  lemma MutationKeepsInv(capacity: nat, s: State, step: MutationStep)
    requires Inv(capacity, s) && MutationEnabled(capacity, s, step)
    ensures Inv(capacity, NextMutation(capacity, s, step))
  {
    MutationKeepsStore(capacity, s, step);
    MutationKeepsDelivered(capacity, s, step);
    MutationKeepsPhase(capacity, s, step);
    MutationKeepsResync(capacity, s, step);
    MutationKeepsPublished(capacity, s, step);
    MutationKeepsQueue(capacity, s, step);
    MutationKeepsPlan(capacity, s, step);
    MutationKeepsSent(capacity, s, step);
    MutationKeepsMemory(capacity, s, step);
  }

  lemma CriticalKeepsInv(capacity: nat, s: State, step: CriticalStep)
    requires Inv(capacity, s) && CriticalEnabled(s, step)
    ensures Inv(capacity, NextCritical(s, step))
  {
    CriticalKeepsStore(capacity, s, step);
    CriticalKeepsDelivered(capacity, s, step);
    CriticalKeepsPhase(capacity, s, step);
    CriticalKeepsResync(capacity, s, step);
    CriticalKeepsPublished(capacity, s, step);
    CriticalKeepsQueue(capacity, s, step);
    CriticalKeepsPlan(capacity, s, step);
    CriticalKeepsSent(capacity, s, step);
    CriticalKeepsMemory(capacity, s, step);
  }

  lemma EventKeepsInv(capacity: nat, s: State, step: EventStep)
    requires Inv(capacity, s) && EventEnabled(s, step)
    ensures Inv(capacity, NextEvent(capacity, s, step))
  {
    EventKeepsStore(capacity, s, step);
    EventKeepsDelivered(capacity, s, step);
    EventKeepsPhase(capacity, s, step);
    EventKeepsResync(capacity, s, step);
    EventKeepsPublished(capacity, s, step);
    EventKeepsQueue(capacity, s, step);
    EventKeepsPlan(capacity, s, step);
    EventKeepsSent(capacity, s, step);
    EventKeepsMemory(capacity, s, step);
  }

  lemma StepKeepsInv(capacity: nat, s: State, step: Step)
    requires Inv(capacity, s) && Enabled(capacity, s, step)
    ensures Inv(capacity, Next(capacity, s, step))
  {
    match step {
      case OfMutation(m) => MutationKeepsInv(capacity, s, m);
      case OfCritical(c) => CriticalKeepsInv(capacity, s, c);
      case OfEvent(e) => EventKeepsInv(capacity, s, e);
    }
  }

  /** The state after a run that starts with a new document; None when a step is not possible. */
  function After(capacity: nat, steps: seq<Step>): Option<State>
    decreases |steps|
  {
    if steps == [] then Some(START)
    else
      match After(capacity, steps[..|steps| - 1])
      case None => None
      case Some(s) =>
        var step := steps[|steps| - 1];
        if Enabled(capacity, s, step) then Some(Next(capacity, s, step)) else None
  }

  lemma {:induction false} RunsKeepInv(capacity: nat, steps: seq<Step>)
    requires After(capacity, steps).Some?
    ensures Inv(capacity, After(capacity, steps).value)
    decreases |steps|
  {
    if steps == [] {
      assert Inv(capacity, START);
    } else {
      RunsKeepInv(capacity, steps[..|steps| - 1]);
      StepKeepsInv(capacity, After(capacity, steps[..|steps| - 1]).value, steps[|steps| - 1]);
    }
  }

  /**
   Delivery safety. In every run, crashes included, a stored operation is marked delivered only if the room was sent
   that operation, or a resync to its resulting revision or a later one.
   */
  lemma DeliveredOperationsWereSent(capacity: nat, steps: seq<Step>, op: Id)
    requires After(capacity, steps).Some?
    ensures var end := After(capacity, steps).value;
      op in end.store.rows && end.store.rows[op].delivered ==> Covered(end.sent, op, end.store.rows[op].resulting)
  {
    RunsKeepInv(capacity, steps);
  }

  /**
   In every run, once a command has announced its operation, and the document is still there, the room has been sent
   that operation, provided it was the latest when the document was fetched; otherwise a resync to the later revision.
   */
  lemma AnnouncedCommandsWereSent(capacity: nat, steps: seq<Step>)
    requires After(capacity, steps).Some? && After(capacity, steps).value.phase.Announced?
    ensures var end := After(capacity, steps).value;
      end.store.present ==>
        && (end.phase.current == end.phase.resulting ==> SentOperation(end.phase.op) in end.sent)
        && (end.phase.current != end.phase.resulting ==>
              end.phase.resulting < end.phase.current && SentResync(end.phase.current) in end.sent)
  {
    RunsKeepInv(capacity, steps);
  }

  /**
   In every run, the only thing a mutation ever sends is the broadcast of a command: its operation if that is the latest
   it has found, or else a resync to what is later; and nothing to a document known to be deleted.
   */
  lemma CommandsSendTheirOperation(capacity: nat, steps: seq<Step>, m: MutationStep)
    requires After(capacity, steps).Some? && MutationEnabled(capacity, After(capacity, steps).value, m)
    ensures var s := After(capacity, steps).value;
      var sent := NextMutation(capacity, s, m).sent;
      if m.EmitsOperation? && !s.memory.deleted
      then
        && s.phase.resulting <= s.phase.current
        && (s.phase.resulting == s.phase.current ==> sent == s.sent + {SentOperation(s.phase.op)})
        && (s.phase.resulting < s.phase.current ==> sent == s.sent + {SentResync(s.phase.current)})
      else sent == s.sent
  {
    RunsKeepInv(capacity, steps);
  }

  /** In every run, the room hears only of operations that are stored and of revisions that were reached. */
  lemma OnlyWhatIsStoredIsSent(capacity: nat, steps: seq<Step>)
    requires After(capacity, steps).Some?
    ensures var end := After(capacity, steps).value;
      && (forall op :: SentOperation(op) in end.sent && end.store.present ==> op in end.store.rows)
      && (forall r: nat :: SentResync(r) in end.sent ==> r <= end.store.revision)
  {
    RunsKeepInv(capacity, steps);
  }

  /** A deletion the gateway has been told of stays remembered, with its work planned, until the sockets are evicted. */
  lemma DeletionsAreRemembered(capacity: nat, steps: seq<Step>)
    requires After(capacity, steps).Some? && After(capacity, steps).value.gone
    ensures var memory := After(capacity, steps).value.memory;
      memory.deleted && (memory.scheduled || memory.retrying)
  {
    RunsKeepInv(capacity, steps);
  }

  /**
   An operation that was undelivered when the document was listed for recovery is delivered, or gone with the document,
   or recovery is still remembered with its work planned.
   */
  lemma RecoveriesAreRemembered(capacity: nat, steps: seq<Step>, op: Id)
    requires After(capacity, steps).Some? && op in After(capacity, steps).value.owed
    ensures var end := After(capacity, steps).value;
      || !end.store.present
      || (op in end.store.rows && end.store.rows[op].delivered)
      || (end.memory.recovery && (end.memory.scheduled || end.memory.retrying))
  {
    RunsKeepInv(capacity, steps);
  }

  /**
   A replacement published since the process started is announced, or still remembered; what is remembered then has
   at least its revision, and the work of announcing it is planned.
   */
  lemma PublishedReplacementsAreAnnounced(capacity: nat, steps: seq<Step>, c: Resync)
    requires After(capacity, steps).Some?
    ensures var end := After(capacity, steps).value;
      c in end.published && end.store.present ==>
        || ToldOf(end.sent, c.revision)
        || (&& end.memory.resync.Some? && c.revision <= end.memory.resync.value.revision
            && (end.memory.scheduled || end.memory.retrying))
  {
    RunsKeepInv(capacity, steps);
  }

  /**
   With two slots or more the queue has room whenever critical work is to be scheduled, and pending work is always
   planned.
   */
  lemma CriticalWorkIsNeverRefused(capacity: nat, steps: seq<Step>)
    requires After(capacity, steps).Some? && capacity >= 2
    ensures var end := After(capacity, steps).value;
      && |end.line| <= capacity && (!end.memory.scheduled ==> |end.line| < capacity)
      && (HasCriticalWork(end.memory) ==> end.memory.scheduled || end.memory.retrying)
  {
    RunsKeepInv(capacity, steps);
  }

  /** With one slot it can be refused: a mutation is queued when a member is removed. */
  lemma OneSlotRefusesCriticalWork()
    ensures var steps := [OfMutation(Arrives), OfEvent(MemberGoes)];
      After(1, steps).Some? && After(1, steps).value.line == [Mutation] && After(1, steps).value.ending == Some(true)
  {
    var steps := [OfMutation(Arrives), OfEvent(MemberGoes)];
    assert steps[..1] == [OfMutation(Arrives)] && steps[..1][..0] == [];
    assert After(1, steps[..1][..0]) == Some(START);
  }

  /** What follows when nothing comes in between a commit and its mark. */
  function AfterBroadcast(capacity: nat, s: State): State
    requires RunsMutation(s) && s.phase.Committed? && s.store.present
  {
    var fetched := NextMutation(capacity, s, Fetches);
    var announcing := NextMutation(capacity, fetched, Announces);
    NextMutation(capacity, NextMutation(capacity, announcing, EmitsOperation), MarksDelivered)
  }

  lemma BroadcastDelivers(capacity: nat, s: State)
    requires RunsMutation(s) && s.phase.Committed? && s.store.present && !s.memory.deleted
    requires s.phase.op in s.store.rows && s.store.rows[s.phase.op].resulting == s.phase.resulting
    ensures AfterBroadcast(capacity, s) == s.(
        phase := Done(false),
        store := s.store.(rows := s.store.rows[s.phase.op := Row(s.phase.resulting, true)]),
        sent := s.sent + {if s.phase.resulting == s.store.revision then SentOperation(s.phase.op)
                          else SentResync(s.store.revision)})
  {
  }

  /**
   Undisturbed, a new command adds one revision, tells the room of exactly its operation and leaves it delivered. The
   retry of an undelivered one tells the room of it, or of the revision that is current by then.
   */
  lemma CommandDelivers(capacity: nat, steps: seq<Step>, op: Id)
    requires After(capacity, steps).Some? && MutationEnabled(capacity, After(capacity, steps).value, Commits(op))
    requires var rows := After(capacity, steps).value.store.rows; op in rows ==> !rows[op].delivered
    ensures var s := After(capacity, steps).value;
      var committed, rows := NextMutation(capacity, s, Commits(op)), s.store.rows;
      var revision := if op in rows then s.store.revision else s.store.revision + 1;
      var resulting := if op in rows then rows[op].resulting else revision;
      && RunsMutation(committed) && committed.phase.Committed? && committed.store.present
      && AfterBroadcast(capacity, committed) == s.(
           phase := Done(false),
           store := Store(true, revision, rows[op := Row(resulting, true)]),
           sent := s.sent + {if resulting == revision then SentOperation(op) else SentResync(revision)})
  {
    RunsKeepInv(capacity, steps);
    BroadcastDelivers(capacity, NextMutation(capacity, After(capacity, steps).value, Commits(op)));
  }

  /** The retry of a delivered command tells the room of nothing and stores nothing. */
  lemma DeliveredRetryIsSilent(capacity: nat, s: State, op: Id)
    requires MutationEnabled(capacity, s, Commits(op)) && op in s.store.rows && s.store.rows[op].delivered
    ensures NextMutation(capacity, s, Commits(op)) == s.(phase := Done(false))
  {
  }

  /** Undisturbed, recovery tells the room of the current revision and marks everything that was pending. */
  lemma RecoveryDelivers(s: State)
    requires RunsCritical(s) && s.phase.Waiting? && s.store.present && HasPending(s.store)
    requires !s.memory.deleted && !s.memory.evicting && s.memory.recovery
    ensures var asked := NextCritical(NextCritical(s, Begins), Answers);
      var fetched := NextCritical(NextCritical(asked, AnswerArrives), LatestIsFetched);
      var sent := NextCritical(NextCritical(fetched, LatestArrives), EmitsResync);
      var end := NextCritical(NextCritical(NextCritical(sent, BroadcastReturns), MarksAll), MarkReturns);
      && end.phase == Done(false) && !HasPending(end.store) && !end.memory.recovery && end.memory.resync.None?
      && end.sent == s.sent + {SentResync(s.store.revision)} && end.store.revision == s.store.revision
      && end.store.rows.Keys == s.store.rows.Keys
      && (forall op :: op in s.store.rows ==> end.store.rows[op] == Row(s.store.rows[op].resulting, true))
  {
  }
}
