/** The log over the command executor, the integrity check and the lock store. */
module CommandCommit {

  import opened Wrappers
  import opened Uml
  import opened Commands
  import opened DocumentLog
  import L = LockStore
  import S = LockedCommits
  import Integrity
  import DeletionIntegrity

  ghost function Accepting(norm: string -> string): Model -> bool { (m: Model) => Integrity.Integrity(norm, m) }

  function Executing(): (Diagram, Command) -> Option<Diagram> { (d: Diagram, c: Command) => Executed(d, c) }

  function Affecting(): (Diagram, Command) -> Option<set<Id>> { (d: Diagram, c: Command) => AffectedElementIds(d, c) }

  ghost function Deployed(norm: string -> string, fingerprint: (nat, Command) -> string, projectId: Id,
      diagramId: Id): Context {
    Context(Accepting(norm), Executing(), Affecting(), fingerprint, projectId, diagramId)
  }

  lemma MetadataDoesNotMatter(norm: string -> string, before: Model, after: Model)
    requires Integrity.Integrity(norm, before) && after.diagram == before.diagram && after.project == before.project
    requires Integrity.XmlSafe(after.metadata.updatedAt)
    requires after.metadata.createdAt == before.metadata.createdAt && after.metadata.tags == before.metadata.tags
    ensures Integrity.Integrity(norm, after)
  {
    assert Integrity.AllIds(after) == Integrity.AllIds(before);
  }

  lemma IntegrityIgnoresMetadata(norm: string -> string, fingerprint: (nat, Command) -> string, projectId: Id,
      diagramId: Id)
    ensures IgnoresMetadata(Deployed(norm, fingerprint, projectId, diagramId))
  {
    var ctx := Deployed(norm, fingerprint, projectId, diagramId);
    forall m, revision, updatedAt | ctx.accepts(Identified(ctx, m)) && Integrity.XmlSafe(updatedAt)
      ensures ctx.accepts(Normalized(ctx, m, revision, updatedAt))
    {
      MetadataDoesNotMatter(norm, Identified(ctx, m), Normalized(ctx, m, revision, updatedAt));
    }
  }

  /** In every run every snapshot is a well-formed model. */
  lemma SnapshotsAreWellFormed(norm: string -> string, fingerprint: (nat, Command) -> string, projectId: Id,
      diagramId: Id,
                               start: State, steps: seq<Step>, r: nat)
    requires var ctx := Deployed(norm, fingerprint, projectId, diagramId);
      && IsStart(ctx, start) && After(ctx, start, steps).Some? && r in After(ctx, start, steps).value.log.revisions
    ensures Integrity.Integrity(norm,
                After(Deployed(norm, fingerprint, projectId, diagramId), start, steps).value.log.revisions[r])
  {
    var ctx := Deployed(norm, fingerprint, projectId, diagramId);
    IntegrityIgnoresMetadata(norm, fingerprint, projectId, diagramId);
    RunsKeepInv(ctx, start, steps);
  }

  lemma ViewIgnoresDiagramId(d: Diagram, diagramId: Id, id: Id)
    ensures ViewOf(d.(id := diagramId), id) == ViewOf(d, id)
  {
  }

  /** What a command produces shows every element outside its declared effect as it was. */
  lemma ProducedKeepsOtherViews(norm: string -> string, ctx: Context, m: Model, command: Command, base: nat,
      updatedAt: string, id: Id)
    requires ctx == Deployed(norm, ctx.fingerprint, ctx.projectId, ctx.diagramId) && Integrity.Integrity(norm, m)
    requires Produced(ctx, m, command, base, updatedAt).Some? && AffectedElementIds(m.diagram, command).Some?
    requires id !in AffectedElementIds(m.diagram, command).value
    ensures ViewOf(Produced(ctx, m, command, base, updatedAt).value.diagram, id) == ViewOf(m.diagram, id)
  {
    DeletionIntegrity.IntegrityGrounds(norm, m);
    UnaffectedElementsKeepTheirView(m.diagram, command, id);
    ViewIgnoresDiagramId(Executed(m.diagram, command).value, ctx.diagramId, id);
  }

  ghost predicate IsDeployed(norm: string -> string, ctx: Context) {
    ctx == Deployed(norm, ctx.fingerprint, ctx.projectId, ctx.diagramId)
  }

  lemma OutsideKeepsItsView(norm: string -> string, c: S.Setting, before: Log, after: Log, a: Attempt, id: Id)
    requires IsDeployed(norm, c.ctx) && S.IsOutside(c, before, after, a, id)
    ensures ViewOf(after.revisions[after.revision].diagram, id) == ViewOf(after.revisions[a.request.base].diagram, id)
  {
    ProducedKeepsOtherViews(norm, c.ctx, before.revisions[a.request.base], a.request.command, a.request.base,
        a.committedAt, id);
  }

  /**
   In every run of the queue, the log and the leases: when a command commits, every element on which another socket has
   a live lease at that moment is in the new snapshot as it was in the one before: the element itself, its position and
   the relationships at it.
   */
  lemma CommitsRespectLiveLeases(norm: string -> string, c: S.Setting, start: S.Server, steps: seq<S.Step>, n: nat,
      p: L.Place)
    requires IsDeployed(norm, c.ctx) && S.IsRun(c, start, steps)
    requires S.Commits(c, S.After(c, start, steps).value, n) && S.IsOthersLease(c, S.After(c, start, steps).value, n, p)
    ensures var s := S.After(c, start, steps).value;
      var base, log := s.log.attempts[n].request.base, S.Next(c, s, S.Finishes(n)).log.log;
      && log.revision == base + 1 && base in log.revisions && base + 1 in log.revisions
      && ViewOf(log.revisions[base + 1].diagram, p.1) == ViewOf(log.revisions[base].diagram, p.1)
  {
    S.CommitsAvoidLiveLeases(c, start, steps, n, p);
    var s := S.After(c, start, steps).value;
    OutsideKeepsItsView(norm, c, s.log.log, S.Next(c, s, S.Finishes(n)).log.log, s.log.attempts[n], p.1);
  }
}
