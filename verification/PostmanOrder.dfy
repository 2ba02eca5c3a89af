/** Whether the generated collection works: the order of the resources together with what their requests read. */
module PostmanOrder {

  import opened Wrappers
  import opened Sequences
  import opened Sorting
  import opened Permutations
  import opened Graphs
  import opened Dependencies
  import opened Postman
  import opened PostmanVariables

  function IdsOf(rs: seq<Resource>): seq<Id> { Map(IdOf(), rs) }

  function Lookup(rs: seq<Resource>, ids: seq<Id>): (r: seq<Resource>)
    requires forall id :: id in ids ==> id in IdsOf(rs)
    ensures |r| == |ids| && forall i :: 0 <= i < |ids| ==> r[i] in rs && r[i].id == ids[i]
  {
    if ids == [] then []
    else
      var first := ids[0];
      assert first in ids && first in IdsOf(rs);
      [ResourceById(rs, first)] + Lookup(rs, ids[1..])
  }

  lemma OrderedIdsAreIds(before: (Id, Id) -> bool, rs: seq<Resource>)
    ensures multiset(Order(before, ResourceDependencies(rs), IdsOf(rs))) == multiset(IdsOf(rs))
    ensures forall id :: id in Order(before, ResourceDependencies(rs), IdsOf(rs)) <==> id in IdsOf(rs)
  {
    OrderIsAPermutation(before, ResourceDependencies(rs), IdsOf(rs));
    SameMembers(Order(before, ResourceDependencies(rs), IdsOf(rs)), IdsOf(rs));
  }

  /** The resources in the order in which they are created. */
  function OrderedResources(before: (Id, Id) -> bool, rs: seq<Resource>): seq<Resource> {
    OrderedIdsAreIds(before, rs);
    Lookup(rs, Order(before, ResourceDependencies(rs), IdsOf(rs)))
  }

  lemma SameIdIsSame(rs: seq<Resource>, o: seq<Resource>, r: Resource)
    requires Identified(rs) && r in rs && (forall q :: q in o ==> q in rs) && r.id in IdsOf(o)
    ensures r in o
  {
    var q := MapSource(IdOf(), o, r.id);
    DistinctMeansEqual(IdOf(), rs, q, r);
  }

  lemma IdsPermute(rs: seq<Resource>, o: seq<Resource>)
    requires Identified(rs) && multiset(IdsOf(o)) == multiset(IdsOf(rs)) && forall q :: q in o ==> q in rs
    ensures multiset(o) == multiset(rs)
  {
    PermutedIsDistinct(IdsOf(o), IdsOf(rs));
    assert Distinct(o) by {
      forall i, j | 0 <= i < j < |o| ensures o[i] != o[j] { assert IdsOf(o)[i] != IdsOf(o)[j]; }
    }
    SameMembers(IdsOf(o), IdsOf(rs));
    forall r | r in rs ensures r in o {
      MapTarget(IdOf(), rs, r);
      SameIdIsSame(rs, o, r);
    }
    IdentifiedIsDistinct(rs);
    DistinctPermute(o, rs);
  }

  lemma LookupPermutes(rs: seq<Resource>, ids: seq<Id>)
    requires Identified(rs) && multiset(ids) == multiset(IdsOf(rs)) && forall id :: id in ids ==> id in IdsOf(rs)
    ensures multiset(Lookup(rs, ids)) == multiset(rs) && IdsOf(Lookup(rs, ids)) == ids
  {
    var o := Lookup(rs, ids);
    assert IdsOf(o) == ids;
    assert forall q :: q in o ==> q in rs;
    IdsPermute(rs, o);
  }

  lemma OrderedResourcesArePermuted(before: (Id, Id) -> bool, rs: seq<Resource>)
    requires Identified(rs)
    ensures multiset(OrderedResources(before, rs)) == multiset(rs)
    ensures IdsOf(OrderedResources(before, rs)) == Order(before, ResourceDependencies(rs), IdsOf(rs))
  {
    OrderedIdsAreIds(before, rs);
    LookupPermutes(rs, Order(before, ResourceDependencies(rs), IdsOf(rs)));
  }

  lemma {:induction false} DependenciesAreKnown(rs: seq<Resource>)
    requires Distinct(IdsOf(rs))
    ensures forall id :: id in ResourceDependencies(rs) <==> id in IdsOf(rs)
    ensures forall r :: r in rs ==>
              r.id in ResourceDependencies(rs) && ResourceDependencies(rs)[r.id] == DependencyIds(r)
  {
    if rs != [] {
      var rest, last := rs[..|rs| - 1], rs[|rs| - 1];
      assert rs == rest + [last];
      MapAppend(IdOf(), rest, [last]);
      assert IdsOf(rs) == IdsOf(rest) + [last.id];
      DistinctAppend(IdsOf(rest), [last.id]);
      DependenciesAreKnown(rest);
      forall r | r in rest ensures r.id != last.id {
        var k :| 0 <= k < |rest| && rest[k] == r;
        assert IdsOf(rest)[k] == r.id;
      }
    }
  }

  /** Creating the resource takes a value from the very resource being created. */
  predicate NeedsItself(r: Resource, c: Owned) {
    && c in Payload(r) && ReferenceFor(r, c).Some?
    && ReferenceFor(r, c).value.target == r.id && !AllNullable(ReferenceFor(r, c).value.local)
  }

  lemma SelfNeeds(rs: seq<Resource>, r: Resource, c: Owned, ref: Reference)
    requires ref.target == r.id && c in Payload(r) && ReferenceFor(r, c) == Some(ref)
    ensures NeedsAtCreation(rs, r, c, ref) <==> NeedsItself(r, c)
  {
    ReachesSelf(ResourceGraph(rs), r.id);
  }

  lemma OwnIdIsNotEarlier(o: seq<Resource>, i: nat)
    requires Distinct(IdsOf(o)) && i < |o|
    ensures !CreatedBefore(o, i, o[i].id)
  {
    forall k | 0 <= k < i ensures Map(IdOf(), o[..i])[k] != o[i].id { assert IdsOf(o)[k] != IdsOf(o)[i]; }
  }

  lemma OtherTargetsAreDependencies(rs: seq<Resource>, r: Resource, ref: Reference)
    requires Distinct(IdsOf(rs)) && r in rs && ref in r.references && ref.target != r.id
    ensures ref.target in DependenciesOf(ResourceDependencies(rs), r.id)
  {
    DependenciesAreKnown(rs);
    var k :| 0 <= k < |r.references| && r.references[k] == ref;
    assert Map(TargetOf(), r.references)[k] == ref.target;
    assert ref.target in DependencyIds(r);
  }

  lemma DependenciesAreCreatedBefore(rs: seq<Resource>, o: seq<Resource>, i: nat, ref: Reference)
    requires WellFormed(rs) && (forall id :: id in IdsOf(o) <==> id in IdsOf(rs)) && i < |o| && o[i] in rs
    requires DependenciesFirst(ResourceDependencies(rs), IdsOf(o)) && ref in o[i].references && ref.target != o[i].id
    ensures CreatedBefore(o, i, ref.target)
  {
    OtherTargetsAreDependencies(rs, o[i], ref);
    assert ref.target in IdsOf(rs);
    var j :| 0 <= j < |o| && IdsOf(o)[j] == ref.target;
    assert IdsOf(o)[i] == o[i].id;
    assert j < i;
    assert Map(IdOf(), o[..i])[j] == ref.target;
  }

  lemma AcyclicIsNotStuck(before: (Id, Id) -> bool, rs: seq<Resource>)
    requires WellFormed(rs) && !Cyclic(ResourceGraph(rs))
    ensures DependenciesFirst(ResourceDependencies(rs), IdsOf(OrderedResources(before, rs)))
  {
    DependenciesAreKnown(rs);
    FallbackExactlyOnCycles(before, ResourceDependencies(rs), IdsOf(rs));
    OrderPutsDependenciesFirst(before, ResourceDependencies(rs), IdsOf(rs));
    OrderedResourcesArePermuted(before, rs);
  }

  /** Without cycles the collection is safe exactly when no resource needs itself to be created. */
  lemma AcyclicCollectionsAreSafe(before: (Id, Id) -> bool, rs: seq<Resource>)
    requires WellFormed(rs) && !Cyclic(ResourceGraph(rs))
    ensures multiset(OrderedResources(before, rs)) == multiset(rs)
    ensures Safe(rs, OrderedResources(before, rs)) <==> forall r, c :: r in rs ==> !NeedsItself(r, c)
  {
    var o := OrderedResources(before, rs);
    OrderedResourcesArePermuted(before, rs);
    OrderedIdsAreIds(before, rs);
    SameMembers(o, rs);
    AcyclicIsNotStuck(before, rs);
    SafeExactlyWhenNeedsComeFirst(rs, o);
    if forall r, c :: r in rs ==> !NeedsItself(r, c) {
      NothingNeedsItself(rs, o);
    } else {
      var r, c :| r in rs && NeedsItself(r, c);
      PermutedIsDistinct(IdsOf(o), IdsOf(rs));
      SomethingNeedsItself(rs, o, r, c);
    }
  }

  lemma NothingNeedsItself(rs: seq<Resource>, o: seq<Resource>)
    requires WellFormed(rs) && (forall r :: r in o ==> r in rs) && (forall id :: id in IdsOf(o) <==> id in IdsOf(rs))
    requires DependenciesFirst(ResourceDependencies(rs), IdsOf(o)) && forall r, c :: r in rs ==> !NeedsItself(r, c)
    ensures NeedsComeFirst(rs, o)
  {
    forall i, c, ref | 0 <= i < |o| && NeedsAtCreation(rs, o[i], c, ref) ensures CreatedBefore(o, i, ref.target) {
      assert o[i] in rs;
      if ref.target == o[i].id { SelfNeeds(rs, o[i], c, ref); }
      DependenciesAreCreatedBefore(rs, o, i, ref);
    }
  }

  lemma SomethingNeedsItself(rs: seq<Resource>, o: seq<Resource>, r: Resource, c: Owned)
    requires Distinct(IdsOf(o)) && r in o && NeedsItself(r, c)
    ensures !NeedsComeFirst(rs, o)
  {
    var i :| 0 <= i < |o| && o[i] == r;
    SelfNeeds(rs, r, c, ReferenceFor(r, c).value);
    OwnIdIsNotEarlier(o, i);
  }

  // On any input.

  /**
   A value is needed from a resource that is created first: not from itself, nor out of the order of ids near a
   cycle.
   */
  ghost predicate IsServed(before: (Id, Id) -> bool, rs: seq<Resource>, r: Resource, ref: Reference) {
    ref.target != r.id && (Doomed(ResourceGraph(rs), ref.target) ==> before(ref.target, r.id))
  }

  lemma CreatedBeforeAt(o: seq<Resource>, i: nat, j: nat)
    requires Distinct(IdsOf(o)) && i < |o| && j < |o|
    ensures CreatedBefore(o, i, o[j].id) <==> j < i
  {
    forall k | 0 <= k < i ensures Map(IdOf(), o[..i])[k] == o[j].id <==> k == j {
      assert IdsOf(o)[k] == o[k].id && IdsOf(o)[j] == o[j].id;
    }
    assert j < i ==> Map(IdOf(), o[..i])[j] == o[j].id;
  }

  lemma ServedIsCreatedBefore(before: (Id, Id) -> bool, rs: seq<Resource>, o: seq<Resource>, i: nat, ref: Reference)
    requires WellFormed(rs) && Distinct(IdsOf(o)) && (forall id :: id in IdsOf(o) <==> id in IdsOf(rs))
    requires i < |o| && o[i] in rs && ref in o[i].references
    requires PlacedBy(before, ResourceDependencies(rs), IdsOf(o))
    ensures CreatedBefore(o, i, ref.target) <==> IsServed(before, rs, o[i], ref)
  {
    assert ref.target in IdsOf(rs);
    var j :| 0 <= j < |o| && IdsOf(o)[j] == ref.target;
    CreatedBeforeAt(o, i, j);
    if ref.target == o[i].id {
      OwnIdIsNotEarlier(o, i);
    } else {
      OtherTargetsAreDependencies(rs, o[i], ref);
      assert IdsOf(o)[i] == o[i].id;
    }
  }

  lemma ResourcesArePlaced(before: (Id, Id) -> bool, rs: seq<Resource>)
    requires WellFormed(rs) && StrictOrder(before)
    ensures PlacedBy(before, ResourceDependencies(rs), IdsOf(OrderedResources(before, rs)))
  {
    DependenciesAreKnown(rs);
    OrderPlacesDependencies(before, ResourceDependencies(rs), IdsOf(rs));
    OrderedResourcesArePermuted(before, rs);
  }

  /**
   Whatever the cycles, the collection is safe exactly when every creation takes its values from other resources, and
   from a resource that leads to a cycle only if that one has the smaller id.
   */
  lemma CollectionsAreSafeExactly(before: (Id, Id) -> bool, rs: seq<Resource>)
    requires WellFormed(rs) && StrictOrder(before)
    ensures multiset(OrderedResources(before, rs)) == multiset(rs)
    ensures Safe(rs, OrderedResources(before, rs)) <==>
            forall r, c, ref :: r in rs && NeedsAtCreation(rs, r, c, ref) ==> IsServed(before, rs, r, ref)
  {
    var o := OrderedResources(before, rs);
    OrderedResourcesArePermuted(before, rs);
    OrderedIdsAreIds(before, rs);
    PermutedIsDistinct(IdsOf(o), IdsOf(rs));
    SameMembers(o, rs);
    ResourcesArePlaced(before, rs);
    SafeExactlyWhenNeedsComeFirst(rs, o);
    forall i, c, ref | 0 <= i < |o| && NeedsAtCreation(rs, o[i], c, ref)
      ensures CreatedBefore(o, i, ref.target) <==> IsServed(before, rs, o[i], ref)
    {
      assert o[i] in rs;
      ServedIsCreatedBefore(before, rs, o, i, ref);
    }
    NeedsOfAll(before, rs, o);
  }

  lemma NeedsOfAll(before: (Id, Id) -> bool, rs: seq<Resource>, o: seq<Resource>)
    requires forall r :: r in o <==> r in rs
    requires forall i, c, ref :: 0 <= i < |o| && NeedsAtCreation(rs, o[i], c, ref) ==>
               (CreatedBefore(o, i, ref.target) <==> IsServed(before, rs, o[i], ref))
    ensures NeedsComeFirst(rs, o) <==> forall r, c, ref :: r in rs && NeedsAtCreation(rs, r, c, ref) ==>
              IsServed(before, rs, r, ref)
  {
    if NeedsComeFirst(rs, o) {
      forall r, c, ref | r in rs && NeedsAtCreation(rs, r, c, ref) ensures IsServed(before, rs, r, ref) {
        var i :| 0 <= i < |o| && o[i] == r;
        assert NeedsAtCreation(rs, o[i], c, ref);
      }
    }
  }

  lemma OrderedResourcesAreIdentified(before: (Id, Id) -> bool, rs: seq<Resource>)
    requires Identified(rs)
    ensures Identified(OrderedResources(before, rs)) && forall r :: r in OrderedResources(before, rs) <==> r in rs
  {
    var o := OrderedResources(before, rs);
    OrderedResourcesArePermuted(before, rs);
    SameMembers(o, rs);
    MapPermuted(IdOf(), o, rs);
    MapPermuted(EntityOf(), o, rs);
    PermutedIsDistinct(Map(IdOf(), o), Map(IdOf(), rs));
    PermutedIsDistinct(Map(EntityOf(), o), Map(EntityOf(), rs));
  }

  lemma TargetsArePlaced(before: (Id, Id) -> bool, rs: seq<Resource>, o: seq<Resource>, i: nat, ref: Reference, j: nat)
    requires WellFormed(rs) && StrictOrder(before) && o == OrderedResources(before, rs) && i < |o| && j < |o|
    requires o[i] in rs && ref in o[i].references && o[j].id == ref.target && o[j].id != o[i].id
    ensures j < i <==> (Doomed(ResourceGraph(rs), o[j].id) ==> before(o[j].id, o[i].id))
  {
    ResourcesArePlaced(before, rs);
    OtherTargetsAreDependencies(rs, o[i], ref);
    assert IdsOf(o)[i] == o[i].id && IdsOf(o)[j] == o[j].id;
  }

  /**
   A resource is deleted before another one it refers to exactly when that one leads to no cycle or has the smaller id.
   */
  lemma CleanupRunsChildToParentExactly(before: (Id, Id) -> bool, rs: seq<Resource>, run: seq<Name>, child: Resource,
      ref: Reference, parent: Resource)
    requires WellFormed(rs) && StrictOrder(before) && IsRun(Collection(OrderedResources(before, rs)), run)
    requires child in rs && ref in child.references && parent in rs && parent.id == ref.target && parent.id != child.id
    ensures Earlier(run, Name(child.entity, Delete), Name(parent.entity, Delete))
            <==> (Doomed(ResourceGraph(rs), parent.id) ==> before(parent.id, child.id))
  {
    var o := OrderedResources(before, rs);
    OrderedResourcesAreIdentified(before, rs);
    TheRunIsOrdered(o, run, child, Delete, parent, Delete);
    var i :| 0 <= i < |o| && o[i] == child;
    var j :| 0 <= j < |o| && o[j] == parent;
    CreationsFollowTheOrder(o, run, j, i);
    TargetsArePlaced(before, rs, o, i, ref, j);
  }

  /** Without cycles, everything is deleted before anything else it refers to. */
  lemma CleanupRunsChildToParent(before: (Id, Id) -> bool, rs: seq<Resource>, run: seq<Name>, child: Resource,
      ref: Reference, parent: Resource)
    requires WellFormed(rs) && StrictOrder(before) && IsRun(Collection(OrderedResources(before, rs)), run)
    requires !Cyclic(ResourceGraph(rs))
    requires child in rs && ref in child.references && parent in rs && parent.id == ref.target && parent.id != child.id
    ensures Earlier(run, Name(child.entity, Delete), Name(parent.entity, Delete))
  {
    CleanupRunsChildToParentExactly(before, rs, run, child, ref, parent);
  }

  // An example with a cycle.

  function Waiting(): Resource { Resource("a", "A", [Owned("a", "id", "id", false)], true,
      [Owned("a", "d", "d", false)],
                                          [Reference([Owned("a", "d", "d", false)], "d",
                                              [Owned("d", "id", "id", false)])]) }

  function Left(): Resource { Resource("c", "C", [Owned("c", "id", "id", false)], true, [Owned("c", "d", "d", true)],
                                       [Reference([Owned("c", "d", "d", true)], "d",
                                           [Owned("d", "id", "id", false)])]) }

  function Right(): Resource { Resource("d", "D", [Owned("d", "id", "id", false)], true, [Owned("d", "c", "c", true)],
                                        [Reference([Owned("d", "c", "c", true)], "c",
                                            [Owned("c", "id", "id", false)])]) }

  function WaitingOnACycle(): seq<Resource> { [Waiting(), Left(), Right()] }

  /** Everything on a cycle can be left out at first. */
  ghost predicate CyclesCanBeOpened(rs: seq<Resource>) {
    forall r, ref :: r in rs && ref in r.references && Reaches(ResourceGraph(rs), ref.target, r.id) ==>
        AllNullable(ref.local)
  }

  lemma WaitingOnACycleDependencies()
    ensures IdsOf(WaitingOnACycle()) == ["a", "c", "d"]
    ensures ResourceDependencies(WaitingOnACycle()) == map["a" := ["d"], "c" := ["d"], "d" := ["c"]]
  {
    var rs := WaitingOnACycle();
    assert rs[..2] == [Waiting(), Left()] && rs[..2][..1] == [Waiting()] && rs[..1][..0] == [];
    assert ResourceDependencies([Waiting()]) == map["a" := DependencyIds(Waiting())];
    assert ResourceDependencies([Waiting(), Left()])
        == map["a" := DependencyIds(Waiting()), "c" := DependencyIds(Left())];
    assert Map(TargetOf(), Waiting().references) == ["d"] && Map(TargetOf(), Left().references) == ["d"]
        && Map(TargetOf(), Right().references) == ["c"];
    KeepsOne("a", "d");
    KeepsOne("c", "d");
    KeepsOne("d", "c");
  }

  lemma KeepsOne(id: Id, target: Id)
    requires id != target
    ensures Filter(OtherThan(id), [target]) == [target]
  {
    assert [target][1..] == [];
  }

  lemma NothingLeavesTheCycle()
    ensures !Reaches(ResourceGraph(WaitingOnACycle()), "d", "a")
  {
    WaitingOnACycleDependencies();
    var g := ResourceGraph(WaitingOnACycle());
    assert ClosedUnder(g, {"c", "d"}) by {
      forall e | e in g && e.0 in {"c", "d"} ensures e.1 in {"c", "d"} {}
    }
    if Reaches(g, "d", "a") { ClosedSetsConfine(g, {"c", "d"}, "d", "a"); }
  }

  lemma EverythingWaits()
    ensures ReadyOf(ResourceDependencies(WaitingOnACycle()), IdsOf(WaitingOnACycle())) == []
  {
    WaitingOnACycleDependencies();
    var d, ids := ResourceDependencies(WaitingOnACycle()), IdsOf(WaitingOnACycle());
    BlockedBy(d, ids, "a", "d");
    BlockedBy(d, ids, "c", "d");
    BlockedBy(d, ids, "d", "c");
    forall a | a in ids ensures !IsReady(d, ids)(a) {}
    FilterNone(IsReady(d, ids), ids);
  }

  lemma SmallestIsFirst(before: (Id, Id) -> bool, s: seq<Id>, x: Id)
    requires StrictOrder(before) && Ordered(before, s) && x in s && forall y :: y in s ==> y == x || before(x, y)
    ensures s[0] == x
  {
    var k :| 0 <= k < |s| && s[k] == x;
    assert s[0] in s;
  }

  lemma SmallestComesFirst(before: (Id, Id) -> bool, ids: seq<Id>, x: Id)
    requires StrictOrder(before) && Distinct(ids) && x in ids && forall y :: y in ids ==> y == x || before(x, y)
    ensures |Sorted(before, ids)| > 0 && Sorted(before, ids)[0] == x
  {
    SortedIsOrdered(before, ids);
    SameMembers(Sorted(before, ids), ids);
    SmallestIsFirst(before, Sorted(before, ids), x);
  }

  lemma WaitingOnACycleIsIdentified()
    ensures Identified(WaitingOnACycle())
  {
    var rs := WaitingOnACycle();
    assert IdsOf(rs) == ["a", "c", "d"] && Map(EntityOf(), rs) == ["A", "C", "D"];
    assert "a"[0] == 'a' && "c"[0] == 'c' && "d"[0] == 'd' && "A"[0] == 'A' && "C"[0] == 'C' && "D"[0] == 'D';
  }

  lemma WaitingOnACycleIsWellFormed()
    ensures WellFormed(WaitingOnACycle())
  {
    var rs := WaitingOnACycle();
    WaitingOnACycleIsIdentified();
    var ids := IdsOf(rs);
    assert ids[1] == "c" && ids[2] == "d";
    forall r, ref | r in rs && ref in r.references ensures |ref.local| == |ref.referenced| && ref.target in ids {
      assert ref == r.references[0];
    }
  }

  lemma WaitingOnACycleCanBeOpened()
    ensures CyclesCanBeOpened(WaitingOnACycle())
  {
    var rs := WaitingOnACycle();
    NothingLeavesTheCycle();
    forall r, ref | r in rs && ref in r.references && Reaches(ResourceGraph(rs), ref.target, r.id)
        ensures AllNullable(ref.local) {
      assert ref == r.references[0] && r != Waiting();
    }
  }

  lemma WaitingNeedsItsTarget()
    ensures NeedsAtCreation(WaitingOnACycle(), Waiting(), Owned("a", "d", "d", false), Waiting().references[0])
  {
    NothingLeavesTheCycle();
    assert HasLocal(Owned("a", "d", "d", false))(Waiting().references[0]);
    assert Payload(Waiting()) == [] + Waiting().fields;
    assert Waiting().fields[0] in Payload(Waiting());
  }

  /** When nothing is ready at the beginning, the smallest id comes first. */
  lemma SmallestResourceIsFirst(before: (Id, Id) -> bool, rs: seq<Resource>, r: Resource)
    requires StrictOrder(before) && Identified(rs) && r in rs && ReadyOf(ResourceDependencies(rs), IdsOf(rs)) == []
    requires forall q :: q in rs ==> q == r || before(r.id, q.id)
    ensures OrderedResources(before, rs) != [] && OrderedResources(before, rs)[0] == r
  {
    var o := OrderedResources(before, rs);
    OrderedResourcesArePermuted(before, rs);
    SameMembers(o, rs);
    MapTarget(IdOf(), rs, r);
    forall id | id in IdsOf(rs) ensures id == r.id || before(r.id, id) { var q := MapSource(IdOf(), rs, id); }
    SmallestComesFirst(before, IdsOf(rs), r.id);
    assert IdsOf(o)[0] == o[0].id == r.id;
    assert o[0] in o;
    DistinctMeansEqual(IdOf(), rs, o[0], r);
  }

  lemma NothingServesTheFirst(rs: seq<Resource>, o: seq<Resource>, c: Owned, ref: Reference)
    requires o != [] && NeedsAtCreation(rs, o[0], c, ref)
    ensures !NeedsComeFirst(rs, o)
  {
    assert o[..0] == [];
    assert !CreatedBefore(o, 0, ref.target);
  }

  lemma SmallestThatWaitsFails(before: (Id, Id) -> bool, rs: seq<Resource>, r: Resource, c: Owned, ref: Reference)
    requires StrictOrder(before) && WellFormed(rs) && r in rs && ReadyOf(ResourceDependencies(rs), IdsOf(rs)) == []
    requires forall q :: q in rs ==> q == r || before(r.id, q.id)
    requires NeedsAtCreation(rs, r, c, ref)
    ensures multiset(OrderedResources(before, rs)) == multiset(rs) && !Safe(rs, OrderedResources(before, rs))
  {
    SmallestResourceIsFirst(before, rs, r);
    OrderedResourcesArePermuted(before, rs);
    SafeExactlyWhenNeedsComeFirst(rs, OrderedResources(before, rs));
    NothingServesTheFirst(rs, OrderedResources(before, rs), c, ref);
  }

  /**
   The collection promises that cycles of nullable references work. They do not when another resource waits for one of
   the cycle: with a cycle nothing is ordered any more, and the waiting resource may be created first.
   */
  lemma OpenedCyclesMayStillFail(before: (Id, Id) -> bool) returns (rs: seq<Resource>)
    requires StrictOrder(before) && before("a", "c") && before("a", "d")
    ensures WellFormed(rs) && CyclesCanBeOpened(rs)
    ensures multiset(OrderedResources(before, rs)) == multiset(rs) && !Safe(rs, OrderedResources(before, rs))
  {
    rs := WaitingOnACycle();
    WaitingOnACycleIsWellFormed();
    WaitingOnACycleCanBeOpened();
    EverythingWaits();
    WaitingNeedsItsTarget();
    WaitingIsSmallest(before);
    SmallestThatWaitsFails(before, rs, Waiting(), Owned("a", "d", "d", false), Waiting().references[0]);
  }

  lemma WaitingIsSmallest(before: (Id, Id) -> bool)
    requires before("a", "c") && before("a", "d")
    ensures Waiting() in WaitingOnACycle() && forall q :: q in WaitingOnACycle() ==>
              q == Waiting() || before(Waiting().id, q.id)
  {
    assert WaitingOnACycle()[0] == Waiting();
  }
}
