/** The order in which the resources of a generated project are created, and the search for cycles among them. */
module Dependencies {

  import opened Sequences
  import opened Sorting
  import opened Permutations
  import opened Graphs

  type Id = Node

  /** For every resource the resources it refers to. */
  type Dependencies = map<Id, seq<Id>>

  function DependenciesOf(d: Dependencies, a: Id): seq<Id> { if a in d then d[a] else [] }

  ghost function GraphOf(d: Dependencies): Graph { set a, b | a in d && b in d[a] :: (a, b) }

  // The search for a path.

  /** What has been seen, apart from what is being searched, leads only to what has been seen. */
  ghost predicate Explored(d: Dependencies, seen: set<Id>, active: set<Id>) {
    forall e :: e in GraphOf(d) && e.0 in seen && e.0 !in active ==> e.1 in seen
  }

  /** The set of visited ids is shared by all branches of a search. */
  class Search {
    const dependencies: Dependencies
    var seen: set<Id>

    constructor (dependencies: Dependencies)
      ensures this.dependencies == dependencies && seen == {}
    {
      this.dependencies := dependencies;
      seen := {};
    }

    method Visit(start: Id, target: Id, ghost active: set<Id>) returns (found: bool)
      requires target !in seen && Explored(dependencies, seen, active)
      modifies this
      ensures old(seen) <= seen
      ensures found ==> Reaches(GraphOf(dependencies), start, target)
      ensures !found ==> start in seen && target !in seen && Explored(dependencies, seen, active)
      decreases dependencies.Keys - seen
    {
      if start == target {
        ReachesSelf(GraphOf(dependencies), start);
        return true;
      }
      if start in seen { return false; }
      seen := seen + {start};
      if start !in dependencies { return false; }
      var next := dependencies[start];
      for i := 0 to |next|
        invariant old(seen) + {start} <= seen && target !in seen
        invariant Explored(dependencies, seen, active + {start})
        invariant forall j :: 0 <= j < i ==> next[j] in seen
      {
        found := Visit(next[i], target, active + {start});
        if found {
          assert (start, next[i]) in GraphOf(dependencies);
          assert Leads(GraphOf(dependencies), start, target);
          LeadsReaches(GraphOf(dependencies), start, target);
          return true;
        }
      }
      return false;
    }
  }

  /** Sharing the set of visited ids between the branches loses no path and invents none. */
  method PathExists(start: Id, target: Id, d: Dependencies) returns (found: bool)
    ensures found <==> Reaches(GraphOf(d), start, target)
  {
    var search := new Search(d);
    found := search.Visit(start, target, {});
    if !found && Reaches(GraphOf(d), start, target) {
      ClosedSetsConfine(GraphOf(d), search.seen, start, target);
      assert false;
    }
  }

  method OnCycle(d: Dependencies, id: Id) returns (found: bool)
    ensures found <==> Leads(GraphOf(d), id, id)
  {
    var next := DependenciesOf(d, id);
    for i := 0 to |next|
      invariant forall j :: 0 <= j < i ==> !Reaches(GraphOf(d), next[j], id)
    {
      found := PathExists(next[i], id, d);
      if found {
        assert (id, next[i]) in GraphOf(d);
        return true;
      }
    }
    return false;
  }

  /** The resources that depend on themselves through others. */
  method DependencyCycles(d: Dependencies, ids: seq<Id>) returns (cycles: seq<Id>)
    ensures forall x :: x in cycles <==> x in ids && Leads(GraphOf(d), x, x)
  {
    cycles := [];
    for i := 0 to |ids|
      invariant forall x :: x in cycles <==> x in ids[..i] && Leads(GraphOf(d), x, x)
    {
      var found := OnCycle(d, ids[i]);
      if found { cycles := cycles + [ids[i]]; }
    }
  }

  // The order.

  function Among(remaining: seq<Id>): Id -> bool { (b: Id) => b in remaining }

  predicate Blocked(d: Dependencies, remaining: seq<Id>, a: Id) { Filter(Among(remaining), DependenciesOf(d, a)) != [] }

  lemma BlockedBy(d: Dependencies, remaining: seq<Id>, a: Id, b: Id)
    requires b in DependenciesOf(d, a) && b in remaining
    ensures Blocked(d, remaining, a)
  {
    assert b in Filter(Among(remaining), DependenciesOf(d, a));
  }

  function IsBlocked(d: Dependencies, remaining: seq<Id>): Id -> bool { (a: Id) => Blocked(d, remaining, a) }

  function IsReady(d: Dependencies, remaining: seq<Id>): Id -> bool { (a: Id) => !Blocked(d, remaining, a) }

  function ReadyOf(d: Dependencies, remaining: seq<Id>): (r: seq<Id>)
    ensures forall a :: a in r <==> a in remaining && !Blocked(d, remaining, a)
  {
    Filter(IsReady(d, remaining), remaining)
  }

  /** What waits for another round; less than before as soon as something is ready. */
  function WaitingOf(d: Dependencies, remaining: seq<Id>): (r: seq<Id>)
    ensures forall a :: a in r <==> a in remaining && Blocked(d, remaining, a)
    ensures multiset(ReadyOf(d, remaining)) + multiset(r) == multiset(remaining)
    ensures ReadyOf(d, remaining) != [] ==> |r| < |remaining|
  {
    var r := Filter(IsBlocked(d, remaining), remaining);
    FilterPartition(IsReady(d, remaining), IsBlocked(d, remaining), remaining);
    assert |multiset(ReadyOf(d, remaining))| + |multiset(r)| == |multiset(remaining)|;
    r
  }

  /** Rounds: first everything that waits for nothing left; when everything left waits, all of it by id. */
  function Order(before: (Id, Id) -> bool, d: Dependencies, remaining: seq<Id>): seq<Id>
    decreases |remaining|
  {
    if ReadyOf(d, remaining) == [] then Sorted(before, remaining)
    else Sorted(before, ReadyOf(d, remaining)) + Order(before, d, WaitingOf(d, remaining))
  }

  /** Some round finds nothing ready. */
  predicate GetsStuck(d: Dependencies, remaining: seq<Id>)
    decreases |remaining|
  {
    remaining != [] && (ReadyOf(d, remaining) == [] || GetsStuck(d, WaitingOf(d, remaining)))
  }

  /** Every resource is in the order once. */
  lemma {:induction false} OrderIsAPermutation(before: (Id, Id) -> bool, d: Dependencies, remaining: seq<Id>)
    ensures multiset(Order(before, d, remaining)) == multiset(remaining)
    decreases |remaining|
  {
    if ReadyOf(d, remaining) != [] { OrderIsAPermutation(before, d, WaitingOf(d, remaining)); }
  }

  ghost predicate DependenciesFirst(d: Dependencies, s: seq<Id>) {
    forall i, j :: 0 <= i < |s| && 0 <= j < |s| && s[j] in DependenciesOf(d, s[i]) ==> j < i
  }

  lemma ReadyThenRest(d: Dependencies, remaining: seq<Id>, ready: seq<Id>, rest: seq<Id>)
    requires DependenciesFirst(d, rest) && forall a :: a in ready ==> !Blocked(d, remaining, a)
    requires forall b :: b in ready + rest ==> b in remaining
    ensures DependenciesFirst(d, ready + rest)
  {
    var all := ready + rest;
    assert forall k :: 0 <= k < |ready| ==> all[k] in ready;
    forall i, j | 0 <= i < |all| && 0 <= j < |all| && all[j] in DependenciesOf(d, all[i]) ensures j < i {
      assert all[j] in remaining;
      BlockedBy(d, remaining, all[i], all[j]);
      if |ready| <= i && |ready| <= j { assert rest[j - |ready|] in DependenciesOf(d, rest[i - |ready|]); }
    }
  }

  /** As long as no round gets stuck, every resource comes after the resources it refers to. */
  lemma {:induction false} OrderPutsDependenciesFirst(before: (Id, Id) -> bool, d: Dependencies, remaining: seq<Id>)
    requires !GetsStuck(d, remaining)
    ensures DependenciesFirst(d, Order(before, d, remaining))
    decreases |remaining|
  {
    if remaining != [] {
      var ready, rest := Sorted(before, ReadyOf(d, remaining)), Order(before, d, WaitingOf(d, remaining));
      OrderPutsDependenciesFirst(before, d, WaitingOf(d, remaining));
      OrderIsAPermutation(before, d, WaitingOf(d, remaining));
      SameMembers(rest, WaitingOf(d, remaining));
      SameMembers(ready, ReadyOf(d, remaining));
      ReadyThenRest(d, remaining, ready, rest);
    }
  }

  // Stuck exactly on cycles.

  function Ids(s: seq<Id>): set<Id> { set x | x in s }

  lemma BlockedHasSuccessor(d: Dependencies, remaining: seq<Id>, a: Id)
    requires Blocked(d, remaining, a)
    ensures HasSuccessor(GraphOf(d), Ids(remaining), a)
  {
    var b := Filter(Among(remaining), DependenciesOf(d, a))[0];
    assert b in Filter(Among(remaining), DependenciesOf(d, a));
    assert b in Ids(remaining) && (a, b) in GraphOf(d);
  }

  lemma NothingReadyIsSinkless(d: Dependencies, remaining: seq<Id>)
    requires ReadyOf(d, remaining) == []
    ensures Sinkless(GraphOf(d), Ids(remaining))
  {
    forall a | a in Ids(remaining) ensures HasSuccessor(GraphOf(d), Ids(remaining), a) {
      assert a !in ReadyOf(d, remaining);
      BlockedHasSuccessor(d, remaining, a);
    }
  }

  lemma NothingReadyIsCyclic(d: Dependencies, remaining: seq<Id>)
    requires remaining != [] && ReadyOf(d, remaining) == []
    ensures Cyclic(GraphOf(d))
  {
    NothingReadyIsSinkless(d, remaining);
    assert remaining[0] in Ids(remaining);
    var x := SinklessSetsAreCyclic(GraphOf(d), Ids(remaining));
  }

  lemma {:induction false} StuckIsCyclic(d: Dependencies, remaining: seq<Id>)
    requires GetsStuck(d, remaining)
    ensures Cyclic(GraphOf(d))
    decreases |remaining|
  {
    if ReadyOf(d, remaining) == [] {
      NothingReadyIsCyclic(d, remaining);
    } else {
      StuckIsCyclic(d, WaitingOf(d, remaining));
    }
  }

  ghost function PositionOf(s: seq<Id>, x: Id): (i: nat)
    requires x in s
    ensures i < |s| && s[i] == x
  {
    if s[0] == x then 0 else 1 + PositionOf(s[1..], x)
  }

  lemma EdgesGoBack(d: Dependencies, s: seq<Id>, a: Id, b: Id)
    requires DependenciesFirst(d, s) && (a, b) in GraphOf(d) && a in s && b in s
    ensures PositionOf(s, b) < PositionOf(s, a)
  {
  }

  lemma {:induction false} WalksGoBack(d: Dependencies, s: seq<Id>, p: seq<Id>)
    requires DependenciesFirst(d, s) && Walk(GraphOf(d), p) && p[|p| - 1] in s
    requires forall a :: a in d ==> a in s
    ensures p[0] in s && PositionOf(s, p[|p| - 1]) <= PositionOf(s, p[0])
  {
    if |p| > 1 {
      WalksGoBack(d, s, p[1..]);
      assert (p[0], p[1]) in GraphOf(d);
      EdgesGoBack(d, s, p[0], p[1]);
    }
  }

  lemma FirstIsAcyclic(d: Dependencies, s: seq<Id>)
    requires DependenciesFirst(d, s) && forall a :: a in d ==> a in s
    ensures !Cyclic(GraphOf(d))
  {
    if Cyclic(GraphOf(d)) {
      var a :| Leads(GraphOf(d), a, a);
      var c :| (a, c) in GraphOf(d) && Reaches(GraphOf(d), c, a);
      var p :| WalkBetween(GraphOf(d), p, c, a);
      WalksGoBack(d, s, p);
      EdgesGoBack(d, s, a, c);
    }
  }

  /** The fallback is taken exactly when some resource depends on itself through others. */
  lemma FallbackExactlyOnCycles(before: (Id, Id) -> bool, d: Dependencies, ids: seq<Id>)
    requires forall a :: a in d <==> a in ids
    ensures GetsStuck(d, ids) <==> exists x :: x in ids && Leads(GraphOf(d), x, x)
  {
    if GetsStuck(d, ids) {
      StuckIsCyclic(d, ids);
      var x :| Leads(GraphOf(d), x, x);
      assert x in d;
    } else {
      OrderPutsDependenciesFirst(before, d, ids);
      OrderIsAPermutation(before, d, ids);
      SameMembers(Order(before, d, ids), ids);
      FirstIsAcyclic(d, Order(before, d, ids));
    }
  }

  // The order on any input.

  /** Everything that leads to a cycle is still there. */
  ghost predicate KeepsDoomed(d: Dependencies, remaining: seq<Id>) {
    forall a :: a in d && Doomed(GraphOf(d), a) ==> a in remaining
  }

  lemma DoomedIsBlocked(d: Dependencies, remaining: seq<Id>, a: Id)
    requires KeepsDoomed(d, remaining) && Doomed(GraphOf(d), a)
    ensures Blocked(d, remaining, a)
  {
    var b := DoomedGoesOn(GraphOf(d), a);
    var c := DoomedGoesOn(GraphOf(d), b);
    BlockedBy(d, remaining, a, b);
  }

  lemma WaitingKeepsDoomed(d: Dependencies, remaining: seq<Id>)
    requires KeepsDoomed(d, remaining)
    ensures KeepsDoomed(d, WaitingOf(d, remaining)) && forall a :: a in ReadyOf(d, remaining) ==> !Doomed(GraphOf(d), a)
  {
    forall a | Doomed(GraphOf(d), a) ensures Blocked(d, remaining, a) { DoomedIsBlocked(d, remaining, a); }
  }

  /** A dependency comes first unless it leads to a cycle; then the ids decide. */
  ghost predicate PlacedBy(before: (Id, Id) -> bool, d: Dependencies, s: seq<Id>) {
    forall i, j :: 0 <= i < |s| && 0 <= j < |s| && s[j] in DependenciesOf(d, s[i]) ==>
      (j < i <==> !Doomed(GraphOf(d), s[j]) || before(s[j], s[i]))
  }

  lemma ReadyThenPlaced(before: (Id, Id) -> bool, d: Dependencies, remaining: seq<Id>, ready: seq<Id>, rest: seq<Id>)
    requires PlacedBy(before, d, rest) && forall a :: a in ready ==> !Blocked(d, remaining, a) && !Doomed(GraphOf(d), a)
    requires forall b :: b in ready + rest ==> b in remaining
    ensures PlacedBy(before, d, ready + rest)
  {
    var all := ready + rest;
    assert forall k :: 0 <= k < |ready| ==> all[k] in ready;
    forall i, j | 0 <= i < |all| && 0 <= j < |all| && all[j] in DependenciesOf(d, all[i])
      ensures j < i <==> !Doomed(GraphOf(d), all[j]) || before(all[j], all[i])
    {
      assert all[j] in remaining;
      BlockedBy(d, remaining, all[i], all[j]);
      if |ready| <= j { assert rest[j - |ready|] in DependenciesOf(d, rest[i - |ready|]); }
    }
  }

  lemma StuckIsPlaced(before: (Id, Id) -> bool, d: Dependencies, remaining: seq<Id>)
    requires StrictOrder(before) && Distinct(remaining) && ReadyOf(d, remaining) == []
    ensures PlacedBy(before, d, Sorted(before, remaining))
  {
    var s := Sorted(before, remaining);
    SortedIsOrdered(before, remaining);
    SameMembers(s, remaining);
    NothingReadyIsSinkless(d, remaining);
    forall i, j | 0 <= i < |s| && 0 <= j < |s| && s[j] in DependenciesOf(d, s[i])
      ensures j < i <==> !Doomed(GraphOf(d), s[j]) || before(s[j], s[i])
    {
      assert s[j] in s;
      SinklessSetsAreDoomed(GraphOf(d), Ids(remaining), s[j]);
      OrderedDecides(before, s, j, i);
    }
  }

  lemma OrderedDecides(before: (Id, Id) -> bool, s: seq<Id>, j: nat, i: nat)
    requires StrictOrder(before) && Ordered(before, s) && j < |s| && i < |s|
    ensures j < i <==> before(s[j], s[i])
  {
    assert j < i ==> before(s[j], s[i]);
    assert i < j ==> before(s[i], s[j]);
  }

  lemma WaitingIsDistinct(d: Dependencies, remaining: seq<Id>)
    requires Distinct(remaining)
    ensures Distinct(WaitingOf(d, remaining))
  {
    FewerAreDistinct(WaitingOf(d, remaining), remaining);
  }

  lemma RoundIsPlaced(before: (Id, Id) -> bool, d: Dependencies, remaining: seq<Id>, rest: seq<Id>)
    requires KeepsDoomed(d, remaining) && PlacedBy(before, d, rest)
               && multiset(rest) == multiset(WaitingOf(d, remaining))
    ensures PlacedBy(before, d, Sorted(before, ReadyOf(d, remaining)) + rest)
  {
    var ready := Sorted(before, ReadyOf(d, remaining));
    WaitingKeepsDoomed(d, remaining);
    SameMembers(rest, WaitingOf(d, remaining));
    SameMembers(ready, ReadyOf(d, remaining));
    ReadyThenPlaced(before, d, remaining, ready, rest);
  }

  /** Where a dependency stands, on any input. */
  lemma {:induction false} OrderPlacesDependencies(before: (Id, Id) -> bool, d: Dependencies, remaining: seq<Id>)
    requires StrictOrder(before) && Distinct(remaining) && KeepsDoomed(d, remaining)
    ensures PlacedBy(before, d, Order(before, d, remaining))
    decreases |remaining|
  {
    if ReadyOf(d, remaining) == [] {
      StuckIsPlaced(before, d, remaining);
    } else {
      WaitingKeepsDoomed(d, remaining);
      WaitingIsDistinct(d, remaining);
      OrderPlacesDependencies(before, d, WaitingOf(d, remaining));
      OrderIsAPermutation(before, d, WaitingOf(d, remaining));
      RoundIsPlaced(before, d, remaining, Order(before, d, WaitingOf(d, remaining)));
    }
  }

  // The loop.

  function Waits(d: Dependencies, left: set<Id>, a: Id): set<Id> { set b | b in DependenciesOf(d, a) && b in left }

  /** What every remaining resource still waits for. */
  function Unresolved(d: Dependencies, left: set<Id>): map<Id, set<Id>> { map a | a in left :: Waits(d, left, a) }

  function WithoutId(unresolved: map<Id, set<Id>>, id: Id): map<Id, set<Id>> {
    map a | a in unresolved && a != id :: unresolved[a] - {id}
  }

  function IsResolved(unresolved: map<Id, set<Id>>): Id -> bool { (a: Id) => a in unresolved && unresolved[a] == {} }

  function IsLeft(unresolved: map<Id, set<Id>>): Id -> bool { (a: Id) => a in unresolved }

  lemma PendingIsUnresolved(d: Dependencies, keys: seq<Id>, a: Id)
    ensures Blocked(d, keys, a) <==> Waits(d, Ids(keys), a) != {}
  {
    var pending := Filter(Among(keys), DependenciesOf(d, a));
    assert forall b :: b in pending <==> b in Waits(d, Ids(keys), a);
    if pending != [] { assert pending[0] in pending; }
  }

  lemma ResolvedIsReady(d: Dependencies, keys: seq<Id>)
    ensures Filter(IsResolved(Unresolved(d, Ids(keys))), keys) == ReadyOf(d, keys)
  {
    var unresolved := Unresolved(d, Ids(keys));
    forall a | a in keys ensures IsResolved(unresolved)(a) == IsReady(d, keys)(a) {
      assert a in unresolved;
      PendingIsUnresolved(d, keys, a);
    }
    FilterSame(IsResolved(unresolved), IsReady(d, keys), keys);
  }

  lemma LeftIsWaiting(d: Dependencies, keys: seq<Id>, ready: seq<Id>)
    requires forall x :: x in ready <==> x in ReadyOf(d, keys)
    ensures var left := Ids(keys) - Ids(ready);
      Filter(IsLeft(Unresolved(d, left)), keys) == WaitingOf(d, keys) && left == Ids(WaitingOf(d, keys))
  {
    FilterSame(IsLeft(Unresolved(d, Ids(keys) - Ids(ready))), IsBlocked(d, keys), keys);
  }

  lemma RemovalResolves(d: Dependencies, left: set<Id>, id: Id)
    ensures WithoutId(Unresolved(d, left), id) == Unresolved(d, left - {id})
  {
    forall a ensures Waits(d, left, a) - {id} == Waits(d, left - {id}, a) {}
  }

  /** Taking the resources of a round out one after the other leaves what waits for the next. */
  method Resolve(d: Dependencies, ghost left: set<Id>, ready: seq<Id>, unresolved: map<Id, set<Id>>)
    returns (now: map<Id, set<Id>>)
    requires unresolved == Unresolved(d, left)
    ensures now == Unresolved(d, left - Ids(ready))
  {
    now := unresolved;
    assert left - Ids(ready[..0]) == left;
    for i := 0 to |ready|
      invariant now == Unresolved(d, left - Ids(ready[..i]))
    {
      RemovalResolves(d, left - Ids(ready[..i]), ready[i]);
      assert left - Ids(ready[..i]) - {ready[i]} == left - Ids(ready[..i + 1]);
      now := WithoutId(now, ready[i]);
    }
    assert ready[..|ready|] == ready;
  }

  method DependencyOrder(before: (Id, Id) -> bool, d: Dependencies, ids: seq<Id>) returns (ordered: seq<Id>)
    ensures ordered == Order(before, d, ids)
  {
    var keys := ids;
    var unresolved := Unresolved(d, Ids(ids));
    ordered := [];
    while keys != []
      invariant unresolved == Unresolved(d, Ids(keys))
      invariant ordered + Order(before, d, keys) == Order(before, d, ids)
      decreases |keys|
    {
      ResolvedIsReady(d, keys);
      var ready := Sorted(before, Filter(IsResolved(unresolved), keys));
      SameMembers(ready, ReadyOf(d, keys));
      if ready == [] {
        ordered := ordered + Sorted(before, keys);
        return;
      }
      Appended(ordered, ready, Order(before, d, WaitingOf(d, keys)));
      ordered := ordered + ready;
      unresolved := Resolve(d, Ids(keys), ready, unresolved);
      LeftIsWaiting(d, keys, ready);
      keys := Filter(IsLeft(unresolved), keys);
    }
    assert ReadyOf(d, keys) == [];
  }

  lemma Appended(a: seq<Id>, b: seq<Id>, c: seq<Id>)
    ensures a + (b + c) == a + b + c
  {
  }
}
