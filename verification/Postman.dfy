/** The generated request collection: the order in which its requests run and the variables they pass on. */
module Postman {

  import opened Wrappers
  import opened Sequences
  import opened Permutations
  import opened Dependencies

  /** A column with the table that owns it; two are the same column only if they are equal. */
  datatype Owned = Owned(table: Id, column: Id, property: string, nullable: bool)

  /** A foreign key: its columns, the resource that exposes the table it points at, and the columns it points at. */
  datatype Reference = Reference(local: seq<Owned>, target: Id, referenced: seq<Owned>)

  datatype Resource = Resource(
    id: Id, entity: string, identifier: seq<Owned>, generated: bool, fields: seq<Owned>, references: seq<Reference>)

  function IdOf(): Resource -> Id { (r: Resource) => r.id }

  function EntityOf(): Resource -> string { (r: Resource) => r.entity }

  /** Ids and entity names are unique, every reference has its target among the resources and pairs its columns. */
  ghost predicate WellFormed(rs: seq<Resource>) {
    && Distinct(Map(IdOf(), rs)) && Distinct(Map(EntityOf(), rs))
    && forall r, ref :: r in rs && ref in r.references ==>
         |ref.local| == |ref.referenced| && ref.target in Map(IdOf(), rs)
  }

  function TargetOf(): Reference -> Id { (ref: Reference) => ref.target }

  function OtherThan(id: Id): Id -> bool { (x: Id) => x != id }

  /** The other resources a resource refers to. */
  function DependencyIds(r: Resource): seq<Id> { Filter(OtherThan(r.id), Map(TargetOf(), r.references)) }

  function ResourceDependencies(rs: seq<Resource>): Dependencies {
    if rs == [] then map[] else ResourceDependencies(rs[..|rs| - 1])[rs[|rs| - 1].id := DependencyIds(rs[|rs| - 1])]
  }

  // Requests.

  datatype Action = Create | ListAll | Get | Update | Delete

  datatype Step = Step(resource: Resource, action: Action)

  datatype Name = Name(entity: string, action: Action)

  datatype Item = Item(name: Name, next: Option<Name>)

  function Doing(action: Action): Resource -> Step { (r: Resource) => Step(r, action) }

  function NameOf(): Step -> Name { (s: Step) => Name(s.resource.entity, s.action) }

  /** All creations, then everything is listed, read and updated, and at last deleted in the opposite order. */
  function Actions(o: seq<Resource>): seq<Step> {
    Map(Doing(Create), o) + Map(Doing(ListAll), o) + Map(Doing(Get), o) + Map(Doing(Update), o)
        + Map(Doing(Delete), Reversed(o))
  }

  /** The name of the request after each of the first n. */
  function NextActions(actions: seq<Step>, n: nat): map<(Id, Action), Option<Name>>
    requires n <= |actions|
  {
    if n == 0 then map[]
    else
      NextActions(actions, n - 1)[(actions[n - 1].resource.id, actions[n - 1].action) :=
        if n < |actions| then Some(NameOf()(actions[n])) else None]
  }

  function ItemOf(next: map<(Id, Action), Option<Name>>, r: Resource, action: Action): Item {
    Item(Name(r.entity, action), if (r.id, action) in next then next[(r.id, action)] else None)
  }

  function FolderOf(next: map<(Id, Action), Option<Name>>): Resource -> seq<Item> { (r: Resource) => Folder(next, r) }

  function Folder(next: map<(Id, Action), Option<Name>>, r: Resource): seq<Item> {
    [ItemOf(next, r, Create), ItemOf(next, r, ListAll), ItemOf(next, r, Get), ItemOf(next, r, Update),
        ItemOf(next, r, Delete)]
  }

  /** A folder with five requests for every resource. */
  function Collection(o: seq<Resource>): seq<Item> {
    FlatMap(FolderOf(NextActions(Actions(o), |Actions(o)|)), o)
  }

  // How the collection runs.

  function Named(name: Name): Item -> bool { (i: Item) => i.name == name }

  function NextAfter(items: seq<Item>, name: Name): Option<Name> {
    match IndexWhere(Named(name), items)
    case None => None
    case Some(i) => items[i].next
  }

  function At(run: seq<Name>, i: nat): Option<Name> { if i < |run| then Some(run[i]) else None }

  /** Running starts with the first request; every request names the one to run next, or ends the run. */
  ghost predicate IsRun(items: seq<Item>, run: seq<Name>) {
    && (items == [] ==> run == [])
    && (items != [] ==> run != [] && run[0] == items[0].name)
    && forall i {:trigger NextAfter(items, run[i])} :: 0 <= i < |run| ==> NextAfter(items, run[i]) == At(run, i + 1)
  }

  function AllNames(o: seq<Resource>): seq<Name> { Map(NameOf(), Actions(o)) }

  lemma ReversedHasAll(o: seq<Resource>)
    ensures multiset(Reversed(o)) == multiset(o) && forall r :: r in Reversed(o) <==> r in o
  {
    ReversedPermutes(o);
    SameMembers(Reversed(o), o);
  }

  lemma StepsAreDistinct(o: seq<Resource>, action: Action)
    requires Distinct(o)
    ensures Distinct(Map(Doing(action), o))
  {
    MapDistinct(Doing(action), o);
  }

  lemma ActionsMembers(o: seq<Resource>, s: Step)
    ensures s in Actions(o) <==> s.resource in o
  {
    ReversedHasAll(o);
    InMap(o, s, Create);
    InMap(o, s, ListAll);
    InMap(o, s, Get);
    InMap(o, s, Update);
    InMap(Reversed(o), s, Delete);
  }

  lemma InMap(o: seq<Resource>, s: Step, action: Action)
    ensures s in Map(Doing(action), o) <==> s.resource in o && s.action == action
  {
    if s.resource in o && s.action == action {
      var i :| 0 <= i < |o| && o[i] == s.resource;
      assert Map(Doing(action), o)[i] == s;
    }
  }

  ghost predicate Only(steps: seq<Step>, actions: set<Action>) { forall s :: s in steps ==> s.action in actions }

  /** Steps of another action repeat nothing. */
  lemma OneActionMore(steps: seq<Step>, actions: set<Action>, o: seq<Resource>, action: Action)
    requires Distinct(steps) && Only(steps, actions) && Distinct(o) && action !in actions
    ensures Distinct(steps + Map(Doing(action), o)) && Only(steps + Map(Doing(action), o), actions + {action})
  {
    var more := Map(Doing(action), o);
    StepsAreDistinct(o, action);
    forall s | s in more ensures s.action == action { InMap(o, s, action); }
    DistinctAppend(steps, more);
  }

  /** No request is made twice. */
  lemma ActionsAreDistinct(o: seq<Resource>)
    requires Distinct(o)
    ensures Distinct(Actions(o))
  {
    var a, b, c := Map(Doing(Create), o), Map(Doing(ListAll), o), Map(Doing(Get), o);
    assert Distinct(Reversed(o)) by {
      ReversedHasAll(o);
      PermutedIsDistinct(Reversed(o), o);
    }
    assert [] + a == a;
    OneActionMore([], {}, o, Create);
    assert {} + {Create} == {Create};
    OneActionMore(a, {Create}, o, ListAll);
    OneActionMore(a + b, {Create} + {ListAll}, o, Get);
    OneActionMore(a + b + c, {Create} + {ListAll} + {Get}, o, Update);
    OneActionMore(a + b + c + Map(Doing(Update), o), {Create} + {ListAll} + {Get} + {Update}, Reversed(o), Delete);
  }

  /** Ids and entity names tell resources apart. */
  ghost predicate Identified(o: seq<Resource>) { Distinct(Map(IdOf(), o)) && Distinct(Map(EntityOf(), o)) }

  lemma IdentifiedIsDistinct(o: seq<Resource>)
    requires Identified(o)
    ensures Distinct(o)
  {
    forall i, j | 0 <= i < j < |o| ensures o[i] != o[j] { assert Map(IdOf(), o)[i] != Map(IdOf(), o)[j]; }
  }

  ghost predicate KeysDiffer(actions: seq<Step>) {
    forall i, j :: 0 <= i < j < |actions| ==>
        actions[i].resource.id != actions[j].resource.id || actions[i].action != actions[j].action
  }

  lemma ActionKeysDiffer(o: seq<Resource>)
    requires Identified(o)
    ensures KeysDiffer(Actions(o))
  {
    var actions := Actions(o);
    IdentifiedIsDistinct(o);
    ActionsAreDistinct(o);
    forall i, j | 0 <= i < j < |actions| && actions[i].resource.id == actions[j].resource.id
        ensures actions[i].action != actions[j].action {
      ActionsMembers(o, actions[i]);
      ActionsMembers(o, actions[j]);
      DistinctMeansEqual(IdOf(), o, actions[i].resource, actions[j].resource);
    }
  }

  lemma {:induction false} NextActionAt(actions: seq<Step>, n: nat, i: nat)
    requires KeysDiffer(actions) && i < n <= |actions|
    ensures var key := (actions[i].resource.id, actions[i].action);
      && key in NextActions(actions, n)
      && NextActions(actions, n)[key] == if i + 1 < |actions| then Some(NameOf()(actions[i + 1])) else None
  {
    if i < n - 1 { NextActionAt(actions, n - 1, i); }
  }

  lemma FolderHasAction(next: map<(Id, Action), Option<Name>>, r: Resource, action: Action)
    ensures ItemOf(next, r, action) in Folder(next, r)
  {
    match action {
      case Create => assert Folder(next, r)[0] == ItemOf(next, r, action);
      case ListAll => assert Folder(next, r)[1] == ItemOf(next, r, action);
      case Get => assert Folder(next, r)[2] == ItemOf(next, r, action);
      case Update => assert Folder(next, r)[3] == ItemOf(next, r, action);
      case Delete => assert Folder(next, r)[4] == ItemOf(next, r, action);
    }
  }

  /** A name belongs to one request. */
  lemma NameDecidesTheItem(o: seq<Resource>, next: map<(Id, Action), Option<Name>>, r: Resource, action: Action,
      item: Item)
    requires Identified(o) && r in o && item in FlatMap(FolderOf(next), o) && item.name == Name(r.entity, action)
    ensures item == ItemOf(next, r, action)
  {
    var q := FlatMapSource(FolderOf(next), o, item);
    assert item in Folder(next, q);
    DistinctMeansEqual(EntityOf(), o, q, r);
  }

  lemma NextOfStep(o: seq<Resource>, next: map<(Id, Action), Option<Name>>, r: Resource, action: Action)
    requires Identified(o) && r in o
    ensures NextAfter(FlatMap(FolderOf(next), o), Name(r.entity, action)) == ItemOf(next, r, action).next
  {
    var items := FlatMap(FolderOf(next), o);
    FolderHasAction(next, r, action);
    FlatMapMember(FolderOf(next), o, r, ItemOf(next, r, action));
    var i := IndexWhere(Named(Name(r.entity, action)), items);
    assert Named(Name(r.entity, action))(ItemOf(next, r, action));
    assert i.Some?;
    NameDecidesTheItem(o, next, r, action, items[i.value]);
  }

  lemma NextInOrder(o: seq<Resource>, i: nat)
    requires Identified(o) && i < |AllNames(o)|
    ensures NextAfter(Collection(o), AllNames(o)[i]) == At(AllNames(o), i + 1)
  {
    var actions := Actions(o);
    ActionKeysDiffer(o);
    NextActionAt(actions, |actions|, i);
    ActionsMembers(o, actions[i]);
    NextOfStep(o, NextActions(actions, |actions|), actions[i].resource, actions[i].action);
  }

  lemma CollectionStartsWithTheFirstAction(o: seq<Resource>)
    ensures Collection(o) == [] <==> AllNames(o) == []
    ensures |AllNames(o)| == 5 * |o|
    ensures o != [] ==> Collection(o)[0].name == AllNames(o)[0]
  {
    ReversedHasAll(o);
    if o != [] {
      var next := NextActions(Actions(o), |Actions(o)|);
      assert Actions(o)[0] == Map(Doing(Create), o)[0] == Step(o[0], Create);
      assert Collection(o) == Folder(next, o[0]) + FlatMap(FolderOf(next), o[1..]);
      assert Collection(o)[0] == Folder(next, o[0])[0];
    }
  }

  lemma {:induction false} RunsAgree(items: seq<Item>, a: seq<Name>, b: seq<Name>, i: nat)
    requires IsRun(items, a) && IsRun(items, b) && i < |a|
    ensures i < |b| && a[i] == b[i]
  {
    if i > 0 {
      RunsAgree(items, a, b, i - 1);
      assert NextAfter(items, a[i - 1]) == At(a, i - 1 + 1);
      assert NextAfter(items, b[i - 1]) == At(b, i - 1 + 1);
    } else {
      assert items != [];
      assert b != [];
    }
  }

  lemma RunsAreUnique(items: seq<Item>, a: seq<Name>, b: seq<Name>)
    requires IsRun(items, a) && IsRun(items, b)
    ensures a == b
  {
    forall i | 0 <= i < |a| ensures i < |b| && a[i] == b[i] { RunsAgree(items, a, b, i); }
    assert |a| <= |b| by { if a != [] { RunsAgree(items, a, b, |a| - 1); } }
    assert |b| <= |a| by { if b != [] { RunsAgree(items, b, a, |b| - 1); } }
  }

  lemma OrderIsTheRun(o: seq<Resource>)
    requires Identified(o)
    ensures IsRun(Collection(o), AllNames(o))
  {
    CollectionStartsWithTheFirstAction(o);
    forall i | 0 <= i < |AllNames(o)|
      ensures NextAfter(Collection(o), AllNames(o)[i]) == At(AllNames(o), i + 1)
    {
      NextInOrder(o, i);
    }
  }

  /** There is exactly one run; it makes every request once, in the order of the actions. */
  lemma TheRunMakesEveryRequestOnce(o: seq<Resource>, run: seq<Name>)
    requires Identified(o)
    ensures IsRun(Collection(o), run) <==> run == AllNames(o)
    ensures |AllNames(o)| == 5 * |o| && Distinct(AllNames(o))
    ensures forall item :: item in Collection(o) ==> item.name in AllNames(o)
  {
    CollectionStartsWithTheFirstAction(o);
    OrderIsTheRun(o);
    if IsRun(Collection(o), run) { RunsAreUnique(Collection(o), run, AllNames(o)); }
    NamesAreDistinct(o);
    ItemsAreNamed(o);
  }

  lemma NamesAreDistinct(o: seq<Resource>)
    requires Identified(o)
    ensures Distinct(AllNames(o))
  {
    IdentifiedIsDistinct(o);
    ActionsAreDistinct(o);
    forall x, y | x in Actions(o) && y in Actions(o) && NameOf()(x) == NameOf()(y) ensures x == y {
      ActionsMembers(o, x);
      ActionsMembers(o, y);
      DistinctMeansEqual(EntityOf(), o, x.resource, y.resource);
    }
    MapDistinct(NameOf(), Actions(o));
  }

  lemma ItemsAreNamed(o: seq<Resource>)
    ensures forall item :: item in Collection(o) ==> item.name in AllNames(o)
  {
    var next := NextActions(Actions(o), |Actions(o)|);
    forall item | item in Collection(o) ensures item.name in AllNames(o) {
      var r := FlatMapSource(FolderOf(next), o, item);
      assert item in Folder(next, r);
      ActionsMembers(o, Step(r, item.name.action));
      var i :| 0 <= i < |Actions(o)| && Actions(o)[i] == Step(r, item.name.action);
      assert AllNames(o)[i] == item.name;
    }
  }

  // The order of the requests.

  /** One request is made before the other. */
  ghost predicate Earlier(run: seq<Name>, a: Name, b: Name) {
    exists i, j :: 0 <= i < j < |run| && run[i] == a && run[j] == b
  }

  /** Where the request for the k-th resource stands. */
  function PlaceOf(o: seq<Resource>, k: nat, action: Action): int {
    match action
    case Create => k
    case ListAll => |o| + k
    case Get => 2 * |o| + k
    case Update => 3 * |o| + k
    case Delete => 5 * |o| - 1 - k
  }

  lemma RequestsStandInPlace(o: seq<Resource>, k: nat, action: Action)
    requires k < |o|
    ensures 0 <= PlaceOf(o, k, action) < |AllNames(o)|
    ensures AllNames(o)[PlaceOf(o, k, action)] == Name(o[k].entity, action)
  {
    ReversedIndex(o, |o| - 1 - k);
    assert |Actions(o)| == 5 * |o|;
    assert Actions(o)[PlaceOf(o, k, action)] == Step(o[k], action);
  }

  lemma OnePlace(run: seq<Name>, p: nat, q: nat)
    requires Distinct(run) && p < |run| && q < |run| && run[p] == run[q]
    ensures p == q
  {
  }

  lemma PlacesDecide(o: seq<Resource>, i: nat, x: Action, j: nat, y: Action)
    requires Identified(o) && i < |o| && j < |o|
    ensures Earlier(AllNames(o), Name(o[i].entity, x), Name(o[j].entity, y)) <==> PlaceOf(o, i, x) < PlaceOf(o, j, y)
  {
    var run := AllNames(o);
    RequestsStandInPlace(o, i, x);
    RequestsStandInPlace(o, j, y);
    NamesAreDistinct(o);
    if Earlier(run, Name(o[i].entity, x), Name(o[j].entity, y)) {
      var p, q :| 0 <= p < q < |run| && run[p] == Name(o[i].entity, x) && run[q] == Name(o[j].entity, y);
      OnePlace(run, p, PlaceOf(o, i, x));
      OnePlace(run, q, PlaceOf(o, j, y));
    }
  }

  function Rank(action: Action): nat {
    match action
    case Create => 0
    case ListAll => 1
    case Get => 2
    case Update => 3
    case Delete => 4
  }

  lemma RanksDecide(o: seq<Resource>, i: nat, x: Action, j: nat, y: Action)
    requires Identified(o) && i < |o| && j < |o| && Rank(x) < Rank(y)
    ensures Earlier(AllNames(o), Name(o[i].entity, x), Name(o[j].entity, y))
    ensures !Earlier(AllNames(o), Name(o[j].entity, y), Name(o[i].entity, x))
  {
    PlacesDecide(o, i, x, j, y);
    PlacesDecide(o, j, y, i, x);
  }

  /** Within one kind of request, the order is that of the resources, or the opposite one for deletions. */
  lemma SameActionDecides(o: seq<Resource>, i: nat, j: nat, x: Action)
    requires Identified(o) && i < |o| && j < |o|
    ensures Earlier(AllNames(o), Name(o[i].entity, x), Name(o[j].entity, x)) <==> if x == Delete then j < i else i < j
  {
    PlacesDecide(o, i, x, j, x);
  }

  /**
   In the run all creations come before all listings, these before all reads, then all updates, and all deletions come
   last. Resources are listed, read and updated in the order in which they are created, and deleted in the opposite one.
   */
  lemma TheRunIsOrdered(o: seq<Resource>, run: seq<Name>, a: Resource, x: Action, b: Resource, y: Action)
    requires Identified(o) && IsRun(Collection(o), run) && a in o && b in o
    ensures Rank(x) < Rank(y) ==> Earlier(run, Name(a.entity, x), Name(b.entity, y))
                                    && !Earlier(run, Name(b.entity, y), Name(a.entity, x))
    ensures x != Delete ==>
              (Earlier(run, Name(a.entity, x), Name(b.entity, x))
               <==> Earlier(run, Name(a.entity, Create), Name(b.entity, Create)))
    ensures Earlier(run, Name(a.entity, Delete), Name(b.entity, Delete))
            <==> Earlier(run, Name(b.entity, Create), Name(a.entity, Create))
  {
    TheRunMakesEveryRequestOnce(o, run);
    var i :| 0 <= i < |o| && o[i] == a;
    var j :| 0 <= j < |o| && o[j] == b;
    if Rank(x) < Rank(y) { RanksDecide(o, i, x, j, y); }
    SameActionDecides(o, i, j, x);
    SameActionDecides(o, i, j, Create);
    SameActionDecides(o, j, i, Create);
    SameActionDecides(o, i, j, Delete);
  }

  /** Resources are created in the given order. */
  lemma CreationsFollowTheOrder(o: seq<Resource>, run: seq<Name>, i: nat, j: nat)
    requires Identified(o) && IsRun(Collection(o), run) && i < |o| && j < |o|
    ensures Earlier(run, Name(o[i].entity, Create), Name(o[j].entity, Create)) <==> i < j
  {
    TheRunMakesEveryRequestOnce(o, run);
    SameActionDecides(o, i, j, Create);
  }
}
