/** Turning generalizations into joined tables: the identifier of a subclass takes the type of its parent's. */
module JoinedIdentifiers {

  import opened Wrappers
  import opened Sequences
  import opened Sorting
  import opened Graphs
  import opened Relational
  import opened RelationalContract
  import U = Uml
  import opened GeneralizationOrder
  import opened AcyclicCheck

  /** The table of every class. */
  type ClassTables = map<Id, Table>

  /** The key of a table with a key of one column. */
  function KeyOf(t: Table): Option<Column> { if |t.primaryKey| == 1 then ColumnById(t, t.primaryKey[0]) else None }

  function Replacing(c: Column): Column -> Column { (x: Column) => if x.id == c.id then c else x }

  /** The child's key with the type of the parent's; a joined key is never generated and has no default. */
  function JoinedKey(child: Column, parent: Column): Column {
    child.(javaType := parent.javaType, postgresType := parent.postgresType, nullable := false, generated := false,
        hasDefault := false)
  }

  function JoinOf(child: Table, childKey: Id, parent: Table, parentKey: Id): ForeignKey {
    ForeignKey("fk_" + child.id + "_joined_parent", [childKey], parent.id, [parentKey], Cascade, None, None)
  }

  function JoinedTable(child: Table, childKey: Column, parent: Table, parentKey: Column): Table {
    child.(columns := Map(Replacing(JoinedKey(childKey, parentKey)), child.columns),
           inheritance := Some(Inheritance(Subclass, Some(parent.id), Some([parentKey.id]))),
           foreignKeys := child.foreignKeys + [JoinOf(child, childKey.id, parent, parentKey.id)])
  }

  predicate IsJoinable(classes: set<Id>, r: U.Relationship) {
    r.source.elementId in classes && r.target.elementId in classes
  }

  /** None if the generalization is refused. Interfaces are not joined. */
  function Joined(classes: set<Id>, tables: ClassTables, r: U.Relationship): Option<ClassTables> {
    if !IsJoinable(classes, r) then Some(tables)
    else if r.source.elementId !in tables || r.target.elementId !in tables then None
    else
      var child, parent := tables[r.source.elementId], tables[r.target.elementId];
      if IsSubclass(child) || KeyOf(child).None? || KeyOf(parent).None? then None
      else
        var childKey, parentKey := KeyOf(child).value, KeyOf(parent).value;
        if !childKey.generated && !parentKey.generated
           && (childKey.javaType != parentKey.javaType || childKey.postgresType != parentKey.postgresType) then None
        else Some(tables[r.source.elementId := JoinedTable(child, childKey, parent, parentKey)])
  }

  function JoinedAll(classes: set<Id>, tables: ClassTables, order: seq<U.Relationship>): Option<ClassTables> {
    if order == [] then Some(tables)
    else
      match JoinedAll(classes, tables, order[..|order| - 1])
      case None => None
      case Some(before) => Joined(classes, before, order[|order| - 1])
  }

  class BuildState {
    const classes: set<Id>
    var classifierTables: ClassTables

    constructor (classes: set<Id>, tables: ClassTables)
      ensures this.classes == classes && classifierTables == tables
    {
      this.classes, classifierTables := classes, tables;
    }

    method BuildGeneralization(r: U.Relationship) returns (accepted: bool)
      modifies this
      ensures match Joined(classes, old(classifierTables), r)
              case None => !accepted && classifierTables == old(classifierTables)
              case Some(tables) => accepted && classifierTables == tables
    {
      if r.source.elementId !in classes || r.target.elementId !in classes { return true; }
      if r.source.elementId !in classifierTables || r.target.elementId !in classifierTables { return false; }
      var child, parent := classifierTables[r.source.elementId], classifierTables[r.target.elementId];
      if IsSubclass(child) { return false; }
      var childKey, parentKey := KeyOf(child), KeyOf(parent);
      if childKey.None? || parentKey.None? { return false; }
      var explicit := !childKey.value.generated && !parentKey.value.generated;
      if explicit && (childKey.value.javaType != parentKey.value.javaType
          || childKey.value.postgresType != parentKey.value.postgresType) {
        return false;
      }
      classifierTables := classifierTables[r.source.elementId :=
          JoinedTable(child, childKey.value, parent, parentKey.value)];
      return true;
    }

    method BuildGeneralizations(order: seq<U.Relationship>) returns (accepted: bool)
      modifies this
      ensures accepted <==> JoinedAll(classes, old(classifierTables), order).Some?
      ensures accepted ==> JoinedAll(classes, old(classifierTables), order) == Some(classifierTables)
    {
      for i := 0 to |order|
        invariant JoinedAll(classes, old(classifierTables), order[..i]) == Some(classifierTables)
      {
        assert order[..i + 1][..i] == order[..i];
        accepted := BuildGeneralization(order[i]);
        if !accepted {
          RefusedStaysRefused(classes, old(classifierTables), order, i + 1);
          return;
        }
      }
      assert order[..|order|] == order;
      return true;
    }
  }

  lemma {:induction false} RefusedStaysRefused(classes: set<Id>, tables: ClassTables, order: seq<U.Relationship>,
      i: nat)
    requires i <= |order| && JoinedAll(classes, tables, order[..i]).None?
    ensures JoinedAll(classes, tables, order).None?
  {
    if i == |order| {
      assert order[..i] == order;
    } else {
      assert order[..|order| - 1][..i] == order[..i];
      RefusedStaysRefused(classes, tables, order[..|order| - 1], i);
    }
  }

  // What joining achieves.

  /** The Java and the database type of the key. */
  function KeyTypes(t: Table): Option<(string, string)> {
    match KeyOf(t)
    case None => None
    case Some(key) => Some((key.javaType, key.postgresType))
  }

  /** The key has nothing that would produce values of its own. */
  predicate HasPlainKey(t: Table) {
    KeyOf(t).Some? && !KeyOf(t).value.generated && !KeyOf(t).value.hasDefault && !KeyOf(t).value.nullable
  }

  predicate SameType(a: Table, b: Table) { KeyTypes(a).Some? && KeyTypes(a) == KeyTypes(b) }

  /** The child's key refers to the parent's, and the child goes with the parent. */
  predicate HasJoin(child: Table, parent: Table) {
    exists fk :: fk in child.foreignKeys && IsJoin(child, parent.id, parent.primaryKey, fk)
  }

  predicate Follows(child: Table, parent: Table) {
    && SameType(child, parent) && HasPlainKey(child) && HasJoin(child, parent)
    && child.inheritance == Some(Inheritance(Subclass, Some(parent.id), Some(parent.primaryKey)))
  }

  lemma ReplacedIsFound(columns: seq<Column>, was: Column, c: Column)
    requires was in columns && c.id == was.id
    ensures var replaced := Map(Replacing(c), columns);
      IndexWhere(HasColumnId(c.id), replaced).Some? && replaced[IndexWhere(HasColumnId(c.id), replaced).value] == c
  {
    var i :| 0 <= i < |columns| && columns[i] == was;
    assert HasColumnId(c.id)(Map(Replacing(c), columns)[i]);
  }

  lemma KeyOfJoined(child: Table, childKey: Column, parent: Table, parentKey: Column)
    requires KeyOf(child) == Some(childKey)
    ensures KeyOf(JoinedTable(child, childKey, parent, parentKey)) == Some(JoinedKey(childKey, parentKey))
  {
    ReplacedIsFound(child.columns, childKey, JoinedKey(childKey, parentKey));
  }

  lemma JoinedFollows(child: Table, childKey: Column, parent: Table, parentKey: Column)
    requires KeyOf(child) == Some(childKey) && KeyOf(parent) == Some(parentKey)
    ensures Follows(JoinedTable(child, childKey, parent, parentKey), parent)
  {
    KeyOfJoined(child, childKey, parent, parentKey);
    KeyIsTheWholeKey(parent, parentKey);
    KeyIsTheWholeKey(child, childKey);
    var fk := JoinOf(child, childKey.id, parent, parentKey.id);
    assert fk in child.foreignKeys + [fk];
    assert IsJoin(JoinedTable(child, childKey, parent, parentKey), parent.id, parent.primaryKey, fk);
  }

  lemma KeyIsTheWholeKey(t: Table, key: Column)
    requires KeyOf(t) == Some(key)
    ensures t.primaryKey == [key.id]
  {
  }

  lemma OneJoin(classes: set<Id>, tables: ClassTables, r: U.Relationship)
    requires IsJoinable(classes, r) && Joined(classes, tables, r).Some? && r.source.elementId != r.target.elementId
    ensures var next := Joined(classes, tables, r).value;
      && r.source.elementId in next && r.target.elementId in next
      && Follows(next[r.source.elementId], next[r.target.elementId])
      && !IsSubclass(tables[r.source.elementId])
  {
    var child, parent := tables[r.source.elementId], tables[r.target.elementId];
    JoinedFollows(child, KeyOf(child).value, parent, KeyOf(parent).value);
  }

  /** A join touches the table of the child only. */
  lemma OthersStay(classes: set<Id>, tables: ClassTables, r: U.Relationship, id: Id)
    requires Joined(classes, tables, r).Some? && id != r.source.elementId
    ensures var next := Joined(classes, tables, r).value;
      (id in next <==> id in tables) && (id in tables ==> next[id] == tables[id])
  {
  }

  ghost predicate AllFollow(classes: set<Id>, tables: ClassTables, order: seq<U.Relationship>) {
    forall i :: 0 <= i < |order| && IsJoinable(classes, order[i]) ==>
      && order[i].source.elementId in tables && order[i].target.elementId in tables
      && Follows(tables[order[i].source.elementId], tables[order[i].target.elementId])
  }

  lemma StepKeepsFollowers(classes: set<Id>, tables: ClassTables, order: seq<U.Relationship>, i: nat, r: U.Relationship)
    requires AllFollow(classes, tables, order) && i < |order| && IsJoinable(classes, order[i])
    requires Joined(classes, tables, r).Some? && r.source.elementId != order[i].target.elementId
    ensures var next := Joined(classes, tables, r).value;
      && order[i].source.elementId in next && order[i].target.elementId in next
      && Follows(next[order[i].source.elementId], next[order[i].target.elementId])
  {
    if IsJoinable(classes, r) {
      assert Follows(tables[order[i].source.elementId], tables[order[i].target.elementId]);
      assert r.source.elementId != order[i].source.elementId;
      OthersStay(classes, tables, r, order[i].source.elementId);
      OthersStay(classes, tables, r, order[i].target.elementId);
    }
  }

  lemma PrefixIsParentFirst(order: seq<U.Relationship>)
    requires ParentFirst(order) && order != []
    ensures ParentFirst(order[..|order| - 1])
  {
  }

  /** With parents first, every join made stays good to the end. */
  lemma {:induction false} EverySubclassFollowsItsParent(classes: set<Id>, tables: ClassTables,
      order: seq<U.Relationship>)
    requires ParentFirst(order) && JoinedAll(classes, tables, order).Some?
    ensures AllFollow(classes, JoinedAll(classes, tables, order).value, order)
  {
    if order != [] {
      var rest, r := order[..|order| - 1], order[|order| - 1];
      PrefixIsParentFirst(order);
      EverySubclassFollowsItsParent(classes, tables, rest);
      var before := JoinedAll(classes, tables, rest).value;
      forall i | 0 <= i < |order| && IsJoinable(classes, order[i])
        ensures var next := Joined(classes, before, r).value;
          && order[i].source.elementId in next && order[i].target.elementId in next
          && Follows(next[order[i].source.elementId], next[order[i].target.elementId])
      {
        if i < |rest| {
          assert order[i] == rest[i];
          assert r.source.elementId != order[i].target.elementId;
          StepKeepsFollowers(classes, before, rest, i, r);
        } else {
          OneJoin(classes, before, r);
        }
      }
    }
  }

  /** A table that is no child is left alone. */
  lemma {:induction false} RootsStay(classes: set<Id>, tables: ClassTables, order: seq<U.Relationship>, id: Id)
    requires JoinedAll(classes, tables, order).Some?
    requires !HasParent(classes, order, id)
    ensures var final := JoinedAll(classes, tables, order).value;
      (id in final <==> id in tables) && (id in tables ==> final[id] == tables[id])
  {
    if order != [] {
      var rest, r := order[..|order| - 1], order[|order| - 1];
      assert order[|order| - 1] == r && forall i :: 0 <= i < |rest| ==> rest[i] == order[i];
      RootsStay(classes, tables, rest, id);
      if IsJoinable(classes, r) { OthersStay(classes, JoinedAll(classes, tables, rest).value, r, id); }
    }
  }

  ghost function JoinGraph(classes: set<Id>, order: seq<U.Relationship>): Graph {
    set r | r in order && IsJoinable(classes, r) :: (r.source.elementId, r.target.elementId)
  }

  lemma EdgeIsFollowed(classes: set<Id>, tables: ClassTables, order: seq<U.Relationship>, a: Id, b: Id)
    requires AllFollow(classes, tables, order) && (a, b) in JoinGraph(classes, order)
    ensures a in tables && b in tables && Follows(tables[a], tables[b])
  {
    var r :| r in order && IsJoinable(classes, r) && r.source.elementId == a && r.target.elementId == b;
    var i :| 0 <= i < |order| && order[i] == r;
    assert IsJoinable(classes, order[i]);
  }

  ghost predicate EdgesKeepTypes(tables: ClassTables, g: Graph) {
    forall e :: e in g ==> e.0 in tables && e.1 in tables && SameType(tables[e.0], tables[e.1])
  }

  lemma JoinsKeepTypes(classes: set<Id>, tables: ClassTables, order: seq<U.Relationship>)
    requires AllFollow(classes, tables, order)
    ensures EdgesKeepTypes(tables, JoinGraph(classes, order))
  {
    forall e | e in JoinGraph(classes, order)
      ensures e.0 in tables && e.1 in tables && SameType(tables[e.0], tables[e.1])
    {
      EdgeIsFollowed(classes, tables, order, e.0, e.1);
    }
  }

  lemma {:induction false} TypesAlongAChain(tables: ClassTables, g: Graph, chain: seq<Id>)
    requires EdgesKeepTypes(tables, g) && Walk(g, chain) && |chain| > 1
    ensures chain[0] in tables && chain[|chain| - 1] in tables && SameType(tables[chain[0]], tables[chain[|chain| - 1]])
  {
    assert (chain[0], chain[0 + 1]) in g;
    if |chain| > 2 {
      assert Walk(g, chain[1..]);
      TypesAlongAChain(tables, g, chain[1..]);
    }
  }

  predicate HasParent(classes: set<Id>, order: seq<U.Relationship>, id: Id) {
    exists i :: 0 <= i < |order| && IsJoinable(classes, order[i]) && order[i].source.elementId == id
  }

  /**
   After all generalizations have been accepted, the identifier of every subclass has the types that the identifier of
   its root had from the beginning, is not generated and has no default.
   */
  lemma SubclassesCarryTheTypeOfTheirRoot(classes: set<Id>, tables: ClassTables, order: seq<U.Relationship>,
      chain: seq<Id>)
    requires ParentFirst(order) && JoinedAll(classes, tables, order).Some?
    requires Walk(JoinGraph(classes, order), chain) && |chain| > 1 && !HasParent(classes, order, chain[|chain| - 1])
    ensures chain[0] in JoinedAll(classes, tables, order).value && chain[|chain| - 1] in tables
    ensures SameType(JoinedAll(classes, tables, order).value[chain[0]], tables[chain[|chain| - 1]])
    ensures HasPlainKey(JoinedAll(classes, tables, order).value[chain[0]])
  {
    var final, root := JoinedAll(classes, tables, order).value, chain[|chain| - 1];
    EverySubclassFollowsItsParent(classes, tables, order);
    JoinsKeepTypes(classes, final, order);
    TypesAlongAChain(final, JoinGraph(classes, order), chain);
    EdgeIsFollowed(classes, final, order, chain[0], chain[0 + 1]);
    RootsStay(classes, tables, order, root);
  }

  lemma SecondParentIsRefused(classes: set<Id>, tables: ClassTables, first: U.Relationship, second: U.Relationship)
    requires first.source.elementId in tables && first.target.elementId in tables && IsJoinable(classes, second)
    requires Follows(tables[first.source.elementId], tables[first.target.elementId])
    requires second.source.elementId == first.source.elementId
    ensures Joined(classes, tables, second).None?
  {
  }

  lemma SecondJoinFails(classes: set<Id>, tables: ClassTables, earlier: seq<U.Relationship>, i: nat,
      second: U.Relationship)
    requires ParentFirst(earlier) && i < |earlier| && IsJoinable(classes, earlier[i]) && IsJoinable(classes, second)
    requires second.source.elementId == earlier[i].source.elementId
    ensures JoinedAll(classes, tables, earlier + [second]).None?
  {
    assert (earlier + [second])[..|earlier + [second]| - 1] == earlier;
    if JoinedAll(classes, tables, earlier).Some? {
      EverySubclassFollowsItsParent(classes, tables, earlier);
      SecondParentIsRefused(classes, JoinedAll(classes, tables, earlier).value, earlier[i], second);
    }
  }

  lemma PrefixesAreParentFirst(order: seq<U.Relationship>, j: nat)
    requires ParentFirst(order) && j <= |order|
    ensures ParentFirst(order[..j])
  {
  }

  /** A class has at most one parent: a second one is refused. */
  lemma OneParentOnly(classes: set<Id>, tables: ClassTables, order: seq<U.Relationship>, i: nat, j: nat)
    requires ParentFirst(order) && i < j < |order| && IsJoinable(classes, order[i]) && IsJoinable(classes, order[j])
    requires order[i].source.elementId == order[j].source.elementId
    ensures JoinedAll(classes, tables, order).None?
  {
    PrefixesAreParentFirst(order, j);
    assert order[..j][i] == order[i];
    SecondJoinFails(classes, tables, order[..j], i, order[j]);
    assert order[..j] + [order[j]] == order[..j + 1];
    RefusedStaysRefused(classes, tables, order, j + 1);
  }

  /** Sorting and joining together: if nothing is refused, every subclass follows its parent at the end. */
  method BuildAllGeneralizations(state: BuildState, relationships: seq<U.Relationship>, less: (Id, Id) -> bool)
    returns (accepted: bool, ghost order: seq<U.Relationship>)
    requires StrictOrder(less) && !Cyclic(EdgesOf(relationships, U.Generalization))
    modifies state
    ensures multiset(order) == multiset(Filter(IsGeneralization(), relationships)) && ParentFirst(order)
    ensures accepted <==> JoinedAll(state.classes, old(state.classifierTables), order).Some?
    ensures accepted ==> JoinedAll(state.classes, old(state.classifierTables), order) == Some(state.classifierTables)
    ensures accepted ==> AllFollow(state.classes, state.classifierTables, order)
  {
    var sorted, depths := SortedGeneralizations(relationships, less);
    order := sorted;
    accepted := state.BuildGeneralizations(sorted);
    if accepted { EverySubclassFollowsItsParent(state.classes, old(state.classifierTables), sorted); }
  }
}
