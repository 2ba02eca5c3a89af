/** The joined tables in the eyes of the validator. */
module JoinedTables {

  import opened Wrappers
  import opened Sequences
  import opened Relational
  import opened RelationalContract
  import U = Uml
  import opened GeneralizationOrder
  import opened JoinedIdentifiers

  /**
   The table of a class before it is joined: the table of an entity is a root, that of an association class has no part
   in inheritance, and no foreign key is on the whole key.
   */
  predicate IsUnjoined(t: Table) {
    && (t.inheritance == None || t.inheritance == Some(Inheritance(Root, None, None)))
    && forall fk :: fk in t.foreignKeys ==> fk.columnIds != t.primaryKey
  }

  ghost predicate AllUnjoined(tables: ClassTables) {
    && (forall id :: id in tables ==> IsUnjoined(tables[id]))
    && DifferentTables(tables)
  }

  ghost predicate DifferentTables(tables: ClassTables) {
    forall a, b :: a in tables && b in tables && tables[a].id == tables[b].id ==> a == b
  }

  ghost function Index(tables: ClassTables): (r: Tables)
    requires DifferentTables(tables)
    ensures WellKeyed(r) && forall id :: id in tables ==> tables[id].id in r && r[tables[id].id] == tables[id]
  {
    map id | id in tables :: tables[id].id := tables[id]
  }

  /** A table is as it was, or has become a subclass with one foreign key more. */
  predicate GrewFrom(was: Table, now: Table) {
    || (now == was && !IsSubclass(now))
    || (&& IsSubclass(now) && now.id == was.id && now.primaryKey == was.primaryKey
        && |now.foreignKeys| == |was.foreignKeys| + 1 && now.foreignKeys[..|was.foreignKeys|] == was.foreignKeys)
  }

  ghost predicate AllGrew(tables: ClassTables, next: ClassTables) {
    next.Keys == tables.Keys && forall id :: id in tables ==> GrewFrom(tables[id], next[id])
  }

  lemma JoinGrows(classes: set<Id>, tables: ClassTables, r: U.Relationship, id: Id, was: Table)
    requires Joined(classes, tables, r).Some? && id in tables && GrewFrom(was, tables[id])
    ensures id in Joined(classes, tables, r).value && GrewFrom(was, Joined(classes, tables, r).value[id])
  {
    if IsJoinable(classes, r) && id == r.source.elementId {
      var child, parent := tables[id], tables[r.target.elementId];
      assert child == was;
      var fk := JoinOf(child, KeyOf(child).value.id, parent, KeyOf(parent).value.id);
      assert (was.foreignKeys + [fk])[..|was.foreignKeys|] == was.foreignKeys;
    }
  }

  lemma {:induction false} TablesGrowOnce(classes: set<Id>, tables: ClassTables, order: seq<U.Relationship>)
    requires AllUnjoined(tables) && JoinedAll(classes, tables, order).Some?
    ensures AllGrew(tables, JoinedAll(classes, tables, order).value)
  {
    if order != [] {
      TablesGrowOnce(classes, tables, order[..|order| - 1]);
      var before := JoinedAll(classes, tables, order[..|order| - 1]).value;
      forall id | id in tables ensures GrewFrom(tables[id], Joined(classes, before, order[|order| - 1]).value[id]) {
        JoinGrows(classes, before, order[|order| - 1], id, tables[id]);
      }
    }
  }

  lemma OnlyTheLastJoins(was: Table, child: Table, parent: Table, last: ForeignKey)
    requires IsUnjoined(was) && child.primaryKey == was.primaryKey && child.foreignKeys == was.foreignKeys + [last]
    requires HasJoin(child, parent)
    ensures Filter(Joins(child, parent.id, parent.primaryKey), child.foreignKeys) == [last]
  {
    var p := Joins(child, parent.id, parent.primaryKey);
    var fk :| fk in child.foreignKeys && IsJoin(child, parent.id, parent.primaryKey, fk);
    assert fk !in was.foreignKeys;
    FilterAppend(p, was.foreignKeys, [last]);
    FilterNone(p, was.foreignKeys);
    assert [last][1..] == [];
  }

  lemma OneJoinOnly(was: Table, child: Table, parent: Table)
    requires IsUnjoined(was) && GrewFrom(was, child) && IsSubclass(child) && HasJoin(child, parent)
    ensures |Filter(Joins(child, parent.id, parent.primaryKey), child.foreignKeys)| == 1
  {
    var last := child.foreignKeys[|was.foreignKeys|];
    assert child.foreignKeys == was.foreignKeys + [last];
    OnlyTheLastJoins(was, child, parent, last);
  }

  /** The parents without a parent are roots: none of them is the table of an association class. */
  ghost predicate EndsAtRoots(classes: set<Id>, tables: ClassTables, order: seq<U.Relationship>) {
    forall i :: 0 <= i < |order| && IsJoinable(classes, order[i]) ==> IsRooted(classes, tables, order, order[i])
  }

  predicate IsRooted(classes: set<Id>, tables: ClassTables, order: seq<U.Relationship>, r: U.Relationship) {
    var id := r.target.elementId;
    id in tables && !HasParent(classes, order, id) ==> IsRoot(tables[id])
  }

  /** What has been seen on the way up from a class are the tables of classes joined later. */
  ghost predicate SeenLater(tables: ClassTables, order: seq<U.Relationship>, i: nat, seen: set<Id>) {
    forall s :: s in seen ==> IsLater(tables, order, i, s)
  }

  ghost predicate IsLater(tables: ClassTables, order: seq<U.Relationship>, i: nat, s: Id) {
    exists k :: i <= k < |order| && order[k].source.elementId in tables && tables[order[k].source.elementId].id == s
  }

  lemma SeenMore(tables: ClassTables, order: seq<U.Relationship>, i: nat, k: nat, seen: set<Id>, id: Id)
    requires SeenLater(tables, order, i, seen) && k < i && k < |order|
    requires order[k].source.elementId in tables && tables[order[k].source.elementId].id == id
    ensures SeenLater(tables, order, k, seen + {id})
  {
    forall s | s in seen + {id} ensures IsLater(tables, order, k, s) {
      if s in seen { assert IsLater(tables, order, i, s); }
    }
  }

  lemma WayUp(classes: set<Id>, tables: ClassTables, order: seq<U.Relationship>, i: nat)
    requires AllLinked(classes, tables, order) && DifferentTables(tables)
    requires i < |order| && IsJoinable(classes, order[i])
    ensures order[i].source.elementId in tables && order[i].target.elementId in tables
    ensures var child := tables[order[i].source.elementId];
      IsSubclass(child) && ParentOf(Index(tables), child) == Some(tables[order[i].target.elementId])
  {
    assert IsLinked(tables[order[i].source.elementId], tables[order[i].target.elementId]);
  }

  /** What the validator wants to know of a table and its parent. */
  predicate IsLinked(child: Table, parent: Table) {
    && child.inheritance == Some(Inheritance(Subclass, Some(parent.id), Some(parent.primaryKey)))
    && HasJoin(child, parent) && forall id :: id in parent.primaryKey ==> id in ColumnsById(parent.columns)
  }

  lemma FollowingIsLinked(child: Table, parent: Table)
    requires Follows(child, parent)
    ensures IsLinked(child, parent)
  {
    KeyIsTheWholeKey(parent, KeyOf(parent).value);
  }

  ghost predicate AllLinked(classes: set<Id>, tables: ClassTables, order: seq<U.Relationship>) {
    forall i :: 0 <= i < |order| && IsJoinable(classes, order[i]) ==>
      && order[i].source.elementId in tables && order[i].target.elementId in tables
      && IsLinked(tables[order[i].source.elementId], tables[order[i].target.elementId])
  }

  lemma FollowersAreLinked(classes: set<Id>, tables: ClassTables, order: seq<U.Relationship>)
    requires AllFollow(classes, tables, order)
    ensures AllLinked(classes, tables, order)
  {
    forall i | 0 <= i < |order| && IsJoinable(classes, order[i])
      ensures order[i].source.elementId in tables && order[i].target.elementId in tables
                && IsLinked(tables[order[i].source.elementId], tables[order[i].target.elementId])
    {
      FollowingIsLinked(tables[order[i].source.elementId], tables[order[i].target.elementId]);
    }
  }

  /** The state of the class tables after all joins. */
  ghost predicate IsJoinedFrom(classes: set<Id>, start: ClassTables, order: seq<U.Relationship>, tables: ClassTables) {
    && ParentFirst(order) && AllUnjoined(start) && AllGrew(start, tables) && AllLinked(classes, tables, order)
    && forall id :: id in start && !HasParent(classes, order, id) ==> tables[id] == start[id]
  }

  lemma TablesStayDifferent(start: ClassTables, tables: ClassTables)
    requires AllUnjoined(start) && AllGrew(start, tables)
    ensures DifferentTables(tables)
  {
    forall a, b | a in tables && b in tables && tables[a].id == tables[b].id ensures a == b {
      assert GrewFrom(start[a], tables[a]) && GrewFrom(start[b], tables[b]);
    }
  }

  lemma ParentIsNotSeen(tables: ClassTables, order: seq<U.Relationship>, i: nat, seen: set<Id>)
    requires ParentFirst(order) && DifferentTables(tables) && i < |order| && SeenLater(tables, order, i, seen)
    requires order[i].target.elementId in tables
    ensures tables[order[i].target.elementId].id !in seen
  {
    forall k | i <= k < |order| && order[k].source.elementId in tables
      ensures tables[order[k].source.elementId].id != tables[order[i].target.elementId].id
    {
      assert order[k].source.elementId != order[i].target.elementId;
    }
  }

  /** The way up from a joined class ends at a root. */
  lemma {:induction false} ChainEnds(classes: set<Id>, start: ClassTables, order: seq<U.Relationship>,
      tables: ClassTables, i: nat, seen: set<Id>)
    requires IsJoinedFrom(classes, start, order, tables) && DifferentTables(tables)
    requires EndsAtRoots(classes, start, order)
    requires i < |order| && IsJoinable(classes, order[i]) && SeenLater(tables, order, i, seen)
    ensures order[i].source.elementId in tables
    ensures !ChainIssue(Index(tables), tables[order[i].source.elementId], seen)
    decreases i
  {
    WayUp(classes, tables, order, i);
    var id := order[i].target.elementId;
    ParentIsNotSeen(tables, order, i, seen);
    if HasParent(classes, order, id) {
      var k :| 0 <= k < |order| && IsJoinable(classes, order[k]) && order[k].source.elementId == id;
      assert k < i;
      SeenMore(tables, order, i, k, seen, tables[id].id);
      WayUp(classes, tables, order, k);
      ChainEnds(classes, start, order, tables, k, seen + {tables[id].id});
    } else {
      assert IsRooted(classes, start, order, order[i]);
    }
  }

  lemma SubclassFits(byId: Tables, child: Table, parent: Table)
    requires WellKeyed(byId) && parent.id in byId && byId[parent.id] == parent
    requires child.inheritance == Some(Inheritance(Subclass, Some(parent.id), Some(parent.primaryKey)))
    requires !ChainIssue(byId, child, {child.id})
    requires forall id :: id in parent.primaryKey ==> id in ColumnsById(parent.columns)
    requires |Filter(Joins(child, parent.id, parent.primaryKey), child.foreignKeys)| == 1
    ensures InheritanceFits(byId, child)
  {
  }

  lemma JoinedTableFits(classes: set<Id>, start: ClassTables, order: seq<U.Relationship>, tables: ClassTables, i: nat)
    requires IsJoinedFrom(classes, start, order, tables) && DifferentTables(tables)
    requires EndsAtRoots(classes, start, order) && i < |order| && IsJoinable(classes, order[i])
    ensures order[i].source.elementId in tables
    ensures InheritanceFits(Index(tables), tables[order[i].source.elementId])
  {
    var a, b := order[i].source.elementId, order[i].target.elementId;
    assert IsLater(tables, order, i, tables[a].id);
    ChainEnds(classes, start, order, tables, i, {tables[a].id});
    assert IsLinked(tables[a], tables[b]);
    OneJoinOnly(start[a], tables[a], tables[b]);
    SubclassFits(Index(tables), tables[a], tables[b]);
  }

  lemma NoRootAbove(byId: Tables, child: Table, parent: Table)
    requires WellKeyed(byId) && IsLinked(child, parent) && parent.id in byId && byId[parent.id] == parent
    requires parent.inheritance.None?
    ensures !InheritanceFits(byId, child)
  {
    assert ParentOf(byId, child) == Some(parent);
    assert ChainIssue(byId, child, {child.id});
  }

  /** Below a top that is no root the check fails. */
  lemma UnrootedFails(classes: set<Id>, start: ClassTables, order: seq<U.Relationship>, tables: ClassTables, i: nat)
    requires IsJoinedFrom(classes, start, order, tables) && DifferentTables(tables)
    requires i < |order| && IsJoinable(classes, order[i]) && !IsRooted(classes, start, order, order[i])
    ensures order[i].source.elementId in tables
    ensures !InheritanceFits(Index(tables), tables[order[i].source.elementId])
  {
    var a, b := order[i].source.elementId, order[i].target.elementId;
    assert IsLinked(tables[a], tables[b]) && tables[b] == start[b];
    assert tables[b].inheritance.None? by { assert IsUnjoined(start[b]); }
    NoRootAbove(Index(tables), tables[a], tables[b]);
  }

  lemma RootedOnesFit(classes: set<Id>, start: ClassTables, order: seq<U.Relationship>, tables: ClassTables, id: Id)
    requires IsJoinedFrom(classes, start, order, tables) && DifferentTables(tables)
    requires EndsAtRoots(classes, start, order) && id in tables
    ensures InheritanceFits(Index(tables), tables[id])
  {
    if HasParent(classes, order, id) {
      var i :| 0 <= i < |order| && IsJoinable(classes, order[i]) && order[i].source.elementId == id;
      JoinedTableFits(classes, start, order, tables, i);
    } else {
      assert IsUnjoined(start[id]);
    }
  }

  lemma AllAreJoined(classes: set<Id>, tables: ClassTables, order: seq<U.Relationship>)
    requires ParentFirst(order) && AllUnjoined(tables) && JoinedAll(classes, tables, order).Some?
    ensures IsJoinedFrom(classes, tables, order, JoinedAll(classes, tables, order).value)
    ensures DifferentTables(JoinedAll(classes, tables, order).value)
  {
    var final := JoinedAll(classes, tables, order).value;
    TablesGrowOnce(classes, tables, order);
    TablesStayDifferent(tables, final);
    EverySubclassFollowsItsParent(classes, tables, order);
    FollowersAreLinked(classes, final, order);
    forall id | id in tables && !HasParent(classes, order, id) ensures final[id] == tables[id] {
      RootsStay(classes, tables, order, id);
    }
  }

  /**
   What the transformer joins, its validator accepts, exactly when no class inherits from an association class that has
   no parent of its own: then every table of a class passes the check of inheritance.
   */
  lemma JoinedTablesPassTheCheckExactly(classes: set<Id>, tables: ClassTables, order: seq<U.Relationship>)
    requires ParentFirst(order) && AllUnjoined(tables) && JoinedAll(classes, tables, order).Some?
    ensures var final := JoinedAll(classes, tables, order).value;
      && final.Keys == tables.Keys && DifferentTables(final)
      && ((forall id :: id in final ==> InheritanceFits(Index(final), final[id])) <==>
            EndsAtRoots(classes, tables, order))
  {
    var final := JoinedAll(classes, tables, order).value;
    AllAreJoined(classes, tables, order);
    if EndsAtRoots(classes, tables, order) {
      forall id | id in final ensures InheritanceFits(Index(final), final[id]) {
        RootedOnesFit(classes, tables, order, final, id);
      }
    } else {
      var i :| 0 <= i < |order| && IsJoinable(classes, order[i]) && !IsRooted(classes, tables, order, order[i]);
      UnrootedFails(classes, tables, order, final, i);
    }
  }

  // An example.

  function KeyColumn(id: Id): Column { Column(id, "id", "UUID", "uuid", false, true, true, true) }

  function Plain(id: Id, key: Id, inheritance: Option<Inheritance>): Table {
    Table(id, id, false, [KeyColumn(key)], [key], [], [], inheritance)
  }

  /** A class that inherits from an association class. */
  function Inheriting(): U.Relationship {
    U.Relationship("r", U.Generalization, None, U.End("c", "", "1", false), U.End("a", "", "1", false), None)
  }

  function ClassAndAssociationClass(): ClassTables {
    map["c" := Plain("tc", "kc", Some(Inheritance(Root, None, None))), "a" := Plain("ta", "ka", None)]
  }

  /** The transformer joins it without complaint, and the model it makes does not pass the check. */
  lemma InheritingFromAnAssociationClassFails()
    ensures var tables, order := ClassAndAssociationClass(), [Inheriting()];
      && ParentFirst(order) && AllUnjoined(tables) && JoinedAll({"c", "a"}, tables, order).Some?
      && var final := JoinedAll({"c", "a"}, tables, order).value;
         DifferentTables(final) && exists id :: id in final && !InheritanceFits(Index(final), final[id])
  {
    var tables, order := ClassAndAssociationClass(), [Inheriting()];
    ClassAndAssociationClassAreUnjoined();
    ClassAndAssociationClassAreJoined({"c", "a"});
    JoinedTablesPassTheCheckExactly({"c", "a"}, tables, order);
    assert "c"[0] != "a"[0];
    assert !HasParent({"c", "a"}, order, "a");
    assert !IsRooted({"c", "a"}, tables, order, order[0]);
  }

  lemma KeyOfPlain(id: Id, key: Id, inheritance: Option<Inheritance>)
    ensures KeyOf(Plain(id, key, inheritance)) == Some(KeyColumn(key))
  {
    var t := Plain(id, key, inheritance);
    assert HasColumnId(key)(t.columns[0]);
  }

  lemma ClassAndAssociationClassAreUnjoined()
    ensures AllUnjoined(ClassAndAssociationClass()) && ParentFirst([Inheriting()])
  {
    assert "tc"[1] != "ta"[1] && "c"[0] != "a"[0];
  }

  lemma ClassAndAssociationClassAreJoined(classes: set<Id>)
    ensures JoinedAll(classes, ClassAndAssociationClass(), [Inheriting()]).Some?
  {
    var tables, order := ClassAndAssociationClass(), [Inheriting()];
    assert order[..0] == [];
    assert JoinedAll(classes, tables, order[..0]) == Some(tables);
    KeyOfPlain("tc", "kc", Some(Inheritance(Root, None, None)));
    KeyOfPlain("ta", "ka", None);
    assert Joined(classes, tables, Inheriting()).Some?;
  }
}
