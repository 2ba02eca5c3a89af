/** The walks from a table up its inheritance: three loops in the generators, and what the contract guarantees them. */
module InheritanceWalks {

  import opened Wrappers
  import opened Sequences
  import opened Relational
  import opened RelationalContract

  datatype WalkError = Cycle | ParentIsMissing

  type Chain = Result<seq<Table>, WalkError>

  function Under(t: Table, up: Chain): Chain {
    match up
    case Failure(e) => Failure(e)
    case Success(tables) => Success([t] + tables)
  }

  /** The tables from a table to the one where its inheritance ends. */
  function Walk(byId: Tables, t: Table, seen: set<Id>): Chain
    requires WellKeyed(byId)
    decreases byId.Keys - seen
  {
    if !IsSubclass(t) then Success([t])
    else
      match ParentOf(byId, t)
      case None => Failure(ParentIsMissing)
      case Some(parent) => if parent.id in seen then Failure(Cycle)
      else Under(t, Walk(byId, parent, seen + {parent.id}))
  }

  function WalkFrom(byId: Tables, t: Table): Chain
    requires WellKeyed(byId)
  {
    Walk(byId, t, {t.id})
  }

  /** Each table is a subclass of the next; the last is not a subclass. */
  predicate IsChain(byId: Tables, chain: seq<Table>) {
    && chain != [] && !IsSubclass(chain[|chain| - 1])
    && forall i :: 0 <= i < |chain| - 1 ==> IsSubclass(chain[i]) && ParentOf(byId, chain[i]) == Some(chain[i + 1])
  }

  lemma {:induction false} WalkIsAChain(byId: Tables, t: Table, seen: set<Id>)
    requires WellKeyed(byId) && Walk(byId, t, seen).Success?
    ensures IsChain(byId, Walk(byId, t, seen).value) && Walk(byId, t, seen).value[0] == t
    decreases byId.Keys - seen
  {
    if IsSubclass(t) {
      var parent := ParentOf(byId, t).value;
      WalkIsAChain(byId, parent, seen + {parent.id});
    }
  }

  // The loops.

  predicate Known(byId: Tables, t: Table) { t.id in byId && byId[t.id] == t }

  function LastOf(chain: Chain): (r: Result<Table, WalkError>)
    requires chain.Success? ==> chain.value != []
  {
    match chain
    case Failure(e) => Failure(e)
    case Success(tables) => Success(tables[|tables| - 1])
  }

  lemma {:induction false} WalkIsNotEmpty(byId: Tables, t: Table, seen: set<Id>)
    requires WellKeyed(byId)
    ensures Walk(byId, t, seen).Success? ==> Walk(byId, t, seen).value != []
  {
  }

  function RootOf(byId: Tables, t: Table, seen: set<Id>): Result<Table, WalkError>
    requires WellKeyed(byId)
  {
    WalkIsNotEmpty(byId, t, seen);
    LastOf(Walk(byId, t, seen))
  }

  lemma RootOfParent(byId: Tables, t: Table, seen: set<Id>)
    requires WellKeyed(byId) && IsSubclass(t) && ParentOf(byId, t).Some? && ParentOf(byId, t).value.id !in seen
    ensures RootOf(byId, t, seen) == RootOf(byId, ParentOf(byId, t).value, seen + {ParentOf(byId, t).value.id})
  {
    var parent := ParentOf(byId, t).value;
    WalkIsNotEmpty(byId, parent, seen + {parent.id});
  }

  method RootTable(byId: Tables, t: Table) returns (root: Result<Table, WalkError>)
    requires WellKeyed(byId) && Known(byId, t)
    ensures root == RootOf(byId, t, {t.id})
  {
    var current := t;
    var seen: set<Id> := {};
    assert seen + {t.id} == {t.id};
    while IsSubclass(current)
      invariant Known(byId, current) && forall id :: id in seen ==> id in byId && IsSubclass(byId[id])
      invariant current.id in seen ==> RootOf(byId, t, {t.id}) == Failure(Cycle)
      invariant current.id !in seen ==> RootOf(byId, t, {t.id}) == RootOf(byId, current, seen + {current.id})
      decreases byId.Keys - seen
    {
      if current.id in seen { return Failure(Cycle); }
      seen := seen + {current.id};
      var parentId := current.inheritance.value.parentTableId;
      if parentId.None? || parentId.value !in byId { return Failure(ParentIsMissing); }
      var parent := byId[parentId.value];
      if parent.id !in seen { RootOfParent(byId, current, seen); }
      current := parent;
    }
    return Success(current);
  }

  /** Put under what has been walked already. */
  function Over(walked: seq<Table>, up: Chain): Chain {
    match up
    case Failure(e) => Failure(e)
    case Success(tables) => Success(walked + tables)
  }

  function Downwards(chain: Chain): Chain {
    match chain
    case Failure(e) => Failure(e)
    case Success(tables) => Success(Reversed(tables))
  }

  lemma OverUnder(walked: seq<Table>, t: Table, up: Chain)
    ensures Over(walked, Under(t, up)) == Over(walked + [t], up)
  {
    if up.Success? { assert walked + ([t] + up.value) == walked + [t] + up.value; }
  }

  lemma OverNothing(up: Chain)
    ensures Over([], up) == up
  {
    if up.Success? { assert [] + up.value == up.value; }
  }

  method EntityHierarchyTables(byId: Tables, t: Table) returns (tables: Chain)
    requires WellKeyed(byId) && Known(byId, t)
    ensures tables == Downwards(WalkFrom(byId, t))
  {
    var result: seq<Table> := [];
    ghost var walked: seq<Table> := [];
    var current := t;
    var seen: set<Id> := {};
    assert seen + {t.id} == {t.id};
    OverNothing(WalkFrom(byId, t));
    while true
      invariant Known(byId, current) && result == Reversed(walked) && seen <= byId.Keys
      invariant current.id in seen ==> WalkFrom(byId, t) == Failure(Cycle)
      invariant current.id !in seen ==> WalkFrom(byId, t) == Over(walked, Walk(byId, current, seen + {current.id}))
      decreases byId.Keys - seen
    {
      if current.id in seen { return Failure(Cycle); }
      seen := seen + {current.id};
      result := [current] + result;
      ReversedAppend(walked, current);
      if !IsSubclass(current) { return Success(result); }
      var parent := ParentOf(byId, current);
      if parent.None? { return Failure(ParentIsMissing); }
      OverUnder(walked, current, Walk(byId, parent.value, seen + {parent.value.id}));
      walked := walked + [current];
      current := parent.value;
    }
  }

  /** The walk of the exported artifacts takes a subclass that names no parent for a root. */
  function ArtifactWalk(byId: Tables, t: Table, seen: set<Id>): Chain
    requires WellKeyed(byId)
    decreases byId.Keys - seen
  {
    if ParentId(t).None? then Success([t])
    else
      match ParentOf(byId, t)
      case None => Failure(ParentIsMissing)
      case Some(parent) => if parent.id in seen then Failure(Cycle)
      else Under(t, ArtifactWalk(byId, parent, seen + {parent.id}))
  }

  method HierarchyTables(byId: Tables, t: Table) returns (tables: Chain)
    requires WellKeyed(byId) && Known(byId, t)
    ensures tables == Downwards(ArtifactWalk(byId, t, {t.id}))
  {
    var result: seq<Table> := [];
    ghost var walked: seq<Table> := [];
    var current := t;
    var seen: set<Id> := {};
    assert seen + {t.id} == {t.id};
    OverNothing(ArtifactWalk(byId, t, {t.id}));
    while true
      invariant Known(byId, current) && result == Reversed(walked) && seen <= byId.Keys
      invariant current.id in seen ==> ArtifactWalk(byId, t, {t.id}) == Failure(Cycle)
      invariant current.id !in seen ==>
                  ArtifactWalk(byId, t, {t.id}) == Over(walked, ArtifactWalk(byId, current, seen + {current.id}))
      decreases byId.Keys - seen
    {
      if current.id in seen { return Failure(Cycle); }
      seen := seen + {current.id};
      result := [current] + result;
      ReversedAppend(walked, current);
      if ParentId(current).None? { return Success(result); }
      var parent := ParentOf(byId, current);
      if parent.None? { return Failure(ParentIsMissing); }
      OverUnder(walked, current, ArtifactWalk(byId, parent.value, seen + {parent.value.id}));
      walked := walked + [current];
      current := parent.value;
    }
  }

  // What the contract guarantees.

  ghost predicate ParentsArePresent(byId: Tables) {
    forall id :: id in byId && IsSubclass(byId[id]) ==> ParentOf(byId, byId[id]).Some?
  }

  lemma ConsistentIndex(tables: seq<Table>)
    requires Consistent(tables)
    ensures var byId := TablesById(tables);
      WellKeyed(byId) && ParentsArePresent(byId) && (forall t :: t in tables ==> Known(byId, t))
          && forall id :: id in byId ==> TableFits(byId, byId[id])
  {
    forall t | t in tables ensures Known(TablesById(tables), t) { TableLookup(tables, t); }
  }

  /** Given the parents, the check on the chain passes exactly when the walk ends at a root. */
  lemma {:induction false} ChainCheckDecides(byId: Tables, t: Table, seen: set<Id>)
    requires WellKeyed(byId) && ParentsArePresent(byId) && IsSubclass(t) && ParentOf(byId, t).Some?
    ensures !ChainIssue(byId, t, seen) <==> RootOf(byId, t, seen).Success? && IsRoot(RootOf(byId, t, seen).value)
    decreases byId.Keys - seen
  {
    var parent := ParentOf(byId, t).value;
    if parent.id !in seen {
      RootOfParent(byId, t, seen);
      if IsSubclass(parent) { ChainCheckDecides(byId, parent, seen + {parent.id}); }
    }
  }

  lemma {:induction false} WalksAgree(byId: Tables, t: Table, seen: set<Id>)
    requires WellKeyed(byId) && ParentsArePresent(byId) && (IsSubclass(t) ==> ParentOf(byId, t).Some?)
    ensures ArtifactWalk(byId, t, seen) == Walk(byId, t, seen)
    decreases byId.Keys - seen
  {
    if IsSubclass(t) {
      var parent := ParentOf(byId, t).value;
      if parent.id !in seen { WalksAgree(byId, parent, seen + {parent.id}); }
    }
  }

  /**
   In a consistent model every walk ends, both generators walk the same tables, and every subclass has a declared
   root.
   */
  lemma WalksEndAtRoots(tables: seq<Table>, t: Table)
    requires Consistent(tables) && t in tables
    ensures var byId := TablesById(tables);
      && WellKeyed(byId) && WalkFrom(byId, t).Success? && IsChain(byId, WalkFrom(byId, t).value)
           && WalkFrom(byId, t).value[0] == t
      && ArtifactWalk(byId, t, {t.id}) == WalkFrom(byId, t)
      && RootOf(byId, t, {t.id}).Success? && (IsSubclass(t) ==> IsRoot(RootOf(byId, t, {t.id}).value))
  {
    var byId := TablesById(tables);
    ConsistentIndex(tables);
    if IsSubclass(t) {
      assert TableFits(byId, t);
      ChainCheckDecides(byId, t, {t.id});
    }
    WalksAgree(byId, t, {t.id});
    WalkIsAChain(byId, t, {t.id});
  }

  // Identifiers.

  function TypeAt(t: Table, i: nat): Option<string>
    requires i < |t.primaryKey|
  {
    if t.primaryKey[i] in ColumnsById(t.columns) then Some(ColumnsById(t.columns)[t.primaryKey[i]].postgresType)
    else None
  }

  ghost predicate SameKeyTypes(a: Table, b: Table) {
    |a.primaryKey| == |b.primaryKey| && forall i :: 0 <= i < |a.primaryKey| ==> TypeAt(a, i) == TypeAt(b, i) != None
  }

  lemma JoinedKeysMatch(byId: Tables, t: Table)
    requires WellKeyed(byId) && TableFits(byId, t) && IsSubclass(t)
    ensures ParentOf(byId, t).Some? && SameKeyTypes(t, ParentOf(byId, t).value)
  {
    var parent := ParentOf(byId, t).value;
    var joins := Filter(Joins(t, parent.id, t.inheritance.value.parentColumnIds.value), t.foreignKeys);
    var fk := joins[0];
    assert fk in joins;
    assert ForeignKeyFits(byId, t, fk);
    forall i | 0 <= i < |t.primaryKey| ensures TypeAt(t, i) == TypeAt(parent, i) != None {
      assert TypesMatch(ColumnsById(t.columns), ColumnsById(parent.columns), fk.columnIds[i],
          fk.referencedColumnIds[i]);
    }
  }

  lemma KeysExist(byId: Tables, t: Table)
    requires WellKeyed(byId) && TableFits(byId, t)
    ensures SameKeyTypes(t, t)
  {
    forall i | 0 <= i < |t.primaryKey| ensures TypeAt(t, i) != None {
      assert PrimaryKeyColumnFits(ColumnsById(t.columns), t.primaryKey[i]);
    }
  }

  lemma {:induction false} KeysMatchAlong(byId: Tables, t: Table, seen: set<Id>)
    requires WellKeyed(byId) && (forall id :: id in byId ==> TableFits(byId, byId[id])) && TableFits(byId, t)
    requires RootOf(byId, t, seen).Success?
    ensures SameKeyTypes(t, RootOf(byId, t, seen).value)
    decreases byId.Keys - seen
  {
    if IsSubclass(t) {
      JoinedKeysMatch(byId, t);
      var parent := ParentOf(byId, t).value;
      RootOfParent(byId, t, seen);
      KeysMatchAlong(byId, parent, seen + {parent.id});
    } else {
      KeysExist(byId, t);
    }
  }

  /**
   The key of the root, from which the identifier of every entity is generated, has the table's own key types in
   order.
   */
  lemma RootKeyIsTheTableKey(tables: seq<Table>, t: Table)
    requires Consistent(tables) && t in tables
    ensures WellKeyed(TablesById(tables)) && RootOf(TablesById(tables), t, {t.id}).Success?
    ensures SameKeyTypes(t, RootOf(TablesById(tables), t, {t.id}).value)
  {
    ConsistentIndex(tables);
    WalksEndAtRoots(tables, t);
    assert Known(TablesById(tables), t);
    KeysMatchAlong(TablesById(tables), t, {t.id});
  }
}
