/** The semantic checks on a relational model: which models have no issue. */
module RelationalContract {

  import opened Sequences
  import opened Permutations
  import opened Relational

  // What is checked.

  predicate PrimaryKeyColumnFits(columns: map<Id, Column>, id: Id) {
    id in columns && columns[id].primaryKey && !columns[id].nullable
  }

  predicate PrimaryKeyFits(t: Table) {
    && (forall id :: id in t.primaryKey ==> PrimaryKeyColumnFits(ColumnsById(t.columns), id))
    && (forall c :: c in t.columns && c.primaryKey ==> c.id in t.primaryKey)
  }

  function UniqueId(): UniqueConstraint -> Id { (u: UniqueConstraint) => u.id }

  function ForeignKeyId(): ForeignKey -> Id { (fk: ForeignKey) => fk.id }

  ghost predicate UniqueConstraintsFit(t: Table) {
    && Distinct(Map(UniqueId(), t.uniqueConstraints))
    && forall u, id :: u in t.uniqueConstraints && id in u.columnIds ==> id in ColumnsById(t.columns)
  }

  function ConstrainedColumns(): UniqueConstraint -> seq<Id> { (u: UniqueConstraint) => u.columnIds }

  predicate IsDeclaredKey(t: Table, columnIds: seq<Id>) {
    columnIds == t.primaryKey || columnIds in Map(ConstrainedColumns(), t.uniqueConstraints)
  }

  predicate TypesMatch(columns: map<Id, Column>, referenced: map<Id, Column>, id: Id, other: Id) {
    id in columns && other in referenced ==> columns[id].postgresType == referenced[other].postgresType
  }

  predicate ReferenceFits(columns: map<Id, Column>, target: Table, fk: ForeignKey) {
    var referenced := ColumnsById(target.columns);
    && (forall id :: id in fk.referencedColumnIds ==> id in referenced)
    && IsDeclaredKey(target, fk.referencedColumnIds)
    && (|fk.columnIds| == |fk.referencedColumnIds| ==>
          forall i :: 0 <= i < |fk.columnIds| ==>
              TypesMatch(columns, referenced, fk.columnIds[i], fk.referencedColumnIds[i]))
  }

  predicate ForeignKeyFits(byId: Tables, t: Table, fk: ForeignKey) {
    var columns := ColumnsById(t.columns);
    && (forall id :: id in fk.columnIds ==> id in columns)
    && fk.referencedTableId in byId && ReferenceFits(columns, byId[fk.referencedTableId], fk)
    && |fk.columnIds| == |fk.referencedColumnIds|
    && (fk.sourceMultiplicity.None? <==> fk.targetMultiplicity.None?)
    && (fk.onDelete.SetNull? ==> forall id :: id in fk.columnIds && id in columns ==> columns[id].nullable)
  }

  /** The foreign key that joins a subclass to its parent. */
  predicate IsJoin(t: Table, parentId: Id, parentColumnIds: seq<Id>, fk: ForeignKey) {
    && fk.referencedTableId == parentId && fk.onDelete.Cascade?
    && fk.columnIds == t.primaryKey && fk.referencedColumnIds == parentColumnIds
  }

  function Joins(t: Table, parentId: Id, parentColumnIds: seq<Id>): ForeignKey -> bool {
    (fk: ForeignKey) => IsJoin(t, parentId, parentColumnIds, fk)
  }

  /** Whether the walk up from a table fails to end at a root; a missing parent is reported elsewhere. */
  predicate ChainIssue(byId: Tables, current: Table, seen: set<Id>)
    requires WellKeyed(byId)
    decreases byId.Keys - seen
  {
    if !IsSubclass(current) then true
    else
      match ParentOf(byId, current)
      case None => false
      case Some(parent) =>
        if parent.id in seen then true
        else if IsRoot(parent) then false
        else if !IsSubclass(parent) then true
        else ChainIssue(byId, parent, seen + {parent.id})
  }

  predicate ParentFits(byId: Tables, t: Table, parent: Table, parentColumnIds: seq<Id>)
    requires WellKeyed(byId)
  {
    && (forall id :: id in parentColumnIds ==> id in ColumnsById(parent.columns))
    && parentColumnIds == parent.primaryKey
    && !ChainIssue(byId, t, {t.id})
    && |Filter(Joins(t, parent.id, parentColumnIds), t.foreignKeys)| == 1
  }

  predicate InheritanceFits(byId: Tables, t: Table)
    requires WellKeyed(byId)
  {
    match t.inheritance
    case None => true
    case Some(Inheritance(Root, parentTableId, parentColumnIds)) => parentTableId.None? && parentColumnIds.None?
    case Some(Inheritance(Subclass, parentTableId, parentColumnIds)) =>
      && parentTableId.Some? && parentColumnIds.Some? && parentTableId.value in byId
      && ParentFits(byId, t, byId[parentTableId.value], parentColumnIds.value)
  }

  ghost predicate TableFits(byId: Tables, t: Table)
    requires WellKeyed(byId)
  {
    && Distinct(Map(ColumnId(), t.columns)) && Distinct(Map(Property(), t.columns))
    && PrimaryKeyFits(t) && UniqueConstraintsFit(t)
    && Distinct(Map(ForeignKeyId(), t.foreignKeys))
         && (forall fk :: fk in t.foreignKeys ==> ForeignKeyFits(byId, t, fk))
    && InheritanceFits(byId, t)
  }

  ghost predicate Consistent(tables: seq<Table>) {
    && Distinct(Map(TableId(), tables)) && Distinct(Map(Entity(), tables))
    && forall t :: t in tables ==> TableFits(TablesById(tables), t)
  }

  // The checks. An issue names the table and what is wrong with it.

  datatype Problem =
    | DuplicateTable | DuplicateEntity | DuplicateColumn(id: Id) | DuplicateProperty(name: string)
    | PrimaryKeyProblem(id: Id) | UndeclaredPrimaryKey(id: Id)
    | DuplicateConstraint(id: Id) | ConstraintColumnMissing(id: Id)
    | DuplicateForeignKey(id: Id) | LocalColumnMissing(id: Id)
    | ReferencedTableMissing(id: Id) | ReferencedColumnMissing(id: Id)
    | NotAKey(id: Id) | TypeMismatch(id: Id) | CountMismatch(id: Id)
    | MultiplicityMismatch(id: Id) | NotNullable(id: Id)
    | ParentIncomplete | ParentMissing | ParentColumnMissing(id: Id) | ParentKeyMismatch
    | ChainBroken | JoinCount | RootWithParent

  datatype Issue = Issue(table: Id, problem: Problem)

  /** One issue for every repetition. */
  method Repetitions(table: Id, ids: seq<Id>, problem: Id -> Problem) returns (issues: seq<Issue>)
    ensures issues == [] <==> Distinct(ids)
  {
    issues := [];
    var seen: set<Id> := {};
    for i := 0 to |ids|
      invariant seen == set j | 0 <= j < i :: ids[j]
      invariant issues == [] <==> Distinct(ids[..i])
    {
      DistinctAppend(ids[..i], [ids[i]]);
      assert ids[..i + 1] == ids[..i] + [ids[i]];
      assert ids[i] in seen <==> ids[i] in ids[..i];
      if ids[i] in seen { issues := issues + [Issue(table, problem(ids[i]))]; }
      seen := seen + {ids[i]};
    }
    assert ids[..|ids|] == ids;
  }

  /** One issue for every element that fails a test. */
  method Failures(table: Id, ids: seq<Id>, holds: Id -> bool, problem: Id -> Problem) returns (issues: seq<Issue>)
    ensures issues == [] <==> forall id :: id in ids ==> holds(id)
  {
    issues := [];
    for i := 0 to |ids|
      invariant issues == [] <==> forall j :: 0 <= j < i ==> holds(ids[j])
    {
      if !holds(ids[i]) { issues := issues + [Issue(table, problem(ids[i]))]; }
    }
    assert (forall id :: id in ids ==> holds(id)) <==> forall j :: 0 <= j < |ids| ==> holds(ids[j]);
  }

  method When(table: Id, wrong: bool, problem: Problem) returns (issues: seq<Issue>)
    ensures issues == [] <==> !wrong
  {
    issues := if wrong then [Issue(table, problem)] else [];
  }

  method InheritanceChainIssue(byId: Tables, t: Table) returns (issue: bool)
    requires WellKeyed(byId)
    ensures issue == ChainIssue(byId, t, {t.id})
  {
    var seen := {t.id};
    var current := t;
    while IsSubclass(current)
      invariant ChainIssue(byId, t, {t.id}) == ChainIssue(byId, current, seen)
      decreases byId.Keys - seen
    {
      if current.inheritance.value.parentTableId.None? { return false; }
      if current.inheritance.value.parentTableId.value !in byId { return false; }
      var parent := byId[current.inheritance.value.parentTableId.value];
      if parent.id in seen { return true; }
      if IsRoot(parent) { return false; }
      if !IsSubclass(parent) { return true; }
      seen := seen + {parent.id};
      current := parent;
    }
    return true;
  }

  method CheckColumns(t: Table) returns (issues: seq<Issue>)
    ensures issues == [] <==>
              Distinct(Map(ColumnId(), t.columns)) && Distinct(Map(Property(), t.columns)) && PrimaryKeyFits(t)
  {
    var ids := Repetitions(t.id, Map(ColumnId(), t.columns), id => DuplicateColumn(id));
    var properties := Repetitions(t.id, Map(Property(), t.columns), name => DuplicateProperty(name));
    var columns := ColumnsById(t.columns);
    var keys := Failures(t.id, t.primaryKey, id => PrimaryKeyColumnFits(columns, id), id => PrimaryKeyProblem(id));
    var marked := Filter(IsMarked(), t.columns);
    var undeclared := Failures(t.id, Map(ColumnId(), marked), id => id in t.primaryKey, id => UndeclaredPrimaryKey(id));
    MarkedColumns(t);
    issues := ids + properties + keys + undeclared;
  }

  function IsMarked(): Column -> bool { (c: Column) => c.primaryKey }

  lemma MarkedColumns(t: Table)
    ensures (forall id :: id in Map(ColumnId(), Filter(IsMarked(), t.columns)) ==> id in t.primaryKey)
            <==> forall c :: c in t.columns && c.primaryKey ==> c.id in t.primaryKey
  {
    var marked := Filter(IsMarked(), t.columns);
    forall c | c in marked ensures c.id in Map(ColumnId(), marked) { MapTarget(ColumnId(), marked, c); }
    forall id | id in Map(ColumnId(), marked) ensures exists c :: c in marked && c.id == id {
      var c := MapSource(ColumnId(), marked, id);
    }
  }

  method CheckConstraints(t: Table) returns (issues: seq<Issue>)
    ensures issues == [] <==> UniqueConstraintsFit(t)
  {
    issues := Repetitions(t.id, Map(UniqueId(), t.uniqueConstraints), id => DuplicateConstraint(id));
    var columns := ColumnsById(t.columns);
    for i := 0 to |t.uniqueConstraints|
      invariant issues == [] <==>
        Distinct(Map(UniqueId(), t.uniqueConstraints))
        && forall j, id :: 0 <= j < i && id in t.uniqueConstraints[j].columnIds ==> id in columns
    {
      var missing := Failures(t.id, t.uniqueConstraints[i].columnIds, id => id in columns,
          id => ConstraintColumnMissing(id));
      issues := issues + missing;
    }
  }

  method CheckTypes(table: Id, columns: map<Id, Column>, referenced: map<Id, Column>, ids: seq<Id>,
      others: seq<Id>) returns (issues: seq<Issue>)
    requires |ids| == |others|
    ensures issues == [] <==> forall i :: 0 <= i < |ids| ==> TypesMatch(columns, referenced, ids[i], others[i])
  {
    issues := [];
    for i := 0 to |ids|
      invariant issues == [] <==> forall j :: 0 <= j < i ==> TypesMatch(columns, referenced, ids[j], others[j])
    {
      if !TypesMatch(columns, referenced, ids[i], others[i]) {
        issues := issues + [Issue(table, TypeMismatch(ids[i]))];
      }
    }
  }

  method CheckReference(t: Table, target: Table, fk: ForeignKey) returns (issues: seq<Issue>)
    ensures issues == [] <==> ReferenceFits(ColumnsById(t.columns), target, fk)
  {
    var columns, referenced := ColumnsById(t.columns), ColumnsById(target.columns);
    var missing := Failures(t.id, fk.referencedColumnIds, id => id in referenced, id => ReferencedColumnMissing(id));
    var key := When(t.id, !IsDeclaredKey(target, fk.referencedColumnIds), NotAKey(fk.id));
    issues := missing + key;
    if |fk.columnIds| == |fk.referencedColumnIds| {
      var types := CheckTypes(t.id, columns, referenced, fk.columnIds, fk.referencedColumnIds);
      issues := issues + types;
    }
  }

  method CheckForeignKey(byId: Tables, t: Table, fk: ForeignKey) returns (issues: seq<Issue>)
    ensures issues == [] <==> ForeignKeyFits(byId, t, fk)
  {
    var columns := ColumnsById(t.columns);
    var missing := Failures(t.id, fk.columnIds, id => id in columns, id => LocalColumnMissing(id));
    var reference: seq<Issue>;
    if fk.referencedTableId in byId {
      reference := CheckReference(t, byId[fk.referencedTableId], fk);
    } else {
      reference := [Issue(t.id, ReferencedTableMissing(fk.referencedTableId))];
    }
    var count := When(t.id, |fk.columnIds| != |fk.referencedColumnIds|, CountMismatch(fk.id));
    var multiplicity := When(t.id, fk.sourceMultiplicity.None? != fk.targetMultiplicity.None?,
        MultiplicityMismatch(fk.id));
    var nullable := Failures(t.id, if fk.onDelete.SetNull? then fk.columnIds else [], id => id in columns ==>
        columns[id].nullable, id => NotNullable(id));
    issues := missing + reference + count + multiplicity + nullable;
  }

  method CheckForeignKeys(byId: Tables, t: Table) returns (issues: seq<Issue>)
    ensures issues == [] <==> Distinct(Map(ForeignKeyId(), t.foreignKeys)) && forall fk :: fk in t.foreignKeys ==>
              ForeignKeyFits(byId, t, fk)
  {
    issues := Repetitions(t.id, Map(ForeignKeyId(), t.foreignKeys), id => DuplicateForeignKey(id));
    for i := 0 to |t.foreignKeys|
      invariant issues == [] <==> Distinct(Map(ForeignKeyId(), t.foreignKeys)) && forall j :: 0 <= j < i ==>
                  ForeignKeyFits(byId, t, t.foreignKeys[j])
    {
      var more := CheckForeignKey(byId, t, t.foreignKeys[i]);
      issues := issues + more;
    }
  }

  method CheckInheritance(byId: Tables, t: Table) returns (issues: seq<Issue>)
    requires WellKeyed(byId)
    ensures issues == [] <==> InheritanceFits(byId, t)
  {
    if t.inheritance.None? { return []; }
    var inheritance := t.inheritance.value;
    if inheritance.role.Root? {
      issues := When(t.id, inheritance.parentTableId.Some? || inheritance.parentColumnIds.Some?, RootWithParent);
      return;
    }
    if inheritance.parentTableId.None? || inheritance.parentColumnIds.None? { return [Issue(t.id, ParentIncomplete)]; }
    if inheritance.parentTableId.value !in byId { return [Issue(t.id, ParentMissing)]; }
    var parent, parentColumnIds := byId[inheritance.parentTableId.value], inheritance.parentColumnIds.value;
    var parentColumns := ColumnsById(parent.columns);
    var missing := Failures(t.id, parentColumnIds, id => id in parentColumns, id => ParentColumnMissing(id));
    var key := When(t.id, parentColumnIds != parent.primaryKey, ParentKeyMismatch);
    var broken := InheritanceChainIssue(byId, t);
    var chain := When(t.id, broken, ChainBroken);
    var join := When(t.id, |Filter(Joins(t, parent.id, parentColumnIds), t.foreignKeys)| != 1, JoinCount);
    issues := missing + key + chain + join;
  }

  method CheckTable(byId: Tables, t: Table) returns (issues: seq<Issue>)
    requires WellKeyed(byId)
    ensures issues == [] <==> TableFits(byId, t)
  {
    var columns := CheckColumns(t);
    var constraints := CheckConstraints(t);
    var foreignKeys := CheckForeignKeys(byId, t);
    var inheritance := CheckInheritance(byId, t);
    issues := columns + constraints + foreignKeys + inheritance;
  }

  method CheckTables(byId: Tables, tables: seq<Table>) returns (issues: seq<Issue>)
    requires WellKeyed(byId)
    ensures issues == [] <==> forall t :: t in tables ==> TableFits(byId, t)
  {
    issues := [];
    for i := 0 to |tables|
      invariant issues == [] <==> forall j :: 0 <= j < i ==> TableFits(byId, tables[j])
    {
      var more := CheckTable(byId, tables[i]);
      issues := issues + more;
    }
    assert (forall t :: t in tables ==> TableFits(byId, t)) <==> forall j :: 0 <= j < |tables| ==>
        TableFits(byId, tables[j]);
  }

  /** No issue is found exactly when the model is consistent. */
  method ValidateRelationalModelSemantics(tables: seq<Table>) returns (issues: seq<Issue>)
    ensures issues == [] <==> Consistent(tables)
  {
    var ids := Repetitions("", Map(TableId(), tables), id => DuplicateTable);
    var entities := Repetitions("", Map(Entity(), tables), id => DuplicateEntity);
    var more := CheckTables(TablesById(tables), tables);
    issues := ids + entities + more;
  }
}
