/** The relational model between the diagram and the generated project. */
module Relational {

  import opened Wrappers
  import opened Sequences
  import opened Permutations

  type Id = string

  datatype Column = Column(
    id: Id, property: string, javaType: string, postgresType: string,
    nullable: bool, primaryKey: bool, generated: bool, hasDefault: bool)

  datatype OnDelete = NoAction | Cascade | SetNull

  datatype ForeignKey = ForeignKey(
    id: Id, columnIds: seq<Id>, referencedTableId: Id, referencedColumnIds: seq<Id>, onDelete: OnDelete,
    sourceMultiplicity: Option<string>, targetMultiplicity: Option<string>)

  datatype UniqueConstraint = UniqueConstraint(id: Id, columnIds: seq<Id>)

  datatype Role = Root | Subclass

  datatype Inheritance = Inheritance(role: Role, parentTableId: Option<Id>, parentColumnIds: Option<seq<Id>>)

  datatype Table = Table(
    id: Id, entity: string, isAbstract: bool, columns: seq<Column>, primaryKey: seq<Id>,
    foreignKeys: seq<ForeignKey>, uniqueConstraints: seq<UniqueConstraint>, inheritance: Option<Inheritance>)

  type Tables = map<Id, Table>

  predicate WellKeyed(byId: Tables) { forall id :: id in byId ==> byId[id].id == id }

  predicate IsSubclass(t: Table) { t.inheritance.Some? && t.inheritance.value.role.Subclass? }

  predicate IsRoot(t: Table) { t.inheritance.Some? && t.inheritance.value.role.Root? }

  function ParentId(t: Table): Option<Id> { if IsSubclass(t) then t.inheritance.value.parentTableId else None }

  /** The table a subclass names as its parent, if it is there. */
  function ParentOf(byId: Tables, t: Table): Option<Table> {
    if ParentId(t).Some? && ParentId(t).value in byId then Some(byId[ParentId(t).value]) else None
  }

  // Indexes by id; of several entries with one id the last counts.

  function TablesById(tables: seq<Table>): (r: Tables)
    ensures WellKeyed(r) && forall id :: id in r ==> r[id] in tables
    ensures forall t :: t in tables ==> t.id in r
  {
    if tables == [] then map[]
    else
      var rest, last := tables[..|tables| - 1], tables[|tables| - 1];
      assert tables == rest + [last];
      TablesById(rest)[last.id := last]
  }

  function ColumnsById(columns: seq<Column>): (r: map<Id, Column>)
    ensures forall id :: id in r ==> r[id] in columns && r[id].id == id
    ensures forall c :: c in columns ==> c.id in r
  {
    if columns == [] then map[]
    else
      var rest, last := columns[..|columns| - 1], columns[|columns| - 1];
      assert columns == rest + [last];
      ColumnsById(rest)[last.id := last]
  }

  function TableId(): Table -> Id { (t: Table) => t.id }

  function Entity(): Table -> string { (t: Table) => t.entity }

  function ColumnId(): Column -> Id { (c: Column) => c.id }

  function Property(): Column -> string { (c: Column) => c.property }

  function HasColumnId(id: Id): Column -> bool { (c: Column) => c.id == id }

  /** The first column with the id, as the generators look it up. */
  function ColumnById(t: Table, id: Id): (r: Option<Column>)
    ensures r.Some? ==> r.value in t.columns && r.value.id == id
    ensures r.None? <==> id !in ColumnsById(t.columns)
  {
    match IndexWhere(HasColumnId(id), t.columns)
    case None =>
      assert forall c :: c in t.columns ==> !HasColumnId(id)(c);
      None
    case Some(i) => Some(t.columns[i])
  }

  lemma TableLookup(tables: seq<Table>, t: Table)
    requires Distinct(Map(TableId(), tables)) && t in tables
    ensures TablesById(tables)[t.id] == t
  {
    DistinctMeansEqual(TableId(), tables, TablesById(tables)[t.id], t);
  }
}
