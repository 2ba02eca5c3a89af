/**
 The body of a create or update request, twice: as the generated transfer object and as the OpenAPI schema. Each
 generator walks the tables and resolves the types on its own; None stands for a generator that refuses the model.
 */
module RequestSchemas {

  import opened Wrappers
  import opened Sequences
  import opened Sorting
  import opened Permutations
  import opened Relational
  import opened InheritanceWalks

  // The Java type of a column follows its foreign keys.

  type Key = (Id, Id)

  datatype Types = Types(supported: string -> bool, fallback: string -> Option<string>)

  function KeysOf(byId: Tables): set<Key> { set id, c | id in byId && c in byId[id].columns :: (id, c.id) }

  function HasColumn(id: Id): ForeignKey -> bool { (fk: ForeignKey) => id in fk.columnIds }

  function ReferencesOf(t: Table, c: Column): seq<ForeignKey> { Filter(HasColumn(c.id), t.foreignKeys) }

  function IsId(id: Id): Id -> bool { (x: Id) => x == id }

  datatype Place = Place(table: Table, column: Column)

  function Target(byId: Tables, fk: ForeignKey, id: Id): (r: Option<Place>)
    requires WellKeyed(byId)
    ensures r.Some? ==> Known(byId, r.value.table) && r.value.column in r.value.table.columns
  {
    if fk.referencedTableId !in byId then None
    else
      match IndexWhere(IsId(id), fk.columnIds)
      case None => None
      case Some(i) =>
        if i >= |fk.referencedColumnIds| then None
        else
          match ColumnById(byId[fk.referencedTableId], fk.referencedColumnIds[i])
          case None => None
          case Some(c) => Some(Place(byId[fk.referencedTableId], c))
  }

  predicate AllSame(types: seq<string>) { forall i :: 0 < i < |types| ==> types[i] == types[0] }

  /** The type all references agree on, if there are any. */
  function ResolvedType(c: Column, types: seq<string>): string { if types == [] then c.javaType else types[0] }

  /** In the generator a type must be supported in the end, and a cycle falls back to the type of the database. */
  function GeneratorType(ctx: Types, byId: Tables, t: Table, c: Column, seen: set<Key>): Option<string>
    requires WellKeyed(byId) && Known(byId, t) && c in t.columns
    decreases KeysOf(byId) - seen, 0
  {
    if (t.id, c.id) in seen then if ctx.supported(c.javaType) then Some(c.javaType) else ctx.fallback(c.postgresType)
    else
      assert (t.id, c.id) in KeysOf(byId);
      match GeneratorTypes(ctx, byId, c, ReferencesOf(t, c), seen + {(t.id, c.id)})
      case None => None
      case Some(types) =>
        if AllSame(types) && ctx.supported(ResolvedType(c, types)) then Some(ResolvedType(c, types)) else None
  }

  function GeneratorTypes(ctx: Types, byId: Tables, c: Column, fks: seq<ForeignKey>,
      seen: set<Key>): Option<seq<string>>
    requires WellKeyed(byId)
    decreases KeysOf(byId) - seen, |fks|
  {
    if fks == [] then Some([])
    else
      match Target(byId, fks[0], c.id)
      case None => None
      case Some(place) =>
        var head, tail := GeneratorType(ctx, byId, place.table, place.column, seen),
            GeneratorTypes(ctx, byId, c, fks[1..], seen);
        if head.None? || tail.None? then None else Some([head.value] + tail.value)
  }

  /** In the exported artifacts every type is accepted, and a cycle keeps the type of the column. */
  function ArtifactType(byId: Tables, t: Table, c: Column, seen: set<Key>): Option<string>
    requires WellKeyed(byId) && Known(byId, t) && c in t.columns
    decreases KeysOf(byId) - seen, 0
  {
    if (t.id, c.id) in seen then Some(c.javaType)
    else
      assert (t.id, c.id) in KeysOf(byId);
      match ArtifactTypes(byId, c, ReferencesOf(t, c), seen + {(t.id, c.id)})
      case None => None
      case Some(types) =>
        if AllSame(types) then Some(ResolvedType(c, types)) else None
  }

  function ArtifactTypes(byId: Tables, c: Column, fks: seq<ForeignKey>, seen: set<Key>): Option<seq<string>>
    requires WellKeyed(byId)
    decreases KeysOf(byId) - seen, |fks|
  {
    if fks == [] then Some([])
    else
      match Target(byId, fks[0], c.id)
      case None => None
      case Some(place) =>
        var head, tail := ArtifactType(byId, place.table, place.column, seen), ArtifactTypes(byId, c, fks[1..], seen);
        if head.None? || tail.None? then None else Some([head.value] + tail.value)
  }

  /** Whatever the generator falls back to is supported. */
  ghost predicate FallbacksAreSupported(ctx: Types) {
    forall p :: ctx.fallback(p).Some? ==> ctx.supported(ctx.fallback(p).value)
  }

  /** Wherever a path of foreign keys closes a cycle, the column has a supported type of its own. */
  predicate Closes(ctx: Types, byId: Tables, t: Table, c: Column, seen: set<Key>)
    requires WellKeyed(byId) && Known(byId, t) && c in t.columns
    decreases KeysOf(byId) - seen, 0
  {
    if (t.id, c.id) in seen then ctx.supported(c.javaType)
    else
      assert (t.id, c.id) in KeysOf(byId);
      AllClose(ctx, byId, c, ReferencesOf(t, c), seen + {(t.id, c.id)})
  }

  predicate AllClose(ctx: Types, byId: Tables, c: Column, fks: seq<ForeignKey>, seen: set<Key>)
    requires WellKeyed(byId)
    decreases KeysOf(byId) - seen, |fks|
  {
    fks == []
    || (&& (match Target(byId, fks[0], c.id)
            case None => true
            case Some(place) => Closes(ctx, byId, place.table, place.column, seen))
        && AllClose(ctx, byId, c, fks[1..], seen))
  }

  lemma DifferentTypesDiffer(c: Column, types: seq<string>, others: seq<string>)
    requires |types| == |others| && types != others && AllSame(types) && AllSame(others)
    ensures ResolvedType(c, types) != ResolvedType(c, others)
  {
    var i :| 0 <= i < |types| && types[i] != others[i];
    assert types[i] == types[0] && others[i] == others[0];
  }

  /** A type the generator accepts is the type the artifacts show exactly when no path closes at an unsupported type. */
  lemma {:induction false} TypesAgreeExactly(ctx: Types, byId: Tables, t: Table, c: Column, seen: set<Key>)
    requires WellKeyed(byId) && Known(byId, t) && c in t.columns
    requires GeneratorType(ctx, byId, t, c, seen).Some?
    ensures Closes(ctx, byId, t, c, seen) ==> ArtifactType(byId, t, c, seen) == GeneratorType(ctx, byId, t, c, seen)
    ensures FallbacksAreSupported(ctx) && ArtifactType(byId, t, c, seen) == GeneratorType(ctx, byId, t, c, seen) ==>
              Closes(ctx, byId, t, c, seen)
    decreases KeysOf(byId) - seen, 0
  {
    if (t.id, c.id) !in seen {
      assert (t.id, c.id) in KeysOf(byId);
      var more := seen + {(t.id, c.id)};
      ReferencedTypesAgree(ctx, byId, t, c, ReferencesOf(t, c), more);
      OneTypeForEachReference(ctx, byId, c, ReferencesOf(t, c), more);
      var types, shown := GeneratorTypes(ctx, byId, c, ReferencesOf(t, c), more).value,
          ArtifactTypes(byId, c, ReferencesOf(t, c), more);
      if shown.Some? && shown.value != types && AllSame(shown.value) { DifferentTypesDiffer(c, types, shown.value); }
    }
  }

  lemma {:induction false} OneTypeForEachReference(ctx: Types, byId: Tables, c: Column, fks: seq<ForeignKey>,
      seen: set<Key>)
    requires WellKeyed(byId)
    ensures GeneratorTypes(ctx, byId, c, fks, seen).Some? ==> |GeneratorTypes(ctx, byId, c, fks, seen).value| == |fks|
    ensures ArtifactTypes(byId, c, fks, seen).Some? ==> |ArtifactTypes(byId, c, fks, seen).value| == |fks|
    decreases |fks|
  {
    if fks != [] { OneTypeForEachReference(ctx, byId, c, fks[1..], seen); }
  }

  lemma {:induction false} ReferencedTypesAgree(ctx: Types, byId: Tables, t: Table, c: Column, fks: seq<ForeignKey>,
      seen: set<Key>)
    requires WellKeyed(byId) && Known(byId, t) && c in t.columns
    requires GeneratorTypes(ctx, byId, c, fks, seen).Some?
    ensures AllClose(ctx, byId, c, fks, seen) ==>
              ArtifactTypes(byId, c, fks, seen) == GeneratorTypes(ctx, byId, c, fks, seen)
    ensures FallbacksAreSupported(ctx) && ArtifactTypes(byId, c, fks, seen) == GeneratorTypes(ctx, byId, c, fks, seen)
            ==> AllClose(ctx, byId, c, fks, seen)
    decreases KeysOf(byId) - seen, |fks|
  {
    if fks != [] {
      var place := Target(byId, fks[0], c.id).value;
      TypesAgreeExactly(ctx, byId, place.table, place.column, seen);
      ReferencedTypesAgree(ctx, byId, t, c, fks[1..], seen);
      var head, tail := GeneratorType(ctx, byId, place.table, place.column, seen),
          GeneratorTypes(ctx, byId, c, fks[1..], seen);
      var shown, rest := ArtifactType(byId, place.table, place.column, seen), ArtifactTypes(byId, c, fks[1..], seen);
      HeadAndTailAgree(head.value, tail.value, shown, rest, Closes(ctx, byId, place.table, place.column, seen),
                       AllClose(ctx, byId, c, fks[1..], seen), FallbacksAreSupported(ctx));
    }
  }

  lemma HeadAndTailAgree(head: string, tail: seq<string>, shown: Option<string>, rest: Option<seq<string>>,
                         headCloses: bool, tailCloses: bool, supported: bool)
    requires (headCloses ==> shown == Some(head)) && (tailCloses ==> rest == Some(tail))
    requires supported ==> (shown == Some(head) ==> headCloses) && (rest == Some(tail) ==> tailCloses)
    ensures var all := if shown.None? || rest.None? then None else Some([shown.value] + rest.value);
            && (headCloses && tailCloses ==> all == Some([head] + tail))
            && (supported && all == Some([head] + tail) ==> headCloses && tailCloses)
  {
    if shown.Some? && rest.Some? && [shown.value] + rest.value == [head] + tail {
      assert shown.value == ([shown.value] + rest.value)[0] && rest.value == ([shown.value] + rest.value)[1..];
      assert head == ([head] + tail)[0] && tail == ([head] + tail)[1..];
    }
  }

  /** Foreign keys only lead down: there is no cycle of columns. */
  ghost predicate Descends(byId: Tables, rank: Key -> nat)
    requires WellKeyed(byId)
  {
    forall id, c, fk :: id in byId && c in byId[id].columns && fk in ReferencesOf(byId[id], c)
        && Target(byId, fk, c.id).Some?
      ==> rank((Target(byId, fk, c.id).value.table.id, Target(byId, fk, c.id).value.column.id)) < rank((id, c.id))
  }

  ghost predicate AllSupported(ctx: Types, byId: Tables) {
    forall id, c :: id in byId && c in byId[id].columns ==> ctx.supported(c.javaType)
  }

  ghost predicate Comparable(ctx: Types, byId: Tables, rank: Key -> nat)
    requires WellKeyed(byId)
  {
    Descends(byId, rank) || AllSupported(ctx, byId)
  }

  ghost predicate Above(byId: Tables, rank: Key -> nat, seen: set<Key>, k: Key)
    requires WellKeyed(byId)
  {
    Descends(byId, rank) ==> forall s :: s in seen ==> rank(k) < rank(s)
  }

  /** Without a cycle, or with supported types only, nothing closes badly. */
  lemma {:induction false} ComparableCloses(ctx: Types, byId: Tables, t: Table, c: Column, seen: set<Key>,
      rank: Key -> nat)
    requires WellKeyed(byId) && Known(byId, t) && c in t.columns && Comparable(ctx, byId, rank)
    requires Above(byId, rank, seen, (t.id, c.id))
    ensures Closes(ctx, byId, t, c, seen)
    decreases KeysOf(byId) - seen, 0
  {
    if (t.id, c.id) !in seen {
      assert (t.id, c.id) in KeysOf(byId);
      ComparableAllClose(ctx, byId, t, c, ReferencesOf(t, c), seen + {(t.id, c.id)}, rank);
    }
  }

  lemma {:induction false} ComparableAllClose(ctx: Types, byId: Tables, t: Table, c: Column, fks: seq<ForeignKey>,
      seen: set<Key>,
                                              rank: Key -> nat)
    requires WellKeyed(byId) && Known(byId, t) && c in t.columns && Comparable(ctx, byId, rank)
    requires forall fk :: fk in fks ==> fk in ReferencesOf(t, c)
    requires Descends(byId, rank) ==> forall s :: s in seen ==> rank((t.id, c.id)) <= rank(s)
    ensures AllClose(ctx, byId, c, fks, seen)
    decreases KeysOf(byId) - seen, |fks|
  {
    if fks != [] {
      assert fks[0] in fks;
      if Target(byId, fks[0], c.id).Some? {
        var place := Target(byId, fks[0], c.id).value;
        assert Descends(byId, rank) ==> rank((place.table.id, place.column.id)) < rank((byId[t.id].id, c.id));
        ComparableCloses(ctx, byId, place.table, place.column, seen, rank);
      }
      ComparableAllClose(ctx, byId, t, c, fks[1..], seen, rank);
    }
  }

  // Columns of an entity, from the root down.

  function Inherits(t: Table): Column -> bool { (c: Column) => !(IsSubclass(t) && c.id in t.primaryKey) }

  /** The columns a table adds, in the order of the generators. */
  function OwnColumns(before: (Column, Column) -> bool, t: Table): (r: seq<Column>)
    ensures forall c :: c in r ==> c in t.columns
  {
    SortedFilterMembers(before, t);
    Sorted(before, Filter(Inherits(t), t.columns))
  }

  lemma SortedFilterMembers(before: (Column, Column) -> bool, t: Table)
    ensures forall c :: c in Sorted(before, Filter(Inherits(t), t.columns)) ==> c in t.columns
  {
    SameMembers(Sorted(before, Filter(Inherits(t), t.columns)), Filter(Inherits(t), t.columns));
  }

  function At(t: Table): Column -> Place { (c: Column) => Place(t, c) }

  function PlacesOf(before: (Column, Column) -> bool, t: Table): (r: seq<Place>)
    ensures forall p :: p in r ==> p.table == t && p.column in t.columns
  {
    Map(At(t), OwnColumns(before, t))
  }

  function AllPlaces(before: (Column, Column) -> bool, tables: seq<Table>): (r: seq<Place>)
    ensures forall p :: p in r ==> p.table in tables && p.column in p.table.columns
  {
    if tables == [] then []
    else
      var rest, last := tables[..|tables| - 1], tables[|tables| - 1];
      assert tables == rest + [last];
      AllPlaces(before, rest) + PlacesOf(before, last)
  }

  function NameAt(): Place -> string { (p: Place) => p.column.property }

  function NamesOf(places: seq<Place>): seq<string> { Map(NameAt(), places) }

  predicate Repeats(names: seq<string>) { exists i, j :: 0 <= i < j < |names| && names[i] == names[j] }

  predicate Shadows(names: seq<string>, inherited: seq<string>) {
    exists i :: 0 <= i < |names| && names[i] in inherited
  }

  /** The generator refuses an entity in which a property is repeated or shadows an inherited one. */
  function EntityHierarchyColumns(before: (Column, Column) -> bool, tables: seq<Table>): (r: Option<seq<Place>>)
    ensures r.Some? ==> r.value == AllPlaces(before, tables)
  {
    if tables == [] then Some([])
    else
      var rest, last := tables[..|tables| - 1], tables[|tables| - 1];
      match EntityHierarchyColumns(before, rest)
      case None => None
      case Some(inherited) =>
        if Repeats(NamesOf(PlacesOf(before, last)))
            || (IsSubclass(last) && Shadows(NamesOf(PlacesOf(before, last)), NamesOf(inherited)))
        then None
        else Some(inherited + PlacesOf(before, last))
  }

  // The two schemas.

  datatype Field = Field(name: string, required: bool, javaType: string)

  datatype Schema = Schema(idTypes: seq<string>, idRequired: bool, fields: seq<Field>)

  /** A property of the transfer object is annotated unless its column may be null or fills itself. */
  function IsAnnotated(): Place -> bool { (p: Place) => !(p.column.nullable || p.column.hasDefault) }

  /** A property of the request schema is listed when its column may not be null and has no default. */
  function IsListed(): Place -> bool { (p: Place) => !p.column.nullable && !p.column.hasDefault }

  function FieldAt(required: Place -> bool, p: Place, javaType: string): Field {
    Field(p.column.property, required(p), javaType)
  }

  function ColumnAt(t: Table): Id -> Option<Place> {
    (id: Id) => match ColumnById(t, id) case None => None case Some(c) => Some(Place(t, c))
  }

  /** The columns of the key of a root. */
  function IdentifierColumns(root: Table): Option<seq<Place>> {
    match MapAll(ColumnAt(root), root.primaryKey)
    case None => None
    case Some(places) => if places == [] then None else Some(places)
  }

  predicate IsGenerated(identifier: seq<Place>) { |identifier| == 1 && identifier[0].column.generated }

  predicate Within(byId: Tables, p: Place) { Known(byId, p.table) && p.column in p.table.columns }

  function GeneratorTypeAt(ctx: Types, byId: Tables): Place -> Option<string> {
    (p: Place) => TypeOfPlace(ctx, byId, p)
  }

  function TypeOfPlace(ctx: Types, byId: Tables, p: Place): Option<string> {
    if WellKeyed(byId) && Within(byId, p) then GeneratorType(ctx, byId, p.table, p.column, {}) else None
  }

  function ArtifactTypeAt(byId: Tables): Place -> Option<string> { (p: Place) => ShownTypeOfPlace(byId, p) }

  function ShownTypeOfPlace(byId: Tables, p: Place): Option<string> {
    if WellKeyed(byId) && Within(byId, p) then ArtifactType(byId, p.table, p.column, {}) else None
  }

  function Fields(required: Place -> bool, places: seq<Place>, types: seq<string>): (r: seq<Field>)
    requires |places| == |types|
    ensures |r| == |places| && forall i :: 0 <= i < |r| ==> r[i] == FieldAt(required, places[i], types[i])
  {
    seq(|places|, i requires 0 <= i < |places| => FieldAt(required, places[i], types[i]))
  }

  lemma {:induction false} MapAllLength<A, B>(f: A -> Option<B>, s: seq<A>)
    requires MapAll(f, s).Some?
    ensures |MapAll(f, s).value| == |s|
  {
    if s != [] { MapAllLength(f, s[1..]); }
  }

  function SchemaOf(identifier: seq<Place>, idTypes: seq<string>, required: Place -> bool, places: seq<Place>,
      typeAt: Place -> Option<string>): Option<Schema> {
    match MapAll(typeAt, places)
    case None => None
    case Some(types) =>
      MapAllLength(typeAt, places);
      Some(Schema(idTypes, !IsGenerated(identifier), Fields(required, places, types)))
  }

  function IsBound(): Place -> bool { (p: Place) => IsSubclass(p.table) || !p.column.primaryKey }

  function DtoOver(ctx: Types, before: (Column, Column) -> bool, byId: Tables, tables: seq<Table>): Option<Schema> {
    if tables == [] || IdentifierColumns(tables[0]).None? || EntityHierarchyColumns(before, tables).None? then None
    else
      var identifier := IdentifierColumns(tables[0]).value;
      var bound := Filter(IsBound(), EntityHierarchyColumns(before, tables).value);
      match MapAll(GeneratorTypeAt(ctx, byId), identifier)
      case None => None
      case Some(idTypes) =>
        if "byte[]" in idTypes || "id" in NamesOf(bound) then None
        else SchemaOf(identifier, idTypes, IsAnnotated(), bound, GeneratorTypeAt(ctx, byId))
  }

  /** The transfer object: an id and one property for every bound column; not-null unless there is a default. */
  function DtoOf(ctx: Types, before: (Column, Column) -> bool, byId: Tables, t: Table): Option<Schema>
    requires WellKeyed(byId)
  {
    match Downwards(WalkFrom(byId, t))
    case Failure(_) => None
    case Success(tables) => DtoOver(ctx, before, byId, tables)
  }

  function IsKeyOf(identifier: seq<Place>): Place -> bool {
    (p: Place) => exists q :: q in identifier && q.table.id == p.table.id && q.column.id == p.column.id
  }

  function IsNoKeyOf(identifier: seq<Place>): Place -> bool { (p: Place) => !IsKeyOf(identifier)(p) }

  function RequestSchemaOver(before: (Column, Column) -> bool, byId: Tables, tables: seq<Table>): Option<Schema> {
    if tables == [] || IdentifierColumns(tables[0]).None? then None
    else
      var identifier := IdentifierColumns(tables[0]).value;
      match MapAll(ArtifactTypeAt(byId), identifier)
      case None => None
      case Some(idTypes) =>
        SchemaOf(identifier, idTypes, IsListed(), Filter(IsNoKeyOf(identifier), AllPlaces(before, tables)),
                 ArtifactTypeAt(byId))
  }

  /** The request schema: an id and one property for every column that is not part of the root's key. */
  function RequestSchemaOf(before: (Column, Column) -> bool, byId: Tables, t: Table): Option<Schema>
    requires WellKeyed(byId)
  {
    match Downwards(ArtifactWalk(byId, t, {t.id}))
    case Failure(_) => None
    case Success(tables) => RequestSchemaOver(before, byId, tables)
  }
}
