/** The transfer object and the request schema of an entity are the same. */
module SchemasAgree {

  import opened Wrappers
  import opened Sequences
  import opened Sorting
  import opened Permutations
  import opened Relational
  import opened RelationalContract
  import opened InheritanceWalks
  import opened RequestSchemas

  // The tables of an entity, root first.

  lemma {:induction false} WalkIsKnown(byId: Tables, t: Table, seen: set<Id>)
    requires WellKeyed(byId) && Known(byId, t) && Walk(byId, t, seen).Success?
    ensures forall u :: u in Walk(byId, t, seen).value ==> Known(byId, u)
    decreases byId.Keys - seen
  {
    if IsSubclass(t) {
      var parent := ParentOf(byId, t).value;
      WalkIsKnown(byId, parent, seen + {parent.id});
    }
  }

  ghost predicate RootFirst(byId: Tables, tables: seq<Table>) {
    && tables != [] && !IsSubclass(tables[0])
    && (forall i :: 0 < i < |tables| ==> IsSubclass(tables[i]))
    && forall i :: 0 <= i < |tables| ==> Known(byId, tables[i])
  }

  lemma ChainIsRootFirst(byId: Tables, chain: seq<Table>)
    requires IsChain(byId, chain) && forall u :: u in chain ==> Known(byId, u)
    ensures RootFirst(byId, Reversed(chain))
  {
    forall i | 0 <= i < |chain|
      ensures Known(byId, Reversed(chain)[i]) && (i == 0 ==> !IsSubclass(Reversed(chain)[i]))
                && (0 < i ==> IsSubclass(Reversed(chain)[i]))
    {
      ReversedIndex(chain, i);
    }
  }

  lemma EntityTables(tables: seq<Table>, t: Table)
    requires Consistent(tables) && t in tables
    ensures var byId := TablesById(tables);
      && WellKeyed(byId) && WalkFrom(byId, t).Success? && RootFirst(byId, Reversed(WalkFrom(byId, t).value))
      && ArtifactWalk(byId, t, {t.id}) == WalkFrom(byId, t)
  {
    var byId := TablesById(tables);
    ConsistentIndex(tables);
    WalksEndAtRoots(tables, t);
    assert Known(byId, t);
    WalkIsKnown(byId, t, {t.id});
    ChainIsRootFirst(byId, WalkFrom(byId, t).value);
  }

  // The columns that make a property.

  lemma {:induction false} MapAllMembers<A, B>(f: A -> Option<B>, s: seq<A>, y: B) returns (x: A)
    requires MapAll(f, s).Some? && y in MapAll(f, s).value
    ensures x in s && f(x) == Some(y)
  {
    if f(s[0]) == Some(y) { x := s[0]; } else { x := MapAllMembers(f, s[1..], y); }
  }

  lemma {:induction false} MapAllHas<A, B>(f: A -> Option<B>, s: seq<A>, x: A)
    requires MapAll(f, s).Some? && x in s
    ensures f(x).Some? && f(x).value in MapAll(f, s).value
  {
    if s[0] != x { MapAllHas(f, s[1..], x); }
  }

  lemma KeyPlaces(root: Table, p: Place)
    requires IdentifierColumns(root).Some? && p.table == root
    ensures IsKeyOf(IdentifierColumns(root).value)(p) <==> p.column.id in root.primaryKey
  {
    var identifier := IdentifierColumns(root).value;
    if IsKeyOf(identifier)(p) {
      var q :| q in identifier && q.table.id == p.table.id && q.column.id == p.column.id;
      var id := MapAllMembers(ColumnAt(root), root.primaryKey, q);
    }
    if p.column.id in root.primaryKey {
      MapAllHas(ColumnAt(root), root.primaryKey, p.column.id);
      var q := ColumnAt(root)(p.column.id).value;
      assert q in identifier && q.table.id == p.table.id && q.column.id == p.column.id;
    }
  }

  lemma ForeignPlaces(byId: Tables, root: Table, p: Place)
    requires IdentifierColumns(root).Some? && Known(byId, root) && Known(byId, p.table) && IsSubclass(p.table)
               && !IsSubclass(root)
    ensures !IsKeyOf(IdentifierColumns(root).value)(p)
  {
    forall q | q in IdentifierColumns(root).value ensures q.table.id != p.table.id {
      var id := MapAllMembers(ColumnAt(root), root.primaryKey, q);
      assert q.table == root;
    }
  }

  /** A column of the root is part of the key exactly when it is marked so. */
  lemma MarkedIsDeclared(root: Table, c: Column)
    requires PrimaryKeyFits(root) && Distinct(Map(ColumnId(), root.columns)) && c in root.columns
    ensures c.primaryKey <==> c.id in root.primaryKey
  {
    if c.id in root.primaryKey {
      assert PrimaryKeyColumnFits(ColumnsById(root.columns), c.id);
      DistinctMeansEqual(ColumnId(), root.columns, c, ColumnsById(root.columns)[c.id]);
    }
  }

  lemma BoundIsNoKey(byId: Tables, tables: seq<Table>, p: Place)
    requires RootFirst(byId, tables) && IdentifierColumns(tables[0]).Some? && p.table in tables
               && p.column in p.table.columns
    requires PrimaryKeyFits(tables[0]) && Distinct(Map(ColumnId(), tables[0].columns))
    ensures IsBound()(p) == IsNoKeyOf(IdentifierColumns(tables[0]).value)(p)
  {
    var i :| 0 <= i < |tables| && tables[i] == p.table;
    if i == 0 {
      KeyPlaces(tables[0], p);
      MarkedIsDeclared(tables[0], p.column);
    } else {
      ForeignPlaces(byId, tables[0], p);
    }
  }

  lemma BoundPlacesAreNoKeys(before: (Column, Column) -> bool, byId: Tables, tables: seq<Table>)
    requires RootFirst(byId, tables) && IdentifierColumns(tables[0]).Some?
    requires PrimaryKeyFits(tables[0]) && Distinct(Map(ColumnId(), tables[0].columns))
    ensures Filter(IsBound(), AllPlaces(before, tables))
              == Filter(IsNoKeyOf(IdentifierColumns(tables[0]).value), AllPlaces(before, tables))
  {
    var places := AllPlaces(before, tables);
    forall p | p in places ensures IsBound()(p) == IsNoKeyOf(IdentifierColumns(tables[0]).value)(p) {
      BoundIsNoKey(byId, tables, p);
    }
    FilterSame(IsBound(), IsNoKeyOf(IdentifierColumns(tables[0]).value), places);
  }

  lemma OwnColumnsAreInherited(before: (Column, Column) -> bool, t: Table, c: Column)
    ensures c in OwnColumns(before, t) <==> c in t.columns && !(IsSubclass(t) && c.id in t.primaryKey)
  {
    SameMembers(Sorted(before, Filter(Inherits(t), t.columns)), Filter(Inherits(t), t.columns));
  }

  lemma PlacesAreOwnColumns(before: (Column, Column) -> bool, t: Table, p: Place)
    ensures p in PlacesOf(before, t) <==> p.table == t && p.column in OwnColumns(before, t)
  {
    var own, places := OwnColumns(before, t), PlacesOf(before, t);
    if p.table == t && p.column in own {
      var i :| 0 <= i < |own| && own[i] == p.column;
      assert places[i] == p;
    }
    if p in places {
      var i :| 0 <= i < |places| && places[i] == p;
      assert own[i] == p.column;
    }
  }

  lemma {:induction false} PlacesAreTheColumns(before: (Column, Column) -> bool, tables: seq<Table>, p: Place)
    ensures p in AllPlaces(before, tables) <==>
            && p.table in tables && p.column in p.table.columns
            && !(IsSubclass(p.table) && p.column.id in p.table.primaryKey)
  {
    if tables != [] {
      var rest, last := tables[..|tables| - 1], tables[|tables| - 1];
      assert tables == rest + [last];
      PlacesAreTheColumns(before, rest, p);
      OwnColumnsAreInherited(before, last, p.column);
      PlacesAreOwnColumns(before, last, p);
    }
  }

  /** Exactly the columns of an entity's tables that are not part of their table's key make properties. */
  lemma PropertiesAreTheOtherColumns(before: (Column, Column) -> bool, byId: Tables, tables: seq<Table>, p: Place)
    requires RootFirst(byId, tables) && PrimaryKeyFits(tables[0]) && Distinct(Map(ColumnId(), tables[0].columns))
    ensures p in Filter(IsBound(), AllPlaces(before, tables)) <==>
            p.table in tables && p.column in p.table.columns && p.column.id !in p.table.primaryKey
  {
    PlacesAreTheColumns(before, tables, p);
    if p.table in tables && p.column in p.table.columns {
      var i :| 0 <= i < |tables| && tables[i] == p.table;
      if i == 0 { MarkedIsDeclared(tables[0], p.column); }
    }
  }

  // Names.

  lemma RepeatsNothing(names: seq<string>)
    ensures !Repeats(names) <==> Distinct(names)
  {
  }

  /** The generator accepts only entities whose property names are all different. */
  lemma {:induction false} AcceptedNamesAreDistinct(before: (Column, Column) -> bool, tables: seq<Table>)
    requires EntityHierarchyColumns(before, tables).Some? && forall i :: 0 < i < |tables| ==> IsSubclass(tables[i])
    ensures Distinct(NamesOf(AllPlaces(before, tables)))
  {
    if tables != [] {
      var rest, last := tables[..|tables| - 1], tables[|tables| - 1];
      AcceptedNamesAreDistinct(before, rest);
      var inherited, own := NamesOf(AllPlaces(before, rest)), NamesOf(PlacesOf(before, last));
      RepeatsNothing(own);
      MapAppend(NameAt(), AllPlaces(before, rest), PlacesOf(before, last));
      if rest != [] { assert !Shadows(own, inherited); }
      DistinctAppend(inherited, own);
    }
  }

  lemma {:induction false} FilteredNamesAreDistinct(p: Place -> bool, s: seq<Place>)
    requires Distinct(NamesOf(s))
    ensures Distinct(NamesOf(Filter(p, s))) && forall n :: n in NamesOf(Filter(p, s)) ==> n in NamesOf(s)
  {
    if s != [] {
      MapCons(NameAt(), s);
      DistinctAppend([s[0].column.property], NamesOf(s[1..]));
      FilteredNamesAreDistinct(p, s[1..]);
      if p(s[0]) {
        MapAppend(NameAt(), [s[0]], Filter(p, s[1..]));
        assert Map(NameAt(), [s[0]]) == [s[0].column.property];
        DistinctAppend([s[0].column.property], NamesOf(Filter(p, s[1..])));
      } else {
        assert Filter(p, s) == Filter(p, s[1..]);
      }
    }
  }

  // Types.

  predicate ClosesAt(ctx: Types, byId: Tables, p: Place) {
    WellKeyed(byId) && Within(byId, p) ==> Closes(ctx, byId, p.table, p.column, {})
  }

  lemma PlaceTypesAgree(ctx: Types, byId: Tables, p: Place)
    requires GeneratorTypeAt(ctx, byId)(p).Some?
    ensures ClosesAt(ctx, byId, p) ==> ArtifactTypeAt(byId)(p) == GeneratorTypeAt(ctx, byId)(p)
    ensures FallbacksAreSupported(ctx) && ArtifactTypeAt(byId)(p) == GeneratorTypeAt(ctx, byId)(p) ==>
              ClosesAt(ctx, byId, p)
  {
    TypesAgreeExactly(ctx, byId, p.table, p.column, {});
  }

  lemma PlacesTypesAgree(ctx: Types, byId: Tables, places: seq<Place>)
    requires MapAll(GeneratorTypeAt(ctx, byId), places).Some?
    ensures (forall p :: p in places ==> ClosesAt(ctx, byId, p)) ==>
              MapAll(ArtifactTypeAt(byId), places) == MapAll(GeneratorTypeAt(ctx, byId), places)
    ensures FallbacksAreSupported(ctx)
              && MapAll(ArtifactTypeAt(byId), places) == MapAll(GeneratorTypeAt(ctx, byId), places) ==>
              forall p :: p in places ==> ClosesAt(ctx, byId, p)
  {
    MapAllEqual(GeneratorTypeAt(ctx, byId), ArtifactTypeAt(byId), places);
    forall p | p in places
      ensures ClosesAt(ctx, byId, p) ==> ArtifactTypeAt(byId)(p) == GeneratorTypeAt(ctx, byId)(p)
      ensures FallbacksAreSupported(ctx) && ArtifactTypeAt(byId)(p) == GeneratorTypeAt(ctx, byId)(p) ==>
                ClosesAt(ctx, byId, p)
    {
      MapAllHas(GeneratorTypeAt(ctx, byId), places, p);
      PlaceTypesAgree(ctx, byId, p);
    }
  }

  function FieldName(): Field -> string { (f: Field) => f.name }

  lemma SchemaNames(required: Place -> bool, places: seq<Place>, types: seq<string>)
    requires |places| == |types|
    ensures Map(FieldName(), Fields(required, places, types)) == NamesOf(places)
  {
  }

  lemma FieldsDecideTypes(places: seq<Place>, types: seq<string>, others: seq<string>)
    requires |places| == |types| == |others|
    ensures Fields(IsAnnotated(), places, types) == Fields(IsListed(), places, others) <==> types == others
  {
    if Fields(IsAnnotated(), places, types) == Fields(IsListed(), places, others) {
      forall i | 0 <= i < |types| ensures types[i] == others[i] {
        assert Fields(IsAnnotated(), places, types)[i] == Fields(IsListed(), places, others)[i];
      }
    }
  }

  lemma SchemasDecideTypes(identifier: seq<Place>, idTypes: seq<string>, others: seq<string>, bound: seq<Place>,
                           f: Place -> Option<string>, g: Place -> Option<string>)
    requires SchemaOf(identifier, idTypes, IsAnnotated(), bound, f).Some?
    ensures SchemaOf(identifier, others, IsListed(), bound, g) == SchemaOf(identifier, idTypes, IsAnnotated(), bound, f)
            <==> others == idTypes && MapAll(g, bound) == MapAll(f, bound)
  {
    MapAllLength(f, bound);
    if MapAll(g, bound).Some? {
      MapAllLength(g, bound);
      FieldsDecideTypes(bound, MapAll(f, bound).value, MapAll(g, bound).value);
    }
  }

  /** The columns that are shown for an entity: the key of its root and the columns that make a property. */
  function ShownPlaces(before: (Column, Column) -> bool, tables: seq<Table>): seq<Place> {
    if tables == [] || IdentifierColumns(tables[0]).None? then []
    else IdentifierColumns(tables[0]).value + Filter(IsBound(), AllPlaces(before, tables))
  }

  lemma SchemasOverTablesAgree(ctx: Types, before: (Column, Column) -> bool, byId: Tables, tables: seq<Table>)
    requires RootFirst(byId, tables) && PrimaryKeyFits(tables[0]) && Distinct(Map(ColumnId(), tables[0].columns))
    requires DtoOver(ctx, before, byId, tables).Some?
    ensures (forall p :: p in ShownPlaces(before, tables) ==> ClosesAt(ctx, byId, p)) ==>
              RequestSchemaOver(before, byId, tables) == DtoOver(ctx, before, byId, tables)
    ensures FallbacksAreSupported(ctx)
              && RequestSchemaOver(before, byId, tables) == DtoOver(ctx, before, byId, tables) ==>
              forall p :: p in ShownPlaces(before, tables) ==> ClosesAt(ctx, byId, p)
  {
    var identifier, bound := IdentifierColumns(tables[0]).value, Filter(IsBound(), AllPlaces(before, tables));
    assert forall p :: p in ShownPlaces(before, tables) <==> p in identifier || p in bound;
    BoundPlacesAreNoKeys(before, byId, tables);
    PlacesTypesAgree(ctx, byId, identifier);
    PlacesTypesAgree(ctx, byId, bound);
    var shown := MapAll(ArtifactTypeAt(byId), identifier);
    if shown.Some? {
      SchemasDecideTypes(identifier, MapAll(GeneratorTypeAt(ctx, byId), identifier).value, shown.value, bound,
                         GeneratorTypeAt(ctx, byId), ArtifactTypeAt(byId));
    }
  }

  // Without looking at types.

  predicate SameShape(a: Field, b: Field) { a.name == b.name && a.required == b.required }

  predicate SameButTypes(a: Schema, b: Schema) {
    && a.idRequired == b.idRequired && |a.fields| == |b.fields|
    && forall i :: 0 <= i < |a.fields| ==> SameShape(a.fields[i], b.fields[i])
  }

  lemma ShapesOfPlacesAgree(identifier: seq<Place>, idTypes: seq<string>, others: seq<string>, bound: seq<Place>,
                            f: Place -> Option<string>, g: Place -> Option<string>)
    requires SchemaOf(identifier, idTypes, IsListed(), bound, f).Some?
    requires SchemaOf(identifier, others, IsAnnotated(), bound, g).Some?
    ensures SameButTypes(SchemaOf(identifier, idTypes, IsListed(), bound, f).value,
                         SchemaOf(identifier, others, IsAnnotated(), bound, g).value)
  {
    MapAllLength(f, bound);
    MapAllLength(g, bound);
  }

  lemma ShapesOverTablesAgree(ctx: Types, before: (Column, Column) -> bool, byId: Tables, tables: seq<Table>)
    requires RootFirst(byId, tables) && PrimaryKeyFits(tables[0]) && Distinct(Map(ColumnId(), tables[0].columns))
    requires DtoOver(ctx, before, byId, tables).Some? && RequestSchemaOver(before, byId, tables).Some?
    ensures SameButTypes(RequestSchemaOver(before, byId, tables).value, DtoOver(ctx, before, byId, tables).value)
  {
    var identifier := IdentifierColumns(tables[0]).value;
    var bound := Filter(IsBound(), AllPlaces(before, tables));
    BoundPlacesAreNoKeys(before, byId, tables);
    ShapesOfPlacesAgree(identifier, MapAll(ArtifactTypeAt(byId), identifier).value,
        MapAll(GeneratorTypeAt(ctx, byId), identifier).value,
                        bound, ArtifactTypeAt(byId), GeneratorTypeAt(ctx, byId));
  }

  lemma NamesOverTablesAreDistinct(ctx: Types, before: (Column, Column) -> bool, byId: Tables, tables: seq<Table>)
    requires RootFirst(byId, tables) && DtoOver(ctx, before, byId, tables).Some?
    ensures Distinct(["id"] + Map(FieldName(), DtoOver(ctx, before, byId, tables).value.fields))
  {
    var bound := Filter(IsBound(), AllPlaces(before, tables));
    AcceptedNamesAreDistinct(before, tables);
    FilteredNamesAreDistinct(IsBound(), AllPlaces(before, tables));
    MapAllLength(GeneratorTypeAt(ctx, byId), bound);
    SchemaNames(IsAnnotated(), bound, MapAll(GeneratorTypeAt(ctx, byId), bound).value);
    DistinctAppend(["id"], NamesOf(bound));
  }

  /**
   For every consistent model that both generators accept, the request schema has the properties of the transfer object
   in the same order, and the same of them are required; and no property hides another.
   */
  lemma RequestSchemaHasTheShapeOfTheDto(ctx: Types, before: (Column, Column) -> bool, tables: seq<Table>, t: Table)
    requires Consistent(tables) && t in tables
    requires DtoOf(ctx, before, TablesById(tables), t).Some? && RequestSchemaOf(before, TablesById(tables), t).Some?
    ensures SameButTypes(RequestSchemaOf(before, TablesById(tables), t).value,
                DtoOf(ctx, before, TablesById(tables), t).value)
    ensures Distinct(["id"] + Map(FieldName(), DtoOf(ctx, before, TablesById(tables), t).value.fields))
  {
    var byId := TablesById(tables);
    EntityTables(tables, t);
    ConsistentIndex(tables);
    var down := Reversed(WalkFrom(byId, t).value);
    assert Known(byId, down[0]) && TableFits(byId, down[0]);
    ShapesOverTablesAgree(ctx, before, byId, down);
    NamesOverTablesAreDistinct(ctx, before, byId, down);
  }

  /** One property for every column in order, required exactly if the column takes no null and has no default. */
  predicate RequiresWhatIsNeeded(s: Schema, places: seq<Place>) {
    && |s.fields| == |places|
    && forall i :: 0 <= i < |places| ==>
         && s.fields[i].name == places[i].column.property
         && (s.fields[i].required <==> !places[i].column.nullable && !places[i].column.hasDefault)
  }

  /** The key of a root is generated if it is one generated column. */
  predicate GeneratesItsKey(root: Table) {
    |root.primaryKey| == 1 && exists c :: c in root.columns && c.id == root.primaryKey[0] && c.generated
  }

  lemma KeyIsGenerated(root: Table)
    requires IdentifierColumns(root).Some? && Distinct(Map(ColumnId(), root.columns))
    ensures IsGenerated(IdentifierColumns(root).value) <==> GeneratesItsKey(root)
  {
    var identifier := IdentifierColumns(root).value;
    MapAllLength(ColumnAt(root), root.primaryKey);
    if |root.primaryKey| == 1 {
      var key := MapAllMembers(ColumnAt(root), root.primaryKey, identifier[0]);
      forall c | c in root.columns && c.id == root.primaryKey[0] ensures c == identifier[0].column {
        DistinctMeansEqual(ColumnId(), root.columns, c, identifier[0].column);
      }
    }
  }

  lemma SchemaRequires(identifier: seq<Place>, idTypes: seq<string>, required: Place -> bool, places: seq<Place>,
      typeAt: Place -> Option<string>)
    requires required == IsAnnotated() || required == IsListed()
    requires SchemaOf(identifier, idTypes, required, places, typeAt).Some?
    ensures RequiresWhatIsNeeded(SchemaOf(identifier, idTypes, required, places, typeAt).value, places)
    ensures SchemaOf(identifier, idTypes, required, places, typeAt).value.idRequired == !IsGenerated(identifier)
  {
    MapAllLength(typeAt, places);
  }

  /** The schema over the tables of an entity requires what is needed. */
  ghost predicate FitsColumns(before: (Column, Column) -> bool, tables: seq<Table>, s: Schema) {
    && tables != [] && RequiresWhatIsNeeded(s, Filter(IsBound(), AllPlaces(before, tables)))
    && s.idRequired == !GeneratesItsKey(tables[0])
  }

  lemma DtoFitsColumns(ctx: Types, before: (Column, Column) -> bool, byId: Tables, tables: seq<Table>)
    requires RootFirst(byId, tables) && Distinct(Map(ColumnId(), tables[0].columns))
    requires DtoOver(ctx, before, byId, tables).Some?
    ensures FitsColumns(before, tables, DtoOver(ctx, before, byId, tables).value)
  {
    var identifier := IdentifierColumns(tables[0]).value;
    KeyIsGenerated(tables[0]);
    SchemaRequires(identifier, MapAll(GeneratorTypeAt(ctx, byId), identifier).value, IsAnnotated(),
                   Filter(IsBound(), AllPlaces(before, tables)), GeneratorTypeAt(ctx, byId));
  }

  lemma RequestSchemaFitsColumns(before: (Column, Column) -> bool, byId: Tables, tables: seq<Table>)
    requires RootFirst(byId, tables) && PrimaryKeyFits(tables[0]) && Distinct(Map(ColumnId(), tables[0].columns))
    requires RequestSchemaOver(before, byId, tables).Some?
    ensures FitsColumns(before, tables, RequestSchemaOver(before, byId, tables).value)
  {
    var identifier := IdentifierColumns(tables[0]).value;
    KeyIsGenerated(tables[0]);
    BoundPlacesAreNoKeys(before, byId, tables);
    SchemaRequires(identifier, MapAll(ArtifactTypeAt(byId), identifier).value, IsListed(),
                   Filter(IsBound(), AllPlaces(before, tables)), ArtifactTypeAt(byId));
  }

  /**
   In both schemas of an entity a property is required exactly when its column takes no null and has no default, and the
   id exactly when the key of the root is not generated.
   */
  lemma RequiredMeansNeeded(ctx: Types, before: (Column, Column) -> bool, tables: seq<Table>, t: Table)
    requires Consistent(tables) && t in tables
    ensures WellKeyed(TablesById(tables)) && Downwards(WalkFrom(TablesById(tables), t)).Success?
    ensures var byId := TablesById(tables);
      var down, dto := Downwards(WalkFrom(byId, t)).value, DtoOf(ctx, before, byId, t);
      var schema := RequestSchemaOf(before, byId, t);
      && (dto.Some? ==> FitsColumns(before, down, dto.value))
      && (schema.Some? ==> FitsColumns(before, down, schema.value))
  {
    var byId := TablesById(tables);
    EntityTables(tables, t);
    ConsistentIndex(tables);
    var down := Reversed(WalkFrom(byId, t).value);
    assert Known(byId, down[0]) && TableFits(byId, down[0]);
    if DtoOver(ctx, before, byId, down).Some? { DtoFitsColumns(ctx, before, byId, down); }
    if RequestSchemaOver(before, byId, down).Some? { RequestSchemaFitsColumns(before, byId, down); }
  }

  /** The columns shown for the entity of a table. */
  function EntityPlaces(before: (Column, Column) -> bool, byId: Tables, t: Table): seq<Place>
    requires WellKeyed(byId)
  {
    match Downwards(WalkFrom(byId, t))
    case Failure(_) => []
    case Success(tables) => ShownPlaces(before, tables)
  }

  /**
   For a consistent model that the generator accepts, the request schema and the transfer object also have the same
   types exactly when every path of foreign keys from a shown column that closes a cycle does so at a supported type.
   */
  lemma RequestSchemaIsTheDtoExactly(ctx: Types, before: (Column, Column) -> bool, tables: seq<Table>, t: Table)
    requires Consistent(tables) && t in tables && DtoOf(ctx, before, TablesById(tables), t).Some?
    ensures (forall p :: p in EntityPlaces(before, TablesById(tables), t) ==> ClosesAt(ctx, TablesById(tables), p)) ==>
              RequestSchemaOf(before, TablesById(tables), t) == DtoOf(ctx, before, TablesById(tables), t)
    ensures FallbacksAreSupported(ctx)
              && RequestSchemaOf(before, TablesById(tables), t) == DtoOf(ctx, before, TablesById(tables), t) ==>
              forall p :: p in EntityPlaces(before, TablesById(tables), t) ==> ClosesAt(ctx, TablesById(tables), p)
  {
    var byId := TablesById(tables);
    EntityTables(tables, t);
    ConsistentIndex(tables);
    var down := Reversed(WalkFrom(byId, t).value);
    assert Known(byId, down[0]) && TableFits(byId, down[0]);
    SchemasOverTablesAgree(ctx, before, byId, down);
  }

  /**
   In particular, they are the same when the foreign keys of columns form no cycle or every column has a supported
   type.
   */
  lemma RequestSchemaIsTheDto(ctx: Types, before: (Column, Column) -> bool, tables: seq<Table>, t: Table,
      rank: Key -> nat)
    requires Consistent(tables) && t in tables && Comparable(ctx, TablesById(tables), rank)
    requires DtoOf(ctx, before, TablesById(tables), t).Some?
    ensures RequestSchemaOf(before, TablesById(tables), t) == DtoOf(ctx, before, TablesById(tables), t)
    ensures Distinct(["id"] + Map(FieldName(), DtoOf(ctx, before, TablesById(tables), t).value.fields))
  {
    var byId := TablesById(tables);
    forall p | p in EntityPlaces(before, byId, t) ensures ClosesAt(ctx, byId, p) {
      if WellKeyed(byId) && Within(byId, p) { ComparableCloses(ctx, byId, p.table, p.column, {}, rank); }
    }
    RequestSchemaIsTheDtoExactly(ctx, before, tables, t);
    RequestSchemaHasTheShapeOfTheDto(ctx, before, tables, t);
  }
}
