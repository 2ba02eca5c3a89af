/** Turning a parsed XMI document into a canonical model. */
module XmiImport {

  import opened Wrappers
  import opened Sequences
  import opened Sorting
  import opened Uml
  import opened Integrity
  import opened XmiText
  import opened XmiDocument
  import opened XmiExport
  import opened XmiParser

  /** What the importer is told about the document the model becomes. */
  datatype Seed = Seed(diagramId: Id, projectId: Id, projectName: string, createdAt: string, updatedAt: string,
      revision: nat)

  datatype Diagnostic =
    | IgnoredElement
    | UnsupportedVisibility(id: string)
    | UnsupportedArity(id: string)
    | UnusedDataType(id: string)

  datatype Imported = Imported(model: Model, diagnostics: seq<Diagnostic>)

  // Texts.

  function Trim(s: string): string {
    if s != "" && IsSpace(s[0]) then Trim(s[1..])
    else if s != "" && IsSpace(s[|s| - 1]) then Trim(s[..|s| - 1])
    else s
  }

  predicate IsIdentifier(value: Option<string>) { value.Some? && IsWord(value.value) }

  predicate IsName(value: Option<string>) { value.Some? && !IsBlank(value.value) && !HasLineSpace(value.value) }

  predicate IsPlainValue(value: Option<string>) { value.Some? ==> !HasLineSpace(value.value) }

  predicate HasSpace(value: Option<string>) { value.Some? && exists c :: c in value.value && IsSpace(c) }

  /** None when there is no fragment. */
  function FragmentName(href: string): Option<string> {
    var fragment := Trim(Fragment(Trim(href)));
    if fragment == "" then None else Some(fragment)
  }

  function LocalFragment(href: Option<string>): Option<string> {
    if href.Some? && "#" <= href.value then FragmentName(href.value) else None
  }

  // Multiplicities.

  function MultiplicityText(lower: Option<string>, upper: Option<string>): Option<string> {
    var low := if lower.None? then "1" else Trim(lower.value);
    var high := if upper.None? then "1" else Trim(upper.value);
    var top := if high == "-1" then "*" else high;
    if !IsDigits(low) || !(top == "*" || IsDigits(top)) then None
    else if top != "*" && NatOf(low) > NatOf(top) then None
    else if low == high then Some(low)
    else if low == "1" && top == "1" then Some("1")
    else Some(low + ".." + top)
  }

  datatype Cardinality = Cardinality(collection: bool, nullable: bool)

  function TypeMultiplicity(slot: Slot): Option<Cardinality> {
    match MultiplicityText(slot.lower, slot.upper)
    case None => None
    case Some(text) =>
      if text == "0..1" then Some(Cardinality(false, true))
      else if text == "1" then Some(Cardinality(false, false))
      else if text == "0..*" then Some(Cardinality(true, true))
      else if text == "1..*" then Some(Cardinality(true, false))
      else None
  }

  // References.

  datatype Identity = Identity(id: Id, name: string)

  datatype Names = Names(classifiers: map<string, Identity>, dataTypes: map<string, string>)

  function Lookup<V>(table: map<string, V>, key: Option<string>): Option<V> {
    if key.Some? && key.value != "" && key.value in table then Some(table[key.value]) else None
  }

  function Resolve<V>(table: map<string, V>, typ: RawType): Option<V> {
    var direct := Lookup(table, typ.reference);
    if direct.Some? then direct else Lookup(table, LocalFragment(typ.href))
  }

  predicate IsPrimitiveHref(href: Option<string>) { href.Some? && PRIMITIVES <= href.value }

  function MapType(env: Env, names: Names, slot: Slot): Option<TypeReference> {
    var cardinality, typ := TypeMultiplicity(slot), slot.typ;
    if cardinality.None? || HasSpace(typ.reference) || HasSpace(typ.href) then None
    else
      var named := (name: string, elementId: Option<Id>) =>
        TypeReference(name, elementId, Some(cardinality.value.collection), Some(cardinality.value.nullable));
      if Present(typ.href) && !("#" <= typ.href.value) && !IsPrimitiveHref(typ.href) then None
      else if IsPrimitiveHref(typ.href) then
        var name := FragmentName(typ.href.value);
        if name.None? || OmgPrimitive(env, name.value) != name then None else Some(named(name.value, None))
      else
        match Resolve(names.classifiers, typ)
        case Some(identity) => Some(named(identity.name, Some(identity.id)))
        case None =>
          match Resolve(names.dataTypes, typ)
          case None => None
          case Some(name) => if OmgPrimitive(env, name).Some? then None else Some(named(name, None))
  }

  // Members.

  function VisibilityOf(text: Option<string>): Visibility {
    if text == Some("protected") then Protected
    else if text == Some("private") then Private
    else if text == Some("package") then Package
    else Public
  }

  predicate VisibilityIsKnown(text: Option<string>) {
    !Present(text) || text.value in {"public", "protected", "private", "package"}
  }

  function AttributeMapped(env: Env, names: Names, a: RawAttribute): Option<Attribute> {
    var typ := MapType(env, names, a.slot);
    if !IsIdentifier(a.id) || !IsName(a.name) || !IsPlainValue(a.slot.defaultValue) || typ.None? then None
    else Some(Attribute(CanonicalId(env, AttributeId, a.id.value), a.name.value, VisibilityOf(a.visibility), typ.value,
                        a.isStatic, a.isReadOnly, a.slot.defaultValue))
  }

  function MapAttribute(env: Env, names: Names): RawAttribute -> Option<Attribute> {
    (a: RawAttribute) => AttributeMapped(env, names, a)
  }

  function ParameterMapped(env: Env, names: Names, p: RawParameter): Option<Parameter> {
    var typ := MapType(env, names, p.slot);
    if !IsIdentifier(p.id) || !IsName(p.name) || !IsPlainValue(p.slot.defaultValue) || typ.None? then None
    else Some(Parameter(CanonicalId(env, ParameterId, p.id.value), p.name.value, typ.value, p.slot.defaultValue))
  }

  function MapParameter(env: Env, names: Names): RawParameter -> Option<Parameter> {
    (p: RawParameter) => ParameterMapped(env, names, p)
  }

  /** An operation without a typed return returns void. */
  function MapReturn(env: Env, names: Names, returned: Option<RawParameter>): Option<TypeReference> {
    if returned.Some? && IsDeclared(returned.value.slot.typ) then MapType(env, names, returned.value.slot)
    else Some(TypeReference("void", None, Some(false), Some(false)))
  }

  function OperationMapped(env: Env, names: Names, o: RawOperation): Option<Operation> {
    var parameters, returned := MapAll(MapParameter(env, names), o.parameters),
        MapReturn(env, names, o.returnParameter);
    if !IsIdentifier(o.id) || !IsName(o.name) || parameters.None? || returned.None? then None
    else Some(Operation(CanonicalId(env, OperationId, o.id.value), o.name.value, VisibilityOf(o.visibility),
                        parameters.value, returned.value, o.isAbstract, o.isStatic))
  }

  function MapOperation(env: Env, names: Names): RawOperation -> Option<Operation> {
    (o: RawOperation) => OperationMapped(env, names, o)
  }

  function ClassifierMapped(env: Env, names: Names, c: RawClassifier): Option<Classifier> {
    var attributes, operations := MapAll(MapAttribute(env, names), c.attributes),
        MapAll(MapOperation(env, names), c.operations);
    var identity := Lookup(names.classifiers, c.id);
    if identity.None? || attributes.None? || operations.None? then None
    else Some(Classifier(identity.value.id, identity.value.name,
        if c.isInterface then Interface else Class(c.isAbstract),
                         [], attributes.value, operations.value))
  }

  function MapClassifier(env: Env, names: Names): RawClassifier -> Option<Classifier> {
    (c: RawClassifier) => ClassifierMapped(env, names, c)
  }

  // Relationships.

  function HasEndId(id: string): RawEnd -> bool { (e: RawEnd) => e.id == Some(id) }

  function EndFound(ends: seq<RawEnd>, id: string): Option<RawEnd> {
    match IndexWhere(HasEndId(id), ends)
    case None => None
    case Some(i) => Some(ends[i])
  }

  function FindEnd(ends: seq<RawEnd>): string -> Option<RawEnd> { (id: string) => EndFound(ends, id) }

  /** The ends in the order of memberEnd, which must then list each of them. */
  function OrderedEnds(a: RawAssociation): Option<seq<RawEnd>> {
    if a.memberEnds == [] then Some(a.ends)
    else if |a.memberEnds| != |a.ends| || !AllDistinct(a.memberEnds) then None
    else MapAll(FindEnd(a.ends), a.memberEnds)
  }

  predicate AllDistinct(s: seq<string>) { forall i, j :: 0 <= i < j < |s| ==> s[i] != s[j] }

  predicate NavigableEndsExist(a: RawAssociation, ordered: seq<RawEnd>) {
    a.navigableEnds.Some? ==>
      AllDistinct(a.navigableEnds.value) && forall id :: id in a.navigableEnds.value ==>
          exists e :: e in ordered && HasEndId(id)(e)
  }

  function EndMapped(env: Env, names: Names, navigable: Option<seq<string>>, e: RawEnd): Option<End> {
    var identity := Resolve(names.classifiers, e.slot.typ);
    var multiplicity := MultiplicityText(e.slot.lower, e.slot.upper);
    var listed := e.id.Some? && navigable.Some? && e.id.value in navigable.value;
    if identity.None? || multiplicity.None? || !IsPlainValue(e.name) then None
    else if e.navigable.Some? && navigable.Some? && e.navigable.value != listed then None
    else Some(End(identity.value.id, e.name.GetOr(""), multiplicity.value, e.navigable.GetOr(listed)))
  }

  function MapEnd(env: Env, names: Names, navigable: Option<seq<string>>): RawEnd -> Option<End> {
    (e: RawEnd) => EndMapped(env, names, navigable, e)
  }

  predicate Aggregates(aggregation: Option<string>) { Present(aggregation) && aggregation != Some("none") }

  /** The end is the whole of an aggregation or of a composition. */
  predicate IsWhole(e: RawEnd) { e.aggregation == Some("shared") || e.aggregation == Some("composite") }

  function KindOfAggregation(aggregation: Option<string>): RelationshipKind {
    if aggregation == Some("composite") then Composition else if aggregation == Some("shared") then Aggregation
    else Association
  }

  /** The whole of an aggregation becomes the source. */
  function MapBinary(env: Env, names: Names, a: RawAssociation, first: RawEnd, second: RawEnd): Option<Relationship>
    requires a.id.Some?
  {
    var source, target := MapEnd(env, names, a.navigableEnds)(first), MapEnd(env, names, a.navigableEnds)(second);
    var identity := if a.isClass then Lookup(names.classifiers, a.id) else None;
    var classId := if identity.None? then None else Some(identity.value.id);
    var id := CanonicalId(env, RelationshipId, a.id.value);
    if source.None? || target.None? || !IsPlainValue(a.name) then None
    else if Aggregates(first.aggregation) && Aggregates(second.aggregation) then None
    else if IsWhole(second) then
      Some(Relationship(id, KindOfAggregation(second.aggregation), a.name, target.value, source.value, classId))
    else
      Some(Relationship(id, KindOfAggregation(first.aggregation), a.name, source.value, target.value, classId))
  }

  /** Associations that are not binary are checked and then dropped. */
  datatype MappedAssociation = Kept(relationship: Relationship) | Dropped(id: string)

  function AssociationMapped(env: Env, names: Names, a: RawAssociation): Option<MappedAssociation> {
    if !IsIdentifier(a.id) then None
    else
      match OrderedEnds(a)
      case None => None
      case Some(ends) =>
        if !NavigableEndsExist(a, ends) then None
        else if |ends| == 2 then
          (match MapBinary(env, names, a, ends[0], ends[1])
           case None => None
           case Some(r) => Some(Kept(r)))
        else if MapAll(MapEnd(env, names, a.navigableEnds), ends).None? then None
        else Some(Dropped(a.id.value))
  }

  function MapAssociation(env: Env, names: Names): RawAssociation -> Option<MappedAssociation> {
    (a: RawAssociation) => AssociationMapped(env, names, a)
  }

  function KeptIn(): MappedAssociation -> seq<Relationship> {
    (m: MappedAssociation) => if m.Kept? then [m.relationship] else []
  }

  function PlainEnd(id: Id): End { End(id, "", "1", false) }

  function KindOfDirected(k: DirectedKind): RelationshipKind {
    match k
    case RawGeneralization => Generalization
    case RawRealization => Realization
    case RawDependency => Dependency
  }

  function DirectedMapped(env: Env, names: Names, r: RawDirected): Option<Relationship> {
    var source, target := Lookup(names.classifiers, r.source), Lookup(names.classifiers, r.target);
    if !IsIdentifier(r.id) || source.None? || target.None? || !IsPlainValue(r.name) then None
    else Some(Relationship(CanonicalId(env, RelationshipId, r.id.value), KindOfDirected(r.kind), r.name,
                           PlainEnd(source.value.id), PlainEnd(target.value.id), None))
  }

  function MapDirected(env: Env, names: Names): RawDirected -> Option<Relationship> {
    (r: RawDirected) => DirectedMapped(env, names, r)
  }

  // The whole model.

  function IdentityOf(env: Env): RawClassifier -> (string, Identity) {
    (c: RawClassifier) => (c.id.GetOr(""), Identity(CanonicalId(env, ClassifierId, c.id.GetOr("")), c.name.GetOr("")))
  }

  function NameOfDataType(): RawDataType -> (string, string) {
    (t: RawDataType) => (t.id.GetOr(""), t.name.GetOr(""))
  }

  /** A later entry replaces an earlier one with the same key. */
  function Table<V>(entries: seq<(string, V)>): map<string, V> {
    if entries == [] then map[]
    else
      var last := entries[|entries| - 1];
      Table(entries[..|entries| - 1])[last.0 := last.1]
  }

  function NamesOf(env: Env, raw: Raw): Names {
    Names(Table(Map(IdentityOf(env), raw.classifiers)), Table(Map(NameOfDataType(), raw.dataTypes)))
  }

  predicate IsNamed(raw: Raw) {
    && (forall c :: c in raw.classifiers ==> IsIdentifier(c.id) && IsName(c.name))
    && (forall t :: t in raw.dataTypes ==> IsIdentifier(t.id) && IsName(t.name))
    && IsName(raw.modelName)
  }

  /** Four to a row, in the order of the elements. */
  function PositionOf(es: seq<Classifier>, i: int): Position {
    Position(if 0 <= i < |es| then es[i].id else "", (80 + (i % 4) * 280) as real, (80 + (i / 4) * 240) as real,
        Some(220.0), Some(180.0))
  }

  function PositionAt(es: seq<Classifier>): int -> Position { (i: int) => PositionOf(es, i) }

  function Positions(es: seq<Classifier>): seq<Position> {
    Map(PositionAt(es), seq(|es|, i => i))
  }

  function ModelOf(env: Env, seed: Seed, name: string, elements: seq<Classifier>,
      relationships: seq<Relationship>): Model {
    var sorted := Sorted(ClassifierOrder(env), elements);
    Model(Project(seed.projectId, seed.projectName, None),
          Diagram(seed.diagramId, name, sorted, Sorted(RelationshipOrder(env), relationships), Positions(sorted)),
          Metadata(seed.createdAt, seed.updatedAt, seed.revision, []))
  }

  function DataTypeName(): RawDataType -> string { (t: RawDataType) => t.name.GetOr("") }

  /**
   The local data types have names of their own, and every primitive in the model is written as the profile writes
   it.
   */
  predicate DataTypesFit(env: Env, dataTypes: seq<RawDataType>, d: Diagram) {
    && (forall t :: t in Types(d) && t.elementId.None? ==>
          OmgPrimitive(env, t.name).None? || OmgPrimitive(env, t.name) == Some(t.name))
    && (forall t :: t in dataTypes ==> OmgPrimitive(env, t.name.GetOr("")).None?)
    && AllDistinct(Map(DataTypeName(), dataTypes))
  }

  // Diagnostics.

  function AttributeDiagnostics(): RawAttribute -> seq<Diagnostic> {
    (a: RawAttribute) => if VisibilityIsKnown(a.visibility) then [] else [UnsupportedVisibility(a.id.GetOr(""))]
  }

  function OperationDiagnostics(): RawOperation -> seq<Diagnostic> {
    (o: RawOperation) => if VisibilityIsKnown(o.visibility) then [] else [UnsupportedVisibility(o.id.GetOr(""))]
  }

  function ClassifierDiagnostics(): RawClassifier -> seq<Diagnostic> {
    (c: RawClassifier) => FlatMap(AttributeDiagnostics(), c.attributes) + FlatMap(OperationDiagnostics(), c.operations)
  }

  function AssociationDiagnostics(): MappedAssociation -> seq<Diagnostic> {
    (m: MappedAssociation) => if m.Dropped? then [UnsupportedArity(m.id)] else []
  }

  function DataTypeDiagnostics(names: seq<string>): RawDataType -> seq<Diagnostic> {
    (t: RawDataType) => if t.name.GetOr("") in names then [] else [UnusedDataType(t.id.GetOr(""))]
  }

  function Diagnostics(env: Env, raw: Raw, associations: seq<MappedAssociation>, d: Diagram): seq<Diagnostic> {
    seq(raw.ignored, i => IgnoredElement)
    + FlatMap(ClassifierDiagnostics(), raw.classifiers)
    + FlatMap(AssociationDiagnostics(), associations)
    + FlatMap(DataTypeDiagnostics(DataTypeNames(env, d)), raw.dataTypes)
  }

  /** None when the raw model is refused. */
  function ImportRaw(env: Env, seed: Seed, raw: Raw): Option<Imported> {
    if !IsNamed(raw) then None
    else
      var names := NamesOf(env, raw);
      var elements := MapAll(MapClassifier(env, names), raw.classifiers);
      var associations := MapAll(MapAssociation(env, names), raw.associations);
      var directed := MapAll(MapDirected(env, names), raw.directed);
      if elements.None? || associations.None? || directed.None? then None
      else
        var model := ModelOf(env, seed, raw.modelName.value, elements.value,
                             FlatMap(KeptIn(), associations.value) + directed.value);
        if !DataTypesFit(env, raw.dataTypes, model.diagram) then None
        else Some(Imported(model, Diagnostics(env, raw, associations.value, model.diagram)))
  }

  /** None when the document is refused. */
  ghost function Import(env: Env, seed: Seed, events: seq<Event>): Option<Imported> {
    match Parsed(events)
    case None => None
    case Some(raw) => ImportRaw(env, seed, raw)
  }

  // The loop over the associations.

  /** Checks and maps the associations one by one, in two passes over the ends of each. */
  method MapAssociations(env: Env, names: Names,
      associations: seq<RawAssociation>) returns (result: Option<seq<MappedAssociation>>)
    ensures result == MapAll(MapAssociation(env, names), associations)
  {
    var mapped := [];
    for i := 0 to |associations|
      invariant MapAll(MapAssociation(env, names), associations[..i]) == Some(mapped)
    {
      var one := MapOne(env, names, associations[i]);
      MapAllMore(MapAssociation(env, names), associations, i, mapped);
      if one.None? { return None; }
      mapped := mapped + [one.value];
    }
    assert associations[..|associations|] == associations;
    return Some(mapped);
  }

  /** Mapping one element more. */
  lemma MapAllMore<A, B>(f: A -> Option<B>, s: seq<A>, i: nat, mapped: seq<B>)
    requires i < |s| && MapAll(f, s[..i]) == Some(mapped)
    ensures f(s[i]).None? ==> MapAll(f, s) == None
    ensures f(s[i]).Some? ==> MapAll(f, s[..i + 1]) == Some(mapped + [f(s[i]).value])
  {
    assert s[..i + 1] == s[..i] + [s[i]];
    MapAllAppend(f, s[..i], [s[i]]);
    MapAllOne(f, s[i]);
    assert s == s[..i + 1] + s[i + 1..];
    MapAllAppend(f, s[..i + 1], s[i + 1..]);
  }

  lemma RepetitionIsFound(s: seq<string>, i: nat)
    requires i < |s| && s[i] in s[..i]
    ensures !AllDistinct(s)
  {
    var j :| 0 <= j < i && s[..i][j] == s[i];
    assert s[j] == s[i];
  }

  lemma DistinctMore(s: seq<string>, i: nat)
    requires i < |s| && AllDistinct(s[..i]) && s[i] !in s[..i]
    ensures AllDistinct(s[..i + 1])
  {
    assert s[..i + 1] == s[..i] + [s[i]];
  }

  method OrderEnds(a: RawAssociation) returns (result: Option<seq<RawEnd>>)
    ensures result == OrderedEnds(a)
  {
    if a.memberEnds == [] { return Some(a.ends); }
    if |a.memberEnds| != |a.ends| { return None; }
    var seen: set<string>, ordered := {}, [];
    for i := 0 to |a.memberEnds|
      invariant seen == set id | id in a.memberEnds[..i]
      invariant AllDistinct(a.memberEnds[..i])
      invariant MapAll(FindEnd(a.ends), a.memberEnds[..i]) == Some(ordered)
    {
      var id := a.memberEnds[i];
      if id in seen {
        RepetitionIsFound(a.memberEnds, i);
        return None;
      }
      DistinctMore(a.memberEnds, i);
      assert a.memberEnds[..i + 1] == a.memberEnds[..i] + [id];
      seen := seen + {id};
      MapAllMore(FindEnd(a.ends), a.memberEnds, i, ordered);
      var end := FindEnd(a.ends)(id);
      if end.None? { return None; }
      ordered := ordered + [end.value];
    }
    assert a.memberEnds[..|a.memberEnds|] == a.memberEnds;
    return Some(ordered);
  }

  method MapOne(env: Env, names: Names, a: RawAssociation) returns (result: Option<MappedAssociation>)
    ensures result == MapAssociation(env, names)(a)
  {
    if !IsIdentifier(a.id) { return None; }
    var ordered := OrderEnds(a);
    if ordered.None? || !NavigableEndsExist(a, ordered.value) { return None; }
    var ends := ordered.value;
    if |ends| != 2 {
      return if MapAll(MapEnd(env, names, a.navigableEnds), ends).None? then None else Some(Dropped(a.id.value));
    }
    var source, target := MapEnd(env, names, a.navigableEnds)(ends[0]), MapEnd(env, names, a.navigableEnds)(ends[1]);
    if source.None? || target.None? { return None; }
    var sourceAggregation, targetAggregation := ends[0].aggregation, ends[1].aggregation;
    if Aggregates(sourceAggregation) && Aggregates(targetAggregation) { return None; }
    var kind := Association;
    if IsWhole(ends[1]) {
      source, target := target, source;
      kind := KindOfAggregation(targetAggregation);
    } else if IsWhole(ends[0]) {
      kind := KindOfAggregation(sourceAggregation);
    }
    if !IsPlainValue(a.name) { return None; }
    var identity := if a.isClass then Lookup(names.classifiers, a.id) else None;
    var classId := if identity.None? then None else Some(identity.value.id);
    return Some(Kept(Relationship(CanonicalId(env, RelationshipId, a.id.value), kind, a.name, source.value,
        target.value, classId)));
  }
}
