/** Writing a canonical model as an XMI document. */
module XmiExport {

  import opened Wrappers
  import opened Sequences
  import opened Sorting
  import opened Uml
  import Integrity
  import opened XmiText
  import opened XmiDocument

  // Sorting by id, with whatever order of texts the locale gives.

  function ClassifierOrder(env: Env): (Classifier, Classifier) -> bool {
    (a: Classifier, b: Classifier) => env.before(a.id, b.id)
  }

  function RelationshipOrder(env: Env): (Relationship, Relationship) -> bool {
    (a: Relationship, b: Relationship) => env.before(a.id, b.id)
  }

  function NameOrder(env: Env): (string, string) -> bool {
    (a: string, b: string) => env.before(a, b)
  }

  // Types.

  const PRIMITIVE_NAMES: seq<string> := ["Boolean", "Integer", "Real", "String", "UnlimitedNatural"]

  function SameFolded(env: Env, name: string): string -> bool {
    (p: string) => env.fold(p) == env.fold(name)
  }

  /** The OMG primitive that name spells, whatever its case. */
  function OmgPrimitive(env: Env, name: string): Option<string> {
    match IndexWhere(SameFolded(env, name), PRIMITIVE_NAMES)
    case None => None
    case Some(i) => Some(PRIMITIVE_NAMES[i])
  }

  function OperationTypes(o: Operation): seq<TypeReference> {
    Map((p: Parameter) => p.typ, o.parameters) + [o.returnType]
  }

  function TypesOfOperation(): Operation -> seq<TypeReference> { (o: Operation) => OperationTypes(o) }

  function ClassifierTypes(e: Classifier): seq<TypeReference> {
    Map((a: Attribute) => a.typ, e.attributes) + FlatMap(TypesOfOperation(), e.operations)
  }

  function TypesOfClassifier(): Classifier -> seq<TypeReference> { (e: Classifier) => ClassifierTypes(e) }

  function Types(d: Diagram): seq<TypeReference> { FlatMap(TypesOfClassifier(), d.elements) }

  predicate IsDataType(env: Env, t: TypeReference) { t.elementId.None? && OmgPrimitive(env, t.name).None? }

  /** Each value once, where it first occurs. */
  function Deduplicated(s: seq<string>): (r: seq<string>)
    ensures Distinct(r) && forall x :: x in r <==> x in s
  {
    if s == [] then [] else
      var init := Deduplicated(s[..|s| - 1]);
      assert s == s[..|s| - 1] + [s[|s| - 1]];
      if s[|s| - 1] in init then init else init + [s[|s| - 1]]
  }

  function DataTypes(env: Env): TypeReference -> bool { (t: TypeReference) => IsDataType(env, t) }

  /** The names of the types that are neither classifiers nor primitives. */
  function DataTypeNames(env: Env, d: Diagram): seq<string> {
    Deduplicated(Map((t: TypeReference) => t.name, Filter(DataTypes(env), Types(d))))
  }

  // Association classes.

  function OwnerOf(relationships: seq<Relationship>, id: Id): (r: Option<Relationship>)
    ensures r.Some? ==> r.value in relationships && r.value.associationClassId == Some(id)
    ensures r.None? ==> forall s :: s in relationships ==> s.associationClassId != Some(id)
  {
    if relationships == [] then None
    else if relationships[|relationships| - 1].associationClassId == Some(id)
        then Some(relationships[|relationships| - 1])
    else OwnerOf(relationships[..|relationships| - 1], id)
  }

  /** An association class goes by the id of its association. */
  function XmiIdOf(env: Env, d: Diagram, id: Id): string {
    match OwnerOf(d.relationships, id)
    case Some(r) => CanonicalId(env, RelationshipId, r.id)
    case None => CanonicalId(env, ClassifierId, id)
  }

  /** None for an id that is no element, and then no attribute is written. */
  function ElementXmiId(env: Env, d: Diagram, id: Id): Option<string> {
    if id in ElementIds(d) then Some(XmiIdOf(env, d, id)) else None
  }

  function TypeXmiId(env: Env, d: Diagram, t: TypeReference): Option<string> {
    if t.elementId.None? then None else ElementXmiId(env, d, t.elementId.value)
  }

  // Members.

  function WriteType(env: Env, t: TypeReference): seq<Event> {
    if t.elementId.Some? then []
    else
      match OmgPrimitive(env, t.name)
      case Some(p) => Leaf(Tag(TypeOf, Some(PrimitiveType), map[Href := PRIMITIVES + p]))
      case None => Leaf(Tag(TypeOf, Some(DataType), map[Href := "#" + CanonicalId(env, DataTypeId, t.name)]))
  }

  function WriteBounds(lower: string, upper: string): seq<Event> {
    Leaf(Tag(LowerValue, Some(LiteralInteger), map[Value := lower])) +
    Leaf(Tag(UpperValue, Some(LiteralUnlimitedNatural), map[Value := upper]))
  }

  function LowerOf(t: TypeReference): string { if t.nullable == Some(true) then "0" else "1" }

  function UpperOf(t: TypeReference): string { if t.collection == Some(true) then "*" else "1" }

  function WriteDefault(value: Option<string>): seq<Event> {
    if value.None? then [] else Leaf(Tag(DefaultValue, Some(LiteralString), map[Value := value.value]))
  }

  function WriteSlot(env: Env, t: TypeReference, defaultValue: Option<string>): seq<Event> {
    WriteType(env, t) + WriteBounds(LowerOf(t), UpperOf(t)) + WriteDefault(defaultValue)
  }

  function VisibilityText(v: Visibility): string {
    match v
    case Public => "public"
    case Protected => "protected"
    case Private => "private"
    case Package => "package"
  }

  function AttributeTag(env: Env, d: Diagram, a: Attribute): Tag {
    Tag(OwnedAttribute, None, With(
      map[IsReadOnly := BoolText(a.isReadOnly), IsStatic := BoolText(a.isStatic),
          XmiId := CanonicalId(env, AttributeId, a.id), Name := a.name, VisibilityAttr := VisibilityText(a.visibility)],
      TypeAttr, TypeXmiId(env, d, a.typ)))
  }

  function AttributeWritten(env: Env, d: Diagram, a: Attribute): seq<Event> {
    Nest(AttributeTag(env, d, a), WriteSlot(env, a.typ, a.defaultValue))
  }

  function WriteAttribute(env: Env, d: Diagram): Attribute -> seq<Event> {
    (a: Attribute) => AttributeWritten(env, d, a)
  }

  function ParameterTag(env: Env, d: Diagram, direction: string, id: string, name: string, t: TypeReference): Tag {
    Tag(OwnedParameter, None, With(
      map[Direction := direction, XmiId := CanonicalId(env, ParameterId, id), Name := name],
      TypeAttr, TypeXmiId(env, d, t)))
  }

  function ParameterWritten(env: Env, d: Diagram, p: Parameter): seq<Event> {
    Nest(ParameterTag(env, d, "in", p.id, p.name, p.typ), WriteSlot(env, p.typ, p.defaultValue))
  }

  function WriteParameter(env: Env, d: Diagram): Parameter -> seq<Event> {
    (p: Parameter) => ParameterWritten(env, d, p)
  }

  function ReturnId(o: Operation): string { o.id + ":return" }

  function WriteReturn(env: Env, d: Diagram, o: Operation): seq<Event> {
    Nest(ParameterTag(env, d, "return", ReturnId(o), "return", o.returnType), WriteSlot(env, o.returnType, None))
  }

  function OperationTag(env: Env, o: Operation): Tag {
    Tag(OwnedOperation, None,
      map[IsAbstract := BoolText(o.isAbstract), IsStatic := BoolText(o.isStatic),
          XmiId := CanonicalId(env, OperationId, o.id), Name := o.name, VisibilityAttr := VisibilityText(o.visibility)])
  }

  function OperationWritten(env: Env, d: Diagram, o: Operation): seq<Event> {
    Nest(OperationTag(env, o), FlatMap(WriteParameter(env, d), o.parameters) + WriteReturn(env, d, o))
  }

  function WriteOperation(env: Env, d: Diagram): Operation -> seq<Event> {
    (o: Operation) => OperationWritten(env, d, o)
  }

  // Relationships written inside their source classifier.

  predicate IsInline(r: Relationship) { r.kind == Generalization || r.kind == Realization }

  function InlineFrom(id: Id): Relationship -> bool {
    (r: Relationship) => r.source.elementId == id && IsInline(r)
  }

  function InlineWritten(env: Env, d: Diagram, r: Relationship): seq<Event> {
    var target := ElementXmiId(env, d, r.target.elementId);
    var attrs := With(map[XmiId := CanonicalId(env, RelationshipId, r.id)], Name, r.name);
    Leaf(if r.kind == Generalization then Tag(GeneralizationOf, None, With(attrs, General, target))
         else Tag(InterfaceRealizationOf, None, With(attrs, Supplier, target)))
  }

  function WriteInline(env: Env, d: Diagram): Relationship -> seq<Event> {
    (r: Relationship) => InlineWritten(env, d, r)
  }

  function WriteMembers(env: Env, d: Diagram, e: Classifier): seq<Event> {
    FlatMap(WriteAttribute(env, d), e.attributes) +
    FlatMap(WriteOperation(env, d), e.operations) +
    FlatMap(WriteInline(env, d), Filter(InlineFrom(e.id), d.relationships))
  }

  function ClassifierTag(env: Env, d: Diagram, e: Classifier): Tag {
    var attrs := map[XmiId := XmiIdOf(env, d, e.id), Name := e.name];
    if e.kind.Class? then Tag(PackagedElement, Some(ClassType), attrs[IsAbstract := BoolText(e.kind.isAbstract)])
    else Tag(PackagedElement, Some(InterfaceType), attrs)
  }

  function ClassifierWritten(env: Env, d: Diagram, e: Classifier): seq<Event> {
    Nest(ClassifierTag(env, d, e), WriteMembers(env, d, e))
  }

  function WriteClassifier(env: Env, d: Diagram): Classifier -> seq<Event> {
    (e: Classifier) => ClassifierWritten(env, d, e)
  }

  // Associations.

  function LowerBound(multiplicity: string): string {
    if multiplicity == "*" then "0"
    else match RangeDots(multiplicity)
      case None => multiplicity
      case Some(i) => multiplicity[..i]
  }

  function UpperBound(multiplicity: string): string {
    match RangeDots(multiplicity)
    case None => multiplicity
    case Some(i) => multiplicity[i + 2..]
  }

  function AggregationText(k: RelationshipKind): string {
    if k == Composition then "composite" else if k == Aggregation then "shared" else "none"
  }

  function SourceEndId(r: Relationship): string { r.id + ":source" }

  function TargetEndId(r: Relationship): string { r.id + ":target" }

  function EndTag(env: Env, d: Diagram, end: End, aggregation: string, id: string): Tag {
    Tag(OwnedEnd, None, With(
      map[AggregationAttr := aggregation, IsNavigable := BoolText(end.navigable), Name := end.role,
          XmiId := CanonicalId(env, EndId, id)],
      TypeAttr, ElementXmiId(env, d, end.elementId)))
  }

  function WriteEnd(env: Env, d: Diagram, end: End, aggregation: string, id: string): seq<Event> {
    Nest(EndTag(env, d, end, aggregation, id), WriteBounds(LowerBound(end.multiplicity), UpperBound(end.multiplicity)))
  }

  function NavigableEnds(env: Env, r: Relationship): Option<string> {
    var source, target := CanonicalId(env, EndId, SourceEndId(r)), CanonicalId(env, EndId, TargetEndId(r));
    if r.source.navigable && r.target.navigable then Some(source + " " + target)
    else if r.source.navigable then Some(source)
    else if r.target.navigable then Some(target)
    else None
  }

  function MemberEnds(env: Env, r: Relationship): string {
    CanonicalId(env, EndId, SourceEndId(r)) + " " + CanonicalId(env, EndId, TargetEndId(r))
  }

  predicate IsAssociationLike(r: Relationship) {
    r.kind == Association || r.kind == Aggregation || r.kind == Composition
  }

  function ClassOf(d: Diagram, r: Relationship): (e: Option<Classifier>)
    ensures e.Some? ==> e.value in d.elements && r.associationClassId == Some(e.value.id)
  {
    if r.associationClassId.None? then None
    else match IndexWhere((e: Classifier) => e.id == r.associationClassId.value, d.elements)
      case None => None
      case Some(i) => Some(d.elements[i])
  }

  function AssociationTag(env: Env, d: Diagram, r: Relationship): Tag {
    var attrs := With(
      map[XmiId := CanonicalId(env, RelationshipId, r.id), MemberEnd := MemberEnds(env, r)],
      NavigableOwnedEnd, NavigableEnds(env, r));
    match ClassOf(d, r)
    case None => Tag(PackagedElement, Some(AssociationType), With(attrs, Name, r.name))
    case Some(e) =>
      Tag(PackagedElement, Some(AssociationClassType),
          With(attrs[Name := e.name][IsAbstract := BoolText(e.kind.Class? && e.kind.isAbstract)], AssociationName,
              r.name))
  }

  function WriteAssociation(env: Env, d: Diagram, r: Relationship): seq<Event> {
    var c := ClassOf(d, r);
    Nest(AssociationTag(env, d, r),
         (if c.None? then [] else WriteMembers(env, d, c.value))
         + WriteEnd(env, d, r.source, AggregationText(r.kind), SourceEndId(r))
         + WriteEnd(env, d, r.target, "none", TargetEndId(r)))
  }

  function WriteDependency(env: Env, d: Diagram, r: Relationship): seq<Event> {
    var attrs := With(map[XmiId := CanonicalId(env, RelationshipId, r.id)], Name, r.name);
    Leaf(Tag(PackagedElement, Some(DependencyType),
             With(With(attrs, Client, ElementXmiId(env, d, r.source.elementId)),
                  Supplier, ElementXmiId(env, d, r.target.elementId))))
  }

  function RelationshipWritten(env: Env, d: Diagram, r: Relationship): seq<Event> {
    if IsAssociationLike(r) then WriteAssociation(env, d, r)
    else if r.kind == Dependency then WriteDependency(env, d, r)
    else []
  }

  function WriteRelationship(env: Env, d: Diagram): Relationship -> seq<Event> {
    (r: Relationship) => RelationshipWritten(env, d, r)
  }

  function DataTypeWritten(env: Env, name: string): seq<Event> {
    Leaf(Tag(PackagedElement, Some(DataType), map[XmiId := CanonicalId(env, DataTypeId, name), Name := name]))
  }

  function WriteDataType(env: Env): string -> seq<Event> { (name: string) => DataTypeWritten(env, name) }

  // The whole document.

  function IsPlainClassifier(d: Diagram): Classifier -> bool {
    (e: Classifier) => OwnerOf(d.relationships, e.id).None?
  }

  function PlainClassifiers(env: Env, d: Diagram): seq<Classifier> {
    Filter(IsPlainClassifier(d), Sorted(ClassifierOrder(env), d.elements))
  }

  function SortedRelationships(env: Env, d: Diagram): seq<Relationship> {
    Sorted(RelationshipOrder(env), d.relationships)
  }

  function SortedDataTypes(env: Env, d: Diagram): seq<string> {
    Sorted(NameOrder(env), DataTypeNames(env, d))
  }

  function WriteBody(env: Env, d: Diagram): seq<Event> {
    FlatMap(WriteDataType(env), SortedDataTypes(env, d)) +
    FlatMap(WriteClassifier(env, d), PlainClassifiers(env, d)) +
    FlatMap(WriteRelationship(env, d), SortedRelationships(env, d))
  }

  function WriteDocument(env: Env, d: Diagram): seq<Event> {
    Nest(Tag(XmiRoot, None, map[XmiVersion := "2.5"]),
         Nest(Tag(UmlModel, None, map[XmiId := CanonicalId(env, ModelId, d.id), Name := d.name]),
              WriteBody(env, d)))
  }

  // What the exporter refuses.

  predicate EndIsPlain(e: End) { e.multiplicity == "1" && !e.navigable && e.role == "" }

  predicate ExportableRelationship(d: Diagram, r: Relationship) {
    && (r.associationClassId.Some? ==>
          && IsAssociationLike(r) && r.name.Some? && !Integrity.IsBlank(r.name.value)
          && ClassOf(d, r).Some? && ClassOf(d, r).value.kind.Class?)
    && (!IsAssociationLike(r) ==> EndIsPlain(r.source) && EndIsPlain(r.target))
  }

  predicate ExportableType(env: Env, d: Diagram, t: TypeReference) {
    match t.elementId
    case Some(id) => id in ElementIds(d)
    case None => OmgPrimitive(env, t.name).None? || OmgPrimitive(env, t.name) == Some(t.name)
  }

  predicate WritableEvent(e: Event) {
    e.Open? ==> forall key :: key in e.tag.attrs ==> Writable(e.tag.attrs[key])
  }

  predicate Exportable(env: Env, d: Diagram) {
    && (forall e :: e in d.elements ==> e.stereotypes == [])
    && (forall r :: r in d.relationships ==> ExportableRelationship(d, r))
    && (forall t :: t in Types(d) ==> ExportableType(env, d, t))
  }

  /** The document, or None when the profile cannot express the model. */
  function Export(env: Env, m: Model): Option<seq<Event>> {
    if !Exportable(env, m.diagram) then None
    else
      var document := WriteDocument(env, m.diagram);
      if exists e :: e in document && !WritableEvent(e) then None else Some(document)
  }
}
