/** The canonical UML document and the commands that edit it. Values are schema-valid by type. */
module Uml {

  import opened Wrappers

  type Id = string

  datatype TypeReference = TypeReference(
    name: string, elementId: Option<Id>, collection: Option<bool>, nullable: Option<bool>)

  datatype Visibility = Public | Protected | Private | Package

  datatype Parameter = Parameter(id: Id, name: string, typ: TypeReference, defaultValue: Option<string>)

  datatype Attribute = Attribute(
    id: Id, name: string, visibility: Visibility, typ: TypeReference,
    isStatic: bool, isReadOnly: bool, defaultValue: Option<string>)

  datatype Operation = Operation(
    id: Id, name: string, visibility: Visibility, parameters: seq<Parameter>,
    returnType: TypeReference, isAbstract: bool, isStatic: bool)

  datatype ClassifierKind = Class(isAbstract: bool) | Interface

  datatype Classifier = Classifier(
    id: Id, name: string, kind: ClassifierKind, stereotypes: seq<string>,
    attributes: seq<Attribute>, operations: seq<Operation>)

  datatype Position = Position(elementId: Id, x: real, y: real, width: Option<real>, height: Option<real>)

  datatype End = End(elementId: Id, role: string, multiplicity: string, navigable: bool)

  datatype RelationshipKind =
    Association | Aggregation | Composition | Generalization | Realization | Dependency

  datatype Relationship = Relationship(
    id: Id, kind: RelationshipKind, name: Option<string>,
    source: End, target: End, associationClassId: Option<Id>)

  datatype Diagram = Diagram(
    id: Id, name: string, elements: seq<Classifier>,
    relationships: seq<Relationship>, positions: seq<Position>)

  datatype Project = Project(id: Id, name: string, description: Option<string>)

  datatype Metadata = Metadata(createdAt: string, updatedAt: string, revision: nat, tags: seq<string>)

  datatype Model = Model(project: Project, diagram: Diagram, metadata: Metadata)

  datatype Command =
    | ClassifierCreate(classifier: Classifier, position: Position)
    | ClassifierUpdate(elementId: Id, classifier: Classifier)
    | ClassifierMove(elementId: Id, x: real, y: real)
    | ClassifierDelete(elementId: Id)
    | ClassifierDuplicate(sourceElementId: Id, classifier: Classifier, position: Position)
    | AttributeAdd(classifierId: Id, attribute: Attribute)
    | AttributeUpdate(classifierId: Id, attributeId: Id, attribute: Attribute)
    | AttributeDelete(classifierId: Id, attributeId: Id)
    | OperationAdd(classifierId: Id, operation: Operation)
    | OperationUpdate(classifierId: Id, operationId: Id, operation: Operation)
    | OperationDelete(classifierId: Id, operationId: Id)
    | RelationshipCreate(relationship: Relationship)
    | RelationshipUpdate(relationshipId: Id, relationship: Relationship)
    | RelationshipDelete(relationshipId: Id)
    | AssociationClassCreate(relationshipId: Id, classifier: Classifier, position: Position)
    | DiagramClear

  // Searches used throughout. Each is a function returning a predicate, so that two uses with the
  // same argument are the same predicate.

  function HasId(id: Id): Classifier -> bool { (e: Classifier) => e.id == id }

  function Positions(id: Id): Position -> bool { (p: Position) => p.elementId == id }

  function HasRelationshipId(id: Id): Relationship -> bool { (r: Relationship) => r.id == id }

  function HasAttributeId(id: Id): Attribute -> bool { (a: Attribute) => a.id == id }

  function HasOperationId(id: Id): Operation -> bool { (o: Operation) => o.id == id }

  /** A relationship is incident to its two ends and to its association class. */
  function Touches(id: Id): Relationship -> bool {
    (r: Relationship) => r.source.elementId == id || r.target.elementId == id || r.associationClassId == Some(id)
  }

  function ElementIds(d: Diagram): (ids: set<Id>)
    ensures forall e :: e in d.elements ==> e.id in ids
  {
    set e | e in d.elements :: e.id
  }

  // Decimal numerals and multiplicities.

  predicate IsDigit(c: char) { '0' <= c <= '9' }

  predicate IsDigits(s: string) { s != "" && forall c :: c in s ==> IsDigit(c) }

  function NatOf(s: string): nat
    requires forall c :: c in s ==> IsDigit(c)
  {
    if s == "" then 0
    else
      assert IsDigit(s[|s| - 1]);
      NatOf(s[..|s| - 1]) * 10 + (s[|s| - 1] as nat - '0' as nat)
  }

  /** Where the first ".." of s starts. */
  function RangeDots(s: string): (r: Option<nat>)
    ensures r.Some? ==> r.value + 2 <= |s| && s[r.value] == '.' && s[r.value + 1] == '.'
    ensures r.Some? ==> forall i :: 0 <= i < r.value ==> !(s[i] == '.' && s[i + 1] == '.')
    ensures r.None? ==> forall i :: 0 <= i < |s| - 1 ==> !(s[i] == '.' && s[i + 1] == '.')
  {
    if |s| < 2 then None
    else if s[0] == '.' && s[1] == '.' then Some(0)
    else
      match RangeDots(s[1..])
      case None => None
      case Some(i) => Some(i + 1)
  }

  /** The texts the schema admits: *, digits, digits..digits or digits..* */
  predicate IsMultiplicity(s: string) {
    match RangeDots(s)
    case None => s == "*" || IsDigits(s)
    case Some(i) => IsDigits(s[..i]) && (s[i + 2..] == "*" || IsDigits(s[i + 2..]))
  }

  predicate IsManyMultiplicity(s: string) {
    || s == "*"
    || (|s| >= 3 && s[|s| - 3..] == "..*")
    || (IsDigits(s) && NatOf(s) > 1)
    || match RangeDots(s)
       case None => false
       case Some(i) => IsDigits(s[..i]) && IsDigits(s[i + 2..]) && NatOf(s[i + 2..]) > 1
  }
}
