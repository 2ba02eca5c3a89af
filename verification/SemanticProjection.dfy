/** The projection of a model that says whether two models mean the same. */
module SemanticProjection {

  import opened Wrappers
  import opened Sequences
  import opened Uml

  datatype SemanticType = SemanticType(collection: bool, element: Option<string>, name: string, nullable: bool)

  datatype SemanticAttribute = SemanticAttribute(
    defaultValue: Option<string>, isReadOnly: bool, isStatic: bool, name: string, typ: SemanticType,
    visibility: Visibility)

  datatype SemanticParameter = SemanticParameter(defaultValue: Option<string>, name: string, typ: SemanticType)

  datatype SemanticOperation = SemanticOperation(
    isAbstract: bool, isStatic: bool, name: string, parameters: seq<SemanticParameter>, returnType: SemanticType,
    visibility: Visibility)

  datatype SemanticClassifier = SemanticClassifier(
    attributes: multiset<SemanticAttribute>, kind: ClassifierKind, name: string,
    operations: multiset<SemanticOperation>)

  datatype SemanticEnd<M> = SemanticEnd(element: string, multiplicity: M, navigable: bool, role: string)

  datatype SemanticRelationship<M> = SemanticRelationship(
    associationClass: Option<string>, kind: RelationshipKind, name: Option<string>, source: SemanticEnd<M>,
    target: SemanticEnd<M>)

  /** Sorting is by content, so that only the multiset of the entries matters. */
  datatype Projection<M(==)> = Projection(
    elements: multiset<SemanticClassifier>, name: string, relationships: multiset<SemanticRelationship<M>>,
    projectName: string)

  /** The name under which the projection lists an element; the id stands for an unknown one. */
  function NameOf(es: seq<Classifier>, id: Id): string {
    if es == [] then id
    else if es[|es| - 1].id == id then es[|es| - 1].name
    else NameOf(es[..|es| - 1], id)
  }

  function SemanticTypeOf(es: seq<Classifier>, t: TypeReference): SemanticType {
    SemanticType(t.collection.GetOr(false), if t.elementId.None? then None else Some(NameOf(es, t.elementId.value)),
                 t.name, t.nullable.GetOr(false))
  }

  function SemanticAttributeIn(es: seq<Classifier>, a: Attribute): SemanticAttribute {
    SemanticAttribute(a.defaultValue, a.isReadOnly, a.isStatic, a.name, SemanticTypeOf(es, a.typ), a.visibility)
  }

  function SemanticAttributeOf(es: seq<Classifier>): Attribute -> SemanticAttribute {
    (a: Attribute) => SemanticAttributeIn(es, a)
  }

  function SemanticParameterIn(es: seq<Classifier>, p: Parameter): SemanticParameter {
    SemanticParameter(p.defaultValue, p.name, SemanticTypeOf(es, p.typ))
  }

  function SemanticParameterOf(es: seq<Classifier>): Parameter -> SemanticParameter {
    (p: Parameter) => SemanticParameterIn(es, p)
  }

  function SemanticOperationIn(es: seq<Classifier>, o: Operation): SemanticOperation {
    SemanticOperation(o.isAbstract, o.isStatic, o.name, Map(SemanticParameterOf(es), o.parameters),
                      SemanticTypeOf(es, o.returnType), o.visibility)
  }

  function SemanticOperationOf(es: seq<Classifier>): Operation -> SemanticOperation {
    (o: Operation) => SemanticOperationIn(es, o)
  }

  function SemanticClassifierIn(es: seq<Classifier>, e: Classifier): SemanticClassifier {
    SemanticClassifier(multiset(Map(SemanticAttributeOf(es), e.attributes)), e.kind, e.name,
                       multiset(Map(SemanticOperationOf(es), e.operations)))
  }

  function SemanticClassifierOf(es: seq<Classifier>): Classifier -> SemanticClassifier {
    (e: Classifier) => SemanticClassifierIn(es, e)
  }

  function SemanticEndOf<M>(multiplicity: string -> M, es: seq<Classifier>, e: End): SemanticEnd<M> {
    SemanticEnd(NameOf(es, e.elementId), multiplicity(e.multiplicity), e.navigable, e.role)
  }

  function SemanticRelationshipIn<M>(multiplicity: string -> M, es: seq<Classifier>, r: Relationship)
    : SemanticRelationship<M>
  {
    SemanticRelationship(if r.associationClassId.None? then None else Some(NameOf(es, r.associationClassId.value)),
                         r.kind, r.name,
                         SemanticEndOf(multiplicity, es, r.source), SemanticEndOf(multiplicity, es, r.target))
  }

  function SemanticRelationshipOf<M>(multiplicity: string -> M, es: seq<Classifier>)
    : Relationship -> SemanticRelationship<M>
  {
    (r: Relationship) => SemanticRelationshipIn(multiplicity, es, r)
  }

  function Projected<M(==)>(multiplicity: string -> M, m: Model): Projection<M> {
    var d := m.diagram;
    Projection(multiset(Map(SemanticClassifierOf(d.elements), d.elements)), d.name,
               multiset(Map(SemanticRelationshipOf(multiplicity, d.elements), d.relationships)), m.project.name)
  }
}
