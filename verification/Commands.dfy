/**
 What each command does to a diagram, which elements it is declared to affect, and the proof that
 nothing else changes.
 */
module Commands {

  import opened Wrappers
  import opened Sequences
  import opened Uml
  import opened Cascade

  // Rewriting the type references of a classifier.

  function OnAttribute(f: TypeReference -> TypeReference): Attribute -> Attribute {
    (a: Attribute) => a.(typ := f(a.typ))
  }

  function OnParameter(f: TypeReference -> TypeReference): Parameter -> Parameter {
    (p: Parameter) => p.(typ := f(p.typ))
  }

  function OnOperation(f: TypeReference -> TypeReference): Operation -> Operation {
    (o: Operation) => o.(returnType := f(o.returnType), parameters := Map(OnParameter(f), o.parameters))
  }

  function OnClassifier(f: TypeReference -> TypeReference): Classifier -> Classifier {
    (c: Classifier) => c.(attributes := Map(OnAttribute(f), c.attributes),
        operations := Map(OnOperation(f), c.operations))
  }

  /** A reference to the renamed classifier takes its new name. */
  function Renaming(elementId: Id, name: string): TypeReference -> TypeReference {
    (t: TypeReference) => if t.elementId == Some(elementId) then t.(name := name) else t
  }

  /** A reference to a deleted classifier keeps its name and loses its link. */
  function Unlinking(ids: set<Id>): TypeReference -> TypeReference {
    (t: TypeReference) => if t.elementId.Some? && t.elementId.value in ids then t.(elementId := None) else t
  }

  predicate EveryType(c: Classifier, p: TypeReference -> bool) {
    && (forall a :: a in c.attributes ==> p(a.typ))
    && (forall o :: o in c.operations ==> p(o.returnType) && forall q :: q in o.parameters ==> p(q.typ))
  }

  function NotTo(id: Id): TypeReference -> bool { (t: TypeReference) => t.elementId != Some(id) }

  predicate ReferencesClassifier(c: Classifier, id: Id) { !EveryType(c, NotTo(id)) }

  // Filters of the deletion.

  function ElementOutside(ids: set<Id>): Classifier -> bool { (e: Classifier) => e.id !in ids }

  function PositionOutside(ids: set<Id>): Position -> bool { (p: Position) => p.elementId !in ids }

  function Survives(ids: set<Id>): Relationship -> bool { (r: Relationship) => !Dangles(r, ids) }

  function WithoutDeletedClass(ids: set<Id>): Relationship -> Relationship {
    (r: Relationship) =>
      if r.associationClassId.Some? && r.associationClassId.value in ids then r.(associationClassId := None) else r
  }

  /** The diagram without the classifiers ids, everything that dangles with them, and every link to them. */
  function Without(d: Diagram, ids: set<Id>): Diagram {
    d.(
      elements := Map(OnClassifier(Unlinking(ids)), Filter(ElementOutside(ids), d.elements)),
      positions := Filter(PositionOutside(ids), d.positions),
      relationships := Map(WithoutDeletedClass(ids), Filter(Survives(ids), d.relationships)))
  }

  function Removed(d: Diagram, initial: set<Id>): Diagram {
    Without(d, Deleted(d.relationships, initial))
  }

  function Created(d: Diagram, classifier: Classifier, position: Position): Option<Diagram> {
    if IndexWhere(HasId(classifier.id), d.elements).Some? || position.elementId != classifier.id then None
    else Some(d.(elements := d.elements + [classifier], positions := d.positions + [position]))
  }

  function WithClassifier(d: Diagram, id: Id, edit: Classifier -> Option<Classifier>): Option<Diagram> {
    match IndexWhere(HasId(id), d.elements)
    case None => None
    case Some(i) =>
      match edit(d.elements[i])
      case None => None
      case Some(c) => Some(d.(elements := d.elements[i := c]))
  }

  function AddingAttribute(a: Attribute): Classifier -> Option<Classifier> {
    (c: Classifier) => Some(c.(attributes := c.attributes + [a]))
  }

  function ReplacingAttribute(id: Id, a: Attribute): Classifier -> Option<Classifier> {
    (c: Classifier) =>
      match IndexWhere(HasAttributeId(id), c.attributes)
      case None => None
      case Some(i) => if a.id != id then None else Some(c.(attributes := c.attributes[i := a]))
  }

  function DroppingAttribute(id: Id): Classifier -> Option<Classifier> {
    (c: Classifier) =>
      match IndexWhere(HasAttributeId(id), c.attributes)
      case None => None
      case Some(i) => Some(c.(attributes := RemoveAt(c.attributes, i)))
  }

  function AddingOperation(o: Operation): Classifier -> Option<Classifier> {
    (c: Classifier) => Some(c.(operations := c.operations + [o]))
  }

  function ReplacingOperation(id: Id, o: Operation): Classifier -> Option<Classifier> {
    (c: Classifier) =>
      match IndexWhere(HasOperationId(id), c.operations)
      case None => None
      case Some(i) => if o.id != id then None else Some(c.(operations := c.operations[i := o]))
  }

  function DroppingOperation(id: Id): Classifier -> Option<Classifier> {
    (c: Classifier) =>
      match IndexWhere(HasOperationId(id), c.operations)
      case None => None
      case Some(i) => Some(c.(operations := RemoveAt(c.operations, i)))
  }

  /** The diagram after the command, or None when the command cannot be applied. */
  function Mutated(d: Diagram, c: Command): Option<Diagram> {
    match c
    case ClassifierCreate(classifier, position) => Created(d, classifier, position)
    case ClassifierDuplicate(sourceId, classifier, position) =>
      if IndexWhere(HasId(sourceId), d.elements).None? then None else Created(d, classifier, position)
    case ClassifierUpdate(id, classifier) =>
      (match IndexWhere(HasId(id), d.elements)
       case None => None
       case Some(i) =>
         if classifier.id != id then None
         else
           var elements := d.elements[i := classifier];
           Some(d.(elements := if d.elements[i].name == classifier.name then elements
                               else Map(OnClassifier(Renaming(id, classifier.name)), elements))))
    case ClassifierMove(id, x, y) =>
      (match IndexWhere(Positions(id), d.positions)
       case None => None
       case Some(i) =>
         if IndexWhere(HasId(id), d.elements).None? then None
         else Some(d.(positions := d.positions[i := d.positions[i].(x := x, y := y)])))
    case ClassifierDelete(id) =>
      if IndexWhere(HasId(id), d.elements).None? then None else Some(Removed(d, {id}))
    case AttributeAdd(id, attribute) => WithClassifier(d, id, AddingAttribute(attribute))
    case AttributeUpdate(id, attributeId, attribute) => WithClassifier(d, id,
        ReplacingAttribute(attributeId, attribute))
    case AttributeDelete(id, attributeId) => WithClassifier(d, id, DroppingAttribute(attributeId))
    case OperationAdd(id, operation) => WithClassifier(d, id, AddingOperation(operation))
    case OperationUpdate(id, operationId, operation) => WithClassifier(d, id,
        ReplacingOperation(operationId, operation))
    case OperationDelete(id, operationId) => WithClassifier(d, id, DroppingOperation(operationId))
    case RelationshipCreate(r) =>
      if IndexWhere(HasRelationshipId(r.id), d.relationships).Some? then None
      else Some(d.(relationships := d.relationships + [r]))
    case RelationshipUpdate(id, r) =>
      (match IndexWhere(HasRelationshipId(id), d.relationships)
       case None => None
       case Some(i) => if r.id != id then None else Some(d.(relationships := d.relationships[i := r])))
    case RelationshipDelete(id) =>
      (match IndexWhere(HasRelationshipId(id), d.relationships)
       case None => None
       case Some(i) =>
         var rest := d.(relationships := RemoveAt(d.relationships, i));
         match d.relationships[i].associationClassId
         case None => Some(rest)
         case Some(classId) => Some(Removed(rest, {classId})))
    case AssociationClassCreate(id, classifier, position) =>
      (match IndexWhere(HasRelationshipId(id), d.relationships)
       case None => None
       case Some(i) =>
         var r := d.relationships[i];
         if || r.kind != Association || r.associationClassId.Some?
            || !IsManyMultiplicity(r.source.multiplicity) || !IsManyMultiplicity(r.target.multiplicity) then None
         else
           match Created(d, classifier, position)
           case None => None
           case Some(created) =>
             Some(created.(relationships := d.relationships[i := r.(associationClassId := Some(classifier.id))])))
    case DiagramClear => Some(d.(elements := [], relationships := [], positions := []))
  }

  /** A command that changes nothing is refused too. */
  function Executed(d: Diagram, c: Command): Option<Diagram> {
    match Mutated(d, c)
    case None => None
    case Some(next) => if next == d then None else Some(next)
  }

  function RelationshipElementIds(r: Relationship): set<Id> {
    {r.source.elementId, r.target.elementId} +
    (if r.associationClassId.Some? then {r.associationClassId.value} else {})
  }

  /** The elements whose locks a command must respect, or None when its target does not exist. */
  function AffectedElementIds(d: Diagram, c: Command): Option<set<Id>> {
    match c
    case ClassifierCreate(classifier, _) => Some({classifier.id})
    case ClassifierDuplicate(_, classifier, _) => Some({classifier.id})
    case ClassifierUpdate(id, classifier) =>
      (match IndexWhere(HasId(id), d.elements)
       case None => None
       case Some(i) =>
         Some({id} + if d.elements[i].name == classifier.name then {}
                     else set e | e in d.elements && ReferencesClassifier(e, id) :: e.id))
    case ClassifierDelete(_) => Some(ElementIds(d))
    case DiagramClear => Some(ElementIds(d))
    case ClassifierMove(id, _, _) => Some({id})
    case AttributeAdd(id, _) => Some({id})
    case AttributeUpdate(id, _, _) => Some({id})
    case AttributeDelete(id, _) => Some({id})
    case OperationAdd(id, _) => Some({id})
    case OperationUpdate(id, _, _) => Some({id})
    case OperationDelete(id, _) => Some({id})
    case RelationshipCreate(r) => Some(RelationshipElementIds(r))
    case RelationshipUpdate(id, r) =>
      (match IndexWhere(HasRelationshipId(id), d.relationships)
       case None => None
       case Some(i) => Some(RelationshipElementIds(d.relationships[i]) + RelationshipElementIds(r)))
    case RelationshipDelete(id) =>
      (match IndexWhere(HasRelationshipId(id), d.relationships)
       case None => None
       case Some(i) =>
         Some(if d.relationships[i].associationClassId.Some? then ElementIds(d)
              else RelationshipElementIds(d.relationships[i])))
    case AssociationClassCreate(id, classifier, _) =>
      (match IndexWhere(HasRelationshipId(id), d.relationships)
       case None => None
       case Some(i) =>
         Some({d.relationships[i].source.elementId, d.relationships[i].target.elementId, classifier.id}))
  }

  // The proof that locks on the affected elements are enough.

  /** Everything a collaborator sees of one element: itself, its position, its relationships, in order. */
  datatype View = View(elements: seq<Classifier>, positions: seq<Position>, relationships: seq<Relationship>)

  function ViewOf(d: Diagram, id: Id): View {
    View(Filter(HasId(id), d.elements), Filter(Positions(id), d.positions), Filter(Touches(id), d.relationships))
  }

  /** No position or relationship mentions a classifier that is not in the diagram. */
  ghost predicate Grounded(d: Diagram) {
    && (forall p :: p in d.positions ==> p.elementId in ElementIds(d))
    && (forall r :: r in d.relationships ==> RelationshipElementIds(r) <= ElementIds(d))
  }

  lemma RewriteOfUntouched(f: TypeReference -> TypeReference, c: Classifier)
    requires EveryType(c, (t: TypeReference) => f(t) == t)
    ensures OnClassifier(f)(c) == c
  {
    forall o | o in c.operations ensures OnOperation(f)(o) == o {
      assert Map(OnParameter(f), o.parameters) == o.parameters;
    }
    assert Map(OnOperation(f), c.operations) == c.operations;
    assert Map(OnAttribute(f), c.attributes) == c.attributes;
  }

  lemma NothingIn(d: Diagram, id: Id)
    requires Grounded(d) && id !in ElementIds(d)
    ensures ViewOf(d, id) == View([], [], [])
  {
    FilterNone(HasId(id), d.elements);
    FilterNone(Positions(id), d.positions);
    FilterNone(Touches(id), d.relationships);
  }

  /** Deletion makes no element, position or relationship appear. */
  lemma NothingInWithout(d: Diagram, ids: set<Id>, id: Id)
    requires Grounded(d) && id !in ElementIds(d)
    ensures ViewOf(Without(d, ids), id) == View([], [], [])
  {
    var next := Without(d, ids);
    forall e | e in next.elements ensures e.id in ElementIds(d) {}
    var survivors := Filter(Survives(ids), d.relationships);
    forall i | 0 <= i < |survivors| ensures RelationshipElementIds(next.relationships[i]) <= ElementIds(d) {
      assert survivors[i] in d.relationships;
    }
    FilterNone(HasId(id), next.elements);
    FilterNone(Positions(id), next.positions);
    FilterNone(Touches(id), next.relationships);
  }

  lemma RenameRespects(d: Diagram, i: nat, classifier: Classifier, id: Id)
    requires i < |d.elements| && d.elements[i].id == classifier.id != id
    requires forall e :: e in d.elements && e.id == id ==> !ReferencesClassifier(e, classifier.id)
    ensures Filter(HasId(id), Map(OnClassifier(Renaming(classifier.id, classifier.name)), d.elements[i := classifier]))
         == Filter(HasId(id), d.elements)
  {
    var f, s := OnClassifier(Renaming(classifier.id, classifier.name)), d.elements[i := classifier];
    forall e | e in s && e.id == id ensures f(e) == e {
      RewriteOfUntouched(Renaming(classifier.id, classifier.name), e);
    }
    FilterMap(HasId(id), f, s);
    FilterUpdate(HasId(id), d.elements, i, classifier);
  }

  lemma MemberEditRespects(d: Diagram, classifierId: Id, edit: Classifier -> Option<Classifier>, id: Id)
    requires classifierId != id && WithClassifier(d, classifierId, edit).Some?
    requires forall e :: e in d.elements && edit(e).Some? ==> edit(e).value.id == e.id
    ensures ViewOf(WithClassifier(d, classifierId, edit).value, id) == ViewOf(d, id)
  {
    var i := IndexWhere(HasId(classifierId), d.elements).value;
    FilterUpdate(HasId(id), d.elements, i, edit(d.elements[i]).value);
  }

  lemma CreateRespects(d: Diagram, classifier: Classifier, position: Position, id: Id)
    requires classifier.id != id && Created(d, classifier, position).Some?
    ensures ViewOf(Created(d, classifier, position).value, id) == ViewOf(d, id)
  {
    FilterAppend(HasId(id), d.elements, [classifier]);
    FilterAppend(Positions(id), d.positions, [position]);
  }

  lemma MemberCommandRespects(d: Diagram, c: Command, id: Id)
    requires c.AttributeAdd? || c.AttributeUpdate? || c.AttributeDelete? || c.OperationAdd? || c.OperationUpdate?
               || c.OperationDelete?
    requires Mutated(d, c).Some? && id != c.classifierId
    ensures ViewOf(Mutated(d, c).value, id) == ViewOf(d, id)
  {
    match c
    case AttributeAdd(classifierId, a) => MemberEditRespects(d, classifierId, AddingAttribute(a), id);
    case AttributeUpdate(classifierId, attributeId, a) =>
      MemberEditRespects(d, classifierId, ReplacingAttribute(attributeId, a), id);
    case AttributeDelete(classifierId, attributeId) =>
      MemberEditRespects(d, classifierId, DroppingAttribute(attributeId), id);
    case OperationAdd(classifierId, o) => MemberEditRespects(d, classifierId, AddingOperation(o), id);
    case OperationUpdate(classifierId, operationId, o) =>
      MemberEditRespects(d, classifierId, ReplacingOperation(operationId, o), id);
    case OperationDelete(classifierId, operationId) =>
      MemberEditRespects(d, classifierId, DroppingOperation(operationId), id);
  }

  lemma ClassifierUpdateRespects(d: Diagram, c: Command, id: Id)
    requires c.ClassifierUpdate? && Mutated(d, c).Some? && id !in AffectedElementIds(d, c).value
    ensures ViewOf(Mutated(d, c).value, id) == ViewOf(d, id)
  {
    var i := IndexWhere(HasId(c.elementId), d.elements).value;
    if d.elements[i].name == c.classifier.name {
      FilterUpdate(HasId(id), d.elements, i, c.classifier);
    } else {
      RenameRespects(d, i, c.classifier, id);
    }
  }

  lemma RelationshipDeleteRespects(d: Diagram, relationshipId: Id, id: Id)
    requires Grounded(d) && Mutated(d, RelationshipDelete(relationshipId)).Some?
    requires id !in AffectedElementIds(d, RelationshipDelete(relationshipId)).value
    ensures ViewOf(Mutated(d, RelationshipDelete(relationshipId)).value, id) == ViewOf(d, id)
  {
    var i := IndexWhere(HasRelationshipId(relationshipId), d.relationships).value;
    var r := d.relationships[i];
    var rest := d.(relationships := RemoveAt(d.relationships, i));
    if r.associationClassId.None? {
      FilterRemoveAt(Touches(id), d.relationships, i);
    } else {
      NothingIn(d, id);
      NothingInWithout(rest, Deleted(rest.relationships, {r.associationClassId.value}), id);
    }
  }

  lemma AssociationClassRespects(d: Diagram, c: Command, id: Id)
    requires c.AssociationClassCreate? && Mutated(d, c).Some? && id !in AffectedElementIds(d, c).value
    ensures ViewOf(Mutated(d, c).value, id) == ViewOf(d, id)
  {
    var i := IndexWhere(HasRelationshipId(c.relationshipId), d.relationships).value;
    CreateRespects(d, c.classifier, c.position, id);
    FilterUpdate(Touches(id), d.relationships, i, d.relationships[i].(associationClassId := Some(c.classifier.id)));
  }

  lemma RelationshipCreateRespects(d: Diagram, c: Command, id: Id)
    requires c.RelationshipCreate? && Mutated(d, c).Some? && id !in AffectedElementIds(d, c).value
    ensures ViewOf(Mutated(d, c).value, id) == ViewOf(d, id)
  {
    FilterAppend(Touches(id), d.relationships, [c.relationship]);
  }

  lemma RelationshipUpdateRespects(d: Diagram, c: Command, id: Id)
    requires c.RelationshipUpdate? && Mutated(d, c).Some? && id !in AffectedElementIds(d, c).value
    ensures ViewOf(Mutated(d, c).value, id) == ViewOf(d, id)
  {
    var i := IndexWhere(HasRelationshipId(c.relationshipId), d.relationships).value;
    FilterUpdate(Touches(id), d.relationships, i, c.relationship);
  }

  /** What a command is declared to affect is known whenever the command can be applied. */
  lemma AppliedCommandsDeclareTheirEffect(d: Diagram, c: Command)
    requires Mutated(d, c).Some?
    ensures AffectedElementIds(d, c).Some?
  {
  }

  /**
   Locking the affected elements is sound: an applied command leaves the element, the position and
   the relationships of every other id exactly as they were, in the same order.
   */
  lemma UnaffectedElementsKeepTheirView(d: Diagram, c: Command, id: Id)
    requires Grounded(d) && Mutated(d, c).Some?
    ensures AffectedElementIds(d, c).Some?
    ensures id !in AffectedElementIds(d, c).value ==> ViewOf(Mutated(d, c).value, id) == ViewOf(d, id)
  {
    AppliedCommandsDeclareTheirEffect(d, c);
    if id !in AffectedElementIds(d, c).value {
      match c {
        case ClassifierCreate(classifier, position) => CreateRespects(d, classifier, position, id);
        case ClassifierDuplicate(_, classifier, position) => CreateRespects(d, classifier, position, id);
        case ClassifierUpdate(_, _) => ClassifierUpdateRespects(d, c, id);
        case ClassifierMove(elementId, x, y) =>
          var i := IndexWhere(Positions(elementId), d.positions).value;
          FilterUpdate(Positions(id), d.positions, i, d.positions[i].(x := x, y := y));
        case ClassifierDelete(elementId) =>
          NothingIn(d, id);
          NothingInWithout(d, Deleted(d.relationships, {elementId}), id);
        case RelationshipDelete(relationshipId) => RelationshipDeleteRespects(d, relationshipId, id);
        case RelationshipCreate(_) => RelationshipCreateRespects(d, c, id);
        case RelationshipUpdate(_, _) => RelationshipUpdateRespects(d, c, id);
        case AssociationClassCreate(_, _, _) => AssociationClassRespects(d, c, id);
        case DiagramClear => NothingIn(d, id);
        case _ => MemberCommandRespects(d, c, id);
      }
    }
  }
}
