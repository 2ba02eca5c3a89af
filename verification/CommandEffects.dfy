/**
 What every command does, as a relation between the diagram before and the diagram after it, and the elements it
 declares to affect.
 */
module CommandEffects {

  import opened Wrappers
  import opened Sequences
  import opened Uml
  import opened Cascade
  import opened Commands

  // Changes of one place in a sequence.

  /** The first element that satisfies p is at i. */
  ghost predicate FirstAt<T(!new)>(p: T -> bool, s: seq<T>, i: nat) {
    i < |s| && p(s[i]) && forall j :: 0 <= j < i ==> !p(s[j])
  }

  ghost predicate Nowhere<T(!new)>(p: T -> bool, s: seq<T>) { forall i :: 0 <= i < |s| ==> !p(s[i]) }

  /** Everything but the element at i stays in its place. */
  ghost predicate OnlyAt<T(!new)>(s: seq<T>, next: seq<T>, i: nat) {
    |next| == |s| && forall j :: 0 <= j < |s| && j != i ==> next[j] == s[j]
  }

  /** The element at i is gone, the others keep their order. */
  ghost predicate GoneAt<T(!new)>(s: seq<T>, next: seq<T>, i: nat) {
    && i < |s| && |next| == |s| - 1
    && (forall j :: 0 <= j < i ==> next[j] == s[j])
    && forall j :: i <= j < |next| ==> next[j] == s[j + 1]
  }

  lemma GoneIsRemoved<T(!new)>(s: seq<T>, next: seq<T>, i: nat)
    requires i < |s|
    ensures GoneAt(s, next, i) <==> next == RemoveAt(s, i)
  {
    if GoneAt(s, next, i) { assert next == s[..i] + s[i + 1..]; }
  }

  lemma FirstIsFound<T(!new)>(p: T -> bool, s: seq<T>, i: nat)
    ensures FirstAt(p, s, i) <==> IndexWhere(p, s) == Some(i)
    ensures Nowhere(p, s) <==> IndexWhere(p, s) == None
  {
  }

  // Changes of one list of the diagram.

  ghost predicate OnlyElementsChange(d: Diagram, next: Diagram) { next == d.(elements := next.elements) }

  ghost predicate OnlyPositionsChange(d: Diagram, next: Diagram) { next == d.(positions := next.positions) }

  ghost predicate OnlyRelationshipsChange(d: Diagram, next: Diagram) {
    next == d.(relationships := next.relationships)
  }

  /** Only the first classifier with the id changes, and only its members. */
  ghost predicate OnlyMembersChange(d: Diagram, next: Diagram, id: Id, i: nat) {
    && FirstAt(HasId(id), d.elements, i) && OnlyElementsChange(d, next) && OnlyAt(d.elements, next.elements, i)
    && next.elements[i] == d.elements[i].(attributes := next.elements[i].attributes,
                                          operations := next.elements[i].operations)
  }

  ghost predicate OnlyAttributesChange(d: Diagram, next: Diagram, id: Id, i: nat) {
    OnlyMembersChange(d, next, id, i) && next.elements[i].operations == d.elements[i].operations
  }

  ghost predicate OnlyOperationsChange(d: Diagram, next: Diagram, id: Id, i: nat) {
    OnlyMembersChange(d, next, id, i) && next.elements[i].attributes == d.elements[i].attributes
  }

  /** The classifier is new and comes last, and so does its position. */
  ghost predicate Appends(d: Diagram, next: Diagram, classifier: Classifier, position: Position) {
    && Nowhere(HasId(classifier.id), d.elements) && position.elementId == classifier.id
    && next.elements == d.elements + [classifier] && next.positions == d.positions + [position]
    && next.id == d.id && next.name == d.name
  }

  // Type references.

  /** A reference takes the new name exactly if it is one to the renamed classifier. */
  predicate CarriesName(t: TypeReference, next: TypeReference, id: Id, name: string) {
    && next.elementId == t.elementId && next.collection == t.collection && next.nullable == t.nullable
    && next.name == if t.elementId == Some(id) then name else t.name
  }

  /** A reference loses its link exactly if it is one to a deleted classifier. */
  predicate LosesLink(t: TypeReference, next: TypeReference, ids: set<Id>) {
    && next.name == t.name && next.collection == t.collection && next.nullable == t.nullable
    && next.elementId == if t.elementId.Some? && t.elementId.value in ids then None else t.elementId
  }

  /** What may become of a type reference: a new name, or the loss of a link. */
  datatype Change = NewName(id: Id, name: string) | NoLinks(ids: set<Id>)

  predicate Changes(c: Change, t: TypeReference, next: TypeReference) {
    match c
    case NewName(id, name) => CarriesName(t, next, id, name)
    case NoLinks(ids) => LosesLink(t, next, ids)
  }

  ghost predicate ParameterChanges(c: Change, p: Parameter, next: Parameter) {
    next == p.(typ := next.typ) && Changes(c, p.typ, next.typ)
  }

  ghost predicate AttributeChanges(c: Change, a: Attribute, next: Attribute) {
    next == a.(typ := next.typ) && Changes(c, a.typ, next.typ)
  }

  ghost predicate OperationChanges(c: Change, o: Operation, next: Operation) {
    && next == o.(returnType := next.returnType, parameters := next.parameters)
    && Changes(c, o.returnType, next.returnType) && |next.parameters| == |o.parameters|
    && forall i :: 0 <= i < |o.parameters| ==> ParameterChanges(c, o.parameters[i], next.parameters[i])
  }

  /** The classifier is the same but for its type references. */
  ghost predicate ClassifierChanges(c: Change, e: Classifier, next: Classifier) {
    && next == e.(attributes := next.attributes, operations := next.operations)
    && |next.attributes| == |e.attributes| && |next.operations| == |e.operations|
    && (forall i :: 0 <= i < |e.attributes| ==> AttributeChanges(c, e.attributes[i], next.attributes[i]))
    && forall i :: 0 <= i < |e.operations| ==> OperationChanges(c, e.operations[i], next.operations[i])
  }

  ghost predicate AllChange(c: Change, es: seq<Classifier>, next: seq<Classifier>) {
    |next| == |es| && forall i :: 0 <= i < |es| ==> ClassifierChanges(c, es[i], next[i])
  }

  function Rewriting(c: Change): TypeReference -> TypeReference {
    match c
    case NewName(id, name) => Renaming(id, name)
    case NoLinks(ids) => Unlinking(ids)
  }

  lemma ReferenceIsRewritten(c: Change, t: TypeReference, next: TypeReference)
    ensures Changes(c, t, next) <==> next == Rewriting(c)(t)
  {
  }

  lemma OperationIsRewritten(c: Change, o: Operation, next: Operation)
    ensures OperationChanges(c, o, next) <==> next == OnOperation(Rewriting(c))(o)
  {
    var made := OnOperation(Rewriting(c))(o);
    ReferenceIsRewritten(c, o.returnType, next.returnType);
    if |next.parameters| == |o.parameters| {
      forall i | 0 <= i < |o.parameters|
        ensures ParameterChanges(c, o.parameters[i], next.parameters[i]) <==> next.parameters[i] == made.parameters[i]
      {
        ReferenceIsRewritten(c, o.parameters[i].typ, next.parameters[i].typ);
      }
    }
    if OperationChanges(c, o, next) { assert next.parameters == made.parameters; }
  }

  lemma ClassifierIsRewritten(c: Change, e: Classifier, next: Classifier)
    ensures ClassifierChanges(c, e, next) <==> next == OnClassifier(Rewriting(c))(e)
  {
    var made := OnClassifier(Rewriting(c))(e);
    if |next.attributes| == |e.attributes| {
      forall i | 0 <= i < |e.attributes|
        ensures AttributeChanges(c, e.attributes[i], next.attributes[i]) <==> next.attributes[i] == made.attributes[i]
      {
        ReferenceIsRewritten(c, e.attributes[i].typ, next.attributes[i].typ);
      }
    }
    if |next.operations| == |e.operations| {
      forall i | 0 <= i < |e.operations|
        ensures OperationChanges(c, e.operations[i], next.operations[i]) <==> next.operations[i] == made.operations[i]
      {
        OperationIsRewritten(c, e.operations[i], next.operations[i]);
      }
    }
    if ClassifierChanges(c, e, next) {
      assert next.attributes == made.attributes && next.operations == made.operations;
    }
  }

  lemma AllAreRewritten(c: Change, es: seq<Classifier>, next: seq<Classifier>)
    ensures AllChange(c, es, next) <==> next == Map(OnClassifier(Rewriting(c)), es)
  {
    if |next| == |es| {
      forall i | 0 <= i < |es|
        ensures ClassifierChanges(c, es[i], next[i]) <==> next[i] == OnClassifier(Rewriting(c))(es[i])
      {
        ClassifierIsRewritten(c, es[i], next[i]);
      }
    }
  }

  // Deletion.

  /** A relationship that stays loses its association class if that is deleted. */
  predicate StaysAs(ids: set<Id>, r: Relationship, next: Relationship) {
    next == r.(associationClassId := next.associationClassId)
    && next.associationClassId ==
         if r.associationClassId.Some? && r.associationClassId.value in ids then None else r.associationClassId
  }

  ghost predicate AllStay(ids: set<Id>, rs: seq<Relationship>, next: seq<Relationship>) {
    |next| == |rs| && forall i :: 0 <= i < |rs| ==> StaysAs(ids, rs[i], next[i])
  }

  /**
   Exactly the classifiers ids are gone, with their positions and the relationships at them; what stays keeps its order
   and loses every link to them.
   */
  ghost predicate Deletes(d: Diagram, next: Diagram, ids: set<Id>) {
    && next.id == d.id && next.name == d.name
    && AllChange(NoLinks(ids), Filter(ElementOutside(ids), d.elements), next.elements)
    && next.positions == Filter(PositionOutside(ids), d.positions)
    && AllStay(ids, Filter(Survives(ids), d.relationships), next.relationships)
    && ElementIds(next) == ElementIds(d) - ids
    && (forall p :: p in next.positions <==> p in d.positions && p.elementId !in ids)
    && forall r :: r in d.relationships && r.source.elementId !in ids && r.target.elementId !in ids ==>
         exists s :: s in next.relationships && StaysAs(ids, r, s)
  }

  lemma AllStayMeans(ids: set<Id>, rs: seq<Relationship>, next: seq<Relationship>)
    ensures AllStay(ids, rs, next) <==> next == Map(WithoutDeletedClass(ids), rs)
  {
    if AllStay(ids, rs, next) {
      forall i | 0 <= i < |rs| ensures next[i] == WithoutDeletedClass(ids)(rs[i]) {
        assert StaysAs(ids, rs[i], next[i]);
      }
    }
  }

  lemma KeptIdsAreTheOthers(d: Diagram, ids: set<Id>)
    ensures ElementIds(Without(d, ids)) == ElementIds(d) - ids
  {
    var kept, next := Filter(ElementOutside(ids), d.elements), Without(d, ids);
    forall id ensures id in ElementIds(next) <==> id in ElementIds(d) && id !in ids {
      if id in ElementIds(next) {
        var i :| 0 <= i < |next.elements| && next.elements[i].id == id;
        assert kept[i] in kept && kept[i].id == id;
      }
      if id in ElementIds(d) && id !in ids {
        var e :| e in d.elements && e.id == id;
        assert e in kept;
        var i :| 0 <= i < |kept| && kept[i] == e;
        assert next.elements[i].id == id;
      }
    }
  }

  lemma SurvivorsStay(d: Diagram, ids: set<Id>, r: Relationship)
    requires r in d.relationships && r.source.elementId !in ids && r.target.elementId !in ids
    ensures exists s :: s in Without(d, ids).relationships && StaysAs(ids, r, s)
  {
    var kept := Filter(Survives(ids), d.relationships);
    assert r in kept;
    var i :| 0 <= i < |kept| && kept[i] == r;
    assert Without(d, ids).relationships[i] in Without(d, ids).relationships;
  }

  lemma DeletesMeans(d: Diagram, next: Diagram, ids: set<Id>)
    ensures Deletes(d, next, ids) <==> next == Without(d, ids)
  {
    AllAreRewritten(NoLinks(ids), Filter(ElementOutside(ids), d.elements), next.elements);
    AllStayMeans(ids, Filter(Survives(ids), d.relationships), next.relationships);
    KeptIdsAreTheOthers(d, ids);
    forall r | r in d.relationships && r.source.elementId !in ids && r.target.elementId !in ids
      ensures exists s :: s in Without(d, ids).relationships && StaysAs(ids, r, s)
    {
      SurvivorsStay(d, ids, r);
    }
  }

  /** The classifiers that must go with the first ones are deleted, and no others. */
  ghost predicate DeletesCascade(d: Diagram, next: Diagram, initial: set<Id>) {
    exists ids :: LeastClosed(d.relationships, initial, ids) && Deletes(d, next, ids)
  }

  lemma DeletesCascadeMeans(d: Diagram, next: Diagram, initial: set<Id>)
    ensures DeletesCascade(d, next, initial) <==> next == Removed(d, initial)
  {
    var all := Deleted(d.relationships, initial);
    DeletesMeans(d, next, all);
    if DeletesCascade(d, next, initial) {
      var ids :| LeastClosed(d.relationships, initial, ids) && Deletes(d, next, ids);
      LeastClosedIsUnique(d.relationships, initial, ids, all);
    }
  }

  // The sixteen commands.

  ghost predicate Updates(d: Diagram, next: Diagram, id: Id, classifier: Classifier, i: nat) {
    && FirstAt(HasId(id), d.elements, i) && OnlyElementsChange(d, next)
    && if d.elements[i].name == classifier.name then next.elements == d.elements[i := classifier]
       else AllChange(NewName(id, classifier.name), d.elements[i := classifier], next.elements)
  }

  /** The position of the classifier has the new place and its old size. */
  ghost predicate Moves(d: Diagram, next: Diagram, id: Id, x: real, y: real, i: nat) {
    && FirstAt(Positions(id), d.positions, i) && OnlyPositionsChange(d, next) && OnlyAt(d.positions, next.positions, i)
    && next.positions[i] == Position(id, x, y, d.positions[i].width, d.positions[i].height)
  }

  ghost predicate AddsAttribute(d: Diagram, next: Diagram, id: Id, a: Attribute, i: nat) {
    OnlyAttributesChange(d, next, id, i) && next.elements[i].attributes == d.elements[i].attributes + [a]
  }

  ghost predicate ReplacesAttribute(d: Diagram, next: Diagram, id: Id, a: Attribute, i: nat) {
    && OnlyAttributesChange(d, next, id, i)
    && exists j: nat :: FirstAt(HasAttributeId(a.id), d.elements[i].attributes, j)
         && OnlyAt(d.elements[i].attributes, next.elements[i].attributes, j) && next.elements[i].attributes[j] == a
  }

  ghost predicate DropsAttribute(d: Diagram, next: Diagram, id: Id, attributeId: Id, i: nat) {
    && OnlyAttributesChange(d, next, id, i)
    && exists j: nat :: FirstAt(HasAttributeId(attributeId), d.elements[i].attributes, j)
         && GoneAt(d.elements[i].attributes, next.elements[i].attributes, j)
  }

  ghost predicate AddsOperation(d: Diagram, next: Diagram, id: Id, o: Operation, i: nat) {
    OnlyOperationsChange(d, next, id, i) && next.elements[i].operations == d.elements[i].operations + [o]
  }

  ghost predicate ReplacesOperation(d: Diagram, next: Diagram, id: Id, o: Operation, i: nat) {
    && OnlyOperationsChange(d, next, id, i)
    && exists j: nat :: FirstAt(HasOperationId(o.id), d.elements[i].operations, j)
         && OnlyAt(d.elements[i].operations, next.elements[i].operations, j) && next.elements[i].operations[j] == o
  }

  ghost predicate DropsOperation(d: Diagram, next: Diagram, id: Id, operationId: Id, i: nat) {
    && OnlyOperationsChange(d, next, id, i)
    && exists j: nat :: FirstAt(HasOperationId(operationId), d.elements[i].operations, j)
         && GoneAt(d.elements[i].operations, next.elements[i].operations, j)
  }

  ghost predicate ReplacesRelationship(d: Diagram, next: Diagram, r: Relationship, i: nat) {
    && FirstAt(HasRelationshipId(r.id), d.relationships, i) && OnlyRelationshipsChange(d, next)
    && OnlyAt(d.relationships, next.relationships, i) && next.relationships[i] == r
  }

  /** The relationship is gone; with its association class, if it had one, goes whatever must go with that. */
  ghost predicate DropsRelationship(d: Diagram, next: Diagram, id: Id, rest: seq<Relationship>, i: nat) {
    && FirstAt(HasRelationshipId(id), d.relationships, i) && GoneAt(d.relationships, rest, i)
    && match d.relationships[i].associationClassId
       case None => next == d.(relationships := rest)
       case Some(classId) => DeletesCascade(d.(relationships := rest), next, {classId})
  }

  /** A plain association between many and many, without a class so far. */
  predicate MayTakeClass(r: Relationship) {
    && r.kind == Association && r.associationClassId.None?
    && IsManyMultiplicity(r.source.multiplicity) && IsManyMultiplicity(r.target.multiplicity)
  }

  ghost predicate LinksClass(d: Diagram, next: Diagram, id: Id, classId: Id, i: nat) {
    && FirstAt(HasRelationshipId(id), d.relationships, i) && MayTakeClass(d.relationships[i])
    && OnlyAt(d.relationships, next.relationships, i)
    && next.relationships[i] == d.relationships[i].(associationClassId := Some(classId))
  }

  /** The command can be applied to the diagram, and this is what it becomes. */
  ghost predicate Does(d: Diagram, c: Command, next: Diagram) {
    match c
    case ClassifierCreate(e, p) => Appends(d, next, e, p) && next.relationships == d.relationships
    case ClassifierDuplicate(sourceId, e, p) =>
      !Nowhere(HasId(sourceId), d.elements) && Appends(d, next, e, p) && next.relationships == d.relationships
    case ClassifierUpdate(id, e) => e.id == id && exists i: nat :: Updates(d, next, id, e, i)
    case ClassifierMove(id, x, y) =>
      !Nowhere(HasId(id), d.elements) && exists i: nat :: Moves(d, next, id, x, y, i)
    case ClassifierDelete(id) => !Nowhere(HasId(id), d.elements) && DeletesCascade(d, next, {id})
    case AttributeAdd(id, a) => exists i: nat :: AddsAttribute(d, next, id, a, i)
    case AttributeUpdate(id, attributeId, a) =>
      a.id == attributeId && exists i: nat :: ReplacesAttribute(d, next, id, a, i)
    case AttributeDelete(id, attributeId) => exists i: nat :: DropsAttribute(d, next, id, attributeId, i)
    case OperationAdd(id, o) => exists i: nat :: AddsOperation(d, next, id, o, i)
    case OperationUpdate(id, operationId, o) =>
      o.id == operationId && exists i: nat :: ReplacesOperation(d, next, id, o, i)
    case OperationDelete(id, operationId) => exists i: nat :: DropsOperation(d, next, id, operationId, i)
    case RelationshipCreate(r) =>
      && Nowhere(HasRelationshipId(r.id), d.relationships) && OnlyRelationshipsChange(d, next)
      && next.relationships == d.relationships + [r]
    case RelationshipUpdate(id, r) => r.id == id && exists i: nat :: ReplacesRelationship(d, next, r, i)
    case RelationshipDelete(id) => exists rest, i: nat :: DropsRelationship(d, next, id, rest, i)
    case AssociationClassCreate(id, e, p) => Appends(d, next, e, p) && exists i: nat :: LinksClass(d, next, id, e.id, i)
    case DiagramClear =>
      next.id == d.id && next.name == d.name && next.elements == [] && next.relationships == [] && next.positions == []
  }

  lemma CreationDoes(d: Diagram, e: Classifier, p: Position, next: Diagram)
    ensures Created(d, e, p) == Some(next) <==> Appends(d, next, e, p) && next.relationships == d.relationships
  {
    FirstIsFound(HasId(e.id), d.elements, 0);
  }

  lemma UpdateDoes(d: Diagram, id: Id, e: Classifier, next: Diagram)
    ensures Mutated(d, ClassifierUpdate(id, e)) == Some(next) <==> Does(d, ClassifierUpdate(id, e), next)
  {
    forall i: nat ensures FirstAt(HasId(id), d.elements, i) <==> IndexWhere(HasId(id), d.elements) == Some(i) {}
    if IndexWhere(HasId(id), d.elements).Some? && e.id == id {
      var i := IndexWhere(HasId(id), d.elements).value;
      AllAreRewritten(NewName(id, e.name), d.elements[i := e], next.elements);
      assert Mutated(d, ClassifierUpdate(id, e)) == Some(next) <==> Updates(d, next, id, e, i);
    }
  }

  lemma MoveDoes(d: Diagram, id: Id, x: real, y: real, next: Diagram)
    ensures Mutated(d, ClassifierMove(id, x, y)) == Some(next) <==> Does(d, ClassifierMove(id, x, y), next)
  {
    var q := Positions(id);
    forall i: nat ensures FirstAt(q, d.positions, i) <==> IndexWhere(q, d.positions) == Some(i) {}
    FirstIsFound(HasId(id), d.elements, 0);
    if IndexWhere(Positions(id), d.positions).Some? && !Nowhere(HasId(id), d.elements) {
      var i := IndexWhere(Positions(id), d.positions).value;
      OnlyAtMeans(d.positions, next.positions, i, d.positions[i].(x := x, y := y));
      assert Mutated(d, ClassifierMove(id, x, y)) == Some(next) <==> Moves(d, next, id, x, y, i);
    }
  }

  lemma OnlyAtMeans<T(!new)>(s: seq<T>, next: seq<T>, i: nat, x: T)
    requires i < |s|
    ensures OnlyAt(s, next, i) && next[i] == x <==> next == s[i := x]
  {
  }

  ghost predicate Edits(d: Diagram, next: Diagram, id: Id, edit: Classifier -> Option<Classifier>, i: nat) {
    && FirstAt(HasId(id), d.elements, i) && OnlyElementsChange(d, next) && OnlyAt(d.elements, next.elements, i)
    && edit(d.elements[i]) == Some(next.elements[i])
  }

  lemma EditingMeans(d: Diagram, id: Id, edit: Classifier -> Option<Classifier>, next: Diagram)
    ensures WithClassifier(d, id, edit) == Some(next) <==> exists i: nat :: Edits(d, next, id, edit, i)
  {
    forall i: nat ensures FirstAt(HasId(id), d.elements, i) <==> IndexWhere(HasId(id), d.elements) == Some(i) {}
    if WithClassifier(d, id, edit) == Some(next) {
      assert Edits(d, next, id, edit, IndexWhere(HasId(id), d.elements).value);
    }
    if i: nat :| Edits(d, next, id, edit, i) {
      OnlyAtMeans(d.elements, next.elements, i, edit(d.elements[i]).value);
    }
  }

  lemma AttributeIsAdded(d: Diagram, id: Id, a: Attribute, next: Diagram, i: nat)
    ensures Edits(d, next, id, AddingAttribute(a), i) <==> AddsAttribute(d, next, id, a, i)
  {
  }

  lemma AttributeIsReplaced(d: Diagram, id: Id, a: Attribute, next: Diagram, i: nat)
    ensures Edits(d, next, id, ReplacingAttribute(a.id, a), i) <==> ReplacesAttribute(d, next, id, a, i)
  {
    if i < |d.elements| && i < |next.elements| {
      var was, now, p := d.elements[i].attributes, next.elements[i].attributes, HasAttributeId(a.id);
      forall j: nat ensures FirstAt(p, was, j) <==> IndexWhere(p, was) == Some(j) {}
      if IndexWhere(p, was).Some? { OnlyAtMeans(was, now, IndexWhere(p, was).value, a); }
    }
  }

  lemma AttributeIsDropped(d: Diagram, id: Id, attributeId: Id, next: Diagram, i: nat)
    ensures Edits(d, next, id, DroppingAttribute(attributeId), i) <==> DropsAttribute(d, next, id, attributeId, i)
  {
    if i < |d.elements| && i < |next.elements| {
      var was, now, p := d.elements[i].attributes, next.elements[i].attributes, HasAttributeId(attributeId);
      forall j: nat ensures FirstAt(p, was, j) <==> IndexWhere(p, was) == Some(j) {}
      if IndexWhere(p, was).Some? { GoneIsRemoved(was, now, IndexWhere(p, was).value); }
    }
  }

  lemma OperationIsAdded(d: Diagram, id: Id, o: Operation, next: Diagram, i: nat)
    ensures Edits(d, next, id, AddingOperation(o), i) <==> AddsOperation(d, next, id, o, i)
  {
  }

  lemma OperationIsReplaced(d: Diagram, id: Id, o: Operation, next: Diagram, i: nat)
    ensures Edits(d, next, id, ReplacingOperation(o.id, o), i) <==> ReplacesOperation(d, next, id, o, i)
  {
    if i < |d.elements| && i < |next.elements| {
      var was, now, p := d.elements[i].operations, next.elements[i].operations, HasOperationId(o.id);
      forall j: nat ensures FirstAt(p, was, j) <==> IndexWhere(p, was) == Some(j) {}
      if IndexWhere(p, was).Some? { OnlyAtMeans(was, now, IndexWhere(p, was).value, o); }
    }
  }

  lemma OperationIsDropped(d: Diagram, id: Id, operationId: Id, next: Diagram, i: nat)
    ensures Edits(d, next, id, DroppingOperation(operationId), i) <==> DropsOperation(d, next, id, operationId, i)
  {
    if i < |d.elements| && i < |next.elements| {
      var was, now, p := d.elements[i].operations, next.elements[i].operations, HasOperationId(operationId);
      forall j: nat ensures FirstAt(p, was, j) <==> IndexWhere(p, was) == Some(j) {}
      if IndexWhere(p, was).Some? { GoneIsRemoved(was, now, IndexWhere(p, was).value); }
    }
  }

  lemma AttributeAddDoes(d: Diagram, id: Id, a: Attribute, next: Diagram)
    ensures Mutated(d, AttributeAdd(id, a)) == Some(next) <==> Does(d, AttributeAdd(id, a), next)
  {
    EditingMeans(d, id, AddingAttribute(a), next);
    forall i: nat ensures Edits(d, next, id, AddingAttribute(a), i) <==> AddsAttribute(d, next, id, a, i) {
      AttributeIsAdded(d, id, a, next, i);
    }
  }

  lemma AttributeUpdateDoes(d: Diagram, id: Id, attributeId: Id, a: Attribute, next: Diagram)
    ensures Mutated(d, AttributeUpdate(id, attributeId, a)) == Some(next)
            <==> Does(d, AttributeUpdate(id, attributeId, a), next)
  {
    EditingMeans(d, id, ReplacingAttribute(attributeId, a), next);
    if a.id == attributeId {
      forall i: nat
        ensures Edits(d, next, id, ReplacingAttribute(attributeId, a), i) <==> ReplacesAttribute(d, next, id, a, i)
      {
        AttributeIsReplaced(d, id, a, next, i);
      }
    }
  }

  lemma AttributeDeleteDoes(d: Diagram, id: Id, attributeId: Id, next: Diagram)
    ensures Mutated(d, AttributeDelete(id, attributeId)) == Some(next)
            <==> Does(d, AttributeDelete(id, attributeId), next)
  {
    EditingMeans(d, id, DroppingAttribute(attributeId), next);
    forall i: nat
      ensures Edits(d, next, id, DroppingAttribute(attributeId), i) <==> DropsAttribute(d, next, id, attributeId, i)
    {
      AttributeIsDropped(d, id, attributeId, next, i);
    }
  }

  lemma OperationAddDoes(d: Diagram, id: Id, o: Operation, next: Diagram)
    ensures Mutated(d, OperationAdd(id, o)) == Some(next) <==> Does(d, OperationAdd(id, o), next)
  {
    EditingMeans(d, id, AddingOperation(o), next);
    forall i: nat ensures Edits(d, next, id, AddingOperation(o), i) <==> AddsOperation(d, next, id, o, i) {
      OperationIsAdded(d, id, o, next, i);
    }
  }

  lemma OperationUpdateDoes(d: Diagram, id: Id, operationId: Id, o: Operation, next: Diagram)
    ensures Mutated(d, OperationUpdate(id, operationId, o)) == Some(next)
            <==> Does(d, OperationUpdate(id, operationId, o), next)
  {
    EditingMeans(d, id, ReplacingOperation(operationId, o), next);
    if o.id == operationId {
      forall i: nat
        ensures Edits(d, next, id, ReplacingOperation(operationId, o), i) <==> ReplacesOperation(d, next, id, o, i)
      {
        OperationIsReplaced(d, id, o, next, i);
      }
    }
  }

  lemma OperationDeleteDoes(d: Diagram, id: Id, operationId: Id, next: Diagram)
    ensures Mutated(d, OperationDelete(id, operationId)) == Some(next)
            <==> Does(d, OperationDelete(id, operationId), next)
  {
    EditingMeans(d, id, DroppingOperation(operationId), next);
    forall i: nat
      ensures Edits(d, next, id, DroppingOperation(operationId), i) <==> DropsOperation(d, next, id, operationId, i)
    {
      OperationIsDropped(d, id, operationId, next, i);
    }
  }

  lemma RelationshipUpdateDoes(d: Diagram, id: Id, r: Relationship, next: Diagram)
    ensures Mutated(d, RelationshipUpdate(id, r)) == Some(next) <==> Does(d, RelationshipUpdate(id, r), next)
  {
    var p := HasRelationshipId(id);
    forall i: nat ensures FirstAt(p, d.relationships, i) <==> IndexWhere(p, d.relationships) == Some(i) {}
    if IndexWhere(p, d.relationships).Some? && r.id == id {
      var i := IndexWhere(p, d.relationships).value;
      OnlyAtMeans(d.relationships, next.relationships, i, r);
      assert Mutated(d, RelationshipUpdate(id, r)) == Some(next) <==> ReplacesRelationship(d, next, r, i);
    }
  }

  lemma RelationshipIsDropped(d: Diagram, id: Id, next: Diagram, i: nat)
    requires FirstAt(HasRelationshipId(id), d.relationships, i)
    ensures Mutated(d, RelationshipDelete(id)) == Some(next) <==>
            DropsRelationship(d, next, id, RemoveAt(d.relationships, i), i)
  {
    FirstIsFound(HasRelationshipId(id), d.relationships, i);
    var rest := RemoveAt(d.relationships, i);
    GoneIsRemoved(d.relationships, rest, i);
    var classId := d.relationships[i].associationClassId;
    if classId.Some? { DeletesCascadeMeans(d.(relationships := rest), next, {classId.value}); }
  }

  lemma RelationshipDeleteDoes(d: Diagram, id: Id, next: Diagram)
    ensures Mutated(d, RelationshipDelete(id)) == Some(next) <==> Does(d, RelationshipDelete(id), next)
  {
    var p := HasRelationshipId(id);
    forall i: nat ensures FirstAt(p, d.relationships, i) <==> IndexWhere(p, d.relationships) == Some(i) {}
    if i: nat :| FirstAt(p, d.relationships, i) {
      RelationshipIsDropped(d, id, next, i);
      forall rest, j: nat | DropsRelationship(d, next, id, rest, j)
        ensures j == i && rest == RemoveAt(d.relationships, i)
      {
        GoneIsRemoved(d.relationships, rest, j);
      }
    }
  }

  lemma AssociationClassDoes(d: Diagram, id: Id, e: Classifier, p: Position, next: Diagram)
    ensures Mutated(d, AssociationClassCreate(id, e, p)) == Some(next)
            <==> Does(d, AssociationClassCreate(id, e, p), next)
  {
    var q := HasRelationshipId(id);
    forall i: nat ensures FirstAt(q, d.relationships, i) <==> IndexWhere(q, d.relationships) == Some(i) {}
    CreationDoes(d, e, p, next.(relationships := d.relationships));
    if IndexWhere(q, d.relationships).Some? {
      var i := IndexWhere(q, d.relationships).value;
      OnlyAtMeans(d.relationships, next.relationships, i, d.relationships[i].(associationClassId := Some(e.id)));
      assert Mutated(d, AssociationClassCreate(id, e, p)) == Some(next) <==>
             Appends(d, next, e, p) && LinksClass(d, next, id, e.id, i);
    }
  }

  lemma CreationCommandDoes(d: Diagram, c: Command, next: Diagram)
    requires c.ClassifierCreate? || c.ClassifierDuplicate? || c.RelationshipCreate? || c.DiagramClear?
    ensures Mutated(d, c) == Some(next) <==> Does(d, c, next)
  {
    match c {
      case ClassifierCreate(e, p) => CreationDoes(d, e, p, next);
      case ClassifierDuplicate(sourceId, e, p) =>
        CreationDoes(d, e, p, next);
        FirstIsFound(HasId(sourceId), d.elements, 0);
      case RelationshipCreate(r) => FirstIsFound(HasRelationshipId(r.id), d.relationships, 0);
      case DiagramClear =>
    }
  }

  lemma ClassifierDeleteDoes(d: Diagram, id: Id, next: Diagram)
    ensures Mutated(d, ClassifierDelete(id)) == Some(next) <==> Does(d, ClassifierDelete(id), next)
  {
    FirstIsFound(HasId(id), d.elements, 0);
    DeletesCascadeMeans(d, next, {id});
  }

  /** Every command can be applied exactly when it has an effect as described, and then has that effect. */
  lemma CommandsDoExactlyThis(d: Diagram, c: Command, next: Diagram)
    ensures Mutated(d, c) == Some(next) <==> Does(d, c, next)
  {
    match c {
      case ClassifierUpdate(id, e) => UpdateDoes(d, id, e, next);
      case ClassifierMove(id, x, y) => MoveDoes(d, id, x, y, next);
      case ClassifierDelete(id) => ClassifierDeleteDoes(d, id, next);
      case AttributeAdd(id, a) => AttributeAddDoes(d, id, a, next);
      case AttributeUpdate(id, attributeId, a) => AttributeUpdateDoes(d, id, attributeId, a, next);
      case AttributeDelete(id, attributeId) => AttributeDeleteDoes(d, id, attributeId, next);
      case OperationAdd(id, o) => OperationAddDoes(d, id, o, next);
      case OperationUpdate(id, operationId, o) => OperationUpdateDoes(d, id, operationId, o, next);
      case OperationDelete(id, operationId) => OperationDeleteDoes(d, id, operationId, next);
      case RelationshipUpdate(id, r) => RelationshipUpdateDoes(d, id, r, next);
      case RelationshipDelete(id) => RelationshipDeleteDoes(d, id, next);
      case AssociationClassCreate(id, e, p) => AssociationClassDoes(d, id, e, p, next);
      case _ => CreationCommandDoes(d, c, next);
    }
  }

  /** The executor carries a command out exactly if it has its effect and changes something. */
  lemma ExecutionDoesExactlyThis(d: Diagram, c: Command, next: Diagram)
    ensures Executed(d, c) == Some(next) <==> Does(d, c, next) && next != d
  {
    CommandsDoExactlyThis(d, c, next);
    if Mutated(d, c).Some? { CommandsDoExactlyThis(d, c, Mutated(d, c).value); }
  }

  // What a command declares to affect.

  /** The one classifier the command is about. */
  function Subject(c: Command): Option<Id> {
    match c
    case ClassifierCreate(e, _) => Some(e.id)
    case ClassifierUpdate(id, _) => Some(id)
    case ClassifierMove(id, _, _) => Some(id)
    case ClassifierDuplicate(_, e, _) => Some(e.id)
    case AttributeAdd(id, _) => Some(id)
    case AttributeUpdate(id, _, _) => Some(id)
    case AttributeDelete(id, _) => Some(id)
    case OperationAdd(id, _) => Some(id)
    case OperationUpdate(id, _, _) => Some(id)
    case OperationDelete(id, _) => Some(id)
    case AssociationClassCreate(_, e, _) => Some(e.id)
    case _ => None
  }

  /** The relationship as the diagram has it that the command is about. */
  ghost predicate IsSubjectRelationship(d: Diagram, c: Command, r: Relationship) {
    && (c.RelationshipUpdate? || c.RelationshipDelete? || c.AssociationClassCreate?)
    && exists i: nat :: FirstAt(HasRelationshipId(c.relationshipId), d.relationships, i) && d.relationships[i] == r
  }

  /** The command changes the name of its classifier, and a type of the other one refers to that. */
  ghost predicate LosesItsName(d: Diagram, c: Command, id: Id) {
    && c.ClassifierUpdate?
    && (exists i: nat :: FirstAt(HasId(c.elementId), d.elements, i) && d.elements[i].name != c.classifier.name)
    && exists e, t :: e in d.elements && e.id == id && IsTypeIn(e, t) && t.elementId == Some(c.elementId)
  }

  ghost predicate IsTypeIn(e: Classifier, t: TypeReference) {
    || (exists a :: a in e.attributes && a.typ == t)
    || (exists o :: o in e.operations && (o.returnType == t || exists p :: p in o.parameters && p.typ == t))
  }

  /** The command may delete any classifier. */
  ghost predicate MayDelete(d: Diagram, c: Command) {
    || c.ClassifierDelete? || c.DiagramClear?
    || (c.RelationshipDelete? && exists r :: IsSubjectRelationship(d, c, r) && r.associationClassId.Some?)
  }

  /** The elements a command has to do with: its own, those at its relationship, those it renames or may delete. */
  ghost predicate Concerns(d: Diagram, c: Command, id: Id) {
    || Subject(c) == Some(id)
    || LosesItsName(d, c, id)
    || (MayDelete(d, c) && id in ElementIds(d))
    || (!MayDelete(d, c) && exists r :: IsSubjectRelationship(d, c, r) && Touches(id)(r))
    || ((c.RelationshipCreate? || c.RelationshipUpdate?) && Touches(id)(c.relationship))
  }

  lemma ReferencesMeans(e: Classifier, id: Id)
    ensures ReferencesClassifier(e, id) <==> exists t :: IsTypeIn(e, t) && t.elementId == Some(id)
  {
    if t :| IsTypeIn(e, t) && t.elementId == Some(id) { assert !NotTo(id)(t); }
    if ReferencesClassifier(e, id) {
      if a :| a in e.attributes && !NotTo(id)(a.typ) {
        assert IsTypeIn(e, a.typ);
      } else {
        var o :| o in e.operations && !(NotTo(id)(o.returnType) && forall q :: q in o.parameters ==> NotTo(id)(q.typ));
        if !NotTo(id)(o.returnType) {
          assert IsTypeIn(e, o.returnType);
        } else {
          var q :| q in o.parameters && !NotTo(id)(q.typ);
          assert IsTypeIn(e, q.typ);
        }
      }
    }
  }

  lemma UpdateConcerns(d: Diagram, id: Id, classifier: Classifier, other: Id)
    requires AffectedElementIds(d, ClassifierUpdate(id, classifier)).Some?
    ensures other in AffectedElementIds(d, ClassifierUpdate(id, classifier)).value
            <==> Concerns(d, ClassifierUpdate(id, classifier), other)
  {
    forall i: nat ensures FirstAt(HasId(id), d.elements, i) <==> IndexWhere(HasId(id), d.elements) == Some(i) {}
    forall e ensures ReferencesClassifier(e, id) <==> exists t :: IsTypeIn(e, t) && t.elementId == Some(id) {
      ReferencesMeans(e, id);
    }
  }

  lemma SubjectIsFound(d: Diagram, c: Command, i: nat)
    requires c.RelationshipUpdate? || c.RelationshipDelete? || c.AssociationClassCreate?
    requires IndexWhere(HasRelationshipId(c.relationshipId), d.relationships) == Some(i)
    ensures forall r :: IsSubjectRelationship(d, c, r) <==> r == d.relationships[i]
  {
    var p := HasRelationshipId(c.relationshipId);
    assert FirstAt(p, d.relationships, i);
    forall r | IsSubjectRelationship(d, c, r) ensures r == d.relationships[i] {
      var j: nat :| FirstAt(p, d.relationships, j) && d.relationships[j] == r;
      assert j == i;
    }
  }

  lemma RelationshipConcerns(d: Diagram, c: Command, id: Id)
    requires c.RelationshipUpdate? || c.RelationshipDelete? || c.AssociationClassCreate?
    requires AffectedElementIds(d, c).Some?
    requires c.AssociationClassCreate? ==> Mutated(d, c).Some?
    ensures id in AffectedElementIds(d, c).value <==> Concerns(d, c, id)
  {
    var i := IndexWhere(HasRelationshipId(c.relationshipId), d.relationships).value;
    SubjectIsFound(d, c, i);
    var r := d.relationships[i];
    assert IsSubjectRelationship(d, c, r);
    assert MayDelete(d, c) <==> c.RelationshipDelete? && r.associationClassId.Some?;
    assert (exists q :: IsSubjectRelationship(d, c, q) && Touches(id)(q)) <==> Touches(id)(r);
    TouchesMeans(r, id);
    if c.RelationshipUpdate? { TouchesMeans(c.relationship, id); }
  }

  lemma TouchesMeans(r: Relationship, id: Id)
    ensures Touches(id)(r) <==> id in RelationshipElementIds(r)
  {
  }

  lemma OtherCommandConcerns(d: Diagram, c: Command, id: Id)
    requires !c.ClassifierUpdate? && !c.RelationshipUpdate? && !c.RelationshipDelete? && !c.AssociationClassCreate?
    requires AffectedElementIds(d, c).Some?
    ensures id in AffectedElementIds(d, c).value <==> Concerns(d, c, id)
  {
    if c.RelationshipCreate? { TouchesMeans(c.relationship, id); }
  }

  /** A command that can be applied declares exactly the elements it has to do with. */
  lemma CommandsDeclareExactlyThis(d: Diagram, c: Command, id: Id)
    requires Mutated(d, c).Some?
    ensures AffectedElementIds(d, c).Some?
    ensures id in AffectedElementIds(d, c).value <==> Concerns(d, c, id)
  {
    AppliedCommandsDeclareTheirEffect(d, c);
    match c {
      case ClassifierUpdate(elementId, classifier) => UpdateConcerns(d, elementId, classifier, id);
      case RelationshipUpdate(_, _) => RelationshipConcerns(d, c, id);
      case RelationshipDelete(_) => RelationshipConcerns(d, c, id);
      case AssociationClassCreate(_, _, _) => RelationshipConcerns(d, c, id);
      case _ => OtherCommandConcerns(d, c, id);
    }
  }
}
