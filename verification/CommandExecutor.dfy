/** The executor: it edits a private copy of the document step by step. */
module CommandExecutor {

  import opened Wrappers
  import opened Sequences
  import opened Uml
  import opened Cascade
  import opened Commands

  /** Each relationship id names one relationship. Every stored document has this. */
  ghost predicate RelationshipIdsAreKeys(relationships: seq<Relationship>) {
    forall r, s :: r in relationships && s in relationships && r.id == s.id ==> r == s
  }

  function OutsideIds(ids: set<Id>): Relationship -> bool { (r: Relationship) => r.id !in ids }

  class WorkingDocument {
    const id: Id
    const name: string
    var elements: seq<Classifier>
    var relationships: seq<Relationship>
    var positions: seq<Position>

    ghost function Value(): Diagram
      reads this
    {
      Diagram(id, name, elements, relationships, positions)
    }

    constructor (d: Diagram)
      ensures Value() == d
    {
      id, name := d.id, d.name;
      elements, relationships, positions := d.elements, d.relationships, d.positions;
    }

    method SyncTypeReferenceNames(elementId: Id, newName: string)
      modifies this`elements
      ensures elements == Map(OnClassifier(Renaming(elementId, newName)), old(elements))
    {
      var rewrite := OnClassifier(Renaming(elementId, newName));
      for i := 0 to |elements|
        invariant |elements| == |old(elements)|
        invariant forall j :: 0 <= j < i ==> elements[j] == rewrite(old(elements)[j])
        invariant forall j :: i <= j < |elements| ==> elements[j] == old(elements)[j]
      {
        elements := elements[i := rewrite(elements[i])];
      }
    }

    /** The rounds that grow both sets until no relationship is newly dangling. */
    method Cascaded(initial: set<Id>) returns (deletedIds: set<Id>, deletedRelationshipIds: set<Id>)
      requires RelationshipIdsAreKeys(relationships)
      ensures deletedIds == Deleted(relationships, initial)
      ensures forall r :: r in relationships ==> (r.id in deletedRelationshipIds <==> Dangles(r, deletedIds))
    {
      ghost var least := Deleted(relationships, initial);
      ghost var all := set r | r in relationships :: r.id;
      deletedIds, deletedRelationshipIds := initial, {};
      var changed := true;
      while changed
        invariant initial <= deletedIds <= least && deletedRelationshipIds <= all
        invariant forall r :: r in relationships && r.id in deletedRelationshipIds ==>
                    Dangles(r, deletedIds) && (r.associationClassId.Some? ==> r.associationClassId.value in deletedIds)
        invariant !changed ==> forall r :: r in relationships && Dangles(r, deletedIds) ==>
                    r.id in deletedRelationshipIds
        decreases all - deletedRelationshipIds, changed
      {
        changed := false;
        ghost var before := deletedRelationshipIds;
        for i := 0 to |relationships|
          invariant initial <= deletedIds <= least && before <= deletedRelationshipIds <= all
          invariant changed ==> before < deletedRelationshipIds
          invariant forall r :: r in relationships && r.id in deletedRelationshipIds ==>
                      Dangles(r, deletedIds) && (r.associationClassId.Some? ==>
                          r.associationClassId.value in deletedIds)
          invariant !changed ==> forall j :: 0 <= j < i && Dangles(relationships[j], deletedIds) ==>
                      relationships[j].id in deletedRelationshipIds
        {
          var r := relationships[i];
          if r.id in deletedRelationshipIds || !Dangles(r, deletedIds) {
            continue;
          }
          deletedRelationshipIds := deletedRelationshipIds + {r.id};
          if r.associationClassId.Some? && r.associationClassId.value !in deletedIds {
            deletedIds := deletedIds + {r.associationClassId.value};
          }
          changed := true;
        }
      }
    }

    method RemoveClassifiersAndReferences(initial: set<Id>)
      requires RelationshipIdsAreKeys(relationships)
      modifies this
      ensures Value() == Removed(old(Value()), initial)
    {
      var deletedIds, deletedRelationshipIds := Cascaded(initial);
      elements := Filter(ElementOutside(deletedIds), elements);
      positions := Filter(PositionOutside(deletedIds), positions);
      FilterSame(OutsideIds(deletedRelationshipIds), Survives(deletedIds), relationships);
      relationships := Map(WithoutDeletedClass(deletedIds), Filter(OutsideIds(deletedRelationshipIds), relationships));
      var unlink := OnClassifier(Unlinking(deletedIds));
      ghost var kept, keptPositions, keptRelationships := elements, positions, relationships;
      for i := 0 to |elements|
        invariant |elements| == |kept| && positions == keptPositions && relationships == keptRelationships
        invariant forall j :: 0 <= j < i ==> elements[j] == unlink(kept[j])
        invariant forall j :: i <= j < |elements| ==> elements[j] == kept[j]
      {
        elements := elements[i := unlink(elements[i])];
      }
      assert elements == Map(unlink, kept);
    }

    method DeleteRelationshipAggregate(relationshipId: Id) returns (ok: bool)
      requires RelationshipIdsAreKeys(relationships)
      modifies this
      ensures Applied(old(Value()), RelationshipDelete(relationshipId), ok, Value())
    {
      var index := IndexWhere(HasRelationshipId(relationshipId), relationships);
      if index.None? { return false; }
      var r := relationships[index.value];
      ghost var before := Value();
      relationships := RemoveAt(relationships, index.value);
      assert Value() == before.(relationships := RemoveAt(before.relationships, index.value));
      if r.associationClassId.Some? {
        RemoveClassifiersAndReferences({r.associationClassId.value});
      }
      return true;
    }

    method EditClassifier(classifierId: Id, edit: Classifier -> Option<Classifier>) returns (ok: bool)
      modifies this`elements
      ensures ok <==> WithClassifier(old(Value()), classifierId, edit).Some?
      ensures Value() == if ok then WithClassifier(old(Value()), classifierId, edit).value else old(Value())
    {
      var index := IndexWhere(HasId(classifierId), elements);
      if index.None? { return false; }
      var edited := edit(elements[index.value]);
      if edited.None? { return false; }
      elements := elements[index.value := edited.value];
      return true;
    }

    method AddClassifier(classifier: Classifier, position: Position) returns (ok: bool)
      modifies this
      ensures ok <==> Created(old(Value()), classifier, position).Some?
      ensures Value() == if ok then Created(old(Value()), classifier, position).value else old(Value())
    {
      if IndexWhere(HasId(classifier.id), elements).Some? || position.elementId != classifier.id { return false; }
      elements := elements + [classifier];
      positions := positions + [position];
      return true;
    }

    method UpdateClassifier(elementId: Id, classifier: Classifier) returns (ok: bool)
      modifies this
      ensures Applied(old(Value()), ClassifierUpdate(elementId, classifier), ok, Value())
    {
      var index := IndexWhere(HasId(elementId), elements);
      if index.None? || classifier.id != elementId { return false; }
      var previousName := elements[index.value].name;
      elements := elements[index.value := classifier];
      if previousName != classifier.name {
        SyncTypeReferenceNames(elementId, classifier.name);
      }
      return true;
    }

    method AttachAssociationClass(relationshipId: Id, classifier: Classifier, position: Position) returns (ok: bool)
      modifies this
      ensures Applied(old(Value()), AssociationClassCreate(relationshipId, classifier, position), ok, Value())
    {
      var index := IndexWhere(HasRelationshipId(relationshipId), relationships);
      if index.None? { return false; }
      var r := relationships[index.value];
      if || r.kind != Association || r.associationClassId.Some?
         || !IsManyMultiplicity(r.source.multiplicity) || !IsManyMultiplicity(r.target.multiplicity) {
        return false;
      }
      ok := AddClassifier(classifier, position);
      if ok {
        relationships := relationships[index.value := r.(associationClassId := Some(classifier.id))];
      }
    }

    /** Edits this copy in place; a refused command leaves it as it was. */
    method Mutate(c: Command) returns (ok: bool)
      requires RelationshipIdsAreKeys(relationships)
      modifies this
      ensures Applied(old(Value()), c, ok, Value())
    {
      match c {
        case ClassifierCreate(classifier, position) => ok := AddClassifier(classifier, position);
        case ClassifierDuplicate(sourceId, classifier, position) =>
          if IndexWhere(HasId(sourceId), elements).None? { return false; }
          ok := AddClassifier(classifier, position);
        case ClassifierUpdate(elementId, classifier) => ok := UpdateClassifier(elementId, classifier);
        case ClassifierMove(elementId, x, y) =>
          var index := IndexWhere(Positions(elementId), positions);
          if IndexWhere(HasId(elementId), elements).None? || index.None? { return false; }
          positions := positions[index.value := positions[index.value].(x := x, y := y)];
          return true;
        case ClassifierDelete(elementId) =>
          if IndexWhere(HasId(elementId), elements).None? { return false; }
          RemoveClassifiersAndReferences({elementId});
          return true;
        case AttributeAdd(classifierId, a) => ok := EditClassifier(classifierId, AddingAttribute(a));
        case AttributeUpdate(classifierId, attributeId, a) =>
          ok := EditClassifier(classifierId, ReplacingAttribute(attributeId, a));
        case AttributeDelete(classifierId, attributeId) => ok :=
            EditClassifier(classifierId, DroppingAttribute(attributeId));
        case OperationAdd(classifierId, o) => ok := EditClassifier(classifierId, AddingOperation(o));
        case OperationUpdate(classifierId, operationId, o) =>
          ok := EditClassifier(classifierId, ReplacingOperation(operationId, o));
        case OperationDelete(classifierId, operationId) => ok :=
            EditClassifier(classifierId, DroppingOperation(operationId));
        case RelationshipCreate(r) =>
          if IndexWhere(HasRelationshipId(r.id), relationships).Some? { return false; }
          relationships := relationships + [r];
          return true;
        case RelationshipUpdate(relationshipId, r) =>
          var index := IndexWhere(HasRelationshipId(relationshipId), relationships);
          if index.None? || r.id != relationshipId { return false; }
          relationships := relationships[index.value := r];
          return true;
        case RelationshipDelete(relationshipId) => ok := DeleteRelationshipAggregate(relationshipId);
        case AssociationClassCreate(relationshipId, classifier, position) =>
          ok := AttachAssociationClass(relationshipId, classifier, position);
        case DiagramClear =>
          elements, relationships, positions := [], [], [];
          return true;
      }
    }
  }

  /** ok and after are what Mutated says of before and c. */
  ghost predicate Applied(before: Diagram, c: Command, ok: bool, after: Diagram) {
    && (ok <==> Mutated(before, c).Some?)
    && after == if ok then Mutated(before, c).value else before
  }

  /** Applies the command to a copy and refuses it when the copy comes out unchanged. */
  method Execute(d: Diagram, c: Command) returns (next: Option<Diagram>)
    requires RelationshipIdsAreKeys(d.relationships)
    ensures next == Executed(d, c)
  {
    var copy := new WorkingDocument(d);
    var ok := copy.Mutate(c);
    if !ok { return None; }
    var result := Diagram(copy.id, copy.name, copy.elements, copy.relationships, copy.positions);
    return if result == d then None else Some(result);
  }
}
