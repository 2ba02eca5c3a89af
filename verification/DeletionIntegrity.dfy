/** Deletion keeps a document well formed, except that two relationships may become equal. */
module DeletionIntegrity {

  import opened Wrappers
  import opened Sequences
  import opened Permutations
  import opened Uml
  import opened Cascade
  import opened Commands
  import opened CommandExecutor
  import opened Graphs
  import opened AcyclicCheck
  import opened Integrity

  function WithoutIn(m: Model, ids: set<Id>): Model { m.(diagram := Without(m.diagram, ids)) }

  // Identifiers.

  lemma MemberIdsStay(f: TypeReference -> TypeReference, attributes: seq<Attribute>, parameters: seq<Parameter>)
    ensures AttributeIds(Map(OnAttribute(f), attributes)) == AttributeIds(attributes)
    ensures ParameterIds(Map(OnParameter(f), parameters)) == ParameterIds(parameters)
  {
  }

  lemma IdsOfUnlinked(f: TypeReference -> TypeReference, e: Classifier)
    ensures IdsOfClassifier()(OnClassifier(f)(e)) == IdsOfClassifier()(e)
  {
    MemberIdsStay(f, e.attributes, []);
    forall o | o in e.operations ensures IdsOfOperation()(OnOperation(f)(o)) == IdsOfOperation()(o) {
      MemberIdsStay(f, [], o.parameters);
    }
    FlatMapOfMap(IdsOfOperation(), OnOperation(f), IdsOfOperation(), e.operations);
  }

  lemma IdsStayDistinct(m: Model, ids: set<Id>)
    requires Distinct(AllIds(m))
    ensures Distinct(AllIds(WithoutIn(m, ids)))
  {
    var d := m.diagram;
    var elements, relationships := Filter(ElementOutside(ids), d.elements), Filter(Survives(ids), d.relationships);
    forall e | e in elements ensures IdsOfClassifier()(OnClassifier(Unlinking(ids))(e)) == IdsOfClassifier()(e) {
      IdsOfUnlinked(Unlinking(ids), e);
    }
    FlatMapOfMap(IdsOfClassifier(), OnClassifier(Unlinking(ids)), IdsOfClassifier(), elements);
    FlatMapOfMap(IdOfRelationship(), WithoutDeletedClass(ids), IdOfRelationship(), relationships);
    FlatMapOfFilter(IdsOfClassifier(), ElementOutside(ids), d.elements);
    FlatMapOfFilter(IdOfRelationship(), Survives(ids), d.relationships);
    FewerAreDistinct(AllIds(WithoutIn(m, ids)), AllIds(m));
  }

  /** Element ids and relationship ids are keys. */
  lemma IdsAreKeys(m: Model)
    requires Distinct(AllIds(m))
    ensures RelationshipIdsAreKeys(m.diagram.relationships)
    ensures Pairwise(DifferentElements(), m.diagram.elements)
  {
    var es, rs := m.diagram.elements, m.diagram.relationships;
    DistinctAppend([m.project.id, m.diagram.id] + ClassifiersIds(es), RelationshipIds(rs));
    DistinctAppend([m.project.id, m.diagram.id], ClassifiersIds(es));
    RelationshipIdsDiffer(rs);
    ElementIdsDiffer(es);
  }

  lemma {:induction false} RelationshipIdsDiffer(rs: seq<Relationship>)
    requires Distinct(RelationshipIds(rs))
    ensures RelationshipIdsAreKeys(rs)
  {
    if rs != [] {
      DistinctAppend([rs[0].id], RelationshipIds(rs[1..]));
      RelationshipIdsDiffer(rs[1..]);
      forall r | r in rs[1..] ensures r.id != rs[0].id {
        FlatMapMember(IdOfRelationship(), rs[1..], r, r.id);
      }
    }
  }

  lemma {:induction false} ElementIdsDiffer(es: seq<Classifier>)
    requires Distinct(ClassifiersIds(es))
    ensures Pairwise(DifferentElements(), es)
  {
    if es != [] {
      var e, rest := es[0], es[1..];
      assert es == [e] + rest;
      DistinctAppend(IdsOfClassifier()(e), ClassifiersIds(rest));
      ElementIdsDiffer(rest);
      forall f | f in rest ensures DifferentElements()(e, f) {
        assert IdsOfClassifier()(f)[0] == f.id && IdsOfClassifier()(e)[0] == e.id;
        FlatMapMember(IdsOfClassifier(), rest, f, f.id);
      }
      PairwiseCons(DifferentElements(), e, rest);
    }
  }

  function DifferentElements(): (Classifier, Classifier) -> bool {
    (a: Classifier, b: Classifier) => a.id != b.id
  }

  // Names, references and positions.

  lemma ElementSurvives(d: Diagram, ids: set<Id>, e: Classifier)
    requires e in d.elements && e.id !in ids
    ensures OnClassifier(Unlinking(ids))(e) in Without(d, ids).elements
  {
    var kept := Filter(ElementOutside(ids), d.elements);
    var i :| 0 <= i < |kept| && kept[i] == e;
    assert Without(d, ids).elements[i] == OnClassifier(Unlinking(ids))(e);
  }

  lemma ElementOrigin(d: Diagram, ids: set<Id>, e: Classifier) returns (origin: Classifier)
    requires e in Without(d, ids).elements
    ensures origin in d.elements && origin.id !in ids && e == OnClassifier(Unlinking(ids))(origin)
  {
    var kept := Filter(ElementOutside(ids), d.elements);
    var i :| 0 <= i < |kept| && Without(d, ids).elements[i] == e;
    origin := kept[i];
  }

  lemma RelationshipOrigin(d: Diagram, ids: set<Id>, r: Relationship) returns (origin: Relationship)
    requires r in Without(d, ids).relationships
    ensures origin in d.relationships && !Dangles(origin, ids) && r == WithoutDeletedClass(ids)(origin)
  {
    var kept := Filter(Survives(ids), d.relationships);
    var i :| 0 <= i < |kept| && Without(d, ids).relationships[i] == r;
    origin := kept[i];
  }

  lemma TypeStaysResolved(d: Diagram, ids: set<Id>, t: TypeReference)
    requires TypeResolves(d.elements, t)
    ensures TypeResolves(Without(d, ids).elements, Unlinking(ids)(t))
  {
    if t.elementId.Some? && t.elementId.value !in ids {
      var e :| e in d.elements && e.id == t.elementId.value && e.name == t.name;
      ElementSurvives(d, ids, e);
    }
  }

  lemma MembersStayFine(norm: string -> string, d: Diagram, ids: set<Id>, e: Classifier)
    requires NamesPresent(e) && MemberNamesDistinct(norm, e) && TypesResolve(d.elements, e)
    ensures var f := OnClassifier(Unlinking(ids))(e);
            NamesPresent(f) && MemberNamesDistinct(norm, f) && TypesResolve(Without(d, ids).elements, f)
  {
    var f := OnClassifier(Unlinking(ids))(e);
    assert AttributeNames(f.attributes) == AttributeNames(e.attributes);
    forall a | a in f.attributes ensures !IsBlank(a.name) && TypeResolves(Without(d, ids).elements, a.typ) {
      var i :| 0 <= i < |e.attributes| && f.attributes[i] == a;
      assert e.attributes[i] in e.attributes;
      TypeStaysResolved(d, ids, e.attributes[i].typ);
    }
    forall i | 0 <= i < |e.operations|
      ensures OperationStaysFine(norm, Without(d, ids).elements, f.operations[i])
    {
      var o := e.operations[i];
      assert o in e.operations;
      TypeStaysResolved(d, ids, o.returnType);
      assert ParameterNames(f.operations[i].parameters) == ParameterNames(o.parameters);
      forall p | p in f.operations[i].parameters
        ensures !IsBlank(p.name) && TypeResolves(Without(d, ids).elements, p.typ)
      {
        var j :| 0 <= j < |o.parameters| && f.operations[i].parameters[j] == p;
        assert o.parameters[j] in o.parameters;
        TypeStaysResolved(d, ids, o.parameters[j].typ);
      }
    }
  }

  ghost predicate OperationStaysFine(norm: string -> string, es: seq<Classifier>, o: Operation) {
    && !IsBlank(o.name) && TypeResolves(es, o.returnType)
    && Distinct(Map(norm, ParameterNames(o.parameters)))
    && forall p :: p in o.parameters ==> !IsBlank(p.name) && TypeResolves(es, p.typ)
  }

  lemma ElementNamesStayDistinct(norm: string -> string, d: Diagram, ids: set<Id>)
    requires Distinct(Map(norm, ElementNames(d.elements)))
    ensures Distinct(Map(norm, ElementNames(Without(d, ids).elements)))
  {
    var rel := (a: Classifier, b: Classifier) => norm(a.name) != norm(b.name);
    var kept := Filter(ElementOutside(ids), d.elements);
    assert forall i :: 0 <= i < |d.elements| ==> Map(norm, ElementNames(d.elements))[i] == norm(d.elements[i].name);
    assert Pairwise(rel, d.elements);
    PairwiseFilter(rel, ElementOutside(ids), d.elements);
    var names := Map(norm, ElementNames(Without(d, ids).elements));
    assert forall i :: 0 <= i < |kept| ==> names[i] == norm(kept[i].name);
    forall i, j | 0 <= i < j < |names| ensures names[i] != names[j] {
      assert rel(kept[i], kept[j]);
    }
  }

  lemma OwnersStayDistinct(d: Diagram, ids: set<Id>)
    requires Distinct(Owners(d.positions))
    ensures Distinct(Owners(Without(d, ids).positions))
  {
    var next := Without(d, ids).positions;
    var rel := (a: Position, b: Position) => a.elementId != b.elementId;
    forall i, j | 0 <= i < j < |d.positions| ensures rel(d.positions[i], d.positions[j]) {
      assert Owners(d.positions)[i] != Owners(d.positions)[j];
    }
    PairwiseFilter(rel, PositionOutside(ids), d.positions);
    forall i, j | 0 <= i < j < |next| ensures Owners(next)[i] != Owners(next)[j] {
      assert rel(next[i], next[j]);
    }
  }

  lemma OwnerStays(d: Diagram, ids: set<Id>, id: Id)
    requires id in Owners(d.positions) && id !in ids
    ensures id in Owners(Without(d, ids).positions)
  {
    var next := Without(d, ids).positions;
    var i :| 0 <= i < |d.positions| && Owners(d.positions)[i] == id;
    assert d.positions[i] in next;
    var j :| 0 <= j < |next| && next[j] == d.positions[i];
    assert Owners(next)[j] == id;
  }

  lemma PositionsStayMatched(d: Diagram, ids: set<Id>)
    requires PositionsMatch(d)
    ensures PositionsMatch(Without(d, ids))
  {
    var next := Without(d, ids);
    OwnersStayDistinct(d, ids);
    forall p | p in next.positions ensures p.elementId in ElementIds(next) {
      var e :| e in d.elements && e.id == p.elementId;
      ElementSurvives(d, ids, e);
    }
    forall e | e in next.elements ensures e.id in Owners(next.positions) {
      var origin := ElementOrigin(d, ids, e);
      OwnerStays(d, ids, origin.id);
    }
  }

  // Relationships.

  lemma KindOfMember(es: seq<Classifier>, e: Classifier)
    requires Pairwise(DifferentElements(), es) && e in es
    ensures KindOf(es, e.id) == Some(e.kind)
  {
    var i :| 0 <= i < |es| && es[i] == e;
    assert forall j :: 0 <= j < |es| && j != i ==> es[j].id != es[i].id by {
      forall j | 0 <= j < |es| && j != i ensures es[j].id != es[i].id {
        assert if j < i then DifferentElements()(es[j], es[i]) else DifferentElements()(es[i], es[j]);
      }
    }
  }

  lemma KindStays(d: Diagram, ids: set<Id>, id: Id)
    requires Pairwise(DifferentElements(), d.elements) && KindOf(d.elements, id).Some? && id !in ids
    ensures KindOf(Without(d, ids).elements, id) == KindOf(d.elements, id)
  {
    var e :| e in d.elements && e.id == id && Some(e.kind) == KindOf(d.elements, id);
    ElementSurvives(d, ids, e);
    var kept, next := Filter(ElementOutside(ids), d.elements), Without(d, ids).elements;
    PairwiseFilter(DifferentElements(), ElementOutside(ids), d.elements);
    forall i, j | 0 <= i < j < |next| ensures DifferentElements()(next[i], next[j]) {
      assert DifferentElements()(kept[i], kept[j]);
    }
    KindOfMember(next, OnClassifier(Unlinking(ids))(e));
  }

  lemma RelationshipsStayFit(d: Diagram, ids: set<Id>)
    requires Pairwise(DifferentElements(), d.elements) && RelationshipsFit(d)
    ensures RelationshipsFit(Without(d, ids))
  {
    var next := Without(d, ids);
    forall r | r in next.relationships ensures EndsFit(next.elements, r) && ClassFits(next.elements, r) {
      var origin := RelationshipOrigin(d, ids, r);
      KindStays(d, ids, r.source.elementId);
      KindStays(d, ids, r.target.elementId);
      if r.associationClassId.Some? { KindStays(d, ids, r.associationClassId.value); }
    }
  }

  lemma ClassesStayDistinct(d: Diagram, ids: set<Id>)
    requires ClassesDistinct(d.relationships)
    ensures ClassesDistinct(Without(d, ids).relationships)
  {
    var rel := (a: Relationship, b: Relationship) => a.associationClassId.Some? ==>
        a.associationClassId != b.associationClassId;
    var kept, next := Filter(Survives(ids), d.relationships), Without(d, ids).relationships;
    assert Pairwise(rel, d.relationships);
    PairwiseFilter(rel, Survives(ids), d.relationships);
    forall i, j | 0 <= i < j < |next| && next[i].associationClassId.Some?
      ensures next[i].associationClassId != next[j].associationClassId
    {
      assert rel(kept[i], kept[j]);
    }
  }

  lemma StaysAcyclic(d: Diagram, ids: set<Id>)
    requires Acyclic(d.relationships)
    ensures Acyclic(Without(d, ids).relationships)
  {
    var next := Without(d, ids).relationships;
    forall r | r in next
      ensures exists o :: o in d.relationships && o.kind == r.kind && o.source == r.source && o.target == r.target
    {
      var origin := RelationshipOrigin(d, ids, r);
    }
    SubgraphOfAcyclic(EdgesOf(next, Generalization), EdgesOf(d.relationships, Generalization));
    SubgraphOfAcyclic(EdgesOf(next, Composition), EdgesOf(d.relationships, Composition));
  }

  lemma OperationStaysXmlSafe(o: Operation, ids: set<Id>)
    requires XmlSafeOperation(o)
    ensures XmlSafeOperation(OnOperation(Unlinking(ids))(o))
  {
    var parameters := OnOperation(Unlinking(ids))(o).parameters;
    forall j | 0 <= j < |parameters| ensures XmlSafeParameter(parameters[j]) {
      assert XmlSafeParameter(o.parameters[j]);
    }
  }

  lemma ClassifierStaysXmlSafe(e: Classifier, ids: set<Id>)
    requires XmlSafeClassifier(e)
    ensures XmlSafeClassifier(OnClassifier(Unlinking(ids))(e))
  {
    var f := OnClassifier(Unlinking(ids))(e);
    forall i | 0 <= i < |f.attributes| ensures XmlSafeAttribute(f.attributes[i]) {
      assert XmlSafeAttribute(e.attributes[i]);
    }
    forall i | 0 <= i < |f.operations| ensures XmlSafeOperation(f.operations[i]) {
      OperationStaysXmlSafe(e.operations[i], ids);
    }
  }

  lemma StaysXmlSafe(m: Model, ids: set<Id>)
    requires XmlSafeModel(m)
    ensures XmlSafeModel(WithoutIn(m, ids))
  {
    var next := WithoutIn(m, ids).diagram;
    forall e | e in next.elements ensures XmlSafeClassifier(e) {
      var origin := ElementOrigin(m.diagram, ids, e);
      ClassifierStaysXmlSafe(origin, ids);
    }
    forall r | r in next.relationships ensures XmlSafeRelationship(r) {
      var origin := RelationshipOrigin(m.diagram, ids, r);
    }
  }

  /** Deleting any classifiers keeps every integrity clause except that relationships differ. */
  lemma DeletionKeepsIntegrity(norm: string -> string, m: Model, ids: set<Id>)
    requires IntegrityBesidesSignatures(norm, m)
    ensures IntegrityBesidesSignatures(norm, WithoutIn(m, ids))
  {
    var d := m.diagram;
    StaysXmlSafe(m, ids);
    IdsStayDistinct(m, ids);
    IdsAreKeys(m);
    forall e | e in Without(d, ids).elements
      ensures NamesPresent(e) && MemberNamesDistinct(norm, e) && TypesResolve(Without(d, ids).elements, e)
    {
      var origin := ElementOrigin(d, ids, e);
      MembersStayFine(norm, d, ids, origin);
    }
    ElementNamesStayDistinct(norm, d, ids);
    PositionsStayMatched(d, ids);
    RelationshipsStayFit(d, ids);
    ClassesStayDistinct(d, ids);
    StaysAcyclic(d, ids);
  }

  // Both commands that delete.

  function WithRelationships(m: Model, rs: seq<Relationship>): Model { m.(diagram := m.diagram.(relationships := rs)) }

  lemma FewerRelationshipIds(m: Model, i: nat)
    requires i < |m.diagram.relationships| && Distinct(AllIds(m))
    ensures Distinct(AllIds(WithRelationships(m, RemoveAt(m.diagram.relationships, i))))
  {
    var rs := m.diagram.relationships;
    FlatMapAppend(IdOfRelationship(), rs[..i], rs[i + 1..]);
    assert rs == rs[..i] + ([rs[i]] + rs[i + 1..]);
    FlatMapAppend(IdOfRelationship(), rs[..i], [rs[i]] + rs[i + 1..]);
    FlatMapAppend(IdOfRelationship(), [rs[i]], rs[i + 1..]);
    FewerAreDistinct(AllIds(WithRelationships(m, RemoveAt(rs, i))), AllIds(m));
  }

  lemma FewerClasses(rs: seq<Relationship>, i: nat)
    requires i < |rs| && ClassesDistinct(rs)
    ensures ClassesDistinct(RemoveAt(rs, i))
  {
    var rest := RemoveAt(rs, i);
    forall j, k | 0 <= j < k < |rest| && rest[j].associationClassId.Some?
        ensures rest[j].associationClassId != rest[k].associationClassId {
      assert rest[j] == rs[if j < i then j else j + 1] && rest[k] == rs[if k < i then k else k + 1];
    }
  }

  /** Without one of its relationships a document is as well formed as before. */
  lemma RelationshipRemovalKeepsIntegrity(norm: string -> string, m: Model, i: nat)
    requires IntegrityBesidesSignatures(norm, m) && i < |m.diagram.relationships|
    ensures IntegrityBesidesSignatures(norm, WithRelationships(m, RemoveAt(m.diagram.relationships, i)))
  {
    var rs := m.diagram.relationships;
    FewerRelationshipIds(m, i);
    FewerClasses(rs, i);
    SubgraphOfAcyclic(EdgesOf(RemoveAt(rs, i), Generalization), EdgesOf(rs, Generalization));
    SubgraphOfAcyclic(EdgesOf(RemoveAt(rs, i), Composition), EdgesOf(rs, Composition));
    assert PositionsMatch(WithRelationships(m, RemoveAt(rs, i)).diagram) by { assert PositionsMatch(m.diagram); }
  }

  lemma DeletedRelationship(d: Diagram, id: Id)
    requires Executed(d, RelationshipDelete(id)).Some?
    ensures IndexWhere(HasRelationshipId(id), d.relationships).Some?
    ensures var i := IndexWhere(HasRelationshipId(id), d.relationships).value;
      var rest, classId := d.(relationships := RemoveAt(d.relationships, i)), d.relationships[i].associationClassId;
      Executed(d, RelationshipDelete(id)).value
        == if classId.None? then rest else Without(rest, Deleted(rest.relationships, {classId.value}))
  {
  }

  lemma RelationshipDeleteKeepsIntegrity(norm: string -> string, m: Model, id: Id, next: Diagram)
    requires IntegrityBesidesSignatures(norm, m) && Executed(m.diagram, RelationshipDelete(id)) == Some(next)
    ensures IntegrityBesidesSignatures(norm, m.(diagram := next))
  {
    DeletedRelationship(m.diagram, id);
    var i := IndexWhere(HasRelationshipId(id), m.diagram.relationships).value;
    var rest := WithRelationships(m, RemoveAt(m.diagram.relationships, i));
    RelationshipRemovalKeepsIntegrity(norm, m, i);
    var classId := m.diagram.relationships[i].associationClassId;
    if classId.Some? { DeletionKeepsIntegrity(norm, rest, Deleted(rest.diagram.relationships, {classId.value})); }
  }

  /** A command that deletes, when it is carried out, keeps every clause but the one about signatures. */
  lemma DeletionCommandsKeepIntegrity(norm: string -> string, m: Model, c: Command)
    requires IntegrityBesidesSignatures(norm, m) && (c.ClassifierDelete? || c.RelationshipDelete?)
               && Executed(m.diagram, c).Some?
    ensures IntegrityBesidesSignatures(norm, m.(diagram := Executed(m.diagram, c).value))
  {
    match c {
      case ClassifierDelete(id) => DeletionKeepsIntegrity(norm, m, Deleted(m.diagram.relationships, {id}));
      case RelationshipDelete(id) =>
        RelationshipDeleteKeepsIntegrity(norm, m, id, Executed(m.diagram, c).value);
    }
  }

  // When relationships stay different.

  /** The two relationships agree on everything but their association classes, perhaps read backwards. */
  predicate Twins(a: Relationship, b: Relationship) {
    Repeats(a.(associationClassId := None), b.(associationClassId := None))
  }

  predicate Classless(r: Relationship, ids: set<Id>) {
    r.associationClassId.None? || r.associationClassId.value in ids
  }

  /** Two survivors differ only by association classes that are absent or deleted. */
  predicate LeavesTwins(rs: seq<Relationship>, ids: set<Id>) {
    exists i, j :: 0 <= i < j < |rs| && Twins(rs[i], rs[j])
      && !Dangles(rs[i], ids) && !Dangles(rs[j], ids) && Classless(rs[i], ids) && Classless(rs[j], ids)
  }

  function StayDifferent(ids: set<Id>): (Relationship, Relationship) -> bool {
    (a: Relationship, b: Relationship) => !Repeats(WithoutDeletedClass(ids)(a), WithoutDeletedClass(ids)(b))
  }

  lemma StrippedSignatures(kept: seq<Relationship>, ids: set<Id>)
    ensures SignaturesDistinct(Map(WithoutDeletedClass(ids), kept)) <==> Pairwise(StayDifferent(ids), kept)
  {
    var next := Map(WithoutDeletedClass(ids), kept);
    if SignaturesDistinct(next) {
      forall i, j | 0 <= i < j < |kept| ensures StayDifferent(ids)(kept[i], kept[j]) {
        assert !Repeats(next[i], next[j]);
      }
    }
    if Pairwise(StayDifferent(ids), kept) {
      forall i, j | 0 <= i < j < |next| ensures !Repeats(next[i], next[j]) {
        assert StayDifferent(ids)(kept[i], kept[j]);
      }
    }
  }

  lemma TwinsBecomeEqual(a: Relationship, b: Relationship, ids: set<Id>)
    requires !Repeats(a, b)
    requires a.associationClassId.Some? ==> a.associationClassId != b.associationClassId
    ensures !StayDifferent(ids)(a, b) <==> Twins(a, b) && Classless(a, ids) && Classless(b, ids)
  {
    var strip := WithoutDeletedClass(ids);
    assert StayDifferent(ids)(a, b) == !Repeats(strip(a), strip(b));
    if Classless(a, ids) && Classless(b, ids) {
      assert strip(a) == a.(associationClassId := None) && strip(b) == b.(associationClassId := None);
    } else {
      assert strip(a).associationClassId != strip(b).associationClassId;
    }
  }

  lemma TwinsAreFound(rs: seq<Relationship>, ids: set<Id>)
    requires SignaturesDistinct(rs) && ClassesDistinct(rs)
    ensures PairwiseWhere(StayDifferent(ids), Survives(ids), rs) <==> !LeavesTwins(rs, ids)
  {
    forall i, j | 0 <= i < j < |rs|
      ensures !StayDifferent(ids)(rs[i], rs[j]) <==>
                Twins(rs[i], rs[j]) && Classless(rs[i], ids) && Classless(rs[j], ids)
    {
      TwinsBecomeEqual(rs[i], rs[j], ids);
    }
  }

  /** Deletion makes two relationships equal exactly when it leaves twins. */
  lemma SignaturesStayDistinctUnlessTwins(d: Diagram, ids: set<Id>)
    requires SignaturesDistinct(d.relationships) && ClassesDistinct(d.relationships)
    ensures SignaturesDistinct(Without(d, ids).relationships) <==> !LeavesTwins(d.relationships, ids)
  {
    StrippedSignatures(Filter(Survives(ids), d.relationships), ids);
    PairwiseFilter(StayDifferent(ids), Survives(ids), d.relationships);
    TwinsAreFound(d.relationships, ids);
  }

  // The example: two associations of two classes, one of them with a class of its own.

  function TwinClass(id: Id, name: string): Classifier { Classifier(id, name, Class(false), [], [], []) }

  function TwinElements(): seq<Classifier> {
    [TwinClass("class-a", "A"), TwinClass("class-b", "B"), TwinClass("class-c", "C")]
  }

  function TwinAssociation(id: Id, classId: Option<Id>): Relationship {
    Relationship(id, Association, None, End("class-a", "", "*", true), End("class-b", "", "*", true), classId)
  }

  function TwinRelationships(): seq<Relationship> {
    [TwinAssociation("rel-1", None), TwinAssociation("rel-2", Some("class-c"))]
  }

  function TwinPosition(id: Id): Position { Position(id, 0.0, 0.0, None, None) }

  function TwinModel(): Model {
    Model(Project("project", "Project", None),
          Diagram("diagram", "Diagram", TwinElements(), TwinRelationships(),
                  [TwinPosition("class-a"), TwinPosition("class-b"), TwinPosition("class-c")]),
          Metadata("2026-01-02T03:04:05Z", "2026-01-02T03:04:05Z", 0, []))
  }

  lemma TwinIds()
    ensures AllIds(TwinModel()) == ["project", "diagram", "class-a", "class-b", "class-c", "rel-1", "rel-2"]
    ensures Distinct(AllIds(TwinModel()))
  {
    var es, rs := TwinElements(), TwinRelationships();
    assert forall e :: e in es ==> IdsOfClassifier()(e) == [e.id];
    assert ClassifiersIds(es) == [es[0].id] + ([es[1].id] + [es[2].id]) by {
      assert es[1..] == [es[1], es[2]] && es[1..][1..] == [es[2]] && es[1..][1..][1..] == [];
    }
    assert RelationshipIds(rs) == [rs[0].id] + [rs[1].id] by {
      assert rs[1..] == [rs[1]] && rs[1..][1..] == [];
    }
    var ids := ["project", "diagram", "class-a", "class-b", "class-c", "rel-1", "rel-2"];
    assert ids[0][0] == 'p' && ids[1][0] == 'd' && ids[2][0] == 'c' && ids[3][0] == 'c' && ids[4][0] == 'c'
        && ids[5][0] == 'r' && ids[6][0] == 'r';
    assert ids[2][6] == 'a' && ids[3][6] == 'b' && ids[4][6] == 'c' && ids[5][4] == '1' && ids[6][4] == '2';
  }

  lemma TwinNames(norm: string -> string)
    requires norm("A") != norm("B") && norm("A") != norm("C") && norm("B") != norm("C")
    ensures forall e :: e in TwinElements() ==>
              NamesPresent(e) && MemberNamesDistinct(norm, e) && TypesResolve(TwinElements(), e)
    ensures Distinct(Map(norm, ElementNames(TwinElements())))
  {
    assert ElementNames(TwinElements()) == ["A", "B", "C"];
    forall e | e in TwinElements() ensures !IsBlank(e.name) {
      assert e.name[0] in e.name && !IsSpace(e.name[0]);
    }
  }

  lemma TwinPositionsMatch()
    ensures PositionsMatch(TwinModel().diagram)
  {
    var d := TwinModel().diagram;
    TwinIds();
    assert d.elements[0] in d.elements && d.elements[1] in d.elements && d.elements[2] in d.elements;
    assert Owners(d.positions) == ["class-a", "class-b", "class-c"];
    var ids := Owners(d.positions);
    assert ids[0] in ids && ids[1] in ids && ids[2] in ids;
    assert ids == AllIds(TwinModel())[2..5];
  }

  lemma TwinKinds()
    ensures KindOf(TwinElements(), "class-a") == KindOf(TwinElements(), "class-b")
              == KindOf(TwinElements(), "class-c") == Some(Class(false))
    ensures "class-c" != "class-a" && "class-c" != "class-b" && "class-a" != "class-b"
  {
    assert "class-a"[6] == 'a' && "class-b"[6] == 'b' && "class-c"[6] == 'c';
    assert TwinElements()[0].id == "class-a" && TwinElements()[1].id == "class-b" && TwinElements()[2].id == "class-c";
  }

  lemma TwinEndsFit(r: Relationship)
    requires r in TwinRelationships()
    ensures EndsFit(TwinElements(), r) && ClassFits(TwinElements(), r)
  {
    TwinKinds();
    assert RangeDots("*") == None;
  }

  lemma TwinRelationshipsDiffer()
    ensures ClassesDistinct(TwinRelationships()) && Acyclic(TwinRelationships())
              && SignaturesDistinct(TwinRelationships())
  {
    assert forall e ::
        e !in EdgesOf(TwinRelationships(), Generalization) && e !in EdgesOf(TwinRelationships(), Composition);
  }

  lemma PlainTextsAreSafe(s: string)
    requires forall i :: 0 <= i < |s| ==> ' ' <= s[i] <= 'z'
    ensures XmlSafe(s)
  {
  }

  lemma TwinClassIsSafe(id: Id, name: string)
    requires XmlSafe(id) && XmlSafe(name)
    ensures XmlSafeClassifier(TwinClass(id, name))
  {
  }

  lemma TwinAssociationIsSafe(id: Id, classId: Option<Id>)
    requires XmlSafe(id) && XmlSafeOption(classId) && XmlSafe("class-a") && XmlSafe("class-b")
    ensures XmlSafeRelationship(TwinAssociation(id, classId))
  {
    PlainTextsAreSafe("*");
  }

  lemma TwinIdsAreSafe()
    ensures XmlSafe("class-a") && XmlSafe("class-b") && XmlSafe("class-c") && XmlSafe("rel-1") && XmlSafe("rel-2")
    ensures XmlSafe("A") && XmlSafe("B") && XmlSafe("C")
  {
    PlainTextsAreSafe("class-a");
    PlainTextsAreSafe("class-b");
    PlainTextsAreSafe("class-c");
    PlainTextsAreSafe("rel-1");
    PlainTextsAreSafe("rel-2");
  }

  lemma TwinElementsAreSafe()
    ensures forall e :: e in TwinElements() ==> XmlSafeClassifier(e)
    ensures forall r :: r in TwinRelationships() ==> XmlSafeRelationship(r)
  {
    TwinIdsAreSafe();
    TwinClassIsSafe("class-a", "A");
    TwinClassIsSafe("class-b", "B");
    TwinClassIsSafe("class-c", "C");
    TwinAssociationIsSafe("rel-1", None);
    TwinAssociationIsSafe("rel-2", Some("class-c"));
  }

  lemma TwinTextsAreSafe(m: Model)
    requires m == TwinModel()
    ensures XmlSafeModel(m) && !IsBlank(m.project.name) && !IsBlank(m.diagram.name)
  {
    TwinIdsAreSafe();
    TwinElementsAreSafe();
    PlainTextsAreSafe(m.project.id);
    PlainTextsAreSafe(m.project.name);
    PlainTextsAreSafe(m.diagram.id);
    PlainTextsAreSafe(m.diagram.name);
    PlainTextsAreSafe(m.metadata.createdAt);
    assert m.project.name[0] in m.project.name && !IsSpace(m.project.name[0]);
    assert m.diagram.name[0] in m.diagram.name && !IsSpace(m.diagram.name[0]);
  }

  lemma TwinModelHasIntegrity(norm: string -> string, m: Model)
    requires norm("A") != norm("B") && norm("A") != norm("C") && norm("B") != norm("C") && m == TwinModel()
    ensures Integrity.Integrity(norm, m)
  {
    TwinTextsAreSafe(m);
    TwinIds();
    TwinNames(norm);
    TwinPositionsMatch();
    TwinRelationshipsDiffer();
    forall r | r in m.diagram.relationships ensures EndsFit(m.diagram.elements, r) && ClassFits(m.diagram.elements, r) {
      TwinEndsFit(r);
    }
  }

  /** Deleting the class of one of two twins makes them equal. */
  lemma DeletingTheClassLeavesTwins(d: Diagram, classId: Id)
    requires SignaturesDistinct(d.relationships) && ClassesDistinct(d.relationships) && |d.relationships| == 2
    requires Twins(d.relationships[0], d.relationships[1]) && d.relationships[0].associationClassId.None?
    requires d.relationships[1].associationClassId == Some(classId)
    requires forall r :: r in d.relationships ==> !Dangles(r, {classId})
    requires exists i :: 0 <= i < |d.elements| && HasId(classId)(d.elements[i])
    ensures Executed(d, ClassifierDelete(classId)).Some?
    ensures !SignaturesDistinct(Executed(d, ClassifierDelete(classId)).value.relationships)
  {
    assert Closed(d.relationships, {classId});
    assert Deleted(d.relationships, {classId}) == {classId};
    SignaturesStayDistinctUnlessTwins(d, {classId});
    assert Mutated(d, ClassifierDelete(classId)) == Some(Without(d, {classId}));
  }

  /**
   It does happen: in a well-formed document, deleting the class of the second association is carried out and makes that
   association a copy of the first.
   */
  lemma DeletionMayRepeatARelationship(norm: string -> string) returns (m: Model, classId: Id)
    requires norm("A") != norm("B") && norm("A") != norm("C") && norm("B") != norm("C")
    ensures Integrity.Integrity(norm, m) && Executed(m.diagram, ClassifierDelete(classId)).Some?
    ensures !SignaturesDistinct(Executed(m.diagram, ClassifierDelete(classId)).value.relationships)
  {
    m, classId := TwinModel(), TwinElements()[2].id;
    TwinModelHasIntegrity(norm, m);
    TwinDeletion(m, classId);
  }

  lemma TwinDeletion(m: Model, classId: Id)
    requires m == TwinModel() && classId == TwinElements()[2].id
    ensures Executed(m.diagram, ClassifierDelete(classId)).Some?
    ensures !SignaturesDistinct(Executed(m.diagram, ClassifierDelete(classId)).value.relationships)
  {
    var d := m.diagram;
    TwinKinds();
    TwinRelationshipsDiffer();
    assert HasId(classId)(d.elements[2]);
    TwinsStand(d.relationships, classId);
    DeletingTheClassLeavesTwins(d, classId);
  }

  lemma TwinsStand(rs: seq<Relationship>, classId: Id)
    requires rs == TwinRelationships() && classId == "class-c"
    ensures |rs| == 2 && Twins(rs[0], rs[1]) && rs[0].associationClassId.None?
              && rs[1].associationClassId == Some(classId)
    ensures forall r :: r in rs ==> !Dangles(r, {classId})
  {
    TwinKinds();
  }

  /** A well-formed document is grounded, which is what the lock argument and the executor ask for. */
  lemma IntegrityGrounds(norm: string -> string, m: Model)
    requires IntegrityBesidesSignatures(norm, m)
    ensures Grounded(m.diagram) && RelationshipIdsAreKeys(m.diagram.relationships)
  {
    IdsAreKeys(m);
    FitRelationshipsGround(m.diagram);
  }

  lemma FitRelationshipsGround(d: Diagram)
    requires PositionsMatch(d) && RelationshipsFit(d)
    ensures Grounded(d)
  {
    forall r | r in d.relationships ensures RelationshipElementIds(r) <= ElementIds(d) {
      KindIsOfMember(d, r.source.elementId);
      KindIsOfMember(d, r.target.elementId);
      assert ClassFits(d.elements, r);
      if r.associationClassId.Some? { KindIsOfMember(d, r.associationClassId.value); }
    }
  }

  lemma KindIsOfMember(d: Diagram, id: Id)
    requires KindOf(d.elements, id).Some?
    ensures id in ElementIds(d)
  {
    var i :| 0 <= i < |d.elements| && d.elements[i].id == id;
    assert d.elements[i] in d.elements;
  }
}
