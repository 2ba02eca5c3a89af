/** Exporting a well-formed model and importing the document gives the same model, up to identifiers and layout. */
module XmiRoundTrip {

  import opened Wrappers
  import opened Sequences
  import opened Permutations
  import opened Uml
  import opened Integrity
  import opened SemanticProjection
  import opened XmiText
  import opened XmiDocument
  import opened XmiExport
  import opened XmiParser
  import opened XmiReading
  import opened XmiContents
  import opened XmiReadBack
  import opened XmiCoverage
  import opened XmiKeys
  import opened XmiTexts
  import opened XmiImport
  import opened XmiReimport
  import opened XmiImported

  // Whatever the exporter accepts, the parser and the importer can read.

  predicate HasSchemaMultiplicities(d: Diagram) {
    forall r :: r in d.relationships ==> IsMultiplicity(r.source.multiplicity) && IsMultiplicity(r.target.multiplicity)
  }

  lemma AttributeTypeIsUsed(d: Diagram, e: Classifier, a: Attribute)
    requires e in d.elements && a in e.attributes
    ensures a.typ in Types(d)
  {
    var i :| 0 <= i < |e.attributes| && e.attributes[i] == a;
    assert Map((a: Attribute) => a.typ, e.attributes)[i] == a.typ;
    assert a.typ in TypesOfClassifier()(e);
    FlatMapMember(TypesOfClassifier(), d.elements, e, a.typ);
  }

  lemma OperationTypeIsUsed(d: Diagram, e: Classifier, o: Operation, t: TypeReference)
    requires e in d.elements && o in e.operations && t in TypesOfOperation()(o)
    ensures t in Types(d)
  {
    FlatMapMember(TypesOfOperation(), e.operations, o, t);
    assert t in TypesOfClassifier()(e);
    FlatMapMember(TypesOfClassifier(), d.elements, e, t);
  }

  lemma ParameterTypeIsUsed(o: Operation, p: Parameter)
    requires p in o.parameters
    ensures p.typ in TypesOfOperation()(o)
  {
    var i :| 0 <= i < |o.parameters| && o.parameters[i] == p;
    assert Map((p: Parameter) => p.typ, o.parameters)[i] == p.typ;
  }

  lemma UsedTypeIsGood(env: Env, d: Diagram, t: TypeReference)
    requires t in Types(d) && TypeResolves(d.elements, t) && ExportableType(env, d, t)
    ensures GoodType(env, d, t)
  {
    if IsDataType(env, t) { DataTypeIsNamed(env, d, t); }
  }

  lemma OperationIsGood(env: Env, d: Diagram, e: Classifier, o: Operation)
    requires e in d.elements && o in e.operations && NamesPresent(e) && TypesResolve(d.elements, e) && PlainOperation(o)
    requires forall t :: t in Types(d) ==> ExportableType(env, d, t)
    ensures GoodOperation(env, d, o)
  {
    OperationTypeIsUsed(d, e, o, o.returnType);
    UsedTypeIsGood(env, d, o.returnType);
    forall p | p in o.parameters ensures GoodParameter(env, d, p) {
      ParameterTypeIsUsed(o, p);
      OperationTypeIsUsed(d, e, o, p.typ);
      UsedTypeIsGood(env, d, p.typ);
    }
  }

  lemma ClassifierIsGood(env: Env, d: Diagram, e: Classifier)
    requires e in d.elements && NamesPresent(e) && TypesResolve(d.elements, e) && PlainClassifier(e)
               && e.stereotypes == []
    requires forall t :: t in Types(d) ==> ExportableType(env, d, t)
    ensures GoodClassifier(env, d, e)
  {
    forall a | a in e.attributes ensures GoodAttribute(env, d, a) {
      AttributeTypeIsUsed(d, e, a);
      UsedTypeIsGood(env, d, a.typ);
    }
    forall o | o in e.operations ensures GoodOperation(env, d, o) { OperationIsGood(env, d, e, o); }
  }

  lemma UsedTypeResolves(d: Diagram, t: TypeReference)
    requires t in Types(d) && forall e :: e in d.elements ==> TypesResolve(d.elements, e)
    ensures TypeResolves(d.elements, t)
  {
    var e := FlatMapSource(TypesOfClassifier(), d.elements, t);
    if t in Map((a: Attribute) => a.typ, e.attributes) {
      var i :| 0 <= i < |e.attributes| && Map((a: Attribute) => a.typ, e.attributes)[i] == t;
      assert e.attributes[i] in e.attributes;
    } else {
      var o := FlatMapSource(TypesOfOperation(), e.operations, t);
      if t != o.returnType {
        var i :| 0 <= i < |o.parameters| && Map((p: Parameter) => p.typ, o.parameters)[i] == t;
        assert o.parameters[i] in o.parameters;
      }
    }
  }

  lemma DataTypeNameIsPresent(env: Env, d: Diagram, name: string)
    requires name in DataTypeNames(env, d) && forall e :: e in d.elements ==> TypesResolve(d.elements, e)
    ensures !IsBlank(name)
  {
    var t := DataTypeUse(env, d, name);
    UsedTypeResolves(d, t);
  }

  lemma RelationshipIsGood(d: Diagram, r: Relationship)
    requires PlainRelationship(r) && EndsFit(d.elements, r)
    requires r.source.elementId in ElementIds(d) && r.target.elementId in ElementIds(d)
    requires IsMultiplicity(r.source.multiplicity) && IsMultiplicity(r.target.multiplicity)
    ensures GoodRelationship(d, r)
  {
  }

  lemma RelationshipsAreGood(d: Diagram)
    requires RelationshipsFit(d) && HasSchemaMultiplicities(d) && forall r :: r in d.relationships ==>
               PlainRelationship(r)
    ensures forall r :: r in d.relationships ==> GoodRelationship(d, r)
  {
    EndsAreElements(d);
    forall r | r in d.relationships ensures GoodRelationship(d, r) { RelationshipIsGood(d, r); }
  }

  lemma ElementsAreGood(norm: string -> string, env: Env, m: Model)
    requires IntegrityBesidesSignatures(norm, m) && Exportable(env, m.diagram)
    requires forall e :: e in m.diagram.elements ==> PlainClassifier(e)
    ensures forall e :: e in m.diagram.elements ==> GoodClassifier(env, m.diagram, e)
    ensures forall name :: name in DataTypeNames(env, m.diagram) ==> !IsBlank(name)
  {
    var d := m.diagram;
    forall e | e in d.elements ensures GoodClassifier(env, d, e) { ClassifierIsGood(env, d, e); }
    forall name | name in DataTypeNames(env, d) ensures !IsBlank(name) { DataTypeNameIsPresent(env, d, name); }
  }

  lemma ExportedIsImportable(norm: string -> string, env: Env, m: Model)
    requires IntegrityBesidesSignatures(norm, m) && HasSchemaMultiplicities(m.diagram)
    requires Exportable(env, m.diagram) && AllWritable(WriteDocument(env, m.diagram))
    ensures Importable(env, m.diagram)
  {
    ExportableIsSound(norm, env, m);
    ExportedTextsArePlain(env, m.diagram);
    ElementsAreGood(norm, env, m);
    RelationshipsAreGood(m.diagram);
  }

  lemma BoundsAreDigits(s: string)
    requires IsMultiplicity(s)
    ensures !IsBlank(LowerBound(s)) && !IsBlank(UpperBound(s))
  {
    NumeralsAreNotBlank();
    match RangeDots(s) {
      case None => if s != "*" { DigitsAreNotBlank(s); }
      case Some(i) =>
        DigitsAreNotBlank(s[..i]);
        if s[i + 2..] != "*" { DigitsAreNotBlank(s[i + 2..]); }
    }
  }

  lemma DigitsAreNotBlank(s: string)
    requires IsDigits(s)
    ensures !IsBlank(s)
  {
    assert s[0] in s;
  }

  lemma ClassifierIsReadable(env: Env, d: Diagram, e: Classifier)
    requires GoodClassifier(env, d, e)
    ensures ReadableClassifier(d, e)
  {
    forall o | o in e.operations ensures ReadableOperation(d, o) {
      assert GoodOperation(env, d, o);
      forall p | p in o.parameters ensures ReadableParameter(d, p) { assert GoodParameter(env, d, p); }
    }
    forall a | a in e.attributes ensures ReadableAttribute(d, a) { assert GoodAttribute(env, d, a); }
  }

  lemma ImportableIsReadable(env: Env, d: Diagram)
    requires Importable(env, d) && forall r :: r in d.relationships ==> ExportableRelationship(d, r)
    ensures Readable(d)
  {
    forall e | e in d.elements ensures ReadableClassifier(d, e) { ClassifierIsReadable(env, d, e); }
    forall r | r in d.relationships && IsAssociationLike(r) ensures ReadableAssociation(d, r) {
      assert GoodRelationship(d, r) && ExportableRelationship(d, r);
      BoundsAreDigits(r.source.multiplicity);
      BoundsAreDigits(r.target.multiplicity);
      if ClassOf(d, r).Some? { OwnerIsUnique(d, r); }
    }
  }

  // The import of an export.

  lemma ReadIsParsed(events: seq<Event>, raw: Raw, ids: seq<string>)
    requires Run(START, events) == Some(State(Bottom, raw, ids)) && raw.sawModel && IsVersion(raw.version)
    ensures Parsed(events) == if WithinLimits(events) && Distinct(ids) then Some(raw) else None
  {
  }

  lemma ExportedParses(env: Env, m: Model)
    requires DigestsAreHex(env) && Readable(m.diagram) && Sound(m.diagram) && Distinct(AllIds(m)) && HasSchemaIds(m)
    ensures Parsed(WriteDocument(env, m.diagram)) ==
            if WithinLimits(WriteDocument(env, m.diagram))
                && CollisionFree(env, m.diagram) then Some(RawOf(env, m.diagram)) else None
  {
    DocumentIsRead(env, m.diagram);
    ReadIsParsed(WriteDocument(env, m.diagram), RawOf(env, m.diagram), WrittenIds(env, m.diagram));
    WrittenIdsDiffer(env, m);
  }

  /**
   The importer accepts an exported document exactly when the document keeps within the limits and no two
   digests in it collide. It then builds the same model with canonical ids, and reports no diagnostic.
   */
  lemma ImportOfExport(norm: string -> string, env: Env, seed: Seed, m: Model, document: seq<Event>)
    requires DigestsAreHex(env) && IntegrityBesidesSignatures(norm, m) && HasSchemaIds(m)
               && HasSchemaMultiplicities(m.diagram)
    requires Export(env, m) == Some(document)
    ensures Import(env, seed, document) ==
            if WithinLimits(document) && CollisionFree(env, m.diagram)
                then Some(Imported(ModelBack(env, seed, m.diagram), [])) else None
  {
    var d := m.diagram;
    assert document == WriteDocument(env, d) && AllWritable(document);
    assert Readable(d) && Importable(env, d) by {
      ExportedIsImportable(norm, env, m);
      ImportableIsReadable(env, d);
    }
    ExportedParses(env, m);
    if CollisionFree(env, d) { RawIsImported(env, seed, d); }
  }

  // Names come back.

  /** No two imported classifiers get the same id. */
  ghost predicate ClassifierIdsStayDistinct(env: Env, d: Diagram) {
    forall e, f :: e in d.elements && f in d.elements && IdBack(env, d, e.id) == IdBack(env, d, f.id) ==> e == f
  }

  lemma {:induction false} NameOfElement(es: seq<Classifier>, e: Classifier)
    requires e in es && forall f :: f in es && f.id == e.id ==> f.name == e.name
    ensures NameOf(es, e.id) == e.name
  {
    var n := |es| - 1;
    assert es[n] in es;
    if es[n].id != e.id { NameOfElement(es[..n], e); }
  }

  lemma BackOrigin(env: Env, d: Diagram, es: seq<Classifier>, f: Classifier) returns (e: Classifier)
    requires Sound(d) && multiset(es) == multiset(ElementsBack(env, d)) && f in es
    ensures e in d.elements && f == ClassifierBack(env, d)(e)
  {
    SameMembers(es, ElementsBack(env, d));
    e := MapSource(ClassifierBack(env, d), WrittenElements(env, d), f);
    WrittenElementsAre(env, d);
  }

  lemma BackIsThere(env: Env, d: Diagram, es: seq<Classifier>, e: Classifier)
    requires Sound(d) && multiset(es) == multiset(ElementsBack(env, d)) && e in d.elements
    ensures ClassifierBack(env, d)(e) in es
  {
    WrittenElementsAre(env, d);
    MapTarget(ClassifierBack(env, d), WrittenElements(env, d), e);
    SameMembers(es, ElementsBack(env, d));
  }

  lemma ElementNameComesBack(env: Env, d: Diagram, es: seq<Classifier>, e: Classifier)
    requires Sound(d) && ClassifierIdsStayDistinct(env, d) && e in d.elements
    requires multiset(es) == multiset(ElementsBack(env, d))
    ensures NameOf(es, IdBack(env, d, e.id)) == e.name
  {
    BackIsThere(env, d, es, e);
    forall f | f in es && f.id == IdBack(env, d, e.id) ensures f.name == e.name {
      var origin := BackOrigin(env, d, es, f);
    }
    NameOfElement(es, ClassifierBack(env, d)(e));
  }

  lemma NameComesBack(env: Env, d: Diagram, es: seq<Classifier>, id: Id)
    requires Sound(d) && ClassifierIdsStayDistinct(env, d) && id in ElementIds(d)
    requires multiset(es) == multiset(ElementsBack(env, d))
    ensures NameOf(es, IdBack(env, d, id)) == NameOf(d.elements, id)
  {
    var e :| e in d.elements && e.id == id;
    NameOfElement(d.elements, e);
    ElementNameComesBack(env, d, es, e);
  }

  // Classifiers come back.

  lemma TypeMeansTheSame(env: Env, d: Diagram, es: seq<Classifier>, t: TypeReference)
    requires Sound(d) && ClassifierIdsStayDistinct(env, d) && multiset(es) == multiset(ElementsBack(env, d))
               && TypeIsKnown(d, t)
    ensures SemanticTypeOf(es, TypeBack(env, d, t)) == SemanticTypeOf(d.elements, t)
  {
    if t.elementId.Some? {
      assert NameOf(es, IdBack(env, d, t.elementId.value)) == NameOf(d.elements, t.elementId.value) by {
        NameComesBack(env, d, es, t.elementId.value);
      }
      SameType(env, d, es, t);
    }
  }

  lemma SameType(env: Env, d: Diagram, es: seq<Classifier>, t: TypeReference)
    requires t.elementId.Some? ==>
               NameOf(es, IdBack(env, d, t.elementId.value)) == NameOf(d.elements, t.elementId.value)
    ensures SemanticTypeOf(es, TypeBack(env, d, t)) == SemanticTypeOf(d.elements, t)
  {
  }

  lemma ParametersMeanTheSame(env: Env, d: Diagram, es: seq<Classifier>, s: seq<Parameter>)
    requires Sound(d) && ClassifierIdsStayDistinct(env, d) && multiset(es) == multiset(ElementsBack(env, d))
    requires forall p :: p in s ==> GoodParameter(env, d, p)
    ensures Map(SemanticParameterOf(es), Map(ParameterBack(env, d), s)) == Map(SemanticParameterOf(d.elements), s)
  {
    var f, g, back := SemanticParameterOf(es), SemanticParameterOf(d.elements), ParameterBack(env, d);
    forall p | p in s ensures f(back(p)) == g(p) { TypeMeansTheSame(env, d, es, p.typ); }
    MapOfMap(f, back, g, s);
  }

  lemma OperationMeansTheSame(env: Env, d: Diagram, es: seq<Classifier>, o: Operation)
    requires Sound(d) && ClassifierIdsStayDistinct(env, d) && multiset(es) == multiset(ElementsBack(env, d))
    requires GoodOperation(env, d, o)
    ensures SemanticOperationOf(es)(OperationBack(env, d)(o)) == SemanticOperationOf(d.elements)(o)
  {
    TypeMeansTheSame(env, d, es, o.returnType);
    ParametersMeanTheSame(env, d, es, o.parameters);
  }

  lemma AttributesMeanTheSame(env: Env, d: Diagram, es: seq<Classifier>, s: seq<Attribute>)
    requires Sound(d) && ClassifierIdsStayDistinct(env, d) && multiset(es) == multiset(ElementsBack(env, d))
    requires forall a :: a in s ==> GoodAttribute(env, d, a)
    ensures Map(SemanticAttributeOf(es), Map(AttributeBack(env, d), s)) == Map(SemanticAttributeOf(d.elements), s)
  {
    var f, g, back := SemanticAttributeOf(es), SemanticAttributeOf(d.elements), AttributeBack(env, d);
    forall a | a in s ensures f(back(a)) == g(a) { TypeMeansTheSame(env, d, es, a.typ); }
    MapOfMap(f, back, g, s);
  }

  lemma OperationsMeanTheSame(env: Env, d: Diagram, es: seq<Classifier>, s: seq<Operation>)
    requires Sound(d) && ClassifierIdsStayDistinct(env, d) && multiset(es) == multiset(ElementsBack(env, d))
    requires forall o :: o in s ==> GoodOperation(env, d, o)
    ensures Map(SemanticOperationOf(es), Map(OperationBack(env, d), s)) == Map(SemanticOperationOf(d.elements), s)
  {
    var f, g, back := SemanticOperationOf(es), SemanticOperationOf(d.elements), OperationBack(env, d);
    forall o | o in s ensures f(back(o)) == g(o) { OperationMeansTheSame(env, d, es, o); }
    MapOfMap(f, back, g, s);
  }

  lemma ClassifierMeansTheSame(env: Env, d: Diagram, es: seq<Classifier>, e: Classifier)
    requires Sound(d) && ClassifierIdsStayDistinct(env, d) && multiset(es) == multiset(ElementsBack(env, d))
    requires GoodClassifier(env, d, e)
    ensures SemanticClassifierOf(es)(ClassifierBack(env, d)(e)) == SemanticClassifierOf(d.elements)(e)
  {
    AttributesMeanTheSame(env, d, es, e.attributes);
    OperationsMeanTheSame(env, d, es, e.operations);
  }

  /** Equal images of two sequences of entries, one of them in another order. */
  lemma SameImages<A(!new), B>(f: A -> B, g: A -> B, back: A -> A, s: seq<A>, written: seq<A>, result: seq<A>)
    requires multiset(written) == multiset(s) && multiset(result) == multiset(Map(back, written))
    requires forall x :: x in s ==> f(back(x)) == g(x)
    ensures multiset(Map(f, result)) == multiset(Map(g, s))
  {
    MapPermuted(f, result, Map(back, written));
    SameMembers(written, s);
    assert Map(f, Map(back, written)) == Map(g, written);
    MapPermuted(g, written, s);
  }

  lemma ElementsMeanTheSame(env: Env, d: Diagram, es: seq<Classifier>)
    requires Importable(env, d) && ClassifierIdsStayDistinct(env, d) && multiset(es) == multiset(ElementsBack(env, d))
    ensures multiset(Map(SemanticClassifierOf(es), es)) == multiset(Map(SemanticClassifierOf(d.elements), d.elements))
  {
    EveryClassifierIsWrittenOnce(env, d);
    forall e | e in d.elements ensures SemanticClassifierOf(es)(ClassifierBack(env, d)(e))
        == SemanticClassifierOf(d.elements)(e) {
      ClassifierMeansTheSame(env, d, es, e);
    }
    SameImages(SemanticClassifierOf(es), SemanticClassifierOf(d.elements), ClassifierBack(env, d), d.elements,
               WrittenElements(env, d), es);
  }

  // Relationships come back.

  function RelationshipComingBack(env: Env, d: Diagram, r: Relationship): Relationship {
    if IsAssociationLike(r) then AssociationBack(env, d)(r) else DirectedBack(env, d)(r)
  }

  function RelationshipBack(env: Env, d: Diagram): Relationship -> Relationship {
    (r: Relationship) => RelationshipComingBack(env, d, r)
  }

  lemma RelationshipsBackAre(env: Env, d: Diagram)
    requires Sound(d)
    ensures RelationshipsBack(env, d)
              == Map(RelationshipBack(env, d), WrittenAssociations(env, d) + WrittenDirected(env, d))
    ensures multiset(WrittenAssociations(env, d) + WrittenDirected(env, d)) == multiset(d.relationships)
  {
    EveryRelationshipIsWrittenOnce(env, d);
    WrittenRelationshipsAre(env, d);
    var a, b := WrittenAssociations(env, d), WrittenDirected(env, d);
    MapAppend(RelationshipBack(env, d), a, b);
    MapSame(RelationshipBack(env, d), AssociationBack(env, d), a);
    MapSame(RelationshipBack(env, d), DirectedBack(env, d), b);
  }

  lemma EndMeansTheSame<M>(multiplicity: string -> M, env: Env, d: Diagram, es: seq<Classifier>, e: End)
    requires Sound(d) && ClassifierIdsStayDistinct(env, d) && multiset(es) == multiset(ElementsBack(env, d))
    requires e.elementId in ElementIds(d)
    requires multiplicity(MultiplicityBack(e.multiplicity)) == multiplicity(e.multiplicity)
    ensures SemanticEndOf(multiplicity, es, EndBack(env, d, e)) == SemanticEndOf(multiplicity, d.elements, e)
  {
    NameComesBack(env, d, es, e.elementId);
  }

  /** The multiplicities of the ends survive in the given reading. */
  ghost predicate MultiplicitiesSurvive<M>(multiplicity: string -> M, d: Diagram) {
    forall r :: r in d.relationships ==>
      && multiplicity(MultiplicityBack(r.source.multiplicity)) == multiplicity(r.source.multiplicity)
      && multiplicity(MultiplicityBack(r.target.multiplicity)) == multiplicity(r.target.multiplicity)
  }

  lemma ClassMeansTheSame(env: Env, d: Diagram, es: seq<Classifier>, r: Relationship)
    requires Sound(d) && ClassifierIdsStayDistinct(env, d) && multiset(es) == multiset(ElementsBack(env, d))
    requires r in d.relationships && r.associationClassId.Some?
    ensures NameOf(es, IdBack(env, d, r.associationClassId.value)) == NameOf(d.elements, r.associationClassId.value)
  {
    assert ClassOf(d, r).Some?;
    NameComesBack(env, d, es, r.associationClassId.value);
  }

  lemma EndsMeanTheSame<M>(multiplicity: string -> M, env: Env, d: Diagram, es: seq<Classifier>, r: Relationship)
    requires Sound(d) && ClassifierIdsStayDistinct(env, d) && multiset(es) == multiset(ElementsBack(env, d))
    requires r in d.relationships && MultiplicitiesSurvive(multiplicity, d)
    ensures SemanticEndOf(multiplicity, es, EndBack(env, d, r.source))
              == SemanticEndOf(multiplicity, d.elements, r.source)
    ensures SemanticEndOf(multiplicity, es, EndBack(env, d, r.target))
              == SemanticEndOf(multiplicity, d.elements, r.target)
  {
    EndMeansTheSame(multiplicity, env, d, es, r.source);
    EndMeansTheSame(multiplicity, env, d, es, r.target);
  }

  lemma AssociationMeansTheSame<M>(multiplicity: string -> M, env: Env, d: Diagram, es: seq<Classifier>,
      r: Relationship)
    requires Sound(d) && ClassifierIdsStayDistinct(env, d) && multiset(es) == multiset(ElementsBack(env, d))
    requires r in d.relationships && MultiplicitiesSurvive(multiplicity, d)
    ensures SemanticRelationshipOf(multiplicity, es)(AssociationBack(env, d)(r))
            == SemanticRelationshipOf(multiplicity, d.elements)(r)
  {
    EndsMeanTheSame(multiplicity, env, d, es, r);
    if r.associationClassId.Some? { ClassMeansTheSame(env, d, es, r); }
    SameRelationship(multiplicity, env, d, es, r);
  }

  lemma SameRelationship<M>(multiplicity: string -> M, env: Env, d: Diagram, es: seq<Classifier>, r: Relationship)
    requires r.associationClassId.Some? ==>
               NameOf(es, IdBack(env, d, r.associationClassId.value)) == NameOf(d.elements, r.associationClassId.value)
    requires SemanticEndOf(multiplicity, es, EndBack(env, d, r.source))
               == SemanticEndOf(multiplicity, d.elements, r.source)
    requires SemanticEndOf(multiplicity, es, EndBack(env, d, r.target))
               == SemanticEndOf(multiplicity, d.elements, r.target)
    ensures SemanticRelationshipOf(multiplicity, es)(AssociationBack(env, d)(r))
            == SemanticRelationshipOf(multiplicity, d.elements)(r)
  {
  }

  lemma DirectedIsPlain(env: Env, d: Diagram, r: Relationship)
    requires ExportableRelationship(d, r) && !IsAssociationLike(r)
    ensures DirectedBack(env, d)(r) == AssociationBack(env, d)(r)
  {
    OneIsOne();
  }

  lemma RelationshipMeansTheSame<M>(multiplicity: string -> M, env: Env, d: Diagram, es: seq<Classifier>,
      r: Relationship)
    requires Sound(d) && ClassifierIdsStayDistinct(env, d) && multiset(es) == multiset(ElementsBack(env, d))
    requires r in d.relationships && ExportableRelationship(d, r) && MultiplicitiesSurvive(multiplicity, d)
    ensures SemanticRelationshipOf(multiplicity, es)(RelationshipBack(env, d)(r))
            == SemanticRelationshipOf(multiplicity, d.elements)(r)
  {
    AssociationMeansTheSame(multiplicity, env, d, es, r);
    if !IsAssociationLike(r) { DirectedIsPlain(env, d, r); }
  }

  lemma OneIsOne()
    ensures MultiplicityBack("1") == "1"
  {
    assert |"1"| == 1 && "1"[0] != '*';
  }

  lemma RelationshipsMeanTheSame<M(!new)>(multiplicity: string -> M, env: Env, d: Diagram, es: seq<Classifier>,
      rs: seq<Relationship>)
    requires Sound(d) && ClassifierIdsStayDistinct(env, d) && multiset(es) == multiset(ElementsBack(env, d))
    requires multiset(rs) == multiset(RelationshipsBack(env, d)) && MultiplicitiesSurvive(multiplicity, d)
    requires forall r :: r in d.relationships ==> ExportableRelationship(d, r)
    ensures multiset(Map(SemanticRelationshipOf(multiplicity, es), rs))
            == multiset(Map(SemanticRelationshipOf(multiplicity, d.elements), d.relationships))
  {
    var f, g := SemanticRelationshipOf(multiplicity, es), SemanticRelationshipOf(multiplicity, d.elements);
    RelationshipsBackAre(env, d);
    forall r | r in d.relationships ensures f(RelationshipBack(env, d)(r)) == g(r) {
      RelationshipMeansTheSame(multiplicity, env, d, es, r);
    }
    SameImages(f, g, RelationshipBack(env, d), d.relationships, WrittenAssociations(env, d) + WrittenDirected(env, d),
        rs);
  }

  // Multiplicities come back.

  /** The numbers a multiplicity stands for; no upper bound for * */
  datatype Bounds = Bounds(lower: nat, upper: Option<nat>)

  function NumberOf(s: string): Option<nat> { if IsDigits(s) then Some(NatOf(s)) else None }

  function BoundsIn(s: string): Bounds { Bounds(NumberOf(LowerBound(s)).GetOr(0), NumberOf(UpperBound(s))) }

  function BoundsOf(): string -> Bounds { (s: string) => BoundsIn(s) }

  /** A range of one number, such as 1..1 */
  predicate IsSingleRange(s: string) {
    match RangeDots(s)
    case None => false
    case Some(i) => s[..i] == s[i + 2..]
  }

  function ProjectedText(s: string): string { if s == "*" then "0..*" else s }

  function SemanticMultiplicity(): string -> string { (s: string) => ProjectedText(s) }

  lemma {:induction false} DigitsHaveNoDots(s: string)
    requires IsDigits(s)
    ensures RangeDots(s) == None
  {
    forall i | 0 <= i < |s| ensures s[i] != '.' {
      assert s[i] in s && IsDigit(s[i]);
    }
  }

  lemma {:induction false} RangeDotsOf(low: string, high: string)
    requires forall c :: c in low ==> c != '.'
    ensures RangeDots(low + ".." + high) == Some(|low|)
    ensures (low + ".." + high)[..|low|] == low && (low + ".." + high)[|low| + 2..] == high
  {
    var s := low + ".." + high;
    if low == "" {
      assert s[0] == '.' && s[1] == '.';
    } else {
      assert s[0] == low[0] && low[0] in low && s[1..] == low[1..] + ".." + high;
      assert forall c :: c in low[1..] ==> c in low;
      RangeDotsOf(low[1..], high);
    }
  }

  lemma StarIsARange()
    ensures RangeDots("0..*") == Some(1) && LowerBound("0..*") == "0" && UpperBound("0..*") == "*"
  {
    RangeDotsOf("0", "*");
    assert "0" + ".." + "*" == "0..*";
  }

  lemma BoundTextsComeBack(s: string)
    requires IsMultiplicity(s)
    ensures LowerBound(MultiplicityBack(s)) == LowerBound(s) && UpperBound(MultiplicityBack(s)) == UpperBound(s)
  {
    if s == "*" {
      StarIsARange();
    } else if IsSingleRange(s) {
      var digits := s[..RangeDots(s).value];
      DigitsHaveNoDots(digits);
      assert digits[0] in digits && digits != "*";
    }
  }

  /** Many is what has no upper bound, or one above 1. */
  lemma ManyIsMoreThanOne(s: string)
    requires IsMultiplicity(s)
    ensures IsManyMultiplicity(s) <==> BoundsIn(s).upper.None? || BoundsIn(s).upper.value > 1
  {
    if RangeDots(s).Some? {
      var upper := s[RangeDots(s).value + 2..];
      assert upper[|upper| - 1] in upper && upper[|upper| - 1] == s[|s| - 1];
      assert !IsDigits(s) by { if IsDigits(s) { DigitsHaveNoDots(s); } }
      if upper == "*" {
        assert s[|s| - 3..] == "..*";
      } else if |s| >= 3 && s[|s| - 3..] == "..*" {
        assert s[|s| - 3..][2] == s[|s| - 1];
      }
    }
  }

  /** The importer keeps the numbers of every multiplicity. */
  lemma BoundsComeBack(s: string)
    requires IsMultiplicity(s)
    ensures BoundsOf()(MultiplicityBack(s)) == BoundsOf()(s)
  {
    BoundTextsComeBack(s);
    BoundsAreTextual(MultiplicityBack(s), s);
  }

  lemma BoundsAreTextual(s: string, t: string)
    requires LowerBound(s) == LowerBound(t) && UpperBound(s) == UpperBound(t)
    ensures BoundsOf()(s) == BoundsOf()(t)
  {
  }

  /** It keeps the text as well, except for a range of one number. */
  lemma TextComesBack(s: string)
    requires IsMultiplicity(s)
    ensures SemanticMultiplicity()(MultiplicityBack(s)) == SemanticMultiplicity()(s) <==> !IsSingleRange(s)
    ensures !IsSingleRange(SemanticMultiplicity()(MultiplicityBack(s)))
  {
    if s == "*" {
      StarIsARange();
    } else if IsSingleRange(s) {
      DigitsHaveNoDots(s[..RangeDots(s).value]);
    }
  }

  // The round trip.

  /** The seed of the import names the project and nothing else of the original. */
  lemma ModelMeansTheSame<M(!new)>(multiplicity: string -> M, env: Env, seed: Seed, m: Model)
    requires Importable(env, m.diagram) && ClassifierIdsStayDistinct(env, m.diagram)
               && seed.projectName == m.project.name
    requires forall r :: r in m.diagram.relationships ==> ExportableRelationship(m.diagram, r)
    requires MultiplicitiesSurvive(multiplicity, m.diagram)
    ensures Projected(multiplicity, ModelBack(env, seed, m.diagram)) == Projected(multiplicity, m)
  {
    var d, back := m.diagram, ModelBack(env, seed, m.diagram).diagram;
    ElementsMeanTheSame(env, d, back.elements);
    RelationshipsMeanTheSame(multiplicity, env, d, back.elements, back.relationships);
  }

  /** What the round trip asks of a model: well formed, schema valid and accepted by the exporter. */
  ghost predicate Exported(norm: string -> string, env: Env, m: Model, document: seq<Event>) {
    && DigestsAreHex(env) && IntegrityBesidesSignatures(norm, m) && HasSchemaIds(m)
         && HasSchemaMultiplicities(m.diagram)
    && Export(env, m) == Some(document)
  }

  lemma ExportedMeans(norm: string -> string, env: Env, m: Model, document: seq<Event>)
    requires Exported(norm, env, m, document)
    ensures Importable(env, m.diagram) && forall r :: r in m.diagram.relationships ==>
              ExportableRelationship(m.diagram, r)
  {
    assert AllWritable(document);
    ExportedIsImportable(norm, env, m);
  }

  ghost predicate Survives<M>(multiplicity: string -> M, s: string) {
    multiplicity(MultiplicityBack(s)) == multiplicity(s)
  }

  lemma MultiplicitiesSurviveBy<M>(multiplicity: string -> M, d: Diagram)
    requires HasSchemaMultiplicities(d) && forall s :: IsMultiplicity(s) ==> Survives(multiplicity, s)
    ensures MultiplicitiesSurvive(multiplicity, d)
  {
    forall r | r in d.relationships
      ensures multiplicity(MultiplicityBack(r.source.multiplicity)) == multiplicity(r.source.multiplicity)
      ensures multiplicity(MultiplicityBack(r.target.multiplicity)) == multiplicity(r.target.multiplicity)
    {
      assert Survives(multiplicity, r.source.multiplicity) && Survives(multiplicity, r.target.multiplicity);
    }
  }

  lemma BoundsSurvive(s: string)
    requires IsMultiplicity(s)
    ensures Survives(BoundsOf(), s)
  {
    BoundsComeBack(s);
  }

  lemma AllBoundsSurvive(d: Diagram)
    requires HasSchemaMultiplicities(d)
    ensures MultiplicitiesSurvive(BoundsOf(), d)
  {
    forall s | IsMultiplicity(s) ensures Survives(BoundsOf(), s) { BoundsSurvive(s); }
    MultiplicitiesSurviveBy(BoundsOf(), d);
  }

  lemma BoundsAreProjectedAlike(env: Env, seed: Seed, m: Model)
    requires Importable(env, m.diagram) && ClassifierIdsStayDistinct(env, m.diagram)
               && seed.projectName == m.project.name
    requires HasSchemaMultiplicities(m.diagram)
    requires forall r :: r in m.diagram.relationships ==> ExportableRelationship(m.diagram, r)
    ensures Projected(BoundsOf(), ModelBack(env, seed, m.diagram)) == Projected(BoundsOf(), m)
  {
    AllBoundsSurvive(m.diagram);
    ModelMeansTheSame(BoundsOf(), env, seed, m);
  }

  /**
   Importing an exported document succeeds exactly within the limits and without colliding digests. The imported
   model then means the same as the exported one, multiplicities being compared as bounds, and nothing is diagnosed.
   */
  lemma RoundTrip(norm: string -> string, env: Env, seed: Seed, m: Model, document: seq<Event>)
    requires Exported(norm, env, m, document) && seed.projectName == m.project.name
    ensures Import(env, seed, document).Some? <==> WithinLimits(document) && CollisionFree(env, m.diagram)
    ensures Import(env, seed, document).Some? && ClassifierIdsStayDistinct(env, m.diagram) ==>
              var imported := Import(env, seed, document).value;
              imported.diagnostics == [] && Projected(BoundsOf(), imported.model) == Projected(BoundsOf(), m)
  {
    var imported := Import(env, seed, document);
    ImportOfExport(norm, env, seed, m, document);
    if imported.Some? && ClassifierIdsStayDistinct(env, m.diagram) {
      ExportedMeans(norm, env, m, document);
      assert imported.value == Imported(ModelBack(env, seed, m.diagram), []);
      BoundsAreProjectedAlike(env, seed, m);
    }
  }

  predicate HasNoSingleRange(r: Relationship) {
    !IsSingleRange(r.source.multiplicity) && !IsSingleRange(r.target.multiplicity)
  }

  lemma TextsSurvive(d: Diagram)
    requires HasSchemaMultiplicities(d) && forall r :: r in d.relationships ==> HasNoSingleRange(r)
    ensures MultiplicitiesSurvive(SemanticMultiplicity(), d)
  {
    forall r | r in d.relationships
      ensures SemanticMultiplicity()(MultiplicityBack(r.source.multiplicity))
                == SemanticMultiplicity()(r.source.multiplicity)
      ensures SemanticMultiplicity()(MultiplicityBack(r.target.multiplicity))
                == SemanticMultiplicity()(r.target.multiplicity)
    {
      TextComesBack(r.source.multiplicity);
      TextComesBack(r.target.multiplicity);
    }
  }

  predicate ShowsNoSingleRange(r: SemanticRelationship<string>) {
    !IsSingleRange(r.source.multiplicity) && !IsSingleRange(r.target.multiplicity)
  }

  lemma RelationshipOrigin(env: Env, seed: Seed, d: Diagram, r: Relationship) returns (origin: Relationship)
    requires Sound(d) && r in ModelBack(env, seed, d).diagram.relationships
    ensures origin in d.relationships && r == RelationshipBack(env, d)(origin)
  {
    var written := WrittenAssociations(env, d) + WrittenDirected(env, d);
    RelationshipsBackAre(env, d);
    SameMembers(ModelBack(env, seed, d).diagram.relationships, RelationshipsBack(env, d));
    SameMembers(written, d.relationships);
    origin := MapSource(RelationshipBack(env, d), written, r);
  }

  lemma OneIsNoSingleRange()
    ensures !IsSingleRange(SemanticMultiplicity()("1"))
  {
    DigitsHaveNoDots("1");
    assert "1"[0] != "*"[0];
  }

  lemma BackHasNoSingleRange(env: Env, d: Diagram, r: Relationship)
    requires IsMultiplicity(r.source.multiplicity) && IsMultiplicity(r.target.multiplicity)
    ensures !IsSingleRange(SemanticMultiplicity()(RelationshipBack(env, d)(r).source.multiplicity))
    ensures !IsSingleRange(SemanticMultiplicity()(RelationshipBack(env, d)(r).target.multiplicity))
  {
    if IsAssociationLike(r) {
      TextComesBack(r.source.multiplicity);
      TextComesBack(r.target.multiplicity);
      assert RelationshipBack(env, d)(r) == AssociationBack(env, d)(r);
    } else {
      OneIsNoSingleRange();
      assert RelationshipBack(env, d)(r) == DirectedBack(env, d)(r);
    }
  }

  lemma ImportedShowsNoSingleRange(env: Env, seed: Seed, d: Diagram, s: SemanticRelationship<string>)
    requires Sound(d) && HasSchemaMultiplicities(d)
    requires s in Projected(SemanticMultiplicity(), ModelBack(env, seed, d)).relationships
    ensures ShowsNoSingleRange(s)
  {
    var back := ModelBack(env, seed, d).diagram;
    var r := MapSource(SemanticRelationshipOf(SemanticMultiplicity(), back.elements), back.relationships, s);
    var origin := RelationshipOrigin(env, seed, d, r);
    BackHasNoSingleRange(env, d, origin);
  }

  lemma SingleRangeIsShown(d: Diagram, r: Relationship, m: Model)
    requires d == m.diagram && r in d.relationships && !HasNoSingleRange(r)
    ensures exists s :: s in Projected(SemanticMultiplicity(), m).relationships && !ShowsNoSingleRange(s)
  {
    var f := SemanticRelationshipOf(SemanticMultiplicity(), d.elements);
    MapTarget(f, d.relationships, r);
    StarIsNoSingleRange();
    assert f(r) in Projected(SemanticMultiplicity(), m).relationships && !ShowsNoSingleRange(f(r));
  }

  lemma StarIsNoSingleRange()
    ensures !IsSingleRange("*")
  {
    assert |"*"| == 1;
  }

  lemma TextsDiffer(env: Env, seed: Seed, m: Model, r: Relationship)
    requires Sound(m.diagram) && HasSchemaMultiplicities(m.diagram) && r in m.diagram.relationships
               && !HasNoSingleRange(r)
    ensures Projected(SemanticMultiplicity(), ModelBack(env, seed, m.diagram)) != Projected(SemanticMultiplicity(), m)
  {
    var back := ModelBack(env, seed, m.diagram);
    SingleRangeIsShown(m.diagram, r, m);
    var s :| s in Projected(SemanticMultiplicity(), m).relationships && !ShowsNoSingleRange(s);
    if s in Projected(SemanticMultiplicity(), back).relationships {
      ImportedShowsNoSingleRange(env, seed, m.diagram, s);
    }
  }

  lemma TextsAreProjectedAlike(env: Env, seed: Seed, m: Model)
    requires Importable(env, m.diagram) && ClassifierIdsStayDistinct(env, m.diagram)
               && seed.projectName == m.project.name
    requires forall r :: r in m.diagram.relationships ==> ExportableRelationship(m.diagram, r)
    requires HasSchemaMultiplicities(m.diagram)
    ensures Projected(SemanticMultiplicity(), ModelBack(env, seed, m.diagram)) == Projected(SemanticMultiplicity(), m)
            <==> forall r :: r in m.diagram.relationships ==> HasNoSingleRange(r)
  {
    if r :| r in m.diagram.relationships && !HasNoSingleRange(r) {
      TextsDiffer(env, seed, m, r);
    } else {
      TextsSurvive(m.diagram);
      ModelMeansTheSame(SemanticMultiplicity(), env, seed, m);
    }
  }

  /** Compared as texts, the two models agree exactly when no end is written as a range of one number. */
  lemma RoundTripOfTexts(norm: string -> string, env: Env, seed: Seed, m: Model, document: seq<Event>)
    requires Exported(norm, env, m, document) && seed.projectName == m.project.name
    requires Import(env, seed, document).Some? && ClassifierIdsStayDistinct(env, m.diagram)
    ensures Projected(SemanticMultiplicity(), Import(env, seed, document).value.model)
              == Projected(SemanticMultiplicity(), m)
            <==> forall r :: r in m.diagram.relationships ==> HasNoSingleRange(r)
  {
    ImportOfExport(norm, env, seed, m, document);
    assert Import(env, seed, document).value.model == ModelBack(env, seed, m.diagram);
    ExportedMeans(norm, env, m, document);
    TextsAreProjectedAlike(env, seed, m);
  }

  /** For example, 1..1 comes back as 1. */
  lemma OneToOneComesBackAsOne()
    ensures IsMultiplicity("1..1") && RangeOrdered("1..1")
    ensures MultiplicityText(Some(LowerBound("1..1")), Some(UpperBound("1..1"))) == Some("1")
  {
    RangeDotsOf("1", "1");
    assert "1" + ".." + "1" == "1..1";
    MultiplicityComesBack("1..1");
  }
}
