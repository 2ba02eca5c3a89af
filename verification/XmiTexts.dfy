/** What a successful export says about the texts of the model. */
module XmiTexts {

  import opened Wrappers
  import opened Sequences
  import opened Sorting
  import opened Permutations
  import opened Uml
  import opened XmiText
  import opened XmiDocument
  import opened XmiExport
  import opened XmiContents
  import opened XmiReadBack
  import opened XmiCoverage

  ghost predicate AllWritable(events: seq<Event>) { forall e :: e in events ==> WritableEvent(e) }

  predicate NoLineSpace(value: Option<string>) { value.Some? ==> !HasLineSpace(value.value) }

  lemma WritableNest(tag: Tag, inner: seq<Event>)
    requires AllWritable(Nest(tag, inner))
    ensures AllWritable(inner) && forall key :: NoLineSpace(Get(tag, key))
  {
    assert Open(tag) in Nest(tag, inner);
    assert WritableEvent(Open(tag));
  }

  lemma WritableLeaf(tag: Tag)
    requires AllWritable(Leaf(tag))
    ensures forall key :: NoLineSpace(Get(tag, key))
  {
    assert Open(tag) in Leaf(tag);
    assert WritableEvent(Open(tag));
  }

  lemma WritableParts(a: seq<Event>, b: seq<Event>)
    requires AllWritable(a + b)
    ensures AllWritable(a) && AllWritable(b)
  {
    assert forall e :: e in a || e in b ==> e in a + b;
  }

  lemma WritableElement<T>(write: T -> seq<Event>, s: seq<T>, x: T)
    requires AllWritable(FlatMap(write, s)) && x in s
    ensures AllWritable(write(x))
  {
    forall e | e in write(x) ensures WritableEvent(e) { FlatMapMember(write, s, x, e); }
  }

  // Members.

  predicate PlainAttribute(a: Attribute) { !HasLineSpace(a.name) && NoLineSpace(a.defaultValue) }

  predicate PlainParameter(p: Parameter) { !HasLineSpace(p.name) && NoLineSpace(p.defaultValue) }

  predicate PlainOperation(o: Operation) {
    !HasLineSpace(o.name) && forall p :: p in o.parameters ==> PlainParameter(p)
  }

  predicate PlainMembers(e: Classifier) {
    (forall a :: a in e.attributes ==> PlainAttribute(a)) && forall o :: o in e.operations ==> PlainOperation(o)
  }

  lemma WritableSlot(env: Env, t: TypeReference, value: Option<string>)
    requires AllWritable(WriteSlot(env, t, value))
    ensures NoLineSpace(value)
  {
    WritableParts(WriteType(env, t) + WriteBounds(LowerOf(t), UpperOf(t)), WriteDefault(value));
    if value.Some? {
      var tag := Tag(DefaultValue, Some(LiteralString), map[Value := value.value]);
      WritableLeaf(tag);
      assert Get(tag, Value) == value;
    }
  }

  lemma WritableAttribute(env: Env, d: Diagram, a: Attribute)
    requires AllWritable(WriteAttribute(env, d)(a))
    ensures PlainAttribute(a)
  {
    WritableNest(AttributeTag(env, d, a), WriteSlot(env, a.typ, a.defaultValue));
    assert Get(AttributeTag(env, d, a), Name) == Some(a.name);
    WritableSlot(env, a.typ, a.defaultValue);
  }

  lemma WritableParameter(env: Env, d: Diagram, p: Parameter)
    requires AllWritable(WriteParameter(env, d)(p))
    ensures PlainParameter(p)
  {
    var tag := ParameterTag(env, d, "in", p.id, p.name, p.typ);
    WritableNest(tag, WriteSlot(env, p.typ, p.defaultValue));
    assert Get(tag, Name) == Some(p.name);
    WritableSlot(env, p.typ, p.defaultValue);
  }

  lemma WritableOperation(env: Env, d: Diagram, o: Operation)
    requires AllWritable(WriteOperation(env, d)(o))
    ensures PlainOperation(o)
  {
    var parameters := FlatMap(WriteParameter(env, d), o.parameters);
    WritableNest(OperationTag(env, o), parameters + WriteReturn(env, d, o));
    assert Get(OperationTag(env, o), Name) == Some(o.name);
    WritableParts(parameters, WriteReturn(env, d, o));
    forall p | p in o.parameters ensures PlainParameter(p) {
      WritableElement(WriteParameter(env, d), o.parameters, p);
      WritableParameter(env, d, p);
    }
  }

  lemma WritableMembers(env: Env, d: Diagram, e: Classifier)
    requires AllWritable(WriteMembers(env, d, e))
    ensures PlainMembers(e)
    ensures forall r :: r in InlinesIn(d)(e) ==> NoLineSpace(r.name)
  {
    var a, o := FlatMap(WriteAttribute(env, d), e.attributes), FlatMap(WriteOperation(env, d), e.operations);
    var inlines := InlinesIn(d)(e);
    WritableParts(a + o, FlatMap(WriteInline(env, d), inlines));
    WritableParts(a, o);
    forall x | x in e.attributes ensures PlainAttribute(x) {
      WritableElement(WriteAttribute(env, d), e.attributes, x);
      WritableAttribute(env, d, x);
    }
    forall x | x in e.operations ensures PlainOperation(x) {
      WritableElement(WriteOperation(env, d), e.operations, x);
      WritableOperation(env, d, x);
    }
    forall r | r in inlines ensures NoLineSpace(r.name) {
      WritableElement(WriteInline(env, d), inlines, r);
      assert WriteInline(env, d)(r) == Leaf(InlineTag(env, d, r));
      WritableLeaf(InlineTag(env, d, r));
      InlineTagReads(env, d, r);
    }
  }

  // Classifiers and relationships.

  predicate PlainClassifier(e: Classifier) { !HasLineSpace(e.name) && PlainMembers(e) }

  predicate PlainRelationship(r: Relationship) {
    NoLineSpace(r.name) && (IsAssociationLike(r) ==> !HasLineSpace(r.source.role) && !HasLineSpace(r.target.role))
  }

  lemma WritableClassifier(env: Env, d: Diagram, e: Classifier)
    requires AllWritable(WriteClassifier(env, d)(e))
    ensures PlainClassifier(e) && forall r :: r in InlinesIn(d)(e) ==> NoLineSpace(r.name)
  {
    var tag := ClassifierTag(env, d, e);
    WritableNest(tag, WriteMembers(env, d, e));
    assert Get(tag, Name) == Some(e.name);
    WritableMembers(env, d, e);
  }

  lemma WritableEnd(env: Env, d: Diagram, end: End, aggregation: string, id: string)
    requires AllWritable(WriteEnd(env, d, end, aggregation, id))
    ensures !HasLineSpace(end.role)
  {
    var tag := EndTag(env, d, end, aggregation, id);
    WritableNest(tag, WriteBounds(LowerBound(end.multiplicity), UpperBound(end.multiplicity)));
    assert Get(tag, Name) == Some(end.role);
  }

  lemma WritableAssociation(env: Env, d: Diagram, r: Relationship)
    requires AllWritable(WriteAssociation(env, d, r)) && IsAssociationLike(r)
    ensures PlainRelationship(r)
    ensures ClassOf(d, r).Some? ==>
              PlainClassifier(ClassOf(d, r).value) && forall s :: s in InlinesIn(d)(ClassOf(d, r).value) ==>
                  NoLineSpace(s.name)
  {
    var c, tag := ClassOf(d, r), AssociationTag(env, d, r);
    var members := if c.None? then [] else WriteMembers(env, d, c.value);
    var source, target := WriteEnd(env, d, r.source, AggregationText(r.kind), SourceEndId(r)),
        WriteEnd(env, d, r.target, "none", TargetEndId(r));
    WritableNest(tag, members + source + target);
    WritableParts(members + source, target);
    WritableParts(members, source);
    WritableEnd(env, d, r.source, AggregationText(r.kind), SourceEndId(r));
    WritableEnd(env, d, r.target, "none", TargetEndId(r));
    if c.Some? {
      AssociationClassAttributes(env, d, r);
      WritableMembers(env, d, c.value);
    } else {
      PlainAssociationAttributes(env, d, r);
    }
  }

  lemma WritableDependency(env: Env, d: Diagram, r: Relationship)
    requires AllWritable(WriteDependency(env, d, r))
    ensures NoLineSpace(r.name)
  {
    assert WriteDependency(env, d, r) == Leaf(DependencyTag(env, d, r));
    WritableLeaf(DependencyTag(env, d, r));
    DependencyTagReads(env, d, r);
  }

  lemma WritableDataType(env: Env, name: string)
    requires AllWritable(WriteDataType(env)(name))
    ensures !HasLineSpace(name)
  {
    var tag := Tag(PackagedElement, Some(DataType), map[XmiId := CanonicalId(env, DataTypeId, name), Name := name]);
    WritableLeaf(tag);
    assert Get(tag, Name) == Some(name);
  }

  // The whole model.

  ghost predicate PlainTexts(env: Env, d: Diagram) {
    && !HasLineSpace(d.name)
    && (forall e :: e in d.elements ==> PlainClassifier(e))
    && (forall r :: r in d.relationships ==> PlainRelationship(r))
    && (forall name :: name in DataTypeNames(env, d) ==> !HasLineSpace(name))
  }

  ghost predicate BodyIsWritable(env: Env, d: Diagram) {
    && AllWritable(FlatMap(WriteDataType(env), SortedDataTypes(env, d)))
    && AllWritable(FlatMap(WriteClassifier(env, d), PlainClassifiers(env, d)))
    && AllWritable(FlatMap(WriteRelationship(env, d), SortedRelationships(env, d)))
  }

  lemma DocumentIsWritable(env: Env, d: Diagram)
    requires AllWritable(WriteDocument(env, d))
    ensures !HasLineSpace(d.name) && BodyIsWritable(env, d)
  {
    var a, b, c := FlatMap(WriteDataType(env), SortedDataTypes(env, d)),
        FlatMap(WriteClassifier(env, d), PlainClassifiers(env, d)),
                   FlatMap(WriteRelationship(env, d), SortedRelationships(env, d));
    WritableNest(Tag(XmiRoot, None, map[XmiVersion := "2.5"]), Nest(ModelTag(env, d), WriteBody(env, d)));
    WritableNest(ModelTag(env, d), WriteBody(env, d));
    assert Get(ModelTag(env, d), Name) == Some(d.name);
    WritableParts(a + b, c);
    WritableParts(a, b);
  }

  /** The texts of a classifier and of the relationships written in it. */
  predicate PlainInside(d: Diagram, e: Classifier) {
    PlainClassifier(e) && forall s :: s in InlinesIn(d)(e) ==> NoLineSpace(s.name)
  }

  lemma AssociationIsWritable(env: Env, d: Diagram, r: Relationship)
    requires BodyIsWritable(env, d) && r in d.relationships && IsAssociationLike(r)
    ensures PlainRelationship(r)
    ensures ClassOf(d, r).Some? ==> PlainInside(d, ClassOf(d, r).value)
  {
    var rs := SortedRelationships(env, d);
    SameMembers(rs, d.relationships);
    WritableElement(WriteRelationship(env, d), rs, r);
    assert WriteRelationship(env, d)(r) == WriteAssociation(env, d, r);
    WritableAssociation(env, d, r);
  }

  lemma DependencyIsWritable(env: Env, d: Diagram, r: Relationship)
    requires BodyIsWritable(env, d) && r in d.relationships && r.kind == Dependency
    ensures PlainRelationship(r)
  {
    SameMembers(SortedRelationships(env, d), d.relationships);
    DependencyIsWritableAmong(env, d, SortedRelationships(env, d), r);
  }

  lemma DependencyIsWritableAmong(env: Env, d: Diagram, rs: seq<Relationship>, r: Relationship)
    requires AllWritable(FlatMap(WriteRelationship(env, d), rs)) && r in rs && r.kind == Dependency
    ensures PlainRelationship(r)
  {
    WritableElement(WriteRelationship(env, d), rs, r);
    assert WriteRelationship(env, d)(r) == WriteDependency(env, d, r);
    WritableDependency(env, d, r);
  }

  lemma ClassifierIsWritable(env: Env, d: Diagram, e: Classifier)
    requires Sound(d) && BodyIsWritable(env, d) && e in d.elements
    ensures PlainInside(d, e)
  {
    match OwnerOf(d.relationships, e.id) {
      case None =>
        SameMembers(Sorted(ClassifierOrder(env), d.elements), d.elements);
        assert IsPlainClassifier(d)(e);
        WritableElement(WriteClassifier(env, d), PlainClassifiers(env, d), e);
        WritableClassifier(env, d, e);
      case Some(r) =>
        ClassesAreOwned(d, e);
        assert ClassWith(d)(r) == [e];
        AssociationIsWritable(env, d, r);
    }
  }

  lemma SourceElement(d: Diagram, r: Relationship) returns (e: Classifier)
    requires r.source.elementId in ElementIds(d)
    ensures e in d.elements && e.id == r.source.elementId
  {
    e :| e in d.elements && e.id == r.source.elementId;
  }

  lemma InlineIsInside(d: Diagram, e: Classifier, r: Relationship)
    requires r in d.relationships && IsInline(r) && e.id == r.source.elementId
    ensures r in InlinesIn(d)(e)
  {
    assert InlineFrom(e.id)(r);
  }

  lemma InlineIsPlain(d: Diagram, e: Classifier, r: Relationship)
    requires PlainInside(d, e) && r in InlinesIn(d)(e) && IsInline(r)
    ensures PlainRelationship(r)
  {
  }

  lemma InlineIsWritable(env: Env, d: Diagram, r: Relationship)
    requires Sound(d) && BodyIsWritable(env, d) && r in d.relationships && IsInline(r)
    ensures PlainRelationship(r)
  {
    var e := SourceElement(d, r);
    InlineIsInside(d, e, r);
    ClassifierIsWritable(env, d, e);
    InlineIsPlain(d, e, r);
  }

  lemma RelationshipsAreWritable(env: Env, d: Diagram)
    requires Sound(d) && BodyIsWritable(env, d)
    ensures forall r :: r in d.relationships && IsAssociationLike(r) ==> PlainRelationship(r)
    ensures forall r :: r in d.relationships && IsInline(r) ==> PlainRelationship(r)
    ensures forall r :: r in d.relationships && r.kind == Dependency ==> PlainRelationship(r)
  {
    forall r | r in d.relationships && IsAssociationLike(r) ensures PlainRelationship(r) {
      AssociationIsWritable(env, d, r);
    }
    forall r | r in d.relationships && IsInline(r) ensures PlainRelationship(r) { InlineIsWritable(env, d, r); }
    forall r | r in d.relationships && r.kind == Dependency ensures PlainRelationship(r) {
      DependencyIsWritable(env, d, r);
    }
  }

  lemma DataTypeIsWritable(env: Env, d: Diagram, name: string)
    requires BodyIsWritable(env, d) && name in DataTypeNames(env, d)
    ensures !HasLineSpace(name)
  {
    SameMembers(SortedDataTypes(env, d), DataTypeNames(env, d));
    WritableElement(WriteDataType(env), SortedDataTypes(env, d), name);
    WritableDataType(env, name);
  }

  lemma BodyTextsArePlain(env: Env, d: Diagram)
    requires Sound(d) && BodyIsWritable(env, d) && !HasLineSpace(d.name)
    ensures PlainTexts(env, d)
  {
    forall e | e in d.elements ensures PlainClassifier(e) { ClassifierIsWritable(env, d, e); }
    RelationshipsAreWritable(env, d);
    forall name | name in DataTypeNames(env, d) ensures !HasLineSpace(name) { DataTypeIsWritable(env, d, name); }
  }

  /** An exported model has no tab and no line break in any text that is written. */
  lemma ExportedTextsArePlain(env: Env, d: Diagram)
    requires Sound(d) && AllWritable(WriteDocument(env, d))
    ensures PlainTexts(env, d)
  {
    DocumentIsWritable(env, d);
    BodyTextsArePlain(env, d);
  }
}
