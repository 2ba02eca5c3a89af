/** What the parser reads back from a whole exported document. */
module XmiReadBack {

  import opened Wrappers
  import opened Sequences
  import opened Sorting
  import opened Permutations
  import opened Uml
  import opened XmiText
  import opened XmiDocument
  import opened XmiExport
  import opened XmiParser
  import opened XmiGains
  import opened XmiReading
  import opened XmiContents

  // The model's parts in the order in which they are written.

  function AssociationLike(): Relationship -> bool { (r: Relationship) => IsAssociationLike(r) }

  /** The association class written with an association. */
  function ClassesWith(d: Diagram, r: Relationship): seq<Classifier> {
    if IsAssociationLike(r) && ClassOf(d, r).Some? then [ClassOf(d, r).value] else []
  }

  function ClassWith(d: Diagram): Relationship -> seq<Classifier> { (r: Relationship) => ClassesWith(d, r) }

  function InlinesIn(d: Diagram): Classifier -> seq<Relationship> {
    (e: Classifier) => Filter(InlineFrom(e.id), d.relationships)
  }

  /** The directed relationships written with a relationship. */
  function DirectedOnesWith(d: Diagram, r: Relationship): seq<Relationship> {
    if IsAssociationLike(r) then FlatMap(InlinesIn(d), ClassWith(d)(r))
    else if r.kind == Dependency then [r]
    else []
  }

  function DirectedWith(d: Diagram): Relationship -> seq<Relationship> { (r: Relationship) => DirectedOnesWith(d, r) }

  function WrittenElements(env: Env, d: Diagram): seq<Classifier> {
    PlainClassifiers(env, d) + FlatMap(ClassWith(d), SortedRelationships(env, d))
  }

  function WrittenAssociations(env: Env, d: Diagram): seq<Relationship> {
    Filter(AssociationLike(), SortedRelationships(env, d))
  }

  function WrittenDirected(env: Env, d: Diagram): seq<Relationship> {
    FlatMap(InlinesIn(d), PlainClassifiers(env, d)) + FlatMap(DirectedWith(d), SortedRelationships(env, d))
  }

  function RawDirectedFrom(env: Env, d: Diagram, r: Relationship): RawDirected {
    if IsInline(r) then RawInlineOf(env, d, ElementXmiId(env, d, r.source.elementId))(r) else RawDependencyOf(env, d, r)
  }

  function RawDirectedOf(env: Env, d: Diagram): Relationship -> RawDirected {
    (r: Relationship) => RawDirectedFrom(env, d, r)
  }

  function ClassifierXmiIdsFrom(env: Env, d: Diagram, e: Classifier): seq<string> {
    [XmiIdOf(env, d, e.id)] + MemberXmiIds(env, d, e)
  }

  function ClassifierXmiIds(env: Env, d: Diagram): Classifier -> seq<string> {
    (e: Classifier) => ClassifierXmiIdsFrom(env, d, e)
  }

  function RelationshipXmiIdsFrom(env: Env, d: Diagram, r: Relationship): seq<string> {
    if IsAssociationLike(r) then
      [CanonicalId(env, RelationshipId, r.id)]
      + ((if ClassOf(d, r).None? then [] else MemberXmiIds(env, d, ClassOf(d, r).value)) + EndXmiIds(env, r))
    else if r.kind == Dependency then [CanonicalId(env, RelationshipId, r.id)]
    else []
  }

  function RelationshipXmiIds(env: Env, d: Diagram): Relationship -> seq<string> {
    (r: Relationship) => RelationshipXmiIdsFrom(env, d, r)
  }

  function DataTypeXmiId(env: Env): string -> seq<string> { (name: string) => [CanonicalId(env, DataTypeId, name)] }

  function BodyXmiIds(env: Env, d: Diagram): seq<string> {
    FlatMap(DataTypeXmiId(env), SortedDataTypes(env, d)) + FlatMap(ClassifierXmiIds(env, d), PlainClassifiers(env, d))
    + FlatMap(RelationshipXmiIds(env, d), SortedRelationships(env, d))
  }

  function WrittenIds(env: Env, d: Diagram): seq<string> { [CanonicalId(env, ModelId, d.id)] + BodyXmiIds(env, d) }

  /** The raw model the parser builds. */
  function RawOf(env: Env, d: Diagram): Raw {
    Raw(Some("2.5"), true, Some(d.name),
        Map(RawClassifierOf(env, d), WrittenElements(env, d)),
            Map(RawAssociationOf(env, d), WrittenAssociations(env, d)),
        Map(RawDirectedOf(env, d), WrittenDirected(env, d)), Map(RawDataTypeOf(env), SortedDataTypes(env, d)), 0)
  }

  // Each stretch of the document.

  /** A gain of finished elements only. */
  function RawGain(classifiers: seq<RawClassifier>, associations: seq<RawAssociation>, directed: seq<RawDirected>,
                   dataTypes: seq<RawDataType>, ids: seq<string>): Gain
  {
    Gain(classifiers, associations, directed, dataTypes, [], [], [], [], None, ids)
  }

  lemma RawGainPlus(g: Gain, h: Gain)
    requires g == RawGain(g.classifiers, g.associations, g.directed, g.dataTypes, g.ids)
    requires h == RawGain(h.classifiers, h.associations, h.directed, h.dataTypes, h.ids)
    ensures Plus(g, h) == RawGain(g.classifiers + h.classifiers, g.associations + h.associations,
                g.directed + h.directed,
                                  g.dataTypes + h.dataTypes, g.ids + h.ids)
  {
  }

  predicate Readable(d: Diagram) {
    && (forall e :: e in d.elements ==> ReadableClassifier(d, e))
    && (forall r :: r in d.relationships && IsAssociationLike(r) ==> ReadableAssociation(d, r))
  }

  lemma InlinesAreDirected(env: Env, d: Diagram, e: Classifier)
    requires e in d.elements
    ensures RawInlinesOf(env, d, e, Some(XmiIdOf(env, d, e.id))) == Map(RawDirectedOf(env, d), InlinesIn(d)(e))
  {
    assert e.id in ElementIds(d);
    var rs := Filter(InlineFrom(e.id), d.relationships);
    forall i | 0 <= i < |rs| ensures RawDirectedOf(env, d)(rs[i])
        == RawInlineOf(env, d, Some(XmiIdOf(env, d, e.id)))(rs[i]) {
      assert rs[i] in rs && InlineFrom(e.id)(rs[i]);
      assert rs[i].source.elementId == e.id && IsInline(rs[i]);
      assert ElementXmiId(env, d, e.id) == Some(XmiIdOf(env, d, e.id));
    }
  }

  function ClassifiersGain(env: Env, d: Diagram, s: seq<Classifier>): Gain {
    RawGain(Map(RawClassifierOf(env, d), s), [], Map(RawDirectedOf(env, d), FlatMap(InlinesIn(d), s)), [],
            FlatMap(ClassifierXmiIds(env, d), s))
  }

  lemma ClassifiersGainMore(env: Env, d: Diagram, e: Classifier, rest: seq<Classifier>)
    requires e in d.elements
    ensures ClassifiersGain(env, d, [e] + rest) == Plus(ClassifierGain(env, d)(e), ClassifiersGain(env, d, rest))
  {
    var s := [e] + rest;
    assert s[0] == e && s[1..] == rest;
    InlinesAreDirected(env, d, e);
    RawGainPlus(ClassifierGain(env, d)(e), ClassifiersGain(env, d, rest));
    MapAppend(RawDirectedOf(env, d), InlinesIn(d)(e), FlatMap(InlinesIn(d), rest));
    MapAppend(RawClassifierOf(env, d), [e], rest);
    assert Map(RawClassifierOf(env, d), [e]) == [RawClassifierOf(env, d)(e)];
  }

  lemma {:induction false} SumOfClassifiers(env: Env, d: Diagram, s: seq<Classifier>)
    requires forall e :: e in s ==> e in d.elements
    ensures Sum(ClassifierGain(env, d), s) == ClassifiersGain(env, d, s)
  {
    if s != [] {
      assert s == [s[0]] + s[1..];
      SumOfClassifiers(env, d, s[1..]);
      ClassifiersGainMore(env, d, s[0], s[1..]);
    }
  }

  function GainOfRelationship(env: Env, d: Diagram, r: Relationship): Gain {
    if IsAssociationLike(r) then AssociationGain(env, d, r)
    else if r.kind == Dependency then DependencyGain(env, d, r)
    else NOTHING
  }

  function RelationshipGain(env: Env, d: Diagram): Relationship -> Gain {
    (r: Relationship) => GainOfRelationship(env, d, r)
  }

  lemma RelationshipGives(env: Env, d: Diagram, r: Relationship)
    requires DigestsAreHex(env) && Readable(d) && r in d.relationships
    ensures Gives(TheModel, WriteRelationship(env, d)(r), RelationshipGain(env, d)(r))
    ensures RelationshipGain(env, d)(r).returned.None?
  {
    if IsAssociationLike(r) {
      if ClassOf(d, r).None? {
        PlainAssociationGives(env, d, r);
      } else {
        AssociationClassGives(env, d, r);
      }
    } else if r.kind == Dependency {
      DependencyGives(env, d, r);
    } else {
      GivesNothing(TheModel);
    }
  }

  function RelationshipsGain(env: Env, d: Diagram, s: seq<Relationship>): Gain {
    RawGain(Map(RawClassifierOf(env, d), FlatMap(ClassWith(d), s)),
        Map(RawAssociationOf(env, d), Filter(AssociationLike(), s)),
            Map(RawDirectedOf(env, d), FlatMap(DirectedWith(d), s)), [], FlatMap(RelationshipXmiIds(env, d), s))
  }

  lemma RelationshipGainParts(env: Env, d: Diagram, r: Relationship)
    requires Readable(d) && r in d.relationships
    ensures RelationshipGain(env, d)(r) ==
            RawGain(Map(RawClassifierOf(env, d), ClassWith(d)(r)),
                    Map(RawAssociationOf(env, d), if IsAssociationLike(r) then [r] else []),
                    Map(RawDirectedOf(env, d), DirectedWith(d)(r)), [], RelationshipXmiIds(env, d)(r))
  {
    if IsAssociationLike(r) {
      assert Map(RawAssociationOf(env, d), [r]) == [RawAssociationOf(env, d)(r)];
      if ClassOf(d, r).Some? {
        var e := ClassOf(d, r).value;
        FlatMapOne(InlinesIn(d), e);
        assert ReadableAssociation(d, r);
        assert XmiIdOf(env, d, e.id) == CanonicalId(env, RelationshipId, r.id);
        InlinesAreDirected(env, d, e);
        assert Map(RawClassifierOf(env, d), [e]) == [RawClassifierOf(env, d)(e)];
      }
    } else if r.kind == Dependency {
      assert !IsInline(r) && RawDirectedOf(env, d)(r) == RawDependencyOf(env, d, r);
      assert Map(RawDirectedOf(env, d), [r]) == [RawDependencyOf(env, d, r)];
    }
  }

  lemma RelationshipsGainMore(env: Env, d: Diagram, r: Relationship, rest: seq<Relationship>)
    requires Readable(d) && r in d.relationships
    ensures RelationshipsGain(env, d, [r] + rest) == Plus(RelationshipGain(env, d)(r), RelationshipsGain(env, d, rest))
  {
    var s := [r] + rest;
    assert s[0] == r && s[1..] == rest;
    RelationshipGainParts(env, d, r);
    RawGainPlus(RelationshipGain(env, d)(r), RelationshipsGain(env, d, rest));
    MapAppend(RawClassifierOf(env, d), ClassWith(d)(r), FlatMap(ClassWith(d), rest));
    MapAppend(RawDirectedOf(env, d), DirectedWith(d)(r), FlatMap(DirectedWith(d), rest));
    MapAppend(RawAssociationOf(env, d), if IsAssociationLike(r) then [r] else [], Filter(AssociationLike(), rest));
  }

  lemma {:induction false} SumOfRelationships(env: Env, d: Diagram, s: seq<Relationship>)
    requires Readable(d) && forall r :: r in s ==> r in d.relationships
    ensures Sum(RelationshipGain(env, d), s) == RelationshipsGain(env, d, s)
  {
    if s != [] {
      assert s == [s[0]] + s[1..];
      SumOfRelationships(env, d, s[1..]);
      RelationshipsGainMore(env, d, s[0], s[1..]);
    }
  }

  lemma {:induction false} SumOfDataTypes(env: Env, s: seq<string>)
    ensures Sum(DataTypeGain(env), s) ==
            RawGain([], [], [], Map(RawDataTypeOf(env), s), FlatMap(DataTypeXmiId(env), s))
  {
    if s != [] {
      SumOfDataTypes(env, s[1..]);
      MapCons(RawDataTypeOf(env), s);
    }
  }

  // The document.

  function DocumentGain(env: Env, d: Diagram): Gain {
    var raw := RawOf(env, d);
    RawGain(raw.classifiers, raw.associations, raw.directed, raw.dataTypes, BodyXmiIds(env, d))
  }

  lemma DataTypesGive(env: Env, s: seq<string>)
    ensures Gives(TheModel, FlatMap(WriteDataType(env), s), Sum(DataTypeGain(env), s))
    ensures Sum(DataTypeGain(env), s).returned.None?
  {
    var write, gain := WriteDataType(env), DataTypeGain(env);
    forall i | 0 <= i < |s| ensures Gives(TheModel, write(s[i]), gain(s[i])) && gain(s[i]).returned.None? {
      DataTypeGives(env, s[i]);
    }
    GivesAll(TheModel, write, gain, s);
  }

  lemma ClassifiersGive(env: Env, d: Diagram, s: seq<Classifier>)
    requires Readable(d) && forall e :: e in s ==> e in d.elements
    ensures Gives(TheModel, FlatMap(WriteClassifier(env, d), s), Sum(ClassifierGain(env, d), s))
    ensures Sum(ClassifierGain(env, d), s).returned.None?
  {
    var write, gain := WriteClassifier(env, d), ClassifierGain(env, d);
    forall i | 0 <= i < |s| ensures Gives(TheModel, write(s[i]), gain(s[i])) && gain(s[i]).returned.None? {
      ClassifierGives(env, d, s[i]);
    }
    GivesAll(TheModel, write, gain, s);
  }

  lemma RelationshipsGive(env: Env, d: Diagram, s: seq<Relationship>)
    requires DigestsAreHex(env) && Readable(d) && forall r :: r in s ==> r in d.relationships
    ensures Gives(TheModel, FlatMap(WriteRelationship(env, d), s), Sum(RelationshipGain(env, d), s))
    ensures Sum(RelationshipGain(env, d), s).returned.None?
  {
    var write, gain := WriteRelationship(env, d), RelationshipGain(env, d);
    forall i | 0 <= i < |s| ensures Gives(TheModel, write(s[i]), gain(s[i])) && gain(s[i]).returned.None? {
      RelationshipGives(env, d, s[i]);
    }
    GivesAll(TheModel, write, gain, s);
  }

  function DataTypesGain(env: Env, d: Diagram): Gain {
    RawGain([], [], [], Map(RawDataTypeOf(env), SortedDataTypes(env, d)),
        FlatMap(DataTypeXmiId(env), SortedDataTypes(env, d)))
  }

  lemma DocumentGainIsSum(env: Env, d: Diagram)
    ensures DocumentGain(env, d) ==
            Plus(Plus(DataTypesGain(env, d), ClassifiersGain(env, d, PlainClassifiers(env, d))),
                 RelationshipsGain(env, d, SortedRelationships(env, d)))
  {
    var es, rs := PlainClassifiers(env, d), SortedRelationships(env, d);
    var a, b, c := DataTypesGain(env, d), ClassifiersGain(env, d, es), RelationshipsGain(env, d, rs);
    RawGainPlus(a, b);
    RawGainPlus(Plus(a, b), c);
    PlusFromEmpty(a, b, c);
    MapAppend(RawClassifierOf(env, d), es, FlatMap(ClassWith(d), rs));
    MapAppend(RawDirectedOf(env, d), FlatMap(InlinesIn(d), es), FlatMap(DirectedWith(d), rs));
  }

  lemma PlusFromEmpty(a: Gain, b: Gain, c: Gain)
    requires a.classifiers == [] && a.associations == [] && a.directed == []
    requires b.associations == [] && b.dataTypes == [] && c.dataTypes == []
    ensures a.classifiers + b.classifiers + c.classifiers == b.classifiers + c.classifiers
    ensures a.associations + b.associations + c.associations == c.associations
    ensures a.directed + b.directed + c.directed == b.directed + c.directed
    ensures a.dataTypes + b.dataTypes + c.dataTypes == a.dataTypes
  {
  }

  lemma BodyGives(env: Env, d: Diagram)
    requires DigestsAreHex(env) && Readable(d)
    ensures Gives(TheModel, WriteBody(env, d), DocumentGain(env, d))
  {
    var names, es, rs := SortedDataTypes(env, d), PlainClassifiers(env, d), SortedRelationships(env, d);
    SameMembers(Sorted(ClassifierOrder(env), d.elements), d.elements);
    SameMembers(rs, d.relationships);
    DataTypesGive(env, names);
    SumOfDataTypes(env, names);
    ClassifiersGive(env, d, es);
    SumOfClassifiers(env, d, es);
    RelationshipsGive(env, d, rs);
    SumOfRelationships(env, d, rs);
    DocumentGainIsSum(env, d);
    ThreeGive(TheModel, FlatMap(WriteDataType(env), names), DataTypesGain(env, d), FlatMap(WriteClassifier(env, d), es),
              ClassifiersGain(env, d, es), FlatMap(WriteRelationship(env, d), rs), RelationshipsGain(env, d, rs));
  }

  function ModelTag(env: Env, d: Diagram): Tag {
    Tag(UmlModel, None, map[XmiId := CanonicalId(env, ModelId, d.id), Name := d.name])
  }

  lemma OpenModel(env: Env, d: Diagram, st: State)
    requires st.contexts == Frame(InRoot, Bottom) && !st.raw.sawModel
    ensures Opened(st, ModelTag(env, d)) ==
            Some(State(Frame(InModel, st.contexts), st.raw.(sawModel := true, modelName := Some(d.name)),
                       st.ids + [CanonicalId(env, ModelId, d.id)]))
  {
    IdsOfTag(env, ModelTag(env, d), ModelId, d.id);
  }

  /** The state in which the body of the model is read. */
  function InsideModel(env: Env, d: Diagram): State {
    State(Frame(InModel, Frame(InRoot, Bottom)),
        EMPTY_RAW.(version := Some("2.5"), sawModel := true, modelName := Some(d.name)),
          [CanonicalId(env, ModelId, d.id)])
  }

  lemma BodyIsRead(env: Env, d: Diagram)
    requires DigestsAreHex(env) && Readable(d)
    ensures Run(InsideModel(env, d), WriteBody(env, d)) ==
            Some(State(InsideModel(env, d).contexts, RawOf(env, d), WrittenIds(env, d)))
  {
    BodyGives(env, d);
    GivesFromEmpty(InsideModel(env, d), WriteBody(env, d), DocumentGain(env, d));
  }

  lemma GivesFromEmpty(st: State, events: seq<Event>, g: Gain)
    requires IsAt(TheModel, st) && Gives(TheModel, events, g)
    requires g == RawGain(g.classifiers, g.associations, g.directed, g.dataTypes, g.ids)
    requires st.raw.classifiers == [] && st.raw.associations == [] && st.raw.directed == [] && st.raw.dataTypes == []
    ensures Run(st, events) == Some(State(st.contexts,
              st.raw.(classifiers := g.classifiers, associations := g.associations, directed := g.directed,
                  dataTypes := g.dataTypes),
              st.ids + g.ids))
  {
    GainOutside(st, g);
    GainFromEmpty(st.raw, g);
  }

  lemma GainFromEmpty(raw: Raw, g: Gain)
    requires raw.classifiers == [] && raw.associations == [] && raw.directed == [] && raw.dataTypes == []
    ensures GainedRaw(raw, g) ==
            raw.(classifiers := g.classifiers, associations := g.associations, directed := g.directed,
                dataTypes := g.dataTypes)
  {
  }

  lemma RunTwoNests(outer: Tag, inner: Tag, body: seq<Event>, a: State, b: State, c: State, e: State, f: State,
      start: State)
    requires Opened(start, outer) == Some(a) && Opened(a, inner) == Some(b) && Run(b, body) == Some(c)
    requires Closed(c) == Some(e) && Closed(e) == Some(f)
    ensures Run(start, Nest(outer, Nest(inner, body))) == Some(f)
  {
    RunNest(start, outer, Nest(inner, body));
    RunNest(a, inner, body);
  }

  /** The parser reads an exported document to the end and builds exactly the raw model of the diagram. */
  lemma DocumentIsRead(env: Env, d: Diagram)
    requires DigestsAreHex(env) && Readable(d)
    ensures Run(START, WriteDocument(env, d)) == Some(State(Bottom, RawOf(env, d), WrittenIds(env, d)))
  {
    var rootTag := Tag(XmiRoot, None, map[XmiVersion := "2.5"]);
    var inRoot := State(Frame(InRoot, Bottom), EMPTY_RAW.(version := Some("2.5")), []);
    var raw, ids := RawOf(env, d), WrittenIds(env, d);
    OpenRoot(rootTag);
    OpenModel(env, d, inRoot);
    assert inRoot.ids + [CanonicalId(env, ModelId, d.id)] == [CanonicalId(env, ModelId, d.id)];
    assert Opened(inRoot, ModelTag(env, d)) == Some(InsideModel(env, d));
    BodyIsRead(env, d);
    LeaveModelAndRoot(raw, ids);
    RunTwoNests(rootTag, ModelTag(env, d), WriteBody(env, d), inRoot, InsideModel(env, d),
                State(InsideModel(env, d).contexts, raw, ids), State(Frame(InRoot, Bottom), raw, ids),
                    State(Bottom, raw, ids), START);
    assert WriteDocument(env, d) == Nest(rootTag, Nest(ModelTag(env, d), WriteBody(env, d)));
  }

  lemma OpenRoot(tag: Tag)
    requires tag == Tag(XmiRoot, None, map[XmiVersion := "2.5"])
    ensures Opened(START, tag) == Some(State(Frame(InRoot, Bottom), EMPTY_RAW.(version := Some("2.5")), []))
  {
  }

  lemma LeaveModelAndRoot(raw: Raw, ids: seq<string>)
    ensures Closed(State(Frame(InModel, Frame(InRoot, Bottom)), raw, ids))
              == Some(State(Frame(InRoot, Bottom), raw, ids))
    ensures Closed(State(Frame(InRoot, Bottom), raw, ids)) == Some(State(Bottom, raw, ids))
  {
  }
}
