/** What the parser reads back from the classifiers, relationships and data types the exporter writes. */
module XmiContents {

  import opened Wrappers
  import opened Sequences
  import opened Uml
  import opened Integrity
  import opened XmiText
  import opened XmiDocument
  import opened XmiExport
  import opened XmiParser
  import opened XmiGains
  import opened XmiReading

  // Relationships inside their source.

  function InlineTag(env: Env, d: Diagram, r: Relationship): Tag {
    var target := ElementXmiId(env, d, r.target.elementId);
    var attrs := With(map[XmiId := CanonicalId(env, RelationshipId, r.id)], Name, r.name);
    if r.kind == Generalization then Tag(GeneralizationOf, None, With(attrs, General, target))
    else Tag(InterfaceRealizationOf, None, With(attrs, Supplier, target))
  }

  lemma InlineTagReads(env: Env, d: Diagram, r: Relationship)
    ensures AttributesAllowed(InlineTag(env, d, r))
    ensures Get(InlineTag(env, d, r), XmiId) == Some(CanonicalId(env, RelationshipId, r.id))
    ensures Get(InlineTag(env, d, r), Name) == r.name
    ensures Get(InlineTag(env, d, r), Contract) == None
    ensures Get(InlineTag(env, d, r), if r.kind == Generalization then General else Supplier)
            == ElementXmiId(env, d, r.target.elementId)
  {
  }

  function GainOfInline(env: Env, d: Diagram, owner: Option<string>, r: Relationship): Gain {
    NOTHING.(directed := [RawInlineOf(env, d, owner)(r)], ids := RelationshipXmiId(env)(r))
  }

  function InlineGain(env: Env, d: Diagram, owner: Option<string>): Relationship -> Gain {
    (r: Relationship) => GainOfInline(env, d, owner, r)
  }

  lemma GainOneDirected(st: State, directed: RawDirected, ids: seq<string>)
    ensures Gained(st, NOTHING.(directed := [directed], ids := ids))
            == State(st.contexts, st.raw.(directed := st.raw.directed + [directed]), st.ids + ids)
  {
    var g := NOTHING.(directed := [directed], ids := ids);
    GainOutside(st, g);
    assert st.raw.classifiers + [] == st.raw.classifiers;
    assert st.raw.associations + [] == st.raw.associations;
    assert st.raw.dataTypes + [] == st.raw.dataTypes;
  }

  lemma InlineEntered(st: State, tag: Tag, owner: Option<string>)
    requires st.contexts.Frame? && HoldsClassifier(st.contexts.top, owner)
    requires tag.element == GeneralizationOf || tag.element == InterfaceRealizationOf
    requires Get(tag, Contract).None?
    ensures var kind := if tag.element == GeneralizationOf then RawGeneralization else RawRealization;
      var target := Get(tag, if tag.element == GeneralizationOf then General else Supplier);
      Entered(st, tag) == Some(Push(st.(raw := st.raw.(directed := st.raw.directed
                            + [RawDirected(Get(tag, XmiId), Get(tag, Name), kind, owner, target)])), InLeaf))
  {
  }

  lemma InlineOpens(env: Env, d: Diagram, r: Relationship, owner: Option<string>)
    ensures OpensLeaf(AClassifier(owner), InlineTag(env, d, r), InlineGain(env, d, owner)(r))
  {
    var tag := InlineTag(env, d, r);
    var raw := RawInlineOf(env, d, owner)(r);
    InlineTagReads(env, d, r);
    IdsOfTag(env, tag, RelationshipId, r.id);
    assert InlineGain(env, d, owner)(r) == NOTHING.(directed := [raw], ids := Ids(tag));
    forall st | IsAt(AClassifier(owner), st)
      ensures Opened(st, tag) == Some(Push(Gained(st, InlineGain(env, d, owner)(r)), InLeaf))
    {
      GainOneDirected(st, raw, Ids(tag));
      OpenedIsEntered(st, tag);
      InlineEntered(st.(ids := st.ids + Ids(tag)), tag, owner);
    }
  }

  lemma InlineGives(env: Env, d: Diagram, r: Relationship, owner: Option<string>)
    ensures Gives(AClassifier(owner), WriteInline(env, d)(r), InlineGain(env, d, owner)(r))
  {
    InlineOpens(env, d, r, owner);
    LeafGives(AClassifier(owner), InlineTag(env, d, r), InlineGain(env, d, owner)(r));
    assert WriteInline(env, d)(r) == Leaf(InlineTag(env, d, r));
  }

  // All members of a classifier.

  lemma PlusOfAttributes(a: seq<RawAttribute>, i: seq<string>, b: seq<RawAttribute>, j: seq<string>)
    ensures Plus(NOTHING.(attributes := a, ids := i), NOTHING.(attributes := b, ids := j))
            == NOTHING.(attributes := a + b, ids := i + j)
  {
  }

  lemma PlusOfOperations(a: seq<RawOperation>, i: seq<string>, b: seq<RawOperation>, j: seq<string>)
    ensures Plus(NOTHING.(operations := a, ids := i), NOTHING.(operations := b, ids := j))
            == NOTHING.(operations := a + b, ids := i + j)
  {
  }

  lemma PlusOfDirected(a: seq<RawDirected>, i: seq<string>, b: seq<RawDirected>, j: seq<string>)
    ensures Plus(NOTHING.(directed := a, ids := i), NOTHING.(directed := b, ids := j))
            == NOTHING.(directed := a + b, ids := i + j)
  {
  }

  lemma {:induction false} SumOfAttributes(env: Env, d: Diagram, s: seq<Attribute>)
    ensures Sum(AttributeGain(env, d), s) ==
            NOTHING.(attributes := Map(RawAttributeOf(env, d), s), ids := FlatMap(AttributeXmiId(env), s))
  {
    if s != [] {
      SumOfAttributes(env, d, s[1..]);
      PlusOfAttributes([RawAttributeOf(env, d)(s[0])], AttributeXmiId(env)(s[0]),
                       Map(RawAttributeOf(env, d), s[1..]), FlatMap(AttributeXmiId(env), s[1..]));
      MapCons(RawAttributeOf(env, d), s);
    }
  }

  lemma {:induction false} SumOfOperations(env: Env, d: Diagram, s: seq<Operation>)
    ensures Sum(OperationGain(env, d), s) ==
            NOTHING.(operations := Map(RawOperationOf(env, d), s), ids := FlatMap(OperationXmiIds(env), s))
  {
    if s != [] {
      SumOfOperations(env, d, s[1..]);
      PlusOfOperations([RawOperationOf(env, d)(s[0])], OperationXmiIds(env)(s[0]),
                       Map(RawOperationOf(env, d), s[1..]), FlatMap(OperationXmiIds(env), s[1..]));
      MapCons(RawOperationOf(env, d), s);
    }
  }

  lemma {:induction false} SumOfInlines(env: Env, d: Diagram, owner: Option<string>, s: seq<Relationship>)
    ensures Sum(InlineGain(env, d, owner), s) ==
            NOTHING.(directed := Map(RawInlineOf(env, d, owner), s), ids := FlatMap(RelationshipXmiId(env), s))
  {
    if s != [] {
      var raw := RawInlineOf(env, d, owner);
      SumOfInlines(env, d, owner, s[1..]);
      PlusOfDirected([raw(s[0])], RelationshipXmiId(env)(s[0]), Map(raw, s[1..]),
          FlatMap(RelationshipXmiId(env), s[1..]));
      MapCons(raw, s);
    }
  }

  lemma AttributesGive(env: Env, d: Diagram, owner: Option<string>, s: seq<Attribute>)
    requires forall a :: a in s ==> ReadableAttribute(d, a)
    ensures Gives(AClassifier(owner), FlatMap(WriteAttribute(env, d), s),
              NOTHING.(attributes := Map(RawAttributeOf(env, d), s), ids := FlatMap(AttributeXmiId(env), s)))
  {
    var write, gain := WriteAttribute(env, d), AttributeGain(env, d);
    forall i | 0 <= i < |s| ensures Gives(AClassifier(owner), write(s[i]), gain(s[i])) {
      AttributeGives(env, d, s[i], owner);
    }
    GivesAll(AClassifier(owner), write, gain, s);
    SumOfAttributes(env, d, s);
  }

  lemma OperationsGive(env: Env, d: Diagram, owner: Option<string>, s: seq<Operation>)
    requires forall o :: o in s ==> ReadableOperation(d, o)
    ensures Gives(AClassifier(owner), FlatMap(WriteOperation(env, d), s),
              NOTHING.(operations := Map(RawOperationOf(env, d), s), ids := FlatMap(OperationXmiIds(env), s)))
  {
    var write, gain := WriteOperation(env, d), OperationGain(env, d);
    forall i | 0 <= i < |s| ensures Gives(AClassifier(owner), write(s[i]), gain(s[i])) {
      OperationGives(env, d, s[i], owner);
    }
    GivesAll(AClassifier(owner), write, gain, s);
    SumOfOperations(env, d, s);
  }

  lemma InlinesGive(env: Env, d: Diagram, owner: Option<string>, s: seq<Relationship>)
    ensures Gives(AClassifier(owner), FlatMap(WriteInline(env, d), s),
              NOTHING.(directed := Map(RawInlineOf(env, d, owner), s), ids := FlatMap(RelationshipXmiId(env), s)))
  {
    var write, gain := WriteInline(env, d), InlineGain(env, d, owner);
    forall i | 0 <= i < |s| ensures Gives(AClassifier(owner), write(s[i]), gain(s[i])) {
      InlineGives(env, d, s[i], owner);
    }
    GivesAll(AClassifier(owner), write, gain, s);
    SumOfInlines(env, d, owner, s);
  }

  function RawInlinesOf(env: Env, d: Diagram, e: Classifier, owner: Option<string>): seq<RawDirected> {
    Map(RawInlineOf(env, d, owner), Filter(InlineFrom(e.id), d.relationships))
  }

  function MembersGain(env: Env, d: Diagram, e: Classifier, owner: Option<string>): Gain {
    NOTHING.(attributes := Map(RawAttributeOf(env, d), e.attributes),
        operations := Map(RawOperationOf(env, d), e.operations),
             directed := RawInlinesOf(env, d, e, owner), ids := MemberXmiIds(env, d, e))
  }

  lemma PlusOfMembers(a: seq<RawAttribute>, o: seq<RawOperation>, i: seq<RawDirected>, x: seq<string>, y: seq<string>,
      z: seq<string>)
    ensures Plus(Plus(NOTHING.(attributes := a, ids := x), NOTHING.(operations := o, ids := y)),
                NOTHING.(directed := i, ids := z))
            == NOTHING.(attributes := a, operations := o, directed := i, ids := x + y + z)
  {
  }

  lemma MembersGive(env: Env, d: Diagram, e: Classifier, owner: Option<string>)
    requires ReadableClassifier(d, e)
    ensures Gives(AClassifier(owner), WriteMembers(env, d, e), MembersGain(env, d, e, owner))
  {
    var rs := Filter(InlineFrom(e.id), d.relationships);
    AttributesGive(env, d, owner, e.attributes);
    OperationsGive(env, d, owner, e.operations);
    InlinesGive(env, d, owner, rs);
    PlusOfMembers(Map(RawAttributeOf(env, d), e.attributes), Map(RawOperationOf(env, d), e.operations),
                  Map(RawInlineOf(env, d, owner), rs), FlatMap(AttributeXmiId(env), e.attributes),
                  FlatMap(OperationXmiIds(env), e.operations), FlatMap(RelationshipXmiId(env), rs));
    ThreeGive(AClassifier(owner),
              FlatMap(WriteAttribute(env, d), e.attributes),
              NOTHING.(attributes := Map(RawAttributeOf(env, d), e.attributes),
                  ids := FlatMap(AttributeXmiId(env), e.attributes)),
              FlatMap(WriteOperation(env, d), e.operations),
              NOTHING.(operations := Map(RawOperationOf(env, d), e.operations),
                  ids := FlatMap(OperationXmiIds(env), e.operations)),
              FlatMap(WriteInline(env, d), rs),
              NOTHING.(directed := Map(RawInlineOf(env, d, owner), rs), ids := FlatMap(RelationshipXmiId(env), rs)));
  }

  // Classifiers.

  lemma ClassifierTagReads(env: Env, d: Diagram, e: Classifier)
    ensures AttributesAllowed(ClassifierTag(env, d, e)) && !IsIgnored(ClassifierTag(env, d, e))
    ensures Get(ClassifierTag(env, d, e), XmiId) == Some(XmiIdOf(env, d, e.id))
    ensures NewClassifier(ClassifierTag(env, d, e))
              == Some(RawClassifierOf(env, d)(e).(attributes := [], operations := []))
  {
    if e.kind.Class? { BoolRoundTrip(e.kind.isAbstract); }
  }

  lemma ClassifierOpens(env: Env, d: Diagram, e: Classifier)
    ensures Opens(TheModel, ClassifierTag(env, d, e),
                  InElement(Some(RawClassifierOf(env, d)(e).(attributes := [], operations := [])), None))
  {
    var tag := ClassifierTag(env, d, e);
    ClassifierTagReads(env, d, e);
    forall st | IsAt(TheModel, st)
      ensures Opened(st, tag) == Some(State(Frame(InElement(NewClassifier(tag), None), st.contexts), st.raw,
                  st.ids + Ids(tag)))
    {
      OpenedIsEntered(st, tag);
    }
  }

  lemma XmiIdIsPresent(env: Env, d: Diagram, tag: Tag, id: Id)
    requires Get(tag, XmiId) == Some(XmiIdOf(env, d, id))
    ensures Ids(tag) == [XmiIdOf(env, d, id)]
  {
  }

  function GainOfClassifier(env: Env, d: Diagram, e: Classifier): Gain {
    NOTHING.(classifiers := [RawClassifierOf(env, d)(e)],
        directed := RawInlinesOf(env, d, e, Some(XmiIdOf(env, d, e.id))),
             ids := [XmiIdOf(env, d, e.id)] + MemberXmiIds(env, d, e))
  }

  function ClassifierGain(env: Env, d: Diagram): Classifier -> Gain { (e: Classifier) => GainOfClassifier(env, d, e) }

  lemma ClassifierGives(env: Env, d: Diagram, e: Classifier)
    requires ReadableClassifier(d, e)
    ensures Gives(TheModel, WriteClassifier(env, d)(e), ClassifierGain(env, d)(e))
  {
    var tag, owner := ClassifierTag(env, d, e), Some(XmiIdOf(env, d, e.id));
    var start := InElement(Some(RawClassifierOf(env, d)(e).(attributes := [], operations := [])), None);
    var g := MembersGain(env, d, e, owner);
    ClassifierOpens(env, d, e);
    ClassifierTagReads(env, d, e);
    MembersGive(env, d, e, owner);
    NestGives(TheModel, AClassifier(owner), tag, start, WriteMembers(env, d, e), g);
    XmiIdIsPresent(env, d, tag, e.id);
    assert [] + g.attributes == g.attributes && [] + g.operations == g.operations;
    assert Wrap(start, g, Ids(tag)) == ClassifierGain(env, d)(e);
  }

  // Association ends.

  predicate ReadableEnd(d: Diagram, end: End) {
    end.elementId in ElementIds(d) && !IsBlank(LowerBound(end.multiplicity)) && !IsBlank(UpperBound(end.multiplicity))
  }

  predicate IsAggregation(aggregation: string) { aggregation in {"none", "shared", "composite"} }

  function EmptyEndOf(env: Env, d: Diagram, end: End, aggregation: string, id: string): RawEnd {
    RawEndOf(env, d, end, aggregation,
        id).(slot := Slot(RawType(None, ElementXmiId(env, d, end.elementId)), None, None, None))
  }

  lemma EndTagReads(env: Env, d: Diagram, end: End, aggregation: string, id: string)
    requires IsAggregation(aggregation)
    ensures AttributesAllowed(EndTag(env, d, end, aggregation, id))
    ensures NewEnd(EndTag(env, d, end, aggregation, id)) == Some(EmptyEndOf(env, d, end, aggregation, id))
  {
    BoolRoundTrip(end.navigable);
  }

  lemma EndOpens(env: Env, d: Diagram, end: End, aggregation: string, id: string)
    requires IsAggregation(aggregation)
    ensures Opens(AnAssociation, EndTag(env, d, end, aggregation, id), InEnd(EmptyEndOf(env, d, end, aggregation, id)))
  {
    var tag := EndTag(env, d, end, aggregation, id);
    EndTagReads(env, d, end, aggregation, id);
    forall st | IsAt(AnAssociation, st)
      ensures Opened(st, tag) == Some(State(Frame(InEnd(NewEnd(tag).value), st.contexts), st.raw, st.ids + Ids(tag)))
    {
      OpenedIsEntered(st, tag);
    }
  }

  lemma BoundsFill(context: Context, typ: RawType, lower: string, upper: string)
    requires SlotIn(context) == Some(Slot(typ, None, None, None)) && !IsBlank(lower) && !IsBlank(upper)
    ensures Fills(context, WriteBounds(lower, upper), Slot(typ, Some(lower), Some(upper), None))
  {
    forall st | InMember(st) && st.contexts.top == context
      ensures Run(st, WriteBounds(lower, upper)) == Some(At(st, Slot(typ, Some(lower), Some(upper), None)))
    {
      RunBounds(st, lower, upper);
    }
  }

  function EndGain(env: Env, d: Diagram, end: End, aggregation: string, id: string): Gain {
    NOTHING.(ends := [RawEndOf(env, d, end, aggregation, id)], ids := [CanonicalId(env, EndId, id)])
  }

  lemma EndGives(env: Env, d: Diagram, end: End, aggregation: string, id: string)
    requires ReadableEnd(d, end) && IsAggregation(aggregation)
    ensures Gives(AnAssociation, WriteEnd(env, d, end, aggregation, id), EndGain(env, d, end, aggregation, id))
  {
    var tag, start := EndTag(env, d, end, aggregation, id), InEnd(EmptyEndOf(env, d, end, aggregation, id));
    var lower, upper := LowerBound(end.multiplicity), UpperBound(end.multiplicity);
    var raw := RawEndOf(env, d, end, aggregation, id);
    EndOpens(env, d, end, aggregation, id);
    BoundsFill(start, raw.slot.typ, lower, upper);
    MemberGives(AnAssociation, tag, start, WriteBounds(lower, upper), raw.slot);
    IdsOfTag(env, tag, EndId, id);
    assert WithSlot(start, raw.slot) == InEnd(raw);
  }

  function WriteEnds(env: Env, d: Diagram, r: Relationship): seq<Event> {
    WriteEnd(env, d, r.source, AggregationText(r.kind), SourceEndId(r))
        + WriteEnd(env, d, r.target, "none", TargetEndId(r))
  }

  function EndXmiIds(env: Env, r: Relationship): seq<string> {
    [CanonicalId(env, EndId, SourceEndId(r)), CanonicalId(env, EndId, TargetEndId(r))]
  }

  function EndsGain(env: Env, d: Diagram, r: Relationship): Gain {
    NOTHING.(ends := [RawEndOf(env, d, r.source, AggregationText(r.kind), SourceEndId(r)),
                      RawEndOf(env, d, r.target, "none", TargetEndId(r))],
             ids := EndXmiIds(env, r))
  }

  lemma PlusOfEnds(a: RawEnd, b: RawEnd, x: string, y: string)
    ensures Plus(NOTHING.(ends := [a], ids := [x]), NOTHING.(ends := [b], ids := [y]))
              == NOTHING.(ends := [a, b], ids := [x, y])
  {
  }

  lemma EndsGive(env: Env, d: Diagram, r: Relationship)
    requires ReadableEnd(d, r.source) && ReadableEnd(d, r.target)
    ensures Gives(AnAssociation, WriteEnds(env, d, r), EndsGain(env, d, r))
  {
    var source, target := AggregationText(r.kind), "none";
    EndGives(env, d, r.source, source, SourceEndId(r));
    EndGives(env, d, r.target, target, TargetEndId(r));
    PlusOfEnds(RawEndOf(env, d, r.source, source, SourceEndId(r)), RawEndOf(env, d, r.target, target, TargetEndId(r)),
               CanonicalId(env, EndId, SourceEndId(r)), CanonicalId(env, EndId, TargetEndId(r)));
    GivesBoth(AnAssociation, WriteEnd(env, d, r.source, source, SourceEndId(r)),
        EndGain(env, d, r.source, source, SourceEndId(r)),
              WriteEnd(env, d, r.target, target, TargetEndId(r)), EndGain(env, d, r.target, target, TargetEndId(r)));
  }

  // Associations and association classes.

  lemma MemberEndsRead(env: Env, r: Relationship)
    requires DigestsAreHex(env)
    ensures References(Some(MemberEnds(env, r))) == EndXmiIds(env, r)
  {
    var source, target := CanonicalId(env, EndId, SourceEndId(r)), CanonicalId(env, EndId, TargetEndId(r));
    CanonicalIdIsPlain(env, EndId, SourceEndId(r));
    CanonicalIdIsPlain(env, EndId, TargetEndId(r));
    PlainIsWord(source);
    PlainIsWord(target);
    WordsOfTwo(source, target);
  }

  lemma NavigableEndsRead(env: Env, r: Relationship)
    requires DigestsAreHex(env)
    ensures NavigableEnds(env, r).Some? == NavigableEndIds(env, r).Some?
    ensures NavigableEnds(env, r).Some? ==> References(NavigableEnds(env, r)) == NavigableEndIds(env, r).value
  {
    var source, target := CanonicalId(env, EndId, SourceEndId(r)), CanonicalId(env, EndId, TargetEndId(r));
    CanonicalIdIsPlain(env, EndId, SourceEndId(r));
    CanonicalIdIsPlain(env, EndId, TargetEndId(r));
    PlainIsWord(source);
    PlainIsWord(target);
    WordsOfTwo(source, target);
    WordsOfOne(source);
    WordsOfOne(target);
  }

  predicate ReadableAssociation(d: Diagram, r: Relationship) {
    && ReadableEnd(d, r.source) && ReadableEnd(d, r.target)
    && (ClassOf(d, r).Some? ==>
          && r.name.Some? && !IsBlank(r.name.value)
          && ClassOf(d, r).value.kind.Class? && OwnerOf(d.relationships, ClassOf(d, r).value.id) == Some(r))
  }

  lemma PlainAssociationAttributes(env: Env, d: Diagram, r: Relationship)
    requires ClassOf(d, r).None?
    ensures var tag := AssociationTag(env, d, r);
      && AttributesAllowed(tag) && tag.element == PackagedElement && tag.metatype == Some(AssociationType)
      && Get(tag, XmiId) == Some(CanonicalId(env, RelationshipId, r.id))
           && Get(tag, MemberEnd) == Some(MemberEnds(env, r))
      && Get(tag, NavigableOwnedEnd) == NavigableEnds(env, r) && Get(tag, AssociationName) == None
           && Get(tag, Name) == r.name
  {
  }

  lemma AssociationClassAttributes(env: Env, d: Diagram, r: Relationship)
    requires ClassOf(d, r).Some?
    ensures var tag, e := AssociationTag(env, d, r), ClassOf(d, r).value;
      && AttributesAllowed(tag) && tag.element == PackagedElement && tag.metatype == Some(AssociationClassType)
      && Get(tag, XmiId) == Some(CanonicalId(env, RelationshipId, r.id))
           && Get(tag, MemberEnd) == Some(MemberEnds(env, r))
      && Get(tag, NavigableOwnedEnd) == NavigableEnds(env, r) && Get(tag, AssociationName) == r.name
      && Get(tag, Name) == Some(e.name) && Get(tag, IsAbstract) == Some(BoolText(e.kind.Class? && e.kind.isAbstract))
  {
  }

  function AssociationMetatype(d: Diagram, r: Relationship): Metatype {
    if ClassOf(d, r).None? then AssociationType else AssociationClassType
  }

  lemma AssociationTagReads(env: Env, d: Diagram, r: Relationship)
    requires DigestsAreHex(env) && ReadableAssociation(d, r)
    ensures AttributesAllowed(AssociationTag(env, d, r)) && !IsIgnored(AssociationTag(env, d, r))
    ensures AssociationTag(env, d, r).element == PackagedElement
    ensures AssociationTag(env, d, r).metatype == Some(AssociationMetatype(d, r))
    ensures Get(AssociationTag(env, d, r), XmiId) == Some(CanonicalId(env, RelationshipId, r.id))
    ensures NewAssociation(AssociationTag(env, d, r)) == Some(RawAssociationOf(env, d)(r).(ends := []))
  {
    var tag := AssociationTag(env, d, r);
    AssociationAttributes(env, d, r);
    MemberEndsRead(env, r);
    NavigableEndsRead(env, r);
    ReadAssociation(env, d, r, tag);
  }

  lemma AssociationAttributes(env: Env, d: Diagram, r: Relationship)
    ensures var tag := AssociationTag(env, d, r);
      && AttributesAllowed(tag) && tag.element == PackagedElement && tag.metatype == Some(AssociationMetatype(d, r))
      && Get(tag, XmiId) == Some(CanonicalId(env, RelationshipId, r.id))
           && Get(tag, MemberEnd) == Some(MemberEnds(env, r))
      && Get(tag, NavigableOwnedEnd) == NavigableEnds(env, r)
      && Get(tag, AssociationName) == (if ClassOf(d, r).None? then None else r.name)
      && (ClassOf(d, r).None? ==> Get(tag, Name) == r.name)
  {
    if ClassOf(d, r).None? { PlainAssociationAttributes(env, d, r); } else { AssociationClassAttributes(env, d, r); }
  }

  lemma ReadAssociation(env: Env, d: Diagram, r: Relationship, tag: Tag)
    requires ReadableAssociation(d, r)
    requires tag.metatype == Some(AssociationMetatype(d, r))
    requires Get(tag, XmiId) == Some(CanonicalId(env, RelationshipId, r.id))
    requires Get(tag, AssociationName) == if ClassOf(d, r).None? then None else r.name
    requires ClassOf(d, r).None? ==> Get(tag, Name) == r.name
    requires References(Get(tag, MemberEnd)) == EndXmiIds(env, r)
    requires Get(tag, NavigableOwnedEnd).Some? == NavigableEndIds(env, r).Some?
    requires NavigableEndIds(env, r).Some? ==> References(Get(tag, NavigableOwnedEnd)) == NavigableEndIds(env, r).value
    ensures NewAssociation(tag) == Some(RawAssociationOf(env, d)(r).(ends := []))
  {
  }

  lemma AssociationClassTagReads(env: Env, d: Diagram, r: Relationship)
    requires ReadableAssociation(d, r) && ClassOf(d, r).Some?
    ensures NewClassifier(AssociationTag(env, d, r)) ==
            Some(RawClassifierOf(env, d)(ClassOf(d, r).value).(attributes := [], operations := []))
  {
    var e := ClassOf(d, r).value;
    BoolRoundTrip(e.kind.isAbstract);
    AssociationClassAttributes(env, d, r);
    assert XmiIdOf(env, d, e.id) == CanonicalId(env, RelationshipId, r.id);
    ReadClassifier(env, d, e, AssociationTag(env, d, r));
  }

  lemma ReadClassifier(env: Env, d: Diagram, e: Classifier, tag: Tag)
    requires e.kind.Class? && tag.metatype == Some(AssociationClassType)
    requires Get(tag, XmiId) == Some(XmiIdOf(env, d, e.id)) && Get(tag, Name) == Some(e.name)
    requires Get(tag, IsAbstract) == Some(BoolText(e.kind.isAbstract))
    ensures NewClassifier(tag) == Some(RawClassifierOf(env, d)(e).(attributes := [], operations := []))
  {
    BoolRoundTrip(e.kind.isAbstract);
  }

  function EmptyAssociationClass(env: Env, d: Diagram, r: Relationship): Option<RawClassifier> {
    match ClassOf(d, r)
    case None => None
    case Some(e) => Some(RawClassifierOf(env, d)(e).(attributes := [], operations := []))
  }

  lemma AssociationEnters(tag: Tag, c: Option<RawClassifier>, a: RawAssociation)
    requires tag.element == PackagedElement && AttributesAllowed(tag) && NewAssociation(tag) == Some(a)
    requires tag.metatype == Some(if c.None? then AssociationType else AssociationClassType)
    requires c.Some? ==> NewClassifier(tag) == c
    ensures Opens(TheModel, tag, InElement(c, Some(a)))
  {
    forall st | IsAt(TheModel, st)
      ensures Opened(st, tag) == Some(State(Frame(InElement(c, Some(a)), st.contexts), st.raw, st.ids + Ids(tag)))
    {
      OpenedIsEntered(st, tag);
    }
  }

  lemma AssociationOpens(env: Env, d: Diagram, r: Relationship)
    requires DigestsAreHex(env) && ReadableAssociation(d, r)
    ensures Opens(TheModel, AssociationTag(env, d, r),
                  InElement(EmptyAssociationClass(env, d, r), Some(RawAssociationOf(env, d)(r).(ends := []))))
  {
    AssociationTagReads(env, d, r);
    if ClassOf(d, r).Some? { AssociationClassTagReads(env, d, r); }
    AssociationEnters(AssociationTag(env, d, r), EmptyAssociationClass(env, d, r),
        RawAssociationOf(env, d)(r).(ends := []));
  }

  function AssociationGain(env: Env, d: Diagram, r: Relationship): Gain {
    var id := CanonicalId(env, RelationshipId, r.id);
    match ClassOf(d, r)
    case None => NOTHING.(associations := [RawAssociationOf(env, d)(r)], ids := [id] + EndXmiIds(env, r))
    case Some(e) =>
      NOTHING.(associations := [RawAssociationOf(env, d)(r)], classifiers := [RawClassifierOf(env, d)(e)],
               directed := RawInlinesOf(env, d, e, Some(id)),
                   ids := [id] + (MemberXmiIds(env, d, e) + EndXmiIds(env, r)))
  }

  lemma PlainAssociationWraps(env: Env, d: Diagram, r: Relationship, start: Context)
    requires ClassOf(d, r).None? && start == InElement(None, Some(RawAssociationOf(env, d)(r).(ends := [])))
    ensures Wrap(start, EndsGain(env, d, r), [CanonicalId(env, RelationshipId, r.id)]) == AssociationGain(env, d, r)
  {
    var ends := EndsGain(env, d, r).ends;
    assert [] + ends == ends && ends == RawAssociationOf(env, d)(r).ends;
  }

  lemma PlainAssociationIsNested(env: Env, d: Diagram, r: Relationship)
    requires ClassOf(d, r).None?
    ensures WriteAssociation(env, d, r) == Nest(AssociationTag(env, d, r), WriteEnds(env, d, r))
  {
    var none: seq<Event> := [];
    AppendIsAssociative(none, WriteEnd(env, d, r.source, AggregationText(r.kind), SourceEndId(r)),
                        WriteEnd(env, d, r.target, "none", TargetEndId(r)));
    assert none + WriteEnds(env, d, r) == WriteEnds(env, d, r);
  }

  lemma PlainAssociationGives(env: Env, d: Diagram, r: Relationship)
    requires DigestsAreHex(env) && ReadableAssociation(d, r) && ClassOf(d, r).None?
    ensures Gives(TheModel, WriteAssociation(env, d, r), AssociationGain(env, d, r))
  {
    var tag := AssociationTag(env, d, r);
    var start := InElement(None, Some(RawAssociationOf(env, d)(r).(ends := [])));
    PlainAssociationIsNested(env, d, r);
    PlainAssociationWraps(env, d, r, start);
    AssociationOpens(env, d, r);
    AssociationTagReads(env, d, r);
    EndsGive(env, d, r);
    IdsOfTag(env, tag, RelationshipId, r.id);
    NestGives(TheModel, AnAssociation, tag, start, WriteEnds(env, d, r), EndsGain(env, d, r));
  }

  lemma AssociationClassGives(env: Env, d: Diagram, r: Relationship)
    requires DigestsAreHex(env) && ReadableAssociation(d, r) && ClassOf(d, r).Some?
    requires ReadableClassifier(d, ClassOf(d, r).value)
    ensures Gives(TheModel, WriteAssociation(env, d, r), AssociationGain(env, d, r))
  {
    var tag, e := AssociationTag(env, d, r), ClassOf(d, r).value;
    var owner := Some(CanonicalId(env, RelationshipId, r.id));
    var start := InElement(EmptyAssociationClass(env, d, r), Some(RawAssociationOf(env, d)(r).(ends := [])));
    var inner, g := WriteMembers(env, d, e) + WriteEnds(env, d, r), ClassBodyGain(env, d, r, e, owner);
    assert WriteAssociation(env, d, r) == Nest(tag, inner) by { AssociationClassIsNested(env, d, r); }
    assert Wrap(start, g, Ids(tag)) == AssociationGain(env, d, r) by {
      AssociationTagReads(env, d, r);
      IdsOfTag(env, tag, RelationshipId, r.id);
      AssociationClassWraps(env, d, r, e, owner, start);
    }
    assert Opens(TheModel, tag, start) by { AssociationOpens(env, d, r); }
    assert Gives(AnAssociationClass(owner), inner, g) by { AssociationClassBodyGives(env, d, r, e, owner); }
    assert Fits(AnAssociationClass(owner), start);
    NestGives(TheModel, AnAssociationClass(owner), tag, start, inner, g);
  }

  function ClassBodyGain(env: Env, d: Diagram, r: Relationship, e: Classifier, owner: Option<string>): Gain {
    MembersGain(env, d, e, owner).(ends := EndsGain(env, d, r).ends, ids := MemberXmiIds(env, d, e) + EndXmiIds(env, r))
  }

  lemma AssociationClassIsNested(env: Env, d: Diagram, r: Relationship)
    requires ClassOf(d, r).Some?
    ensures WriteAssociation(env, d, r)
            == Nest(AssociationTag(env, d, r), WriteMembers(env, d, ClassOf(d, r).value) + WriteEnds(env, d, r))
  {
    AppendIsAssociative(WriteMembers(env, d, ClassOf(d, r).value),
                        WriteEnd(env, d, r.source, AggregationText(r.kind), SourceEndId(r)),
                        WriteEnd(env, d, r.target, "none", TargetEndId(r)));
  }

  lemma AppendIsAssociative(a: seq<Event>, b: seq<Event>, c: seq<Event>)
    ensures a + b + c == a + (b + c)
  {
  }

  lemma AssociationClassBodyGives(env: Env, d: Diagram, r: Relationship, e: Classifier, owner: Option<string>)
    requires ReadableAssociation(d, r) && ReadableClassifier(d, e)
    ensures Gives(AnAssociationClass(owner), WriteMembers(env, d, e) + WriteEnds(env, d, r),
                ClassBodyGain(env, d, r, e, owner))
  {
    var members, ends := MembersGain(env, d, e, owner), EndsGain(env, d, r);
    PlusOfMembersAndEnds(members, ends);
    MembersGive(env, d, e, owner);
    EndsGive(env, d, r);
    GivesInClass(owner, WriteMembers(env, d, e), members);
    GivesInClass(owner, WriteEnds(env, d, r), ends);
    GivesBoth(AnAssociationClass(owner), WriteMembers(env, d, e), members, WriteEnds(env, d, r), ends);
  }

  lemma PlusOfMembersAndEnds(g: Gain, h: Gain)
    requires g == NOTHING.(attributes := g.attributes, operations := g.operations, directed := g.directed, ids := g.ids)
    requires h == NOTHING.(ends := h.ends, ids := h.ids)
    ensures Plus(g, h) == g.(ends := h.ends, ids := g.ids + h.ids)
  {
  }

  lemma AssociationClassWraps(env: Env, d: Diagram, r: Relationship, e: Classifier, owner: Option<string>,
      start: Context)
    requires ClassOf(d, r) == Some(e) && owner == Some(CanonicalId(env, RelationshipId, r.id))
    requires start == InElement(EmptyAssociationClass(env, d, r), Some(RawAssociationOf(env, d)(r).(ends := [])))
    ensures Wrap(start, ClassBodyGain(env, d, r, e, owner), [owner.value]) == AssociationGain(env, d, r)
  {
    var g := ClassBodyGain(env, d, r, e, owner);
    assert g.ends == RawAssociationOf(env, d)(r).ends;
    assert [] + g.attributes == g.attributes && [] + g.operations == g.operations && [] + g.ends == g.ends;
  }

  // Dependencies and data types.

  lemma OneReference(id: Option<string>)
    requires id.Some? ==> id.value != "" && forall c :: c in id.value ==> IdChar(c)
    ensures |References(id)| <= 1 && First(References(id)) == id
  {
    if id.Some? {
      PlainIsWord(id.value);
      WordsOfOne(id.value);
    }
  }

  lemma XmiIdIsPlain(env: Env, d: Diagram, id: Id)
    requires DigestsAreHex(env)
    ensures XmiIdOf(env, d, id) != "" && forall c :: c in XmiIdOf(env, d, id) ==> IdChar(c)
  {
    CanonicalIdIsPlain(env, ClassifierId, id);
    match OwnerOf(d.relationships, id) {
      case Some(r) => CanonicalIdIsPlain(env, RelationshipId, r.id);
      case None =>
    }
  }

  function DependencyTag(env: Env, d: Diagram, r: Relationship): Tag {
    var attrs := With(map[XmiId := CanonicalId(env, RelationshipId, r.id)], Name, r.name);
    Tag(PackagedElement, Some(DependencyType),
        With(With(attrs, Client, ElementXmiId(env, d, r.source.elementId)), Supplier,
            ElementXmiId(env, d, r.target.elementId)))
  }

  lemma DependencyTagReads(env: Env, d: Diagram, r: Relationship)
    ensures AttributesAllowed(DependencyTag(env, d, r))
    ensures Get(DependencyTag(env, d, r), XmiId) == Some(CanonicalId(env, RelationshipId, r.id))
    ensures Get(DependencyTag(env, d, r), Name) == r.name
    ensures Get(DependencyTag(env, d, r), Client) == ElementXmiId(env, d, r.source.elementId)
    ensures Get(DependencyTag(env, d, r), Supplier) == ElementXmiId(env, d, r.target.elementId)
  {
  }

  function DependencyGain(env: Env, d: Diagram, r: Relationship): Gain {
    NOTHING.(directed := [RawDependencyOf(env, d, r)], ids := [CanonicalId(env, RelationshipId, r.id)])
  }

  lemma DependencyGives(env: Env, d: Diagram, r: Relationship)
    requires DigestsAreHex(env)
    ensures Gives(TheModel, WriteDependency(env, d, r), DependencyGain(env, d, r))
  {
    var tag := DependencyTag(env, d, r);
    DependencyTagReads(env, d, r);
    IdsOfTag(env, tag, RelationshipId, r.id);
    XmiIdIsPlain(env, d, r.source.elementId);
    XmiIdIsPlain(env, d, r.target.elementId);
    OneReference(ElementXmiId(env, d, r.source.elementId));
    OneReference(ElementXmiId(env, d, r.target.elementId));
    forall st | IsAt(TheModel, st) ensures Opened(st, tag)
        == Some(Push(Gained(st, DependencyGain(env, d, r)), InLeaf)) {
      GainOneDirected(st, RawDependencyOf(env, d, r), Ids(tag));
      OpenedIsEntered(st, tag);
    }
    LeafGives(TheModel, tag, DependencyGain(env, d, r));
    assert WriteDependency(env, d, r) == Leaf(tag);
  }

  function RawDataTypeFrom(env: Env, name: string): RawDataType {
    RawDataType(Some(CanonicalId(env, DataTypeId, name)), Some(name))
  }

  function RawDataTypeOf(env: Env): string -> RawDataType { (name: string) => RawDataTypeFrom(env, name) }

  function GainOfDataType(env: Env, name: string): Gain {
    NOTHING.(dataTypes := [RawDataTypeOf(env)(name)], ids := [CanonicalId(env, DataTypeId, name)])
  }

  function DataTypeGain(env: Env): string -> Gain { (name: string) => GainOfDataType(env, name) }

  lemma DataTypeOpens(env: Env, name: string, tag: Tag)
    requires tag == Tag(PackagedElement, Some(DataType), map[XmiId := CanonicalId(env, DataTypeId, name), Name := name])
    ensures OpensLeaf(TheModel, tag, DataTypeGain(env)(name))
  {
    var g := DataTypeGain(env)(name);
    var raw := RawDataTypeOf(env)(name);
    IdsOfTag(env, tag, DataTypeId, name);
    assert g == NOTHING.(dataTypes := [raw], ids := Ids(tag));
    assert AttributesAllowed(tag) && !IsIgnored(tag);
    assert RawDataType(Get(tag, XmiId), Get(tag, Name)) == raw;
    forall st | IsAt(TheModel, st) ensures Opened(st, tag) == Some(Push(Gained(st, g), InLeaf)) {
      GainOutside(st, g);
      assert st.raw.classifiers + [] == st.raw.classifiers;
      assert st.raw.associations + [] == st.raw.associations;
      assert st.raw.directed + [] == st.raw.directed;
      OpenedIsEntered(st, tag);
    }
  }

  lemma DataTypeGives(env: Env, name: string)
    ensures Gives(TheModel, WriteDataType(env)(name), DataTypeGain(env)(name))
  {
    var tag := Tag(PackagedElement, Some(DataType), map[XmiId := CanonicalId(env, DataTypeId, name), Name := name]);
    DataTypeOpens(env, name, tag);
    LeafGives(TheModel, tag, DataTypeGain(env)(name));
    assert WriteDataType(env)(name) == Leaf(tag);
  }
}
