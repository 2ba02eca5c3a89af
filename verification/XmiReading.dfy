/** What the parser reads back from the document the exporter writes. */
module XmiReading {

  import opened Wrappers
  import opened Sequences
  import opened Uml
  import opened Integrity
  import opened XmiText
  import opened XmiDocument
  import opened XmiExport
  import opened XmiParser
  import opened XmiGains

  // The raw counterparts of the model.

  function RawTypeOf(env: Env, d: Diagram, t: TypeReference): RawType {
    if t.elementId.Some? then RawType(None, TypeXmiId(env, d, t))
    else
      match OmgPrimitive(env, t.name)
      case Some(p) => RawType(Some(PRIMITIVES + p), None)
      case None => RawType(Some("#" + CanonicalId(env, DataTypeId, t.name)), None)
  }

  function RawSlotOf(env: Env, d: Diagram, t: TypeReference, defaultValue: Option<string>): Slot {
    Slot(RawTypeOf(env, d, t), Some(LowerOf(t)), Some(UpperOf(t)), defaultValue)
  }

  function RawAttributeFrom(env: Env, d: Diagram, a: Attribute): RawAttribute {
    RawAttribute(Some(CanonicalId(env, AttributeId, a.id)), Some(a.name), Some(VisibilityText(a.visibility)),
                 a.isReadOnly, a.isStatic, RawSlotOf(env, d, a.typ, a.defaultValue))
  }

  function RawAttributeOf(env: Env, d: Diagram): Attribute -> RawAttribute {
    (a: Attribute) => RawAttributeFrom(env, d, a)
  }

  function RawParameterFrom(env: Env, d: Diagram, p: Parameter): RawParameter {
    RawParameter(Some(CanonicalId(env, ParameterId, p.id)), Some(p.name), false,
        RawSlotOf(env, d, p.typ, p.defaultValue))
  }

  function RawParameterOf(env: Env, d: Diagram): Parameter -> RawParameter {
    (p: Parameter) => RawParameterFrom(env, d, p)
  }

  function RawReturnOf(env: Env, d: Diagram, o: Operation): RawParameter {
    RawParameter(Some(CanonicalId(env, ParameterId, ReturnId(o))), Some("return"), true,
        RawSlotOf(env, d, o.returnType, None))
  }

  function RawOperationFrom(env: Env, d: Diagram, o: Operation): RawOperation {
    RawOperation(Some(CanonicalId(env, OperationId, o.id)), Some(o.name), Some(VisibilityText(o.visibility)),
                 o.isAbstract, o.isStatic, Map(RawParameterOf(env, d), o.parameters), Some(RawReturnOf(env, d, o)))
  }

  function RawOperationOf(env: Env, d: Diagram): Operation -> RawOperation {
    (o: Operation) => RawOperationFrom(env, d, o)
  }

  function RawInlineFrom(env: Env, d: Diagram, source: Option<string>, r: Relationship): RawDirected {
    RawDirected(Some(CanonicalId(env, RelationshipId, r.id)), r.name,
                if r.kind == Generalization then RawGeneralization else RawRealization,
                source, ElementXmiId(env, d, r.target.elementId))
  }

  function RawInlineOf(env: Env, d: Diagram, source: Option<string>): Relationship -> RawDirected {
    (r: Relationship) => RawInlineFrom(env, d, source, r)
  }

  function RawDependencyOf(env: Env, d: Diagram, r: Relationship): RawDirected {
    RawDirected(Some(CanonicalId(env, RelationshipId, r.id)), r.name, RawDependency,
                ElementXmiId(env, d, r.source.elementId), ElementXmiId(env, d, r.target.elementId))
  }

  function RawClassifierFrom(env: Env, d: Diagram, e: Classifier): RawClassifier {
    RawClassifier(Some(XmiIdOf(env, d, e.id)), Some(e.name), e.kind.Interface?, e.kind.Class? && e.kind.isAbstract,
                  Map(RawAttributeOf(env, d), e.attributes), Map(RawOperationOf(env, d), e.operations))
  }

  function RawClassifierOf(env: Env, d: Diagram): Classifier -> RawClassifier {
    (e: Classifier) => RawClassifierFrom(env, d, e)
  }

  function RawEndOf(env: Env, d: Diagram, end: End, aggregation: string, id: string): RawEnd {
    RawEnd(Some(CanonicalId(env, EndId, id)), Some(end.role), Some(aggregation), Some(end.navigable),
           Slot(RawType(None, ElementXmiId(env, d, end.elementId)),
                Some(LowerBound(end.multiplicity)), Some(UpperBound(end.multiplicity)), None))
  }

  function NavigableEndIds(env: Env, r: Relationship): Option<seq<string>> {
    var source, target := CanonicalId(env, EndId, SourceEndId(r)), CanonicalId(env, EndId, TargetEndId(r));
    if r.source.navigable && r.target.navigable then Some([source, target])
    else if r.source.navigable then Some([source])
    else if r.target.navigable then Some([target])
    else None
  }

  function RawAssociationFrom(env: Env, d: Diagram, r: Relationship): RawAssociation {
    RawAssociation(
      Some(CanonicalId(env, RelationshipId, r.id)), r.name, ClassOf(d, r).Some?,
      [CanonicalId(env, EndId, SourceEndId(r)), CanonicalId(env, EndId, TargetEndId(r))],
      NavigableEndIds(env, r),
      [RawEndOf(env, d, r.source, AggregationText(r.kind), SourceEndId(r)),
       RawEndOf(env, d, r.target, "none", TargetEndId(r))])
  }

  function RawAssociationOf(env: Env, d: Diagram): Relationship -> RawAssociation {
    (r: Relationship) => RawAssociationFrom(env, d, r)
  }

  // The xmi:ids written, in order.

  function ParameterXmiId(env: Env): Parameter -> seq<string> {
    (p: Parameter) => [CanonicalId(env, ParameterId, p.id)]
  }

  function AttributeXmiId(env: Env): Attribute -> seq<string> {
    (a: Attribute) => [CanonicalId(env, AttributeId, a.id)]
  }

  function OperationXmiIdsFrom(env: Env, o: Operation): seq<string> {
    [CanonicalId(env, OperationId, o.id)] + FlatMap(ParameterXmiId(env), o.parameters)
    + [CanonicalId(env, ParameterId, ReturnId(o))]
  }

  function OperationXmiIds(env: Env): Operation -> seq<string> { (o: Operation) => OperationXmiIdsFrom(env, o) }

  function RelationshipXmiId(env: Env): Relationship -> seq<string> {
    (r: Relationship) => [CanonicalId(env, RelationshipId, r.id)]
  }

  function MemberXmiIds(env: Env, d: Diagram, e: Classifier): seq<string> {
    FlatMap(AttributeXmiId(env), e.attributes) + FlatMap(OperationXmiIds(env), e.operations)
    + FlatMap(RelationshipXmiId(env), Filter(InlineFrom(e.id), d.relationships))
  }

  predicate IsMember(context: Context) { SlotIn(context).Some? }

  predicate TakesDefault(context: Context) {
    !context.InEnd? && !(context.InParameter? && context.parameter.isReturn)
  }

  /** The state is inside a member, with room for a tag in it. */
  predicate InMember(st: State) {
    st.contexts.Frame? && IsMember(st.contexts.top) && Depth(st.contexts) < MAX_DEPTH
  }

  function MemberSlot(st: State): Slot
    requires InMember(st)
  {
    SlotIn(st.contexts.top).value
  }

  function At(st: State, slot: Slot): State
    requires InMember(st)
  {
    st.(contexts := Frame(WithSlot(st.contexts.top, slot), st.contexts.below))
  }

  lemma AtKeepsMember(st: State, slot: Slot, next: Slot)
    requires InMember(st)
    ensures InMember(At(st, slot)) && MemberSlot(At(st, slot)) == slot && At(At(st, slot), next) == At(st, next)
    ensures TakesDefault(At(st, slot).contexts.top) == TakesDefault(st.contexts.top)
  {
  }

  /** A tag nested in a member changes the member's slot and nothing else. */
  lemma RunNested(st: State, tag: Tag, slot: Slot)
    requires InMember(st)
    requires tag.element in {TypeOf, LowerValue, UpperValue, DefaultValue}
    requires AttributesAllowed(tag) && Ids(tag) == []
    requires Filled(st.contexts.top, MemberSlot(st), tag) == Some(slot)
    ensures Run(st, Leaf(tag)) == Some(At(st, slot))
  {
    RunLeaf(st, tag);
    assert st.ids + [] == st.ids;
  }

  // The slot of a member.

  lemma RunBounds(st: State, lower: string, upper: string)
    requires InMember(st) && MemberSlot(st).lower.None? && MemberSlot(st).upper.None?
    requires !IsBlank(lower) && !IsBlank(upper)
    ensures Run(st, WriteBounds(lower, upper))
              == Some(At(st, MemberSlot(st).(lower := Some(lower), upper := Some(upper))))
  {
    var slot := MemberSlot(st);
    var one, both := slot.(lower := Some(lower)), slot.(lower := Some(lower), upper := Some(upper));
    var lowerTag := Tag(LowerValue, Some(LiteralInteger), map[Value := lower]);
    var upperTag := Tag(UpperValue, Some(LiteralUnlimitedNatural), map[Value := upper]);
    RunAppend(st, Leaf(lowerTag), Leaf(upperTag));
    RunNested(st, lowerTag, one);
    AtKeepsMember(st, one, both);
    RunNested(At(st, one), upperTag, both);
  }

  lemma RunType(env: Env, d: Diagram, st: State, t: TypeReference)
    requires InMember(st) && MemberSlot(st).typ == RawType(None, TypeXmiId(env, d, t))
    requires t.elementId.Some? ==> t.elementId.value in ElementIds(d)
    ensures Run(st, WriteType(env, t)) == Some(At(st, MemberSlot(st).(typ := RawTypeOf(env, d, t))))
  {
    var slot := MemberSlot(st).(typ := RawTypeOf(env, d, t));
    if t.elementId.None? {
      match OmgPrimitive(env, t.name) {
        case Some(p) =>
          assert PRIMITIVES + p != "";
          RunNested(st, Tag(TypeOf, Some(PrimitiveType), map[Href := PRIMITIVES + p]), slot);
        case None =>
          var href := "#" + CanonicalId(env, DataTypeId, t.name);
          assert href != "";
          RunNested(st, Tag(TypeOf, Some(DataType), map[Href := href]), slot);
      }
    }
  }

  lemma RunDefault(st: State, value: Option<string>)
    requires InMember(st) && MemberSlot(st).defaultValue.None?
    requires value.Some? ==> !HasLineSpace(value.value) && TakesDefault(st.contexts.top)
    ensures Run(st, WriteDefault(value)) == Some(At(st, MemberSlot(st).(defaultValue := value)))
  {
    if value.Some? {
      RunNested(st, Tag(DefaultValue, Some(LiteralString), map[Value := value.value]),
          MemberSlot(st).(defaultValue := value));
    }
  }

  lemma NumeralsAreNotBlank()
    ensures !IsBlank("0") && !IsBlank("1") && !IsBlank("*")
  {
    assert '0' in "0" && '1' in "1" && '*' in "*";
  }

  /** The nested tags of a member fill its slot. */
  lemma RunSlot(env: Env, d: Diagram, st: State, t: TypeReference, value: Option<string>)
    requires InMember(st) && MemberSlot(st) == Slot(RawType(None, TypeXmiId(env, d, t)), None, None, None)
    requires t.elementId.Some? ==> t.elementId.value in ElementIds(d)
    requires value.Some? ==> !HasLineSpace(value.value) && TakesDefault(st.contexts.top)
    ensures Run(st, WriteSlot(env, t, value)) == Some(At(st, RawSlotOf(env, d, t, value)))
  {
    var a, b, c := WriteType(env, t), WriteBounds(LowerOf(t), UpperOf(t)), WriteDefault(value);
    var typed := MemberSlot(st).(typ := RawTypeOf(env, d, t));
    var bounded := typed.(lower := Some(LowerOf(t)), upper := Some(UpperOf(t)));
    RunAppend(st, a + b, c);
    RunAppend(st, a, b);
    RunType(env, d, st, t);
    NumeralsAreNotBlank();
    AtKeepsMember(st, typed, bounded);
    RunBounds(At(st, typed), LowerOf(t), UpperOf(t));
    AtKeepsMember(st, bounded, bounded.(defaultValue := value));
    RunDefault(At(st, bounded), value);
  }

  // Members of a classifier.

  predicate TypeIsKnown(d: Diagram, t: TypeReference) { t.elementId.Some? ==> t.elementId.value in ElementIds(d) }

  predicate DefaultIsPlain(value: Option<string>) { value.Some? ==> !HasLineSpace(value.value) }

  predicate ReadableAttribute(d: Diagram, a: Attribute) { TypeIsKnown(d, a.typ) && DefaultIsPlain(a.defaultValue) }

  predicate ReadableParameter(d: Diagram, p: Parameter) { TypeIsKnown(d, p.typ) && DefaultIsPlain(p.defaultValue) }

  predicate ReadableOperation(d: Diagram, o: Operation) {
    TypeIsKnown(d, o.returnType) && forall p :: p in o.parameters ==> ReadableParameter(d, p)
  }

  predicate ReadableClassifier(d: Diagram, e: Classifier) {
    (forall a :: a in e.attributes ==> ReadableAttribute(d, a))
        && (forall o :: o in e.operations ==> ReadableOperation(d, o))
  }

  /** Ids are never written empty. */
  lemma IdsOfTag(env: Env, tag: Tag, kind: IdKind, id: string)
    requires Get(tag, XmiId) == Some(CanonicalId(env, kind, id))
    ensures Ids(tag) == [CanonicalId(env, kind, id)]
  {
  }

  /** The tags fill the slot of the member they are written in. */
  ghost predicate Fills(context: Context, inner: seq<Event>, slot: Slot) {
    forall st :: InMember(st) && st.contexts.top == context ==> Run(st, inner) == Some(At(st, slot))
  }

  lemma MemberGives(place: Place, tag: Tag, context: Context, inner: seq<Event>, slot: Slot)
    requires Opens(place, tag, context) && IsMember(context) && Fills(context, inner, slot)
    requires ClosesAt(place, WithSlot(context, slot))
    ensures Gives(place, Nest(tag, inner), GainOf(WithSlot(context, slot)).(ids := Ids(tag)))
  {
    var filled := WithSlot(context, slot);
    forall st | IsAt(place, st)
      ensures Run(st, Nest(tag, inner)) == Some(Gained(st, GainOf(filled).(ids := Ids(tag))))
    {
      var entered := State(Frame(context, st.contexts), st.raw, st.ids + Ids(tag));
      assert Opened(st, tag) == Some(entered);
      assert InMember(entered);
      assert Run(entered, inner) == Some(State(Frame(filled, st.contexts), entered.raw, entered.ids));
      RunNest(st, tag, inner);
      CloseGains(place, st, filled, entered.raw, entered.ids);
      GainIds(st, GainOf(filled), Ids(tag));
    }
  }

  lemma GainIds(st: State, g: Gain, ids: seq<string>)
    requires g.ids == []
    ensures Gained(State(st.contexts, st.raw, st.ids + ids), g) == Gained(st, g.(ids := ids))
  {
    assert st.ids + ids + [] == st.ids + ids;
  }

  lemma SlotFills(env: Env, d: Diagram, context: Context, t: TypeReference, value: Option<string>)
    requires SlotIn(context) == Some(Slot(RawType(None, TypeXmiId(env, d, t)), None, None, None))
    requires TypeIsKnown(d, t) && DefaultIsPlain(value) && (value.Some? ==> TakesDefault(context))
    ensures Fills(context, WriteSlot(env, t, value), RawSlotOf(env, d, t, value))
  {
    forall st | InMember(st) && st.contexts.top == context
      ensures Run(st, WriteSlot(env, t, value)) == Some(At(st, RawSlotOf(env, d, t, value)))
    {
      RunSlot(env, d, st, t, value);
    }
  }

  /** An allowed tag in an open element is entered. */
  lemma OpenedIsEntered(st: State, tag: Tag)
    requires st.contexts.Frame? && Depth(st.contexts) < MAX_DEPTH
    requires !st.contexts.top.InIgnored? && !st.contexts.top.InRoot? && !IsIgnored(tag)
    requires AttributesAllowed(tag) && Contains(st.contexts.top, tag.element)
    ensures HasParts(st.contexts.top, tag.element)
    ensures Opened(st, tag) == Entered(st.(ids := st.ids + Ids(tag)), tag)
  {
  }

  // Attributes, parameters and operations.

  lemma AttributeTagReads(env: Env, d: Diagram, a: Attribute)
    ensures AttributesAllowed(AttributeTag(env, d, a))
    ensures NewAttribute(AttributeTag(env, d, a)) ==
            Some(RawAttributeOf(env, d)(a).(slot := Slot(RawType(None, TypeXmiId(env, d, a.typ)), None, None, None)))
  {
    AttributeTagAttributes(env, d, a);
    ReadAttribute(env, d, a, AttributeTag(env, d, a));
  }

  lemma AttributeTagAttributes(env: Env, d: Diagram, a: Attribute)
    ensures var tag := AttributeTag(env, d, a);
      && AttributesAllowed(tag) && HoldsAttribute(env, a, tag)
           && SlotOf(tag) == Slot(RawType(None, TypeXmiId(env, d, a.typ)), None, None, None)
  {
  }

  predicate HoldsAttribute(env: Env, a: Attribute, tag: Tag) {
    && Get(tag, XmiId) == Some(CanonicalId(env, AttributeId, a.id)) && Get(tag, Name) == Some(a.name)
    && Get(tag, VisibilityAttr) == Some(VisibilityText(a.visibility))
    && Get(tag, IsReadOnly) == Some(BoolText(a.isReadOnly)) && Get(tag, IsStatic) == Some(BoolText(a.isStatic))
  }

  lemma ReadAttribute(env: Env, d: Diagram, a: Attribute, tag: Tag)
    requires HoldsAttribute(env, a, tag)
    ensures NewAttribute(tag) == Some(RawAttributeOf(env, d)(a).(slot := SlotOf(tag)))
  {
    BoolRoundTrip(a.isReadOnly);
    BoolRoundTrip(a.isStatic);
  }

  lemma AttributeOpens(env: Env, d: Diagram, a: Attribute, owner: Option<string>)
    ensures Opens(AClassifier(owner), AttributeTag(env, d, a), InAttribute(RawAttributeOf(env, d)(a).(
              slot := Slot(RawType(None, TypeXmiId(env, d, a.typ)), None, None, None))))
  {
    var tag := AttributeTag(env, d, a);
    AttributeTagReads(env, d, a);
    forall st | IsAt(AClassifier(owner), st)
      ensures Opened(st, tag) == Some(State(Frame(InAttribute(NewAttribute(tag).value), st.contexts), st.raw,
                  st.ids + Ids(tag)))
    {
      OpenedIsEntered(st, tag);
    }
  }

  function GainOfAttribute(env: Env, d: Diagram, a: Attribute): Gain {
    NOTHING.(attributes := [RawAttributeOf(env, d)(a)], ids := AttributeXmiId(env)(a))
  }

  function AttributeGain(env: Env, d: Diagram): Attribute -> Gain { (a: Attribute) => GainOfAttribute(env, d, a) }

  lemma AttributeGives(env: Env, d: Diagram, a: Attribute, owner: Option<string>)
    requires ReadableAttribute(d, a)
    ensures Gives(AClassifier(owner), WriteAttribute(env, d)(a), AttributeGain(env, d)(a))
  {
    var tag := AttributeTag(env, d, a);
    var start := InAttribute(RawAttributeOf(env,
        d)(a).(slot := Slot(RawType(None, TypeXmiId(env, d, a.typ)), None, None, None)));
    AttributeOpens(env, d, a, owner);
    SlotFills(env, d, start, a.typ, a.defaultValue);
    MemberGives(AClassifier(owner), tag, start, WriteSlot(env, a.typ, a.defaultValue),
        RawSlotOf(env, d, a.typ, a.defaultValue));
    IdsOfTag(env, tag, AttributeId, a.id);
  }

  lemma ParameterTagReads(env: Env, d: Diagram, direction: string, id: string, name: string, t: TypeReference,
      o: RawOperation)
    requires direction == "in" || (direction == "return" && name == "return")
    requires o.returnParameter.None?
    ensures AttributesAllowed(ParameterTag(env, d, direction, id, name, t))
    ensures NewParameter(ParameterTag(env, d, direction, id, name, t), o) ==
            Some(RawParameter(Some(CanonicalId(env, ParameterId, id)), Some(name), direction == "return",
                              Slot(RawType(None, TypeXmiId(env, d, t)), None, None, None)))
  {
    assert |"in"| != |"return"|;
  }

  lemma ParameterOpens(env: Env, d: Diagram, direction: string, id: string, name: string, t: TypeReference)
    requires direction == "in" || (direction == "return" && name == "return")
    ensures Opens(AnOperation, ParameterTag(env, d, direction, id, name, t),
              InParameter(RawParameter(Some(CanonicalId(env, ParameterId, id)), Some(name), direction == "return",
                                       Slot(RawType(None, TypeXmiId(env, d, t)), None, None, None))))
  {
    var tag := ParameterTag(env, d, direction, id, name, t);
    var p := RawParameter(Some(CanonicalId(env, ParameterId, id)), Some(name), direction == "return",
                          Slot(RawType(None, TypeXmiId(env, d, t)), None, None, None));
    forall st | IsAt(AnOperation, st)
      ensures Opened(st, tag) == Some(State(Frame(InParameter(p), st.contexts), st.raw, st.ids + Ids(tag)))
    {
      ParameterTagReads(env, d, direction, id, name, t, st.contexts.top.operation);
      OpenedIsEntered(st, tag);
    }
  }

  lemma AnyParameterGives(env: Env, d: Diagram, direction: string, id: string, name: string, t: TypeReference,
      value: Option<string>)
    requires direction == "in" || (direction == "return" && name == "return" && value.None?)
    requires TypeIsKnown(d, t) && DefaultIsPlain(value)
    ensures Gives(AnOperation, Nest(ParameterTag(env, d, direction, id, name, t), WriteSlot(env, t, value)),
              GainOf(InParameter(RawParameter(Some(CanonicalId(env, ParameterId, id)), Some(name),
                  direction == "return",
                                              RawSlotOf(env, d, t, value)))).(ids :=
                                                  [CanonicalId(env, ParameterId, id)]))
  {
    assert |"in"| != |"return"|;
    var tag := ParameterTag(env, d, direction, id, name, t);
    var start := InParameter(RawParameter(Some(CanonicalId(env, ParameterId, id)), Some(name), direction == "return",
                                          Slot(RawType(None, TypeXmiId(env, d, t)), None, None, None)));
    ParameterOpens(env, d, direction, id, name, t);
    SlotFills(env, d, start, t, value);
    MemberGives(AnOperation, tag, start, WriteSlot(env, t, value), RawSlotOf(env, d, t, value));
    IdsOfTag(env, tag, ParameterId, id);
  }

  function GainOfParameter(env: Env, d: Diagram, p: Parameter): Gain {
    NOTHING.(parameters := [RawParameterOf(env, d)(p)], ids := ParameterXmiId(env)(p))
  }

  function ParameterGain(env: Env, d: Diagram): Parameter -> Gain { (p: Parameter) => GainOfParameter(env, d, p) }

  lemma PlusOfParameters(a: seq<RawParameter>, i: seq<string>, b: seq<RawParameter>, j: seq<string>)
    ensures Plus(NOTHING.(parameters := a, ids := i), NOTHING.(parameters := b, ids := j))
            == NOTHING.(parameters := a + b, ids := i + j)
  {
  }

  lemma {:induction false} SumOfParameters(env: Env, d: Diagram, ps: seq<Parameter>)
    ensures Sum(ParameterGain(env, d), ps) ==
            NOTHING.(parameters := Map(RawParameterOf(env, d), ps), ids := FlatMap(ParameterXmiId(env), ps))
  {
    if ps != [] {
      SumOfParameters(env, d, ps[1..]);
      PlusOfParameters([RawParameterOf(env, d)(ps[0])], ParameterXmiId(env)(ps[0]),
                       Map(RawParameterOf(env, d), ps[1..]), FlatMap(ParameterXmiId(env), ps[1..]));
      MapCons(RawParameterOf(env, d), ps);
    }
  }

  lemma ParameterGives(env: Env, d: Diagram, p: Parameter)
    requires ReadableParameter(d, p)
    ensures Gives(AnOperation, WriteParameter(env, d)(p), ParameterGain(env, d)(p))
  {
    assert |"in"| != |"return"|;
    ghost var events := Nest(ParameterTag(env, d, "in", p.id, p.name, p.typ), WriteSlot(env, p.typ, p.defaultValue));
    ghost var raw := RawParameter(Some(CanonicalId(env, ParameterId, p.id)), Some(p.name), false,
                                  RawSlotOf(env, d, p.typ, p.defaultValue));
    ghost var g := GainOf(InParameter(raw)).(ids := [CanonicalId(env, ParameterId, p.id)]);
    assert WriteParameter(env, d)(p) == events;
    assert RawParameterOf(env, d)(p) == raw && ParameterXmiId(env)(p) == g.ids;
    assert ParameterGain(env, d)(p) == g;
    AnyParameterGives(env, d, "in", p.id, p.name, p.typ, p.defaultValue);
  }

  function ParametersGain(env: Env, d: Diagram, ps: seq<Parameter>): Gain {
    NOTHING.(parameters := Map(RawParameterOf(env, d), ps), ids := FlatMap(ParameterXmiId(env), ps))
  }

  lemma ParametersGive(env: Env, d: Diagram, ps: seq<Parameter>)
    requires forall p :: p in ps ==> ReadableParameter(d, p)
    ensures Gives(AnOperation, FlatMap(WriteParameter(env, d), ps), ParametersGain(env, d, ps))
  {
    var write, gain := WriteParameter(env, d), ParameterGain(env, d);
    forall i | 0 <= i < |ps| ensures Gives(AnOperation, write(ps[i]), gain(ps[i])) {
      ParameterGives(env, d, ps[i]);
    }
    GivesAll(AnOperation, write, gain, ps);
    SumOfParameters(env, d, ps);
  }

  function ReturnGain(env: Env, d: Diagram, o: Operation): Gain {
    NOTHING.(returned := Some(RawReturnOf(env, d, o)), ids := [CanonicalId(env, ParameterId, ReturnId(o))])
  }

  lemma ReturnGives(env: Env, d: Diagram, o: Operation)
    requires TypeIsKnown(d, o.returnType)
    ensures Gives(AnOperation, WriteReturn(env, d, o), ReturnGain(env, d, o))
  {
    AnyParameterGives(env, d, "return", ReturnId(o), "return", o.returnType, None);
  }

  lemma OperationTagReads(env: Env, o: Operation)
    ensures AttributesAllowed(OperationTag(env, o))
    ensures NewOperation(OperationTag(env, o)) ==
            Some(RawOperation(Some(CanonicalId(env, OperationId, o.id)), Some(o.name),
                              Some(VisibilityText(o.visibility)), o.isAbstract, o.isStatic, [], None))
  {
    BoolRoundTrip(o.isAbstract);
    BoolRoundTrip(o.isStatic);
  }

  lemma OperationOpens(env: Env, o: Operation, owner: Option<string>)
    ensures Opens(AClassifier(owner), OperationTag(env, o),
              InOperation(RawOperation(Some(CanonicalId(env, OperationId, o.id)), Some(o.name),
                                       Some(VisibilityText(o.visibility)), o.isAbstract, o.isStatic, [], None)))
  {
    var tag := OperationTag(env, o);
    OperationTagReads(env, o);
    forall st | IsAt(AClassifier(owner), st)
      ensures Opened(st, tag) == Some(State(Frame(InOperation(NewOperation(tag).value), st.contexts), st.raw,
                  st.ids + Ids(tag)))
    {
      OpenedIsEntered(st, tag);
    }
  }

  function GainOfOperation(env: Env, d: Diagram, o: Operation): Gain {
    NOTHING.(operations := [RawOperationOf(env, d)(o)], ids := OperationXmiIds(env)(o))
  }

  function OperationGain(env: Env, d: Diagram): Operation -> Gain { (o: Operation) => GainOfOperation(env, d, o) }

  function BodyGain(env: Env, d: Diagram, o: Operation): Gain {
    NOTHING.(parameters := Map(RawParameterOf(env, d), o.parameters), returned := Some(RawReturnOf(env, d, o)),
             ids := FlatMap(ParameterXmiId(env), o.parameters) + [CanonicalId(env, ParameterId, ReturnId(o))])
  }

  function WriteBodyOf(env: Env, d: Diagram, o: Operation): seq<Event> {
    FlatMap(WriteParameter(env, d), o.parameters) + WriteReturn(env, d, o)
  }

  lemma OperationBodyGives(env: Env, d: Diagram, o: Operation)
    requires ReadableOperation(d, o)
    ensures Gives(AnOperation, WriteBodyOf(env, d, o), BodyGain(env, d, o))
  {
    var g, h := ParametersGain(env, d, o.parameters), ReturnGain(env, d, o);
    assert g.parameters + [] == g.parameters;
    assert BodyGain(env, d, o) == Plus(g, h);
    ParametersGive(env, d, o.parameters);
    ReturnGives(env, d, o);
    GivesBoth(AnOperation, FlatMap(WriteParameter(env, d), o.parameters), g, WriteReturn(env, d, o), h);
  }

  lemma OperationWraps(env: Env, d: Diagram, o: Operation, start: RawOperation)
    requires start == RawOperation(Some(CanonicalId(env, OperationId, o.id)), Some(o.name),
                                   Some(VisibilityText(o.visibility)), o.isAbstract, o.isStatic, [], None)
    ensures Wrap(InOperation(start), BodyGain(env, d, o), [CanonicalId(env, OperationId, o.id)])
              == OperationGain(env, d)(o)
  {
    var g := BodyGain(env, d, o);
    assert [] + g.parameters == g.parameters;
    assert OperationXmiIds(env)(o) == [CanonicalId(env, OperationId, o.id)] + g.ids;
  }

  lemma OperationGives(env: Env, d: Diagram, o: Operation, owner: Option<string>)
    requires ReadableOperation(d, o)
    ensures Gives(AClassifier(owner), WriteOperation(env, d)(o), OperationGain(env, d)(o))
  {
    var tag := OperationTag(env, o);
    var start := RawOperation(Some(CanonicalId(env, OperationId, o.id)), Some(o.name),
                              Some(VisibilityText(o.visibility)), o.isAbstract, o.isStatic, [], None);
    assert WriteOperation(env, d)(o) == Nest(tag, WriteBodyOf(env, d, o));
    OperationWraps(env, d, o, start);
    OperationOpens(env, o, owner);
    OperationBodyGives(env, d, o);
    IdsOfTag(env, tag, OperationId, o.id);
    NestGives(AClassifier(owner), AnOperation, tag, InOperation(start), WriteBodyOf(env, d, o), BodyGain(env, d, o));
  }
}
