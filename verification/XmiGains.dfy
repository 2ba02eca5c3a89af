/** Composing runs of the parser: what a stretch of tags adds to the state around it. */
module XmiGains {

  import opened Wrappers
  import opened Sequences
  import opened XmiDocument
  import opened XmiParser

  // Single tags.

  lemma RunNest(st: State, tag: Tag, inner: seq<Event>)
    ensures Run(st, Nest(tag, inner)) ==
            (var a := Opened(st, tag);
             if a.None? then None else
             var b := Run(a.value, inner);
             if b.None? then None else Closed(b.value))
  {
    var events := Nest(tag, inner);
    assert events == [Open(tag)] + (inner + [Close]);
    assert events[0] == Open(tag) && events[1..] == inner + [Close];
    var a := Opened(st, tag);
    if a.Some? {
      RunAppend(a.value, inner, [Close]);
      var b := Run(a.value, inner);
      if b.Some? { assert [Close][1..] == []; }
    }
  }

  lemma RunLeaf(st: State, tag: Tag)
    ensures Run(st, Leaf(tag)) == (var a := Opened(st, tag); if a.None? then None else Closed(a.value))
  {
    var events := Leaf(tag);
    assert events[0] == Open(tag) && events[1..] == [Close] && [Close][1..] == [];
    var a := Opened(st, tag);
    assert Run(st, events) == if a.None? then None else Run(a.value, [Close]);
    if a.Some? { assert Run(a.value, [Close]) == Closed(a.value); }
  }

  // What a stretch of tags adds to the state around it.

  datatype Gain = Gain(
    classifiers: seq<RawClassifier>, associations: seq<RawAssociation>, directed: seq<RawDirected>,
    dataTypes: seq<RawDataType>, attributes: seq<RawAttribute>, operations: seq<RawOperation>, ends: seq<RawEnd>,
    parameters: seq<RawParameter>, returned: Option<RawParameter>, ids: seq<string>)

  const NOTHING := Gain([], [], [], [], [], [], [], [], None, [])

  function Plus(g: Gain, h: Gain): Gain {
    Gain(g.classifiers + h.classifiers, g.associations + h.associations, g.directed + h.directed,
         g.dataTypes + h.dataTypes, g.attributes + h.attributes, g.operations + h.operations, g.ends + h.ends,
         g.parameters + h.parameters, if h.returned.Some? then h.returned else g.returned, g.ids + h.ids)
  }

  function GainedRaw(raw: Raw, g: Gain): Raw {
    raw.(classifiers := raw.classifiers + g.classifiers, associations := raw.associations + g.associations,
         directed := raw.directed + g.directed, dataTypes := raw.dataTypes + g.dataTypes)
  }

  function GainedClassifier(c: RawClassifier, g: Gain): RawClassifier {
    c.(attributes := c.attributes + g.attributes, operations := c.operations + g.operations)
  }

  function GainedOperation(o: RawOperation, g: Gain): RawOperation {
    o.(parameters := o.parameters + g.parameters,
       returnParameter := if g.returned.Some? then g.returned else o.returnParameter)
  }

  function GainedContext(context: Context, g: Gain): Context {
    match context
    case InElement(c, a) =>
      InElement(if c.None? then None else Some(GainedClassifier(c.value, g)),
                if a.None? then None else Some(a.value.(ends := a.value.ends + g.ends)))
    case InOperation(o) => InOperation(GainedOperation(o, g))
    case _ => context
  }

  function Gained(st: State, g: Gain): State {
    State(if st.contexts.Bottom? then Bottom else Frame(GainedContext(st.contexts.top, g), st.contexts.below),
          GainedRaw(st.raw, g), st.ids + g.ids)
  }

  lemma GainNothing(st: State)
    ensures Gained(st, NOTHING) == st
  {
    assert forall s: seq<RawAttribute> :: s + [] == s;
    assert forall s: seq<RawOperation> :: s + [] == s;
    assert forall s: seq<RawParameter> :: s + [] == s;
    assert forall s: seq<RawEnd> :: s + [] == s;
    assert GainedRaw(st.raw, NOTHING) == st.raw;
    assert st.ids + [] == st.ids;
  }

  /** A gain without members leaves the open elements as they are. */
  lemma GainOutside(st: State, g: Gain)
    requires g.attributes == [] && g.operations == [] && g.ends == [] && g.parameters == [] && g.returned.None?
    ensures Gained(st, g) == State(st.contexts, GainedRaw(st.raw, g), st.ids + g.ids)
  {
    assert forall s: seq<RawAttribute> :: s + [] == s;
    assert forall s: seq<RawOperation> :: s + [] == s;
    assert forall s: seq<RawParameter> :: s + [] == s;
    assert forall s: seq<RawEnd> :: s + [] == s;
  }

  lemma GainTwice(st: State, g: Gain, h: Gain)
    ensures Gained(Gained(st, g), h) == Gained(st, Plus(g, h))
  {
    assert GainedRaw(GainedRaw(st.raw, g), h) == GainedRaw(st.raw, Plus(g, h));
    assert (st.ids + g.ids) + h.ids == st.ids + (g.ids + h.ids);
    if st.contexts.Frame? {
      match st.contexts.top {
        case InElement(c, a) =>
          if c.Some? {
            assert (c.value.attributes + g.attributes) + h.attributes == c.value.attributes
                + (g.attributes + h.attributes);
            assert (c.value.operations + g.operations) + h.operations == c.value.operations
                + (g.operations + h.operations);
          }
          if a.Some? { assert (a.value.ends + g.ends) + h.ends == a.value.ends + (g.ends + h.ends); }
        case InOperation(o) =>
          assert (o.parameters + g.parameters) + h.parameters == o.parameters + (g.parameters + h.parameters);
        case _ =>
      }
    }
  }

  /**
   The places where tags are read: the model, a classifier with its id, an association, an operation without return.
   */
  datatype Place =
    TheModel | AClassifier(id: Option<string>) | AnAssociation | AnAssociationClass(id: Option<string>) | AnOperation

  function Level(place: Place): nat {
    match place
    case TheModel => 2
    case AnOperation => 4
    case _ => 3
  }

  predicate Fits(place: Place, context: Context) {
    match place
    case TheModel => context.InModel?
    case AClassifier(id) => HoldsClassifier(context, id)
    case AnAssociation => HoldsAssociation(context)
    case AnAssociationClass(id) => HoldsClassifier(context, id) && HoldsAssociation(context)
    case AnOperation => context.InOperation? && context.operation.returnParameter.None?
  }

  predicate IsAt(place: Place, st: State) {
    st.contexts.Frame? && Depth(st.contexts) <= Level(place) && Fits(place, st.contexts.top)
  }

  predicate HoldsClassifier(context: Context, id: Option<string>) {
    context.InElement? && context.classifier.Some? && context.classifier.value.id == id
  }

  predicate HoldsAssociation(context: Context) { context.InElement? && context.association.Some? }

  lemma GainStays(place: Place, st: State, g: Gain)
    requires IsAt(place, st) && g.returned.None?
    ensures IsAt(place, Gained(st, g))
  {
  }

  /** Read at this place, the events add exactly g. */
  ghost predicate Gives(place: Place, events: seq<Event>, g: Gain) {
    forall st :: IsAt(place, st) ==> Run(st, events) == Some(Gained(st, g))
  }

  lemma GivesNothing(place: Place)
    ensures Gives(place, [], NOTHING)
  {
    forall st | IsAt(place, st) ensures Run(st, []) == Some(Gained(st, NOTHING)) {
      GainNothing(st);
    }
  }

  lemma GivesBoth(place: Place, a: seq<Event>, g: Gain, b: seq<Event>, h: Gain)
    requires Gives(place, a, g) && Gives(place, b, h) && g.returned.None?
    ensures Gives(place, a + b, Plus(g, h))
  {
    forall st | IsAt(place, st) ensures Run(st, a + b) == Some(Gained(st, Plus(g, h))) {
      RunAppend(st, a, b);
      GainStays(place, st, g);
      GainTwice(st, g, h);
    }
  }

  lemma ThreeGive(place: Place, x: seq<Event>, a: Gain, y: seq<Event>, b: Gain, z: seq<Event>, c: Gain)
    requires Gives(place, x, a) && Gives(place, y, b) && Gives(place, z, c) && a.returned.None? && b.returned.None?
    ensures Gives(place, x + y + z, Plus(Plus(a, b), c))
  {
    GivesBoth(place, x, a, y, b);
    GivesBoth(place, x + y, Plus(a, b), z, c);
  }

  /** An association class reads what a classifier reads and what an association reads. */
  lemma GivesInClass(id: Option<string>, events: seq<Event>, g: Gain)
    requires Gives(AClassifier(id), events, g) || Gives(AnAssociation, events, g)
    ensures Gives(AnAssociationClass(id), events, g)
  {
    forall st | IsAt(AnAssociationClass(id), st) ensures Run(st, events) == Some(Gained(st, g)) {
      assert IsAt(AClassifier(id), st) && IsAt(AnAssociation, st);
    }
  }

  function Sum<T>(gain: T -> Gain, xs: seq<T>): Gain {
    if xs == [] then NOTHING else Plus(gain(xs[0]), Sum(gain, xs[1..]))
  }

  lemma {:induction false} GivesAll<T>(place: Place, write: T -> seq<Event>, gain: T -> Gain, xs: seq<T>)
    requires forall i :: 0 <= i < |xs| ==> Gives(place, write(xs[i]), gain(xs[i])) && gain(xs[i]).returned.None?
    ensures Gives(place, FlatMap(write, xs), Sum(gain, xs)) && Sum(gain, xs).returned.None?
  {
    if xs == [] {
      GivesNothing(place);
    } else {
      GivesAll(place, write, gain, xs[1..]);
      GivesBoth(place, write(xs[0]), gain(xs[0]), FlatMap(write, xs[1..]), Sum(gain, xs[1..]));
    }
  }

  // Opening tags.

  /** At this place the tag opens a context and changes nothing else. */
  ghost predicate Opens(place: Place, tag: Tag, context: Context) {
    forall st :: IsAt(place, st) ==>
        Opened(st, tag) == Some(State(Frame(context, st.contexts), st.raw, st.ids + Ids(tag)))
  }

  /** At this place the tag adds g and opens a context that contains nothing. */
  ghost predicate OpensLeaf(place: Place, tag: Tag, g: Gain) {
    forall st :: IsAt(place, st) ==> Opened(st, tag) == Some(Push(Gained(st, g), InLeaf))
  }

  lemma LeafGives(place: Place, tag: Tag, g: Gain)
    requires OpensLeaf(place, tag, g)
    ensures Gives(place, Leaf(tag), g)
  {
    forall st | IsAt(place, st) ensures Run(st, Leaf(tag)) == Some(Gained(st, g)) {
      RunLeaf(st, tag);
    }
  }

  /** The member a context builds, once closed. */
  function GainOf(context: Context): Gain {
    match context
    case InAttribute(a) => NOTHING.(attributes := [a])
    case InOperation(o) => NOTHING.(operations := [o])
    case InParameter(p) => if p.isReturn then NOTHING.(returned := Some(p)) else NOTHING.(parameters := [p])
    case InEnd(e) => NOTHING.(ends := [e])
    case InElement(c, a) =>
      NOTHING.(classifiers := if c.Some? then [c.value] else [], associations := if a.Some? then [a.value] else [])
    case _ => NOTHING
  }

  predicate ClosesAt(place: Place, context: Context) {
    match context
    case InAttribute(_) => place.AClassifier?
    case InOperation(_) => place.AClassifier?
    case InParameter(_) => place.AnOperation?
    case InEnd(_) => place.AnAssociation?
    case InElement(_, _) => place.TheModel?
    case _ => false
  }

  lemma CloseGains(place: Place, st: State, context: Context, raw: Raw, ids: seq<string>)
    requires IsAt(place, st) && ClosesAt(place, context)
    ensures Closed(State(Frame(context, st.contexts), raw, ids))
              == Some(Gained(State(st.contexts, raw, ids), GainOf(context)))
  {
    assert forall s: seq<RawAttribute> :: s + [] == s;
    assert forall s: seq<RawOperation> :: s + [] == s;
    assert forall s: seq<RawParameter> :: s + [] == s;
    assert forall s: seq<RawEnd> :: s + [] == s;
    assert forall s: seq<RawClassifier> :: s + [] == s;
    assert forall s: seq<RawAssociation> :: s + [] == s;
    assert forall s: seq<RawDirected> :: s + [] == s;
    assert forall s: seq<RawDataType> :: s + [] == s;
    assert ids + [] == ids;
  }

  /** What an element adds that holds context when it is entered, g inside, and the given ids itself. */
  function Wrap(context: Context, g: Gain, ids: seq<string>): Gain {
    GainOf(GainedContext(context, g)).(directed := g.directed, ids := ids + g.ids)
  }

  lemma WrapGains(st: State, context: Context, g: Gain, ids: seq<string>)
    requires g.classifiers == [] && g.associations == [] && g.dataTypes == []
    ensures Gained(State(st.contexts, GainedRaw(st.raw, g), st.ids + ids + g.ids), GainOf(GainedContext(context, g)))
            == Gained(st, Wrap(context, g, ids))
  {
    assert forall s: seq<RawClassifier> :: s + [] == s;
    assert forall s: seq<RawAssociation> :: s + [] == s;
    assert forall s: seq<RawDirected> :: s + [] == s;
    assert forall s: seq<RawDataType> :: s + [] == s;
    assert st.ids + ids + g.ids + [] == st.ids + (ids + g.ids);
  }

  lemma NestGives(place: Place, inside: Place, tag: Tag, context: Context, inner: seq<Event>, g: Gain)
    requires Opens(place, tag, context) && Gives(inside, inner, g)
    requires Level(place) < Level(inside) && Fits(inside, context) && ClosesAt(place, GainedContext(context, g))
    requires g.classifiers == [] && g.associations == [] && g.dataTypes == []
    ensures Gives(place, Nest(tag, inner), Wrap(context, g, Ids(tag)))
  {
    forall st | IsAt(place, st) ensures Run(st, Nest(tag, inner)) == Some(Gained(st, Wrap(context, g, Ids(tag)))) {
      var entered := State(Frame(context, st.contexts), st.raw, st.ids + Ids(tag));
      assert Opened(st, tag) == Some(entered);
      assert IsAt(inside, entered);
      RunNest(st, tag, inner);
      var filled := Gained(entered, g);
      CloseGains(place, st, GainedContext(context, g), filled.raw, filled.ids);
      WrapGains(st, context, g, Ids(tag));
    }
  }
}
