/**
 Reading the tags of an XMI document with a stack of open elements. The specification says what each
 tag does to the state; the parser class does it field by field and rejects as soon as it can.
 */
module XmiParser {

  import opened Wrappers
  import opened Sequences
  import opened Machines
  import opened Integrity
  import opened XmiText
  import opened XmiDocument

  datatype RawType = RawType(href: Option<string>, reference: Option<string>)

  /** The nested parts of a typed member. */
  datatype Slot = Slot(typ: RawType, lower: Option<string>, upper: Option<string>, defaultValue: Option<string>)

  datatype RawAttribute = RawAttribute(
    id: Option<string>, name: Option<string>, visibility: Option<string>, isReadOnly: bool, isStatic: bool, slot: Slot)

  datatype RawParameter = RawParameter(id: Option<string>, name: Option<string>, isReturn: bool, slot: Slot)

  datatype RawOperation = RawOperation(
    id: Option<string>, name: Option<string>, visibility: Option<string>, isAbstract: bool, isStatic: bool,
    parameters: seq<RawParameter>, returnParameter: Option<RawParameter>)

  datatype RawClassifier = RawClassifier(
    id: Option<string>, name: Option<string>, isInterface: bool, isAbstract: bool,
    attributes: seq<RawAttribute>, operations: seq<RawOperation>)

  datatype RawEnd = RawEnd(
    id: Option<string>, name: Option<string>, aggregation: Option<string>, navigable: Option<bool>, slot: Slot)

  datatype RawAssociation = RawAssociation(
    id: Option<string>, name: Option<string>, isClass: bool,
    memberEnds: seq<string>, navigableEnds: Option<seq<string>>, ends: seq<RawEnd>)

  datatype DirectedKind = RawGeneralization | RawRealization | RawDependency

  datatype RawDirected = RawDirected(
    id: Option<string>, name: Option<string>, kind: DirectedKind, source: Option<string>, target: Option<string>)

  datatype RawDataType = RawDataType(id: Option<string>, name: Option<string>)

  datatype Raw = Raw(
    version: Option<string>, sawModel: bool, modelName: Option<string>,
    classifiers: seq<RawClassifier>, associations: seq<RawAssociation>,
    directed: seq<RawDirected>, dataTypes: seq<RawDataType>, ignored: nat)

  const EMPTY_RAW := Raw(None, false, None, [], [], [], [], 0)

  /** An open element, holding what has been read of it. */
  datatype Context =
    | InRoot
    | InModel
    | InElement(classifier: Option<RawClassifier>, association: Option<RawAssociation>)
    | InAttribute(attribute: RawAttribute)
    | InOperation(operation: RawOperation)
    | InParameter(parameter: RawParameter)
    | InEnd(end: RawEnd)
    | InLeaf
    | InIgnored

  datatype Stack = Bottom | Frame(top: Context, below: Stack)

  function Depth(s: Stack): nat {
    match s
    case Bottom => 0
    case Frame(_, below) => 1 + Depth(below)
  }

  datatype State = State(contexts: Stack, raw: Raw, ids: seq<string>)

  const START := State(Bottom, EMPTY_RAW, [])

  // What may be written where.

  function Allowed(tag: Tag): set<Attr> {
    match tag.element
    case XmiRoot => {XmiVersion}
    case UmlModel => {XmiId, Name}
    case OwnedAttribute => {XmiId, IsReadOnly, IsStatic, LowerAttr, UpperAttr, Name, TypeAttr, VisibilityAttr}
    case OwnedOperation => {XmiId, IsAbstract, IsStatic, Name, VisibilityAttr}
    case OwnedParameter => {XmiId, Direction, LowerAttr, UpperAttr, Name, TypeAttr}
    case OwnedEnd => {XmiId, AggregationAttr, IsNavigable, IsReadOnly, LowerAttr, UpperAttr, Name, TypeAttr}
    case GeneralizationOf => {XmiId, General, Name}
    case InterfaceRealizationOf => {XmiId, Client, Contract, Name, Supplier}
    case TypeOf => {Href, TypeAttr, Idref}
    case DefaultValue => {Value}
    case LowerValue => {XmiId, Value}
    case UpperValue => {XmiId, Value}
    case OtherElement => {}
    case PackagedElement =>
      if tag.metatype == Some(ClassType) || tag.metatype == Some(InterfaceType) then {XmiId, IsAbstract, Name}
      else if tag.metatype == Some(AssociationType) then {XmiId, MemberEnd, Name, NavigableOwnedEnd}
      else if tag.metatype == Some(AssociationClassType) then
        {XmiId, AssociationName, IsAbstract, MemberEnd, Name, NavigableOwnedEnd}
      else if tag.metatype == Some(DependencyType) then {XmiId, Client, Name, Supplier}
      else {XmiId, Name}
  }

  predicate AttributesAllowed(tag: Tag) {
    && tag.attrs.Keys <= Allowed(tag)
    && (tag.element == OwnedAttribute || tag.element == OwnedEnd ==>
          tag.metatype.None? || tag.metatype == Some(PropertyType))
  }

  predicate Contains(parent: Context, element: Element) {
    match parent
    case InRoot => element == UmlModel
    case InModel => element == PackagedElement
    case InElement(c, a) =>
      || (a.Some? && element == OwnedEnd)
      || (c.Some? && (element == GeneralizationOf || element == InterfaceRealizationOf
                      || element == OwnedAttribute || element == OwnedOperation))
    case InOperation(_) => element == OwnedParameter
    case InLeaf => false
    case InIgnored => true
    case _ => element == DefaultValue || element == LowerValue || element == TypeOf || element == UpperValue
  }

  /** The parent holds what the element is going to read from it. */
  predicate HasParts(parent: Context, element: Element) {
    && (element == OwnedParameter ==> parent.InOperation?)
    && (element == GeneralizationOf || element == InterfaceRealizationOf ==>
         parent.InElement? && parent.classifier.Some?)
  }

  predicate IsIgnored(tag: Tag) {
    || tag.element == OtherElement
    || (tag.element == PackagedElement && (tag.metatype.None? || tag.metatype.value in
         {PropertyType, LiteralInteger, LiteralUnlimitedNatural, LiteralString, OtherType}))
  }

  // Pieces of a tag.

  function Ids(tag: Tag): seq<string> {
    var id := Get(tag, XmiId);
    if id.None? || id.value == "" then [] else [id.value]
  }

  function BoolOr(value: Option<string>): Option<bool> {
    if value.None? then Some(false) else ParseBool(value.value)
  }

  function References(value: Option<string>): seq<string> {
    if value.None? then [] else Words(value.value)
  }

  function SlotOf(tag: Tag): Slot {
    Slot(RawType(None, Get(tag, TypeAttr)), Get(tag, LowerAttr), Get(tag, UpperAttr), None)
  }

  function SlotIn(parent: Context): Option<Slot> {
    match parent
    case InAttribute(a) => Some(a.slot)
    case InParameter(p) => Some(p.slot)
    case InEnd(e) => Some(e.slot)
    case _ => None
  }

  function WithSlot(parent: Context, slot: Slot): Context {
    match parent
    case InAttribute(a) => InAttribute(a.(slot := slot))
    case InParameter(p) => InParameter(p.(slot := slot))
    case InEnd(e) => InEnd(e.(slot := slot))
    case _ => parent
  }

  predicate IsDeclared(t: RawType) { t.href.Some? || t.reference.Some? }

  function Present(value: Option<string>): bool { value.Some? && value.value != "" }

  /** What a nested tag writes into the member it belongs to. */
  function Filled(parent: Context, slot: Slot, tag: Tag): Option<Slot> {
    match tag.element
    case TypeOf =>
      var plain, idref, href := Get(tag, TypeAttr), Get(tag, Idref), Get(tag, Href);
      if || (tag.metatype.Some? && tag.metatype.value !in {ClassType, InterfaceType, DataType, PrimitiveType})
         || IsDeclared(slot.typ)
         || (Present(href) && (Present(plain) || Present(idref)))
         || (Present(plain) && Present(idref) && plain != idref)
         || (!Present(href) && !Present(plain) && !Present(idref)) then None
      else Some(slot.(typ := RawType(href, if plain.Some? then plain else idref)))
    case DefaultValue =>
      var value := Get(tag, Value);
      if || (tag.metatype.Some? && tag.metatype != Some(LiteralString))
         || parent.InEnd? || (parent.InParameter? && parent.parameter.isReturn)
         || slot.defaultValue.Some? || value.None? || HasLineSpace(value.value) then None
      else Some(slot.(defaultValue := value))
    case LowerValue =>
      var value := Get(tag, Value);
      if || (tag.metatype.Some? && tag.metatype != Some(LiteralInteger))
         || slot.lower.Some? || value.None? || IsBlank(value.value) then None
      else Some(slot.(lower := value))
    case _ =>
      var value := Get(tag, Value);
      if || (tag.metatype.Some? && tag.metatype.value !in {LiteralInteger, LiteralUnlimitedNatural})
         || slot.upper.Some? || value.None? || IsBlank(value.value) then None
      else Some(slot.(upper := value))
  }

  function NewClassifier(tag: Tag): Option<RawClassifier> {
    var isAbstract := BoolOr(Get(tag, IsAbstract));
    if isAbstract.None? then None
    else Some(RawClassifier(Get(tag, XmiId), Get(tag, Name), tag.metatype == Some(InterfaceType), isAbstract.value,
        [], []))
  }

  function NewAssociation(tag: Tag): Option<RawAssociation> {
    var exported := Get(tag, AssociationName);
    if exported.Some? && IsBlank(exported.value) then None
    else
      Some(RawAssociation(
        Get(tag, XmiId), if exported.Some? then exported else Get(tag, Name),
            tag.metatype == Some(AssociationClassType),
        References(Get(tag, MemberEnd)),
        if Get(tag, NavigableOwnedEnd).None? then None else Some(References(Get(tag, NavigableOwnedEnd))), []))
  }

  function NewAttribute(tag: Tag): Option<RawAttribute> {
    var isReadOnly, isStatic := BoolOr(Get(tag, IsReadOnly)), BoolOr(Get(tag, IsStatic));
    if isReadOnly.None? || isStatic.None? then None
    else Some(RawAttribute(Get(tag, XmiId), Get(tag, Name), Get(tag, VisibilityAttr), isReadOnly.value,
        isStatic.value, SlotOf(tag)))
  }

  function NewOperation(tag: Tag): Option<RawOperation> {
    var isAbstract, isStatic := BoolOr(Get(tag, IsAbstract)), BoolOr(Get(tag, IsStatic));
    if isAbstract.None? || isStatic.None? then None
    else Some(RawOperation(Get(tag, XmiId), Get(tag, Name), Get(tag, VisibilityAttr), isAbstract.value,
        isStatic.value, [], None))
  }

  function NewParameter(tag: Tag, operation: RawOperation): Option<RawParameter> {
    var direction := Get(tag, Direction);
    var isReturn := direction == Some("return");
    if Present(direction) && direction != Some("in") && !isReturn then None
    else if isReturn && (Get(tag, Name) != Some("return") || operation.returnParameter.Some?) then None
    else Some(RawParameter(Get(tag, XmiId), Get(tag, Name), isReturn, SlotOf(tag)))
  }

  function NewEnd(tag: Tag): Option<RawEnd> {
    var aggregation, navigable := Get(tag, AggregationAttr), Get(tag, IsNavigable);
    if Present(aggregation) && aggregation.value !in {"none", "shared", "composite"} then None
    else if navigable.Some? && ParseBool(navigable.value).None? then None
    else
      Some(RawEnd(Get(tag, XmiId), Get(tag, Name), aggregation,
                  if navigable.None? then None else ParseBool(navigable.value), SlotOf(tag)))
  }

  function First(words: seq<string>): Option<string> { if words == [] then None else Some(words[0]) }

  // The state after a tag.

  function Push(st: State, context: Context): State { st.(contexts := Frame(context, st.contexts)) }

  function Packaged(st: State, tag: Tag): Option<State> {
    match tag.metatype.GetOr(OtherType)
    case DataType =>
      Some(Push(st.(raw := st.raw.(dataTypes := st.raw.dataTypes + [RawDataType(Get(tag, XmiId), Get(tag, Name))])),
          InLeaf))
    case DependencyType =>
      var clients, suppliers := References(Get(tag, Client)), References(Get(tag, Supplier));
      if |clients| > 1 || |suppliers| > 1 then None
      else
        var d := RawDirected(Get(tag, XmiId), Get(tag, Name), RawDependency, First(clients), First(suppliers));
        Some(Push(st.(raw := st.raw.(directed := st.raw.directed + [d])), InLeaf))
    case PrimitiveType => None
    case AssociationType =>
      var a := NewAssociation(tag);
      if a.None? then None else Some(Push(st, InElement(None, a)))
    case AssociationClassType =>
      var c, a := NewClassifier(tag), NewAssociation(tag);
      if c.None? || a.None? then None else Some(Push(st, InElement(c, a)))
    case _ =>
      var c := NewClassifier(tag);
      if c.None? then None else Some(Push(st, InElement(c, None)))
  }

  /** A tag that completes the member around it. */
  function Nested(st: State, tag: Tag): Option<State>
    requires st.contexts.Frame?
  {
    var parent := st.contexts.top;
    var slot := SlotIn(parent);
    if slot.None? then None
    else
      var filled := Filled(parent, slot.value, tag);
      if filled.None? then None
      else Some(Push(st.(contexts := Frame(WithSlot(parent, filled.value), st.contexts.below)), InLeaf))
  }

  /** A semantic tag inside an element that may contain it. */
  function Entered(st: State, tag: Tag): Option<State>
    requires st.contexts.Frame? && HasParts(st.contexts.top, tag.element)
  {
    var parent := st.contexts.top;
    match tag.element
    case UmlModel =>
      if st.raw.sawModel then None
      else Some(Push(st.(raw := st.raw.(sawModel := true, modelName := Get(tag, Name))), InModel))
    case PackagedElement => Packaged(st, tag)
    case OwnedAttribute =>
      var a := NewAttribute(tag);
      if a.None? then None else Some(Push(st, InAttribute(a.value)))
    case OwnedOperation =>
      var o := NewOperation(tag);
      if o.None? then None else Some(Push(st, InOperation(o.value)))
    case OwnedParameter =>
      var p := NewParameter(tag, parent.operation);
      if p.None? then None else Some(Push(st, InParameter(p.value)))
    case OwnedEnd =>
      var e := NewEnd(tag);
      if e.None? then None else Some(Push(st, InEnd(e.value)))
    case GeneralizationOf =>
      var d := RawDirected(Get(tag, XmiId), Get(tag, Name), RawGeneralization, parent.classifier.value.id,
          Get(tag, General));
      Some(Push(st.(raw := st.raw.(directed := st.raw.directed + [d])), InLeaf))
    case InterfaceRealizationOf =>
      var target := if Get(tag, Supplier).Some? then Get(tag, Supplier) else Get(tag, Contract);
      var d := RawDirected(Get(tag, XmiId), Get(tag, Name), RawRealization, parent.classifier.value.id, target);
      Some(Push(st.(raw := st.raw.(directed := st.raw.directed + [d])), InLeaf))
    case _ => Nested(st, tag)
  }

  function Opened(st: State, tag: Tag): Option<State> {
    if Depth(st.contexts) + 1 > MAX_DEPTH then None
    else
      match st.contexts
      case Bottom =>
        if tag.element == XmiRoot && AttributesAllowed(tag)
        then Some(Push(st.(raw := st.raw.(version := Get(tag, XmiVersion))), InRoot)) else None
      case Frame(parent, _) =>
        if parent.InIgnored? then Some(Push(st, InIgnored))
        else if parent.InRoot? && tag.element != UmlModel then None
        else
          var registered := st.(ids := st.ids + Ids(tag));
          if IsIgnored(tag) then
            Some(Push(registered.(raw := registered.raw.(ignored := registered.raw.ignored + 1)), InIgnored))
          else if !AttributesAllowed(tag) || !Contains(parent, tag.element) then None
          else Entered(registered, tag)
  }

  /** Leaving an element attaches it to the one around it, or to the model. */
  function Closed(st: State): Option<State> {
    match st.contexts
    case Bottom => None
    case Frame(context, below) =>
      var rest := st.(contexts := below);
      match context
      case InElement(c, a) =>
        Some(rest.(raw := st.raw.(
          classifiers := st.raw.classifiers + (if c.Some? then [c.value] else []),
          associations := st.raw.associations + (if a.Some? then [a.value] else []))))
      case InAttribute(a) =>
        if below.Frame? && below.top.InElement? && below.top.classifier.Some? then
          var c := below.top.classifier.value;
          Some(rest.(contexts := Frame(below.top.(classifier := Some(c.(attributes := c.attributes + [a]))),
              below.below)))
        else None
      case InOperation(o) =>
        if below.Frame? && below.top.InElement? && below.top.classifier.Some? then
          var c := below.top.classifier.value;
          Some(rest.(contexts := Frame(below.top.(classifier := Some(c.(operations := c.operations + [o]))),
              below.below)))
        else None
      case InParameter(p) =>
        if below.Frame? && below.top.InOperation? then
          var o := below.top.operation;
          Some(rest.(contexts := Frame(InOperation(
            if p.isReturn then o.(returnParameter := Some(p)) else o.(parameters := o.parameters + [p])), below.below)))
        else None
      case InEnd(e) =>
        if below.Frame? && below.top.InElement? && below.top.association.Some? then
          var a := below.top.association.value;
          Some(rest.(contexts := Frame(below.top.(association := Some(a.(ends := a.ends + [e]))), below.below)))
        else None
      case _ => Some(rest)
  }

  function Step(st: State, event: Event): Option<State> {
    match event
    case Open(tag) => Opened(st, tag)
    case Close => Closed(st)
  }

  function Steps(): (State, Event) -> Option<State> { (st: State, event: Event) => Step(st, event) }

  function Run(st: State, events: seq<Event>): Option<State> { RunWith(Steps(), st, events) }

  predicate IsVersion(version: Option<string>) {
    version.None? || version == Some("2.5") || version == Some("2.5.1")
  }

  /** What a document means to the importer: every tag is accepted, ids differ, and the limits hold. */
  ghost function Parsed(events: seq<Event>): Option<Raw> {
    var end := Run(START, events);
    if && WithinLimits(events) && end.Some? && Distinct(end.value.ids)
       && end.value.contexts.Bottom? && end.value.raw.sawModel && IsVersion(end.value.raw.version)
    then Some(end.value.raw) else None
  }

  lemma RunAppend(st: State, a: seq<Event>, b: seq<Event>)
    ensures Run(st, a + b) == (var mid := Run(st, a); if mid.None? then None else Run(mid.value, b))
  {
    RunWithAppend(Steps(), st, a, b);
  }
}
