/** The vocabulary of the XMI profile, as the sequence of tags a document consists of. */
module XmiDocument {

  import opened Wrappers

  datatype Element =
    | XmiRoot | UmlModel | PackagedElement | OwnedAttribute | OwnedOperation | OwnedParameter | OwnedEnd
    | TypeOf | LowerValue | UpperValue | DefaultValue | GeneralizationOf | InterfaceRealizationOf | OtherElement

  /** The local name of xmi:type. */
  datatype Metatype =
    | ClassType | InterfaceType | AssociationType | AssociationClassType | DataType | PrimitiveType | DependencyType
    | PropertyType | LiteralInteger | LiteralUnlimitedNatural | LiteralString | OtherType

  datatype Attr =
    | XmiId | XmiVersion | Name | TypeAttr | Idref | Href | Value | IsAbstract | IsReadOnly | IsStatic | VisibilityAttr
    | Direction | MemberEnd | NavigableOwnedEnd | AssociationName | AggregationAttr | IsNavigable | Client | Supplier
    | Contract | General | LowerAttr | UpperAttr

  datatype Tag = Tag(element: Element, metatype: Option<Metatype>, attrs: map<Attr, string>)

  datatype Event = Open(tag: Tag) | Close

  function Get(tag: Tag, key: Attr): (r: Option<string>) {
    if key in tag.attrs then Some(tag.attrs[key]) else None
  }

  /** An absent value writes no attribute. */
  function With(attrs: map<Attr, string>, key: Attr, value: Option<string>): map<Attr, string> {
    if value.Some? then attrs[key := value.value] else attrs
  }

  /** <tag/> */
  function Leaf(tag: Tag): seq<Event> { [Open(tag), Close] }

  /** <tag> inner </tag> */
  function Nest(tag: Tag, inner: seq<Event>): seq<Event> { [Open(tag)] + inner + [Close] }

  // The limits of the profile that concern tags.

  const MAX_NODES: nat := 10000
  const MAX_DEPTH: nat := 64
  const MAX_VALUE_CHARACTERS: nat := 2000

  function OpenCount(events: seq<Event>): nat {
    if events == [] then 0 else OpenCount(events[..|events| - 1]) + (if events[|events| - 1].Open? then 1 else 0)
  }

  predicate ValuesFit(event: Event) {
    event.Open? ==> forall key :: key in event.tag.attrs ==> |event.tag.attrs[key]| <= MAX_VALUE_CHARACTERS
  }

  ghost predicate WithinLimits(events: seq<Event>) {
    OpenCount(events) <= MAX_NODES && forall i :: 0 <= i < |events| ==> ValuesFit(events[i])
  }
}
