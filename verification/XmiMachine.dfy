/** The parser itself: it updates its fields at every tag and stops at the first fault. */
module XmiMachine {

  import opened Wrappers
  import opened Sequences
  import opened XmiDocument
  import opened XmiParser

  class Parser {
    var contexts: Stack
    var raw: Raw
    var seenIds: set<string>
    var nodeCount: nat
    ghost var ids: seq<string>

    constructor ()
      ensures Valid() && Value() == START && nodeCount == 0
    {
      contexts, raw, seenIds, nodeCount := Bottom, EMPTY_RAW, {}, 0;
      ids := [];
    }

    ghost function Value(): State
      reads this
    {
      State(contexts, raw, ids)
    }

    ghost predicate Valid()
      reads this
    {
      Distinct(ids) && seenIds == set id | id in ids
    }

    method Register(tag: Tag) returns (ok: bool)
      requires Valid()
      modifies this`seenIds, this`ids
      ensures ok <==> Distinct(old(ids) + Ids(tag))
      ensures ok ==> Valid() && ids == old(ids) + Ids(tag)
    {
      DistinctAppend(ids, Ids(tag));
      var id := Get(tag, XmiId);
      if id.Some? && id.value != "" {
        assert Ids(tag) == [id.value];
        if id.value in seenIds { return false; }
        seenIds := seenIds + {id.value};
      }
      ids := ids + Ids(tag);
      return true;
    }

    method Push(context: Context)
      modifies this`contexts
      ensures contexts == Frame(context, old(contexts))
    {
      contexts := Frame(context, contexts);
    }

    method OpenPackaged(tag: Tag) returns (ok: bool)
      modifies this`contexts, this`raw
      ensures ok <==> Packaged(old(Value()), tag).Some?
      ensures ok ==> Value() == Packaged(old(Value()), tag).value
    {
      match tag.metatype.GetOr(OtherType) {
        case DataType =>
          raw := raw.(dataTypes := raw.dataTypes + [RawDataType(Get(tag, XmiId), Get(tag, Name))]);
          Push(InLeaf);
        case DependencyType =>
          var clients, suppliers := References(Get(tag, Client)), References(Get(tag, Supplier));
          if |clients| > 1 || |suppliers| > 1 { return false; }
          var d := RawDirected(Get(tag, XmiId), Get(tag, Name), RawDependency, First(clients), First(suppliers));
          raw := raw.(directed := raw.directed + [d]);
          Push(InLeaf);
        case PrimitiveType => return false;
        case AssociationType =>
          var a := NewAssociation(tag);
          if a.None? { return false; }
          Push(InElement(None, a));
        case AssociationClassType =>
          var c, a := NewClassifier(tag), NewAssociation(tag);
          if c.None? || a.None? { return false; }
          Push(InElement(c, a));
        case _ =>
          var c := NewClassifier(tag);
          if c.None? { return false; }
          Push(InElement(c, None));
      }
      return true;
    }

    method OpenNested(tag: Tag) returns (ok: bool)
      requires contexts.Frame?
      modifies this`contexts
      ensures ok <==> Nested(old(Value()), tag).Some?
      ensures ok ==> Value() == Nested(old(Value()), tag).value
    {
      var slot := SlotIn(contexts.top);
      if slot.None? { return false; }
      var filled := Filled(contexts.top, slot.value, tag);
      if filled.None? { return false; }
      contexts := Frame(WithSlot(contexts.top, filled.value), contexts.below);
      Push(InLeaf);
      return true;
    }

    method Enter(tag: Tag) returns (ok: bool)
      requires contexts.Frame? && HasParts(contexts.top, tag.element)
      modifies this`contexts, this`raw
      ensures ok <==> Entered(old(Value()), tag).Some?
      ensures ok ==> Value() == Entered(old(Value()), tag).value
    {
      var parent := contexts.top;
      match tag.element {
        case UmlModel =>
          if raw.sawModel { return false; }
          raw := raw.(sawModel := true, modelName := Get(tag, Name));
          Push(InModel);
        case PackagedElement =>
          ok := OpenPackaged(tag);
          return;
        case OwnedAttribute =>
          var a := NewAttribute(tag);
          if a.None? { return false; }
          Push(InAttribute(a.value));
        case OwnedOperation =>
          var o := NewOperation(tag);
          if o.None? { return false; }
          Push(InOperation(o.value));
        case OwnedParameter =>
          var p := NewParameter(tag, parent.operation);
          if p.None? { return false; }
          Push(InParameter(p.value));
        case OwnedEnd =>
          var e := NewEnd(tag);
          if e.None? { return false; }
          Push(InEnd(e.value));
        case GeneralizationOf =>
          var d := RawDirected(Get(tag, XmiId), Get(tag, Name), RawGeneralization, parent.classifier.value.id,
              Get(tag, General));
          raw := raw.(directed := raw.directed + [d]);
          Push(InLeaf);
        case InterfaceRealizationOf =>
          var target := if Get(tag, Supplier).Some? then Get(tag, Supplier) else Get(tag, Contract);
          var d := RawDirected(Get(tag, XmiId), Get(tag, Name), RawRealization, parent.classifier.value.id, target);
          raw := raw.(directed := raw.directed + [d]);
          Push(InLeaf);
        case _ =>
          ok := OpenNested(tag);
          return;
      }
      return true;
    }

    method OpenTag(tag: Tag) returns (ok: bool)
      requires Valid()
      modifies this
      ensures ok <==> && old(nodeCount) + 1 <= MAX_NODES && ValuesFit(Open(tag))
                      && Opened(old(Value()), tag).Some? && Distinct(Opened(old(Value()), tag).value.ids)
      ensures ok ==> Valid() && Value() == Opened(old(Value()), tag).value && nodeCount == old(nodeCount) + 1
    {
      ghost var before := Value();
      nodeCount := nodeCount + 1;
      if nodeCount > MAX_NODES || Depth(contexts) + 1 > MAX_DEPTH || !ValuesFit(Open(tag)) { return false; }
      if contexts.Bottom? {
        if tag.element != XmiRoot || !AttributesAllowed(tag) { return false; }
        raw := raw.(version := Get(tag, XmiVersion));
        Push(InRoot);
        return true;
      }
      if contexts.top.InIgnored? {
        Push(InIgnored);
        return true;
      }
      if contexts.top.InRoot? && tag.element != UmlModel { return false; }
      OpenedIds(before, tag);
      ok := Register(tag);
      if !ok { return; }
      if IsIgnored(tag) {
        raw := raw.(ignored := raw.ignored + 1);
        Push(InIgnored);
        return true;
      }
      if !AttributesAllowed(tag) || !Contains(contexts.top, tag.element) { return false; }
      ok := Enter(tag);
    }

    method CloseTag() returns (ok: bool)
      modifies this`contexts, this`raw
      ensures ok <==> Closed(old(Value())).Some?
      ensures ok ==> Value() == Closed(old(Value())).value
    {
      if contexts.Bottom? { return false; }
      var context := contexts.top;
      contexts := contexts.below;
      match context {
        case InElement(c, a) =>
          raw := raw.(classifiers := raw.classifiers + (if c.Some? then [c.value] else []),
                      associations := raw.associations + (if a.Some? then [a.value] else []));
        case InAttribute(a) =>
          if contexts.Bottom? || !contexts.top.InElement? || contexts.top.classifier.None? { return false; }
          var c := contexts.top.classifier.value;
          contexts := Frame(contexts.top.(classifier := Some(c.(attributes := c.attributes + [a]))), contexts.below);
        case InOperation(o) =>
          if contexts.Bottom? || !contexts.top.InElement? || contexts.top.classifier.None? { return false; }
          var c := contexts.top.classifier.value;
          contexts := Frame(contexts.top.(classifier := Some(c.(operations := c.operations + [o]))), contexts.below);
        case InParameter(p) =>
          if contexts.Bottom? || !contexts.top.InOperation? { return false; }
          var o := contexts.top.operation;
          o := if p.isReturn then o.(returnParameter := Some(p)) else o.(parameters := o.parameters + [p]);
          contexts := Frame(InOperation(o), contexts.below);
        case InEnd(e) =>
          if contexts.Bottom? || !contexts.top.InElement? || contexts.top.association.None? { return false; }
          var a := contexts.top.association.value;
          contexts := Frame(contexts.top.(association := Some(a.(ends := a.ends + [e]))), contexts.below);
        case _ =>
      }
      return true;
    }
  }

  /** A tag registers at most its own id, and only below the root. */
  lemma OpenedIds(st: State, tag: Tag)
    requires st.contexts.Frame? && !st.contexts.top.InIgnored?
    ensures Opened(st, tag).Some? ==> Opened(st, tag).value.ids == st.ids + Ids(tag)
  {
  }

  lemma StepKeepsIds(st: State, event: Event)
    requires Step(st, event).Some?
    ensures st.ids <= Step(st, event).value.ids
  {
    if event.Open? && st.contexts.Frame? && !st.contexts.top.InIgnored? { OpenedIds(st, event.tag); }
  }

  lemma {:induction false} RunKeepsIds(st: State, events: seq<Event>)
    requires Run(st, events).Some?
    ensures st.ids <= Run(st, events).value.ids
    decreases |events|
  {
    if events != [] {
      StepKeepsIds(st, events[0]);
      RunKeepsIds(Step(st, events[0]).value, events[1..]);
    }
  }

  lemma {:induction false} OpenCountGrows(events: seq<Event>, n: nat)
    requires n <= |events|
    ensures OpenCount(events[..n]) <= OpenCount(events)
  {
    if n < |events| {
      var init := events[..|events| - 1];
      assert init[..n] == events[..n];
      OpenCountGrows(init, n);
    } else {
      assert events[..n] == events;
    }
  }

  /** Checking limits and ids tag by tag accepts the same documents, with the same content, as the specification. */
  method ParseXmi(events: seq<Event>) returns (result: Option<Raw>)
    ensures result == Parsed(events)
  {
    var parser := new Parser();
    for i := 0 to |events|
      invariant parser.Valid()
      invariant Run(START, events[..i]) == Some(parser.Value())
      invariant parser.nodeCount == OpenCount(events[..i]) <= MAX_NODES
      invariant forall j :: 0 <= j < i ==> ValuesFit(events[j])
    {
      ghost var st := parser.Value();
      var ok;
      match events[i] {
        case Open(tag) => ok := parser.OpenTag(tag);
        case Close => ok := parser.CloseTag();
      }
      assert events[..i + 1] == events[..i] + [events[i]];
      assert events[..i + 1][..i] == events[..i];
      RunAppend(START, events[..i], [events[i]]);
      RunOne(st, events[i]);
      assert events == events[..i + 1] + events[i + 1..];
      RunAppend(START, events[..i + 1], events[i + 1..]);
      OpenCountGrows(events, i + 1);
      if !ok {
        if Run(START, events).Some? { RunKeepsIds(Step(st, events[i]).value, events[i + 1..]); }
        return None;
      }
    }
    assert events[..|events|] == events;
    if parser.contexts.Bottom? && parser.raw.sawModel && IsVersion(parser.raw.version) {
      return Some(parser.raw);
    }
    return None;
  }

  lemma RunOne(st: State, event: Event)
    ensures Run(st, [event]) == Step(st, event)
  {
    assert [event][0] == event && [event][1..] == [];
    assert Steps()(st, event) == Step(st, event);
    if Step(st, event).Some? { assert Run(Step(st, event).value, []) == Step(st, event); }
  }
}
