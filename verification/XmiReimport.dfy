/** What the importer makes of each part of an exported model. */
module XmiReimport {

  import opened Wrappers
  import opened Sequences
  import opened Uml
  import opened Integrity
  import opened XmiText
  import opened XmiExport
  import opened XmiParser
  import opened XmiReading
  import opened XmiContents
  import opened XmiReadBack
  import opened XmiCoverage
  import opened XmiTexts
  import opened XmiImport

  // The parts of the model as they come back.

  function IdBack(env: Env, d: Diagram, id: Id): Id { CanonicalId(env, ClassifierId, XmiIdOf(env, d, id)) }

  function TypeBack(env: Env, d: Diagram, t: TypeReference): TypeReference {
    TypeReference(t.name, if t.elementId.None? then None else Some(IdBack(env, d, t.elementId.value)),
                  Some(t.collection == Some(true)), Some(t.nullable == Some(true)))
  }

  function AttributeComingBack(env: Env, d: Diagram, a: Attribute): Attribute {
    a.(id := CanonicalId(env, AttributeId, a.id), typ := TypeBack(env, d, a.typ))
  }

  function AttributeBack(env: Env, d: Diagram): Attribute -> Attribute {
    (a: Attribute) => AttributeComingBack(env, d, a)
  }

  function ParameterComingBack(env: Env, d: Diagram, p: Parameter): Parameter {
    p.(id := CanonicalId(env, ParameterId, p.id), typ := TypeBack(env, d, p.typ))
  }

  function ParameterBack(env: Env, d: Diagram): Parameter -> Parameter {
    (p: Parameter) => ParameterComingBack(env, d, p)
  }

  function OperationComingBack(env: Env, d: Diagram, o: Operation): Operation {
    o.(id := CanonicalId(env, OperationId, o.id), parameters := Map(ParameterBack(env, d), o.parameters),
                            returnType := TypeBack(env, d, o.returnType))
  }

  function OperationBack(env: Env, d: Diagram): Operation -> Operation {
    (o: Operation) => OperationComingBack(env, d, o)
  }

  function ClassifierComingBack(env: Env, d: Diagram, e: Classifier): Classifier {
    e.(id := IdBack(env, d, e.id), attributes := Map(AttributeBack(env, d), e.attributes),
                             operations := Map(OperationBack(env, d), e.operations))
  }

  function ClassifierBack(env: Env, d: Diagram): Classifier -> Classifier {
    (e: Classifier) => ClassifierComingBack(env, d, e)
  }

  /** A range of one number comes back as that number, and * as 0..* */
  function MultiplicityBack(text: string): string {
    if text == "*" then "0..*"
    else
      match RangeDots(text)
      case None => text
      case Some(i) => if text[..i] == text[i + 2..] then text[..i] else text
  }

  function EndBack(env: Env, d: Diagram, e: End): End {
    End(IdBack(env, d, e.elementId), e.role, MultiplicityBack(e.multiplicity), e.navigable)
  }

  function AssociationComingBack(env: Env, d: Diagram, r: Relationship): Relationship {
    Relationship(CanonicalId(env, RelationshipId, r.id), r.kind, r.name, EndBack(env, d, r.source),
        EndBack(env, d, r.target),
                 if r.associationClassId.None? then None else Some(IdBack(env, d, r.associationClassId.value)))
  }

  function AssociationBack(env: Env, d: Diagram): Relationship -> Relationship {
    (r: Relationship) => AssociationComingBack(env, d, r)
  }

  function DirectedComingBack(env: Env, d: Diagram, r: Relationship): Relationship {
    Relationship(CanonicalId(env, RelationshipId, r.id), r.kind, r.name,
                 PlainEnd(IdBack(env, d, r.source.elementId)), PlainEnd(IdBack(env, d, r.target.elementId)), None)
  }

  function DirectedBack(env: Env, d: Diagram): Relationship -> Relationship {
    (r: Relationship) => DirectedComingBack(env, d, r)
  }

  // Texts.

  lemma TrimmedWord(s: string)
    requires s != "" ==> !IsSpace(s[0]) && !IsSpace(s[|s| - 1])
    ensures Trim(s) == s
  {
  }

  lemma TrimmedDigits(s: string)
    requires IsDigits(s)
    ensures Trim(s) == s && s != "*" && s != "-1"
  {
    assert s[0] in s && s[|s| - 1] in s;
  }

  predicate IsVisible(s: string) { forall c :: c in s ==> '!' <= c <= 'z' }

  lemma HostIsVisible()
    ensures IsVisible(HOST)
  {
  }

  lemma FolderIsVisible()
    ensures IsVisible(FOLDER)
  {
  }

  lemma FileIsVisible()
    ensures IsVisible(FILE)
  {
  }

  lemma VisibleParts(a: string, b: string, c: string)
    requires IsVisible(a) && IsVisible(b) && IsVisible(c) && a != "" && c != ""
    ensures forall x :: x in a + b + c ==> !IsSpace(x)
    ensures (a + b + c)[0] == a[0] && (a + b + c)[|a + b + c| - 1] == c[|c| - 1]
  {
  }

  lemma PrimitiveHrefIsPlain()
    ensures PRIMITIVES != "" && PRIMITIVES[0] == 'h' && PRIMITIVES[|PRIMITIVES| - 1] == '#'
    ensures forall c :: c in PRIMITIVES ==> !IsSpace(c)
  {
    HostIsVisible();
    FolderIsVisible();
    FileIsVisible();
    VisibleParts(HOST, FOLDER, FILE);
  }

  lemma PrimitiveNameIsPlain(p: string)
    requires p in PRIMITIVE_NAMES
    ensures p != "" && forall c :: c in p ==> !IsSpace(c) && !IsSeparator(c)
  {
    assert p == "Boolean" || p == "Integer" || p == "Real" || p == "String" || p == "UnlimitedNatural";
  }

  lemma FragmentIsName(start: string, name: string)
    requires start != "" && IsSeparator(start[|start| - 1]) && !IsSpace(start[0])
    requires name != "" && forall c :: c in name ==> !IsSpace(c) && !IsSeparator(c)
    ensures FragmentName(start + name) == Some(name)
  {
    var s := start + name;
    assert s[0] == start[0] && s[|s| - 1] == name[|name| - 1];
    assert name[0] in name && name[|name| - 1] in name;
    TrimmedWord(s);
    FragmentOf(start, name);
    TrimmedWord(name);
  }

  // Multiplicities.

  lemma RangeParts(s: string, i: nat)
    requires RangeDots(s) == Some(i)
    ensures s == s[..i] + ".." + s[i + 2..]
  {
    assert s[i..i + 2] == "..";
  }

  lemma MultiplicityComesBack(s: string)
    requires IsMultiplicity(s) && RangeOrdered(s)
    ensures MultiplicityText(Some(LowerBound(s)), Some(UpperBound(s))) == Some(MultiplicityBack(s))
  {
    match RangeDots(s) {
      case None =>
        if s == "*" {
          TrimmedDigits("0");
          TrimmedWord("*");
          assert "0" + ".." + "*" == "0..*";
        } else {
          TrimmedDigits(s);
        }
      case Some(i) =>
        var low, high := s[..i], s[i + 2..];
        RangeParts(s, i);
        assert |s| >= 3;
        TrimmedDigits(low);
        if high == "*" { TrimmedWord("*"); } else { TrimmedDigits(high); }
    }
  }

  lemma TypeMultiplicityComesBack(t: TypeReference, typ: RawType, value: Option<string>)
    ensures TypeMultiplicity(Slot(typ, Some(LowerOf(t)), Some(UpperOf(t)), value)) ==
            Some(Cardinality(t.collection == Some(true), t.nullable == Some(true)))
  {
    TrimmedDigits("0");
    TrimmedDigits("1");
    TrimmedWord("*");
    assert NatOf("0") == 0 && NatOf("1") == 1 by { assert "0"[..0] == "" && "1"[..0] == ""; }
    assert "0" + ".." + "1" == "0..1" && "0" + ".." + "*" == "0..*" && "1" + ".." + "*" == "1..*";
    assert |"1"| == 1 && |"0..1"| == 4;
  }

  // Names.

  /** The importer knows every classifier and data type of the diagram by its xmi:id. */
  ghost predicate Knows(names: Names, env: Env, d: Diagram) {
    && (forall e :: e in d.elements ==>
          Lookup(names.classifiers, Some(XmiIdOf(env, d, e.id))) == Some(Identity(IdBack(env, d, e.id), e.name)))
    && (forall name :: name in DataTypeNames(env, d) ==>
          && Lookup(names.classifiers, Some(CanonicalId(env, DataTypeId, name))) == None
          && Lookup(names.dataTypes, Some(CanonicalId(env, DataTypeId, name))) == Some(name))
  }

  lemma ElementIsKnown(names: Names, env: Env, d: Diagram, id: Id)
    requires Knows(names, env, d) && id in ElementIds(d)
    ensures Lookup(names.classifiers, ElementXmiId(env, d, id)).Some?
    ensures Lookup(names.classifiers, ElementXmiId(env, d, id)).value.id == IdBack(env, d, id)
  {
    var e :| e in d.elements && e.id == id;
  }

  lemma TypedElementIsKnown(names: Names, env: Env, d: Diagram, t: TypeReference)
    requires Knows(names, env, d) && Sound(d) && TypeResolves(d.elements, t) && t.elementId.Some?
    ensures t.elementId.value in ElementIds(d)
    ensures Lookup(names.classifiers, TypeXmiId(env, d, t)) == Some(Identity(IdBack(env, d, t.elementId.value), t.name))
  {
    var e :| e in d.elements && e.id == t.elementId.value && e.name == t.name;
    assert TypeXmiId(env, d, t) == Some(XmiIdOf(env, d, e.id));
  }

  lemma PlainHasNoSpace(s: string)
    requires forall c :: c in s ==> IdChar(c)
    ensures !HasSpace(Some(s)) && forall c :: c in s ==> !IsSpace(c) && !IsSeparator(c)
  {
  }

  lemma ClassifierTypeComesBack(env: Env, d: Diagram, names: Names, t: TypeReference, value: Option<string>)
    requires DigestsAreHex(env) && Sound(d) && Knows(names, env, d) && TypeResolves(d.elements, t) && t.elementId.Some?
    ensures MapType(env, names, RawSlotOf(env, d, t, value)) == Some(TypeBack(env, d, t))
  {
    TypedElementIsKnown(names, env, d, t);
    XmiIdIsPlain(env, d, t.elementId.value);
    PlainHasNoSpace(XmiIdOf(env, d, t.elementId.value));
    TypeMultiplicityComesBack(t, RawTypeOf(env, d, t), value);
  }

  lemma MapPrimitive(env: Env, names: Names, slot: Slot, c: Cardinality, name: string)
    requires TypeMultiplicity(slot) == Some(c) && slot.typ.reference.None? && !HasSpace(slot.typ.href)
    requires IsPrimitiveHref(slot.typ.href) && FragmentName(slot.typ.href.value) == Some(name)
    requires OmgPrimitive(env, name) == Some(name)
    ensures MapType(env, names, slot) == Some(TypeReference(name, None, Some(c.collection), Some(c.nullable)))
  {
  }

  lemma MapLocal(env: Env, names: Names, slot: Slot, c: Cardinality, id: string, name: string)
    requires TypeMultiplicity(slot) == Some(c) && slot.typ.reference.None? && !HasSpace(slot.typ.href)
    requires slot.typ.href.Some? && !IsPrimitiveHref(slot.typ.href) && "#" <= slot.typ.href.value
    requires FragmentName(slot.typ.href.value) == Some(id) && Lookup(names.classifiers, Some(id)) == None
    requires Lookup(names.dataTypes, Some(id)) == Some(name) && OmgPrimitive(env, name).None?
    ensures MapType(env, names, slot) == Some(TypeReference(name, None, Some(c.collection), Some(c.nullable)))
  {
  }

  lemma AppendHasNoSpace(a: string, b: string)
    requires (forall c :: c in a ==> !IsSpace(c)) && (forall c :: c in b ==> !IsSpace(c))
    ensures !HasSpace(Some(a + b)) && a <= a + b
  {
  }

  lemma PrimitiveTypeComesBack(env: Env, d: Diagram, names: Names, t: TypeReference, value: Option<string>)
    requires t.elementId.None? && OmgPrimitive(env, t.name) == Some(t.name)
    ensures MapType(env, names, RawSlotOf(env, d, t, value)) == Some(TypeBack(env, d, t))
  {
    PrimitiveHrefIsPlain();
    PrimitiveNameIsPlain(t.name);
    FragmentIsName(PRIMITIVES, t.name);
    AppendHasNoSpace(PRIMITIVES, t.name);
    TypeMultiplicityComesBack(t, RawTypeOf(env, d, t), value);
    assert RawTypeOf(env, d, t) == RawType(Some(PRIMITIVES + t.name), None);
    MapPrimitive(env, names, RawSlotOf(env, d, t, value),
        Cardinality(t.collection == Some(true), t.nullable == Some(true)), t.name);
  }

  lemma LocalHrefsAreNotPrimitive(id: string)
    ensures "#" <= "#" + id && !(PRIMITIVES <= "#" + id)
  {
    PrimitiveHrefIsPlain();
    assert PRIMITIVES[0] != ("#" + id)[0];
  }

  lemma LocalTypeComesBack(env: Env, d: Diagram, names: Names, t: TypeReference, value: Option<string>)
    requires DigestsAreHex(env) && Knows(names, env, d) && IsDataType(env, t) && t.name in DataTypeNames(env, d)
    ensures MapType(env, names, RawSlotOf(env, d, t, value)) == Some(TypeBack(env, d, t))
  {
    var id := CanonicalId(env, DataTypeId, t.name);
    CanonicalIdIsPlain(env, DataTypeId, t.name);
    PlainHasNoSpace(id);
    FragmentIsName("#", id);
    AppendHasNoSpace("#", id);
    LocalHrefsAreNotPrimitive(id);
    TypeMultiplicityComesBack(t, RawTypeOf(env, d, t), value);
    assert RawTypeOf(env, d, t) == RawType(Some("#" + id), None);
    MapLocal(env, names, RawSlotOf(env, d, t, value),
        Cardinality(t.collection == Some(true), t.nullable == Some(true)), id, t.name);
  }

  /** A type of the exported model. */
  ghost predicate GoodType(env: Env, d: Diagram, t: TypeReference) {
    TypeResolves(d.elements, t) && ExportableType(env, d, t) && (IsDataType(env, t) ==> t.name in DataTypeNames(env, d))
  }

  lemma TypeComesBack(env: Env, d: Diagram, names: Names, t: TypeReference, value: Option<string>)
    requires DigestsAreHex(env) && Sound(d) && Knows(names, env, d) && GoodType(env, d, t)
    ensures MapType(env, names, RawSlotOf(env, d, t, value)) == Some(TypeBack(env, d, t))
  {
    if t.elementId.Some? {
      ClassifierTypeComesBack(env, d, names, t, value);
    } else if IsDataType(env, t) {
      LocalTypeComesBack(env, d, names, t, value);
    } else {
      PrimitiveTypeComesBack(env, d, names, t, value);
    }
  }

  // Members.

  ghost predicate GoodAttribute(env: Env, d: Diagram, a: Attribute) {
    !IsBlank(a.name) && PlainAttribute(a) && GoodType(env, d, a.typ)
  }

  ghost predicate GoodParameter(env: Env, d: Diagram, p: Parameter) {
    !IsBlank(p.name) && PlainParameter(p) && GoodType(env, d, p.typ)
  }

  ghost predicate GoodOperation(env: Env, d: Diagram, o: Operation) {
    && !IsBlank(o.name) && !HasLineSpace(o.name) && GoodType(env, d, o.returnType)
    && forall p :: p in o.parameters ==> GoodParameter(env, d, p)
  }

  ghost predicate GoodClassifier(env: Env, d: Diagram, e: Classifier) {
    && !IsBlank(e.name) && !HasLineSpace(e.name) && e.stereotypes == []
    && (forall a :: a in e.attributes ==> GoodAttribute(env, d, a))
    && (forall o :: o in e.operations ==> GoodOperation(env, d, o))
  }

  lemma CanonicalIsIdentifier(env: Env, kind: IdKind, id: string)
    requires DigestsAreHex(env)
    ensures IsIdentifier(Some(CanonicalId(env, kind, id)))
  {
    CanonicalIdIsPlain(env, kind, id);
    PlainIsWord(CanonicalId(env, kind, id));
  }

  lemma VisibilityComesBack(v: Visibility)
    ensures VisibilityOf(Some(VisibilityText(v))) == v && VisibilityIsKnown(Some(VisibilityText(v)))
  {
    assert |"public"| == 6 && |"protected"| == 9 && |"private"| == 7 && |"package"| == 7 && "private"[1] == 'r'
        && "package"[1] == 'a';
  }

  lemma AttributeComesBack(env: Env, d: Diagram, names: Names, a: Attribute)
    requires DigestsAreHex(env) && Sound(d) && Knows(names, env, d) && GoodAttribute(env, d, a)
    ensures MapAttribute(env, names)(RawAttributeOf(env, d)(a)) == Some(AttributeBack(env, d)(a))
  {
    TypeComesBack(env, d, names, a.typ, a.defaultValue);
    CanonicalIsIdentifier(env, AttributeId, a.id);
    CanonicalIdIsStable(env, AttributeId, a.id);
    VisibilityComesBack(a.visibility);
  }

  lemma ParameterComesBack(env: Env, d: Diagram, names: Names, p: Parameter)
    requires DigestsAreHex(env) && Sound(d) && Knows(names, env, d) && GoodParameter(env, d, p)
    ensures MapParameter(env, names)(RawParameterOf(env, d)(p)) == Some(ParameterBack(env, d)(p))
  {
    TypeComesBack(env, d, names, p.typ, p.defaultValue);
    CanonicalIsIdentifier(env, ParameterId, p.id);
    CanonicalIdIsStable(env, ParameterId, p.id);
  }

  lemma ReturnComesBack(env: Env, d: Diagram, names: Names, o: Operation)
    requires DigestsAreHex(env) && Sound(d) && Knows(names, env, d) && GoodType(env, d, o.returnType)
    ensures MapReturn(env, names, Some(RawReturnOf(env, d, o))) == Some(TypeBack(env, d, o.returnType))
  {
    TypeComesBack(env, d, names, o.returnType, None);
    if o.returnType.elementId.Some? { TypedElementIsKnown(names, env, d, o.returnType); }
    assert IsDeclared(RawTypeOf(env, d, o.returnType));
  }

  lemma OperationComesBack(env: Env, d: Diagram, names: Names, o: Operation)
    requires DigestsAreHex(env) && Sound(d) && Knows(names, env, d) && GoodOperation(env, d, o)
    ensures MapOperation(env, names)(RawOperationOf(env, d)(o)) == Some(OperationBack(env, d)(o))
  {
    var raw, map1, back := RawParameterOf(env, d), MapParameter(env, names), ParameterBack(env, d);
    forall p | p in o.parameters ensures map1(raw(p)) == Some(back(p)) {
      ParameterComesBack(env, d, names, p);
    }
    MapAllOfMap(map1, raw, back, o.parameters);
    ReturnComesBack(env, d, names, o);
    CanonicalIsIdentifier(env, OperationId, o.id);
    CanonicalIdIsStable(env, OperationId, o.id);
    VisibilityComesBack(o.visibility);
  }

  lemma ClassifierComesBack(env: Env, d: Diagram, names: Names, e: Classifier)
    requires DigestsAreHex(env) && Sound(d) && Knows(names, env, d) && e in d.elements && GoodClassifier(env, d, e)
    ensures MapClassifier(env, names)(RawClassifierOf(env, d)(e)) == Some(ClassifierBack(env, d)(e))
  {
    forall a | a in e.attributes ensures MapAttribute(env, names)(RawAttributeOf(env, d)(a))
        == Some(AttributeBack(env, d)(a)) {
      AttributeComesBack(env, d, names, a);
    }
    MapAllOfMap(MapAttribute(env, names), RawAttributeOf(env, d), AttributeBack(env, d), e.attributes);
    forall o | o in e.operations ensures MapOperation(env, names)(RawOperationOf(env, d)(o))
        == Some(OperationBack(env, d)(o)) {
      OperationComesBack(env, d, names, o);
    }
    MapAllOfMap(MapOperation(env, names), RawOperationOf(env, d), OperationBack(env, d), e.operations);
  }

  // Relationships.

  predicate GoodEnd(d: Diagram, end: End) {
    end.elementId in ElementIds(d) && IsMultiplicity(end.multiplicity) && RangeOrdered(end.multiplicity)
  }

  ghost predicate GoodAssociation(env: Env, d: Diagram, r: Relationship) {
    && r in d.relationships && IsAssociationLike(r) && PlainRelationship(r) && GoodEnd(d, r.source)
         && GoodEnd(d, r.target)
    && CanonicalId(env, EndId, SourceEndId(r)) != CanonicalId(env, EndId, TargetEndId(r))
  }

  lemma TwoEndsAreFound(a: RawAssociation, x: string, y: string, first: RawEnd, second: RawEnd)
    requires a.memberEnds == [x, y] && a.ends == [first, second] && x != y && first.id == Some(x)
               && second.id == Some(y)
    ensures OrderedEnds(a) == Some([first, second])
  {
    var find := FindEnd(a.ends);
    assert a.ends[0] == first && a.ends[1] == second;
    assert HasEndId(x)(first) && HasEndId(y)(second) && !HasEndId(y)(first);
    assert find(x) == Some(first) && find(y) == Some(second);
    assert a.memberEnds == [x] + [y] && AllDistinct(a.memberEnds);
    assert [first] + [second] == [first, second];
    MapAllAppend(find, [x], [y]);
    MapAllOne(find, x);
    MapAllOne(find, y);
  }

  lemma TwoNavigableEndsExist(a: RawAssociation, x: string, y: string, first: RawEnd, second: RawEnd)
    requires first.id == Some(x) && second.id == Some(y) && x != y
    requires a.navigableEnds.Some? ==> a.navigableEnds.value in {[x, y], [x], [y]}
    ensures NavigableEndsExist(a, [first, second])
  {
    var ends := [first, second];
    assert first in ends && second in ends && HasEndId(x)(first) && HasEndId(y)(second);
    if a.navigableEnds.Some? {
      forall id | id in a.navigableEnds.value ensures exists e :: e in ends && HasEndId(id)(e) {
        assert id == x || id == y;
      }
    }
  }

  lemma EndComesBack(env: Env, d: Diagram, names: Names, end: End, aggregation: string, id: string,
      navigable: Option<seq<string>>)
    requires Knows(names, env, d) && GoodEnd(d, end) && !HasLineSpace(end.role)
    requires navigable.Some? ==> (end.navigable <==> CanonicalId(env, EndId, id) in navigable.value)
    ensures MapEnd(env, names, navigable)(RawEndOf(env, d, end, aggregation, id)) == Some(EndBack(env, d, end))
  {
    MultiplicityComesBack(end.multiplicity);
    ElementIsKnown(names, env, d, end.elementId);
  }

  lemma NavigableEndsAgree(env: Env, r: Relationship)
    requires CanonicalId(env, EndId, SourceEndId(r)) != CanonicalId(env, EndId, TargetEndId(r))
    ensures NavigableEndIds(env, r).Some? ==>
              && (r.source.navigable <==> CanonicalId(env, EndId, SourceEndId(r)) in NavigableEndIds(env, r).value)
              && (r.target.navigable <==> CanonicalId(env, EndId, TargetEndId(r)) in NavigableEndIds(env, r).value)
  {
  }

  lemma ClassComesBack(env: Env, d: Diagram, names: Names, r: Relationship)
    requires Sound(d) && Knows(names, env, d) && r in d.relationships && ClassOf(d, r).Some?
    ensures Lookup(names.classifiers, Some(CanonicalId(env, RelationshipId, r.id))).Some?
    ensures Lookup(names.classifiers, Some(CanonicalId(env, RelationshipId, r.id))).value.id
              == IdBack(env, d, r.associationClassId.value)
  {
    var e := ClassOf(d, r).value;
    OwnerIsUnique(d, r);
    assert XmiIdOf(env, d, e.id) == CanonicalId(env, RelationshipId, r.id);
  }

  lemma AggregationComesBack(k: RelationshipKind)
    requires k == Association || k == Aggregation || k == Composition
    ensures KindOfAggregation(Some(AggregationText(k))) == k
  {
    assert |"none"| == 4 && |"shared"| == 6 && |"composite"| == 9;
  }

  lemma BinaryIsMapped(env: Env, names: Names, a: RawAssociation, first: RawEnd, second: RawEnd, source: End,
      target: End)
    requires a.id.Some? && IsPlainValue(a.name) && second.aggregation == Some("none")
    requires MapEnd(env, names, a.navigableEnds)(first) == Some(source)
    requires MapEnd(env, names, a.navigableEnds)(second) == Some(target)
    ensures MapBinary(env, names, a, first, second) ==
            Some(Relationship(CanonicalId(env, RelationshipId, a.id.value), KindOfAggregation(first.aggregation),
                a.name, source, target,
                              if a.isClass && Lookup(names.classifiers, a.id).Some?
                              then Some(Lookup(names.classifiers, a.id).value.id) else None))
  {
  }

  lemma AssociationIsMapped(env: Env, names: Names, a: RawAssociation, first: RawEnd, second: RawEnd, r: Relationship)
    requires IsIdentifier(a.id) && OrderedEnds(a) == Some([first, second]) && NavigableEndsExist(a, [first, second])
    requires MapBinary(env, names, a, first, second) == Some(r)
    ensures MapAssociation(env, names)(a) == Some(Kept(r))
  {
  }

  lemma AssociationEndsComeBack(env: Env, d: Diagram, names: Names, r: Relationship, a: RawAssociation)
    requires Knows(names, env, d) && GoodAssociation(env, d, r) && a == RawAssociationOf(env, d)(r)
    ensures MapEnd(env, names, a.navigableEnds)(a.ends[0]) == Some(EndBack(env, d, r.source))
    ensures MapEnd(env, names, a.navigableEnds)(a.ends[1]) == Some(EndBack(env, d, r.target))
  {
    NavigableEndsAgree(env, r);
    EndComesBack(env, d, names, r.source, AggregationText(r.kind), SourceEndId(r), a.navigableEnds);
    EndComesBack(env, d, names, r.target, "none", TargetEndId(r), a.navigableEnds);
  }

  lemma AssociationComesBack(env: Env, d: Diagram, names: Names, r: Relationship)
    requires DigestsAreHex(env) && Sound(d) && Knows(names, env, d) && GoodAssociation(env, d, r)
    ensures MapAssociation(env, names)(RawAssociationOf(env, d)(r)) == Some(Kept(AssociationBack(env, d)(r)))
  {
    var a := RawAssociationOf(env, d)(r);
    var x, y := CanonicalId(env, EndId, SourceEndId(r)), CanonicalId(env, EndId, TargetEndId(r));
    CanonicalIsIdentifier(env, RelationshipId, r.id);
    CanonicalIdIsStable(env, RelationshipId, r.id);
    TwoEndsAreFound(a, x, y, a.ends[0], a.ends[1]);
    TwoNavigableEndsExist(a, x, y, a.ends[0], a.ends[1]);
    AssociationEndsComeBack(env, d, names, r, a);
    BinaryIsMapped(env, names, a, a.ends[0], a.ends[1], EndBack(env, d, r.source), EndBack(env, d, r.target));
    AggregationComesBack(r.kind);
    if ClassOf(d, r).Some? { ClassComesBack(env, d, names, r); }
    assert r.associationClassId.Some? ==> ClassOf(d, r).Some?;
    AssociationIsMapped(env, names, a, a.ends[0], a.ends[1], AssociationBack(env, d)(r));
  }

  ghost predicate GoodDirected(d: Diagram, r: Relationship) {
    && r in d.relationships && !IsAssociationLike(r) && NoLineSpace(r.name)
    && r.source.elementId in ElementIds(d) && r.target.elementId in ElementIds(d)
  }

  lemma DirectedIsMapped(env: Env, names: Names, r: RawDirected, source: Identity, target: Identity)
    requires IsIdentifier(r.id) && IsPlainValue(r.name)
    requires Lookup(names.classifiers, r.source) == Some(source) && Lookup(names.classifiers, r.target) == Some(target)
    ensures MapDirected(env, names)(r) ==
            Some(Relationship(CanonicalId(env, RelationshipId, r.id.value), KindOfDirected(r.kind), r.name,
                              PlainEnd(source.id), PlainEnd(target.id), None))
  {
  }

  lemma RawDirectedParts(env: Env, d: Diagram, r: Relationship)
    requires !IsAssociationLike(r)
    ensures var raw := RawDirectedOf(env, d)(r);
      && raw.id == Some(CanonicalId(env, RelationshipId, r.id)) && raw.name == r.name
           && KindOfDirected(raw.kind) == r.kind
      && raw.source == ElementXmiId(env, d, r.source.elementId)
           && raw.target == ElementXmiId(env, d, r.target.elementId)
  {
    if IsInline(r) {
      assert RawDirectedOf(env, d)(r) == RawInlineOf(env, d, ElementXmiId(env, d, r.source.elementId))(r);
    } else {
      assert RawDirectedOf(env, d)(r) == RawDependencyOf(env, d, r);
    }
  }

  lemma DirectedComesBack(env: Env, d: Diagram, names: Names, r: Relationship)
    requires DigestsAreHex(env) && Knows(names, env, d) && GoodDirected(d, r)
    ensures MapDirected(env, names)(RawDirectedOf(env, d)(r)) == Some(DirectedBack(env, d)(r))
  {
    CanonicalIsIdentifier(env, RelationshipId, r.id);
    CanonicalIdIsStable(env, RelationshipId, r.id);
    ElementIsKnown(names, env, d, r.source.elementId);
    ElementIsKnown(names, env, d, r.target.elementId);
    RawDirectedParts(env, d, r);
    DirectedIsMapped(env, names, RawDirectedOf(env, d)(r),
        Lookup(names.classifiers, ElementXmiId(env, d, r.source.elementId)).value,
                     Lookup(names.classifiers, ElementXmiId(env, d, r.target.elementId)).value);
  }
}
