/** When a canonical document is well formed, and the check that decides it. */
module Integrity {

  import opened Wrappers
  import opened Sequences
  import opened Uml
  import opened Graphs
  import opened AcyclicCheck
  import opened Cascade

  // Names and characters.

  predicate IsSpace(c: char) {
    || '\t' <= c <= '\r' || c == ' ' || c == '\U{00A0}' || c == '\U{1680}' || '\U{2000}' <= c <= '\U{200A}'
    || c == '\U{2028}' || c == '\U{2029}' || c == '\U{202F}' || c == '\U{205F}' || c == '\U{3000}' || c == '\U{FEFF}'
  }

  predicate IsBlank(s: string) { forall c :: c in s ==> IsSpace(c) }

  /** Section 2.2 of XML 1.0; surrogates are not characters here. */
  predicate XmlChar(c: char) {
    c == '\t' || c == '\n' || c == '\r' || ' ' <= c <= '\U{FFFD}' || '\U{10000}' <= c
  }

  predicate XmlSafe(s: string) { forall c :: c in s ==> XmlChar(c) }

  predicate XmlSafeOption(s: Option<string>) { s.Some? ==> XmlSafe(s.value) }

  predicate XmlSafeType(t: TypeReference) { XmlSafe(t.name) && XmlSafeOption(t.elementId) }

  predicate XmlSafeAttribute(a: Attribute) {
    XmlSafe(a.id) && XmlSafe(a.name) && XmlSafeType(a.typ) && XmlSafeOption(a.defaultValue)
  }

  predicate XmlSafeParameter(p: Parameter) {
    XmlSafe(p.id) && XmlSafe(p.name) && XmlSafeType(p.typ) && XmlSafeOption(p.defaultValue)
  }

  predicate XmlSafeOperation(o: Operation) {
    XmlSafe(o.id) && XmlSafe(o.name) && XmlSafeType(o.returnType) && forall p :: p in o.parameters ==>
        XmlSafeParameter(p)
  }

  predicate XmlSafeClassifier(e: Classifier) {
    && XmlSafe(e.id) && XmlSafe(e.name)
    && (forall s :: s in e.stereotypes ==> XmlSafe(s))
    && (forall a :: a in e.attributes ==> XmlSafeAttribute(a))
    && (forall o :: o in e.operations ==> XmlSafeOperation(o))
  }

  predicate XmlSafeEnd(e: End) { XmlSafe(e.elementId) && XmlSafe(e.role) && XmlSafe(e.multiplicity) }

  predicate XmlSafeRelationship(r: Relationship) {
    && XmlSafe(r.id) && XmlSafeOption(r.name) && XmlSafeOption(r.associationClassId)
    && XmlSafeEnd(r.source) && XmlSafeEnd(r.target)
  }

  predicate XmlSafeModel(m: Model) {
    && XmlSafe(m.project.id) && XmlSafe(m.project.name) && XmlSafeOption(m.project.description)
    && XmlSafe(m.diagram.id) && XmlSafe(m.diagram.name)
    && XmlSafe(m.metadata.createdAt) && XmlSafe(m.metadata.updatedAt)
    && (forall t :: t in m.metadata.tags ==> XmlSafe(t))
    && (forall e :: e in m.diagram.elements ==> XmlSafeClassifier(e))
    && (forall r :: r in m.diagram.relationships ==> XmlSafeRelationship(r))
    && (forall p :: p in m.diagram.positions ==> XmlSafe(p.elementId))
  }

  // Identifiers, in the order in which they are registered.

  function ParameterIds(parameters: seq<Parameter>): seq<Id> { Map((p: Parameter) => p.id, parameters) }

  function AttributeIds(attributes: seq<Attribute>): seq<Id> { Map((a: Attribute) => a.id, attributes) }

  function IdsOfOperation(): Operation -> seq<Id> {
    (o: Operation) => [o.id] + ParameterIds(o.parameters)
  }

  function IdsOfClassifier(): Classifier -> seq<Id> {
    (e: Classifier) => [e.id] + AttributeIds(e.attributes) + FlatMap(IdsOfOperation(), e.operations)
  }

  function ClassifiersIds(es: seq<Classifier>): seq<Id> { FlatMap(IdsOfClassifier(), es) }

  function IdOfRelationship(): Relationship -> seq<Id> { (r: Relationship) => [r.id] }

  function RelationshipIds(rs: seq<Relationship>): seq<Id> { FlatMap(IdOfRelationship(), rs) }

  function AllIds(m: Model): seq<Id> {
    [m.project.id, m.diagram.id] + ClassifiersIds(m.diagram.elements) + RelationshipIds(m.diagram.relationships)
  }

  // Names.

  ghost predicate NamesPresent(e: Classifier) {
    && !IsBlank(e.name)
    && (forall a :: a in e.attributes ==> !IsBlank(a.name))
    && (forall o :: o in e.operations ==> !IsBlank(o.name) && forall p :: p in o.parameters ==> !IsBlank(p.name))
  }

  function AttributeNames(attributes: seq<Attribute>): seq<string> { Map((a: Attribute) => a.name, attributes) }

  function ParameterNames(parameters: seq<Parameter>): seq<string> { Map((p: Parameter) => p.name, parameters) }

  ghost predicate MemberNamesDistinct(norm: string -> string, e: Classifier) {
    && Distinct(Map(norm, AttributeNames(e.attributes)))
    && forall o :: o in e.operations ==> Distinct(Map(norm, ParameterNames(o.parameters)))
  }

  function ElementNames(es: seq<Classifier>): seq<string> { Map((e: Classifier) => e.name, es) }

  // References.

  predicate TypeResolves(es: seq<Classifier>, t: TypeReference) {
    && !IsBlank(t.name)
    && (t.elementId.Some? ==> exists e :: e in es && e.id == t.elementId.value && e.name == t.name)
  }

  ghost predicate TypesResolve(es: seq<Classifier>, e: Classifier) {
    && (forall a :: a in e.attributes ==> TypeResolves(es, a.typ))
    && (forall o :: o in e.operations ==>
          TypeResolves(es, o.returnType) && forall p :: p in o.parameters ==> TypeResolves(es, p.typ))
  }

  function Owners(positions: seq<Position>): seq<Id> { Map((p: Position) => p.elementId, positions) }

  ghost predicate PositionsMatch(d: Diagram) {
    && (forall p :: p in d.positions ==> p.elementId in ElementIds(d))
    && Distinct(Owners(d.positions))
    && forall e :: e in d.elements ==> e.id in Owners(d.positions)
  }

  // Relationships.

  predicate RangeOrdered(s: string) {
    match RangeDots(s)
    case None => true
    case Some(i) => IsDigits(s[..i]) && IsDigits(s[i + 2..]) ==> NatOf(s[..i]) <= NatOf(s[i + 2..])
  }

  function KindOf(es: seq<Classifier>, id: Id): Option<ClassifierKind> {
    match IndexWhere((e: Classifier) => e.id == id, es)
    case None => None
    case Some(i) => Some(es[i].kind)
  }

  predicate EndsFit(es: seq<Classifier>, r: Relationship) {
    var source, target := KindOf(es, r.source.elementId), KindOf(es, r.target.elementId);
    && source.Some? && target.Some?
    && (r.source.elementId == r.target.elementId ==> r.kind == Association || r.kind == Dependency)
    && (r.kind == Realization ==> source.value.Class? && target.value.Interface?)
    && (r.kind == Generalization ==> source.value.Class? == target.value.Class?)
    && RangeOrdered(r.source.multiplicity) && RangeOrdered(r.target.multiplicity)
  }

  predicate ClassFits(es: seq<Classifier>, r: Relationship) {
    r.associationClassId.Some? ==>
      && r.kind == Association
      && (var kind := KindOf(es, r.associationClassId.value); kind.Some? && kind.value.Class?)
      && IsManyMultiplicity(r.source.multiplicity) && IsManyMultiplicity(r.target.multiplicity)
      && r.associationClassId.value != r.source.elementId && r.associationClassId.value != r.target.elementId
  }

  datatype Signature = Signature(kind: RelationshipKind, name: Option<string>, source: End, target: End,
      classId: Option<Id>)

  function SignatureOf(r: Relationship): Signature {
    Signature(r.kind, r.name, r.source, r.target, r.associationClassId)
  }

  function ReverseSignatureOf(r: Relationship): Signature {
    Signature(r.kind, r.name, r.target, r.source, r.associationClassId)
  }

  /** The later relationship repeats the earlier one; an association also when read backwards. */
  predicate Repeats(earlier: Relationship, later: Relationship) {
    || SignatureOf(later) == SignatureOf(earlier)
    || (later.kind == Association && ReverseSignatureOf(later) == SignatureOf(earlier))
  }

  ghost predicate SignaturesDistinct(rs: seq<Relationship>) {
    forall i, j :: 0 <= i < j < |rs| ==> !Repeats(rs[i], rs[j])
  }

  ghost predicate ClassesDistinct(rs: seq<Relationship>) {
    forall i, j :: 0 <= i < j < |rs| && rs[i].associationClassId.Some? ==>
      rs[i].associationClassId != rs[j].associationClassId
  }

  ghost predicate RelationshipsFit(d: Diagram) {
    forall r :: r in d.relationships ==> EndsFit(d.elements, r) && ClassFits(d.elements, r)
  }

  ghost predicate Acyclic(rs: seq<Relationship>) {
    !Cyclic(EdgesOf(rs, Generalization)) && !Cyclic(EdgesOf(rs, Composition))
  }

  /** Every clause but the one about signatures. */
  ghost predicate IntegrityBesidesSignatures(norm: string -> string, m: Model) {
    && XmlSafeModel(m)
    && !IsBlank(m.project.name) && !IsBlank(m.diagram.name)
    && Distinct(AllIds(m))
    && (forall e :: e in m.diagram.elements ==>
          NamesPresent(e) && MemberNamesDistinct(norm, e) && TypesResolve(m.diagram.elements, e))
    && Distinct(Map(norm, ElementNames(m.diagram.elements)))
    && PositionsMatch(m.diagram)
    && RelationshipsFit(m.diagram)
    && ClassesDistinct(m.diagram.relationships)
    && Acyclic(m.diagram.relationships)
  }

  ghost predicate Integrity(norm: string -> string, m: Model) {
    IntegrityBesidesSignatures(norm, m) && SignaturesDistinct(m.diagram.relationships)
  }

  // The check.

  method Register(ids: set<Id>, more: seq<Id>) returns (ok: bool, all: set<Id>)
    ensures ok <==> Distinct(more) && forall id :: id in more ==> id !in ids
    ensures ok ==> all == ids + set id | id in more
  {
    all := ids;
    for i := 0 to |more|
      invariant Distinct(more[..i]) && forall id :: id in more[..i] ==> id !in ids
      invariant all == ids + set id | id in more[..i]
    {
      if more[i] in all {
        assert more[i] in ids || exists j :: 0 <= j < i && more[j] == more[i];
        assert more[i] in more;
        return false, all;
      }
      all := all + {more[i]};
    }
    assert more[..|more|] == more;
    return true, all;
  }

  /** Registers more after the identifiers already seen. */
  method RegisterAfter(ghost seen: seq<Id>, ids: set<Id>, more: seq<Id>) returns (ok: bool, all: set<Id>)
    requires Distinct(seen) && ids == set id | id in seen
    ensures ok <==> Distinct(seen + more)
    ensures ok ==> all == set id | id in seen + more
  {
    ok, all := Register(ids, more);
    DistinctAppend(seen, more);
  }

  method RegisterAll(m: Model) returns (ok: bool)
    ensures ok <==> Distinct(AllIds(m))
  {
    ghost var roots := [m.project.id, m.diagram.id];
    ghost var classifiersIds := ClassifiersIds(m.diagram.elements);
    DistinctAppend(roots + classifiersIds, RelationshipIds(m.diagram.relationships));
    DistinctAppend(roots, classifiersIds);
    var ids;
    assert [] + roots == roots;
    ok, ids := RegisterAfter([], {}, [m.project.id, m.diagram.id]);
    if !ok { return; }
    ok, ids := RegisterClassifiers(roots, ids, m.diagram.elements);
    if !ok { return; }
    ok, ids := RegisterAfter(roots + classifiersIds, ids, RelationshipIds(m.diagram.relationships));
  }

  method RegisterClassifiers(ghost seen: seq<Id>, ids: set<Id>, es: seq<Classifier>) returns (ok: bool, all: set<Id>)
    requires Distinct(seen) && ids == set id | id in seen
    ensures ok <==> Distinct(seen + ClassifiersIds(es))
    ensures ok ==> all == set id | id in seen + ClassifiersIds(es)
  {
    all := ids;
    ghost var registered := seen;
    for i := 0 to |es|
      invariant registered == seen + ClassifiersIds(es[..i])
      invariant Distinct(registered) && all == set id | id in registered
    {
      var more := IdsOfClassifier()(es[i]);
      ghost var next := registered + more;
      ok, all := RegisterAfter(registered, all, more);
      assert next == seen + ClassifiersIds(es[..i + 1]) by {
        assert es[..i + 1] == es[..i] + [es[i]];
        FlatMapAppend(IdsOfClassifier(), es[..i], [es[i]]);
        FlatMapOne(IdsOfClassifier(), es[i]);
      }
      if !ok {
        assert es == es[..i + 1] + es[i + 1..];
        FlatMapAppend(IdsOfClassifier(), es[..i + 1], es[i + 1..]);
        RepetitionStays(next, seen + ClassifiersIds(es));
        return;
      }
      registered := next;
    }
    assert es[..|es|] == es;
    return true, all;
  }

  lemma RepetitionStays<T>(a: seq<T>, b: seq<T>)
    requires a <= b && !Distinct(a)
    ensures !Distinct(b)
  {
  }

  method UniqueNames(norm: string -> string, values: seq<string>) returns (ok: bool)
    ensures ok <==> Distinct(Map(norm, values))
  {
    var names;
    ok, names := Register({}, Map(norm, values));
  }

  ghost predicate NamesFine(norm: string -> string, es: seq<Classifier>) {
    forall e :: e in es ==> NamesPresent(e) && MemberNamesDistinct(norm, e)
  }

  method NamesAreFine(norm: string -> string, es: seq<Classifier>) returns (ok: bool)
    ensures ok <==> NamesFine(norm, es)
  {
    for i := 0 to |es|
      invariant forall j :: 0 <= j < i ==> NamesPresent(es[j]) && MemberNamesDistinct(norm, es[j])
    {
      var e := es[i];
      assert e in es;
      var attributesOk := UniqueNames(norm, AttributeNames(e.attributes));
      if IsBlank(e.name) || !attributesOk || exists a :: a in e.attributes && IsBlank(a.name) { return false; }
      for k := 0 to |e.operations|
        invariant forall j :: 0 <= j < k ==>
                    && !IsBlank(e.operations[j].name)
                    && (forall p :: p in e.operations[j].parameters ==> !IsBlank(p.name))
                    && Distinct(Map(norm, ParameterNames(e.operations[j].parameters)))
      {
        var o := e.operations[k];
        var parametersOk := UniqueNames(norm, ParameterNames(o.parameters));
        if IsBlank(o.name) || !parametersOk || exists p :: p in o.parameters && IsBlank(p.name) { return false; }
      }
    }
    return true;
  }

  ghost predicate TypesFine(es: seq<Classifier>) { forall e :: e in es ==> TypesResolve(es, e) }

  method TypesAreResolved(es: seq<Classifier>) returns (ok: bool)
    ensures ok <==> TypesFine(es)
  {
    for i := 0 to |es|
      invariant forall j :: 0 <= j < i ==> TypesResolve(es, es[j])
    {
      var e := es[i];
      assert e in es;
      if exists a :: a in e.attributes && !TypeResolves(es, a.typ) { return false; }
      for k := 0 to |e.operations|
        invariant forall j :: 0 <= j < k ==>
                    && TypeResolves(es, e.operations[j].returnType)
                    && forall p :: p in e.operations[j].parameters ==> TypeResolves(es, p.typ)
      {
        var o := e.operations[k];
        if !TypeResolves(es, o.returnType) || exists p :: p in o.parameters && !TypeResolves(es, p.typ) {
          return false;
        }
      }
    }
    return true;
  }

  method PositionsAreMatched(d: Diagram) returns (ok: bool)
    ensures ok <==> PositionsMatch(d)
  {
    var positioned, ids := {}, ElementIds(d);
    ghost var owners := Owners(d.positions);
    for i := 0 to |d.positions|
      invariant positioned == set id | id in owners[..i]
      invariant Distinct(owners[..i]) && forall j :: 0 <= j < i ==> owners[j] in ids
    {
      var id := d.positions[i].elementId;
      assert owners[i] == id;
      if id !in ids || id in positioned { return false; }
      positioned := positioned + {id};
    }
    assert owners[..|owners|] == owners;
    return forall e :: e in d.elements ==> e.id in positioned;
  }

  function Signatures(rs: seq<Relationship>): set<Signature> { set r | r in rs :: SignatureOf(r) }

  predicate IsNew(signatures: set<Signature>, r: Relationship) {
    && SignatureOf(r) !in signatures
    && (r.kind == Association ==> ReverseSignatureOf(r) !in signatures)
  }

  lemma SignaturesExtend(rs: seq<Relationship>, r: Relationship)
    ensures SignaturesDistinct(rs + [r]) <==> SignaturesDistinct(rs) && IsNew(Signatures(rs), r)
  {
    var all := rs + [r];
    assert forall j :: 0 <= j < |rs| ==> all[j] == rs[j] && rs[j] in rs;
    if SignaturesDistinct(all) {
      assert forall j :: 0 <= j < |rs| ==> !Repeats(all[j], all[|rs|]);
      forall j, k | 0 <= j < k < |rs| ensures !Repeats(rs[j], rs[k]) {
        assert !Repeats(all[j], all[k]);
      }
    }
  }

  lemma ClassesExtend(rs: seq<Relationship>, r: Relationship)
    ensures ClassesDistinct(rs + [r]) <==>
            ClassesDistinct(rs) && (r.associationClassId.Some? ==>
                r.associationClassId.value !in AssociationClassIds(rs))
  {
    var all := rs + [r];
    assert forall j :: 0 <= j < |rs| ==> all[j] == rs[j] && rs[j] in rs;
    if ClassesDistinct(all) {
      forall j | 0 <= j < |rs| && rs[j].associationClassId.Some?
          ensures rs[j].associationClassId != r.associationClassId {
        assert all[j].associationClassId != all[|rs|].associationClassId;
      }
      forall j, k | 0 <= j < k < |rs| && rs[j].associationClassId.Some?
        ensures rs[j].associationClassId != rs[k].associationClassId
      {
        assert all[j].associationClassId != all[k].associationClassId;
      }
    }
  }

  ghost predicate RelationshipsFine(es: seq<Classifier>, rs: seq<Relationship>) {
    && (forall r :: r in rs ==> EndsFit(es, r) && ClassFits(es, r))
    && SignaturesDistinct(rs) && ClassesDistinct(rs)
  }

  lemma FinePrefix(es: seq<Classifier>, rs: seq<Relationship>, n: nat)
    requires n <= |rs| && RelationshipsFine(es, rs)
    ensures RelationshipsFine(es, rs[..n])
  {
  }

  method RelationshipsAreFine(d: Diagram) returns (ok: bool)
    ensures ok <==> RelationshipsFine(d.elements, d.relationships)
  {
    var rs := d.relationships;
    var signatures: set<Signature>, classes: set<Id> := {}, {};
    for i := 0 to |rs|
      invariant RelationshipsFine(d.elements, rs[..i])
      invariant signatures == Signatures(rs[..i]) && classes == AssociationClassIds(rs[..i])
    {
      var r := rs[i];
      assert rs[..i + 1] == rs[..i] + [r];
      SignaturesExtend(rs[..i], r);
      ClassesExtend(rs[..i], r);
      if RelationshipsFine(d.elements, rs) { FinePrefix(d.elements, rs, i + 1); }
      if !EndsFit(d.elements, r) || !IsNew(signatures, r) { return false; }
      signatures := signatures + {SignatureOf(r)};
      if r.associationClassId.None? { continue; }
      if !ClassFits(d.elements, r) || r.associationClassId.value in classes { return false; }
      classes := classes + {r.associationClassId.value};
    }
    assert rs[..|rs|] == rs;
    return true;
  }

  method NoCycles(rs: seq<Relationship>) returns (ok: bool)
    ensures ok <==> Acyclic(rs)
  {
    var cycle := HasCycle(rs, Generalization);
    if cycle { return false; }
    cycle := HasCycle(rs, Composition);
    return !cycle;
  }

  lemma IntegrityInParts(norm: string -> string, m: Model)
    ensures Integrity(norm, m) <==>
            && XmlSafeModel(m) && !IsBlank(m.project.name) && !IsBlank(m.diagram.name) && Distinct(AllIds(m))
            && NamesFine(norm, m.diagram.elements) && Distinct(Map(norm, ElementNames(m.diagram.elements)))
            && TypesFine(m.diagram.elements) && PositionsMatch(m.diagram)
            && RelationshipsFine(m.diagram.elements, m.diagram.relationships) && Acyclic(m.diagram.relationships)
  {
  }

  /** The check accepts exactly the documents with integrity. */
  method CheckIntegrity(norm: string -> string, m: Model) returns (ok: bool)
    ensures ok <==> Integrity(norm, m)
  {
    IntegrityInParts(norm, m);
    if !XmlSafeModel(m) || IsBlank(m.project.name) || IsBlank(m.diagram.name) { return false; }
    ok := RegisterAll(m);
    if !ok { return; }
    ok := NamesAreFine(norm, m.diagram.elements);
    if !ok { return; }
    ok := UniqueNames(norm, ElementNames(m.diagram.elements));
    if !ok { return; }
    ok := TypesAreResolved(m.diagram.elements);
    if !ok { return; }
    ok := PositionsAreMatched(m.diagram);
    if !ok { return; }
    ok := RelationshipsAreFine(m.diagram);
    if !ok { return; }
    ok := NoCycles(m.diagram.relationships);
  }
}
