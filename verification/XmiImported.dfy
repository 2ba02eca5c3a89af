/** What the importer makes of a whole exported model. */
module XmiImported {

  import opened Wrappers
  import opened Sequences
  import opened Sorting
  import opened Permutations
  import opened Uml
  import opened Integrity
  import opened XmiText
  import opened XmiExport
  import opened XmiParser
  import opened XmiReading
  import opened XmiContents
  import opened XmiReadBack
  import opened XmiCoverage
  import opened XmiKeys
  import opened XmiTexts
  import opened XmiImport
  import opened XmiReimport

  // The tables of the importer.

  /** A table holds the entry of x when no other entry with its key says something else. */
  lemma {:induction false} TableHolds<A(!new), V(!new)>(entry: A -> (string, V), s: seq<A>, x: A)
    requires x in s && forall y :: y in s && entry(y).0 == entry(x).0 ==> entry(y) == entry(x)
    ensures entry(x).0 in Table(Map(entry, s)) && Table(Map(entry, s))[entry(x).0] == entry(x).1
  {
    var n := |s| - 1;
    assert Map(entry, s)[..n] == Map(entry, s[..n]) && Map(entry, s)[n] == entry(s[n]);
    if entry(s[n]).0 != entry(x).0 { TableHolds(entry, s[..n], x); }
  }

  lemma {:induction false} TableKeys<A(!new), V(!new)>(entry: A -> (string, V), s: seq<A>, key: string)
    requires forall y :: y in s ==> entry(y).0 != key
    ensures key !in Table(Map(entry, s))
  {
    if s != [] {
      var n := |s| - 1;
      assert Map(entry, s)[..n] == Map(entry, s[..n]) && Map(entry, s)[n] == entry(s[n]);
      assert s[n] in s;
      TableKeys(entry, s[..n], key);
    }
  }

  // Distinct xmi:ids.

  lemma ClassifierWritesItsKey(d: Diagram, e: Classifier)
    ensures Key(ClassifierId, e.id) in WrittenClassifierKeys(d)(e)
  {
    var keys := [Key(ClassifierId, e.id)] + MemberKeys()(e) + InlineKeys(d)(e);
    assert WrittenClassifierKeys(d)(e) == keys;
    assert keys[0] == Key(ClassifierId, e.id);
  }

  lemma EndKeysDiffer(r: Relationship)
    ensures SourceEndId(r) != TargetEndId(r)
  {
    assert SourceEndId(r)[|r.id| + 1] == 's' && TargetEndId(r)[|r.id| + 1] == 't';
  }

  lemma AssociationWritesItsKeys(d: Diagram, r: Relationship)
    requires IsAssociationLike(r)
    ensures Key(RelationshipId, r.id) in WrittenRelationshipKeys(d)(r)
    ensures Key(EndId, SourceEndId(r)) in WrittenRelationshipKeys(d)(r)
              && Key(EndId, TargetEndId(r)) in WrittenRelationshipKeys(d)(r)
  {
    var head, inner, ends := [RelationshipKey()(r)], WrittenClassKeys(d, ClassOf(d, r)), EndKeys(r);
    var keys := head + (inner + ends);
    assert WrittenRelationshipKeys(d)(r) == keys;
    assert keys[0] == Key(RelationshipId, r.id);
    assert keys[1 + |inner|] == ends[0] && keys[2 + |inner|] == ends[1];
  }

  function ElementKey(d: Diagram, e: Classifier): Key {
    match OwnerOf(d.relationships, e.id)
    case Some(r) => Key(RelationshipId, r.id)
    case None => Key(ClassifierId, e.id)
  }

  lemma ElementKeyIsWritten(env: Env, d: Diagram, e: Classifier)
    requires Sound(d) && e in d.elements
    ensures ElementKey(d, e) in WrittenKeys(env, d) && XmiIdOf(env, d, e.id) == CanonicalOf(env)(ElementKey(d, e))
  {
    match OwnerOf(d.relationships, e.id) {
      case None =>
        SameMembers(Sorted(ClassifierOrder(env), d.elements), d.elements);
        assert IsPlainClassifier(d)(e);
        ClassifierWritesItsKey(d, e);
        FlatMapMember(WrittenClassifierKeys(d), PlainClassifiers(env, d), e, ElementKey(d, e));
      case Some(r) =>
        assert IsAssociationLike(r);
        AssociationWritesItsKeys(d, r);
        RelationshipKeyIsWritten(env, d, r, ElementKey(d, e));
    }
  }

  lemma RelationshipKeyIsWritten(env: Env, d: Diagram, r: Relationship, key: Key)
    requires r in d.relationships && key in WrittenRelationshipKeys(d)(r)
    ensures key in WrittenKeys(env, d)
  {
    SameMembers(SortedRelationships(env, d), d.relationships);
    FlatMapMember(WrittenRelationshipKeys(d), SortedRelationships(env, d), r, key);
  }

  lemma DataTypeKeyIsWritten(env: Env, d: Diagram, name: string)
    requires name in DataTypeNames(env, d)
    ensures Key(DataTypeId, name) in WrittenKeys(env, d)
  {
    var names := SortedDataTypes(env, d);
    SameMembers(names, DataTypeNames(env, d));
    var i :| 0 <= i < |names| && names[i] == name;
    assert Map(DataTypeKey(), names)[i] == Key(DataTypeId, name);
  }

  lemma NoCollision(env: Env, d: Diagram, k: Key, l: Key)
    requires CollisionFree(env, d) && k in WrittenKeys(env, d) && l in WrittenKeys(env, d)
    requires k.kind == l.kind && CanonicalOf(env)(k) == CanonicalOf(env)(l)
    ensures k == l
  {
  }

  lemma XmiIdsOfElementsDiffer(env: Env, d: Diagram, e: Classifier, f: Classifier)
    requires DigestsAreHex(env) && Sound(d) && CollisionFree(env, d) && e in d.elements && f in d.elements
    requires XmiIdOf(env, d, e.id) == XmiIdOf(env, d, f.id)
    ensures e == f
  {
    ElementKeyIsWritten(env, d, e);
    ElementKeyIsWritten(env, d, f);
    CollisionsAreOfOneKind(env, ElementKey(d, e), ElementKey(d, f));
    NoCollision(env, d, ElementKey(d, e), ElementKey(d, f));
  }

  lemma EndIdsDiffer(env: Env, d: Diagram, r: Relationship)
    requires CollisionFree(env, d) && r in d.relationships && IsAssociationLike(r)
    ensures CanonicalId(env, EndId, SourceEndId(r)) != CanonicalId(env, EndId, TargetEndId(r))
  {
    var source, target := Key(EndId, SourceEndId(r)), Key(EndId, TargetEndId(r));
    AssociationWritesItsKeys(d, r);
    RelationshipKeyIsWritten(env, d, r, source);
    RelationshipKeyIsWritten(env, d, r, target);
    EndKeysDiffer(r);
    if CanonicalOf(env)(source) == CanonicalOf(env)(target) { NoCollision(env, d, source, target); }
  }

  lemma DataTypeIdsDiffer(env: Env, d: Diagram, a: string, b: string)
    requires CollisionFree(env, d) && a in DataTypeNames(env, d) && b in DataTypeNames(env, d)
    requires CanonicalId(env, DataTypeId, a) == CanonicalId(env, DataTypeId, b)
    ensures a == b
  {
    DataTypeKeyIsWritten(env, d, a);
    DataTypeKeyIsWritten(env, d, b);
    NoCollision(env, d, Key(DataTypeId, a), Key(DataTypeId, b));
  }

  // The importer knows the classifiers and the data types.

  function ClassifierEntry(env: Env, d: Diagram): Classifier -> (string, Identity) {
    (e: Classifier) => (XmiIdOf(env, d, e.id), Identity(IdBack(env, d, e.id), e.name))
  }

  lemma ClassifierEntries(env: Env, d: Diagram)
    ensures NamesOf(env, RawOf(env, d)).classifiers == Table(Map(ClassifierEntry(env, d), WrittenElements(env, d)))
  {
    var es := WrittenElements(env, d);
    var raws := Map(RawClassifierOf(env, d), es);
    forall j | 0 <= j < |es| ensures Map(IdentityOf(env), raws)[j] == ClassifierEntry(env, d)(es[j]) {
      assert raws[j] == RawClassifierOf(env, d)(es[j]);
    }
    assert Map(IdentityOf(env), raws) == Map(ClassifierEntry(env, d), es);
  }

  function DataTypeEntry(env: Env): string -> (string, string) {
    (name: string) => (CanonicalId(env, DataTypeId, name), name)
  }

  lemma DataTypeEntries(env: Env, d: Diagram)
    ensures NamesOf(env, RawOf(env, d)).dataTypes == Table(Map(DataTypeEntry(env), SortedDataTypes(env, d)))
  {
    var names := SortedDataTypes(env, d);
    var raws := Map(RawDataTypeOf(env), names);
    forall j | 0 <= j < |names| ensures Map(NameOfDataType(), raws)[j] == DataTypeEntry(env)(names[j]) {
      assert raws[j] == RawDataTypeOf(env)(names[j]);
    }
    assert Map(NameOfDataType(), raws) == Map(DataTypeEntry(env), names);
  }

  lemma ClassifierIsKnown(env: Env, d: Diagram, e: Classifier)
    requires DigestsAreHex(env) && Sound(d) && CollisionFree(env, d) && e in d.elements
    ensures Lookup(NamesOf(env, RawOf(env, d)).classifiers, Some(XmiIdOf(env, d, e.id)))
              == Some(Identity(IdBack(env, d, e.id), e.name))
  {
    var es, entry := WrittenElements(env, d), ClassifierEntry(env, d);
    EveryClassifierIsWrittenOnce(env, d);
    SameMembers(es, d.elements);
    forall f | f in es && entry(f).0 == entry(e).0 ensures entry(f) == entry(e) {
      XmiIdsOfElementsDiffer(env, d, e, f);
    }
    TableHolds(entry, es, e);
    ClassifierEntries(env, d);
    XmiIdIsPlain(env, d, e.id);
  }

  lemma DataTypeIsKnown(env: Env, d: Diagram, name: string)
    requires DigestsAreHex(env) && CollisionFree(env, d) && name in DataTypeNames(env, d)
    ensures Lookup(NamesOf(env, RawOf(env, d)).dataTypes, Some(CanonicalId(env, DataTypeId, name))) == Some(name)
  {
    var names, entry := SortedDataTypes(env, d), DataTypeEntry(env);
    SameMembers(names, DataTypeNames(env, d));
    forall other | other in names && entry(other).0 == entry(name).0 ensures entry(other) == entry(name) {
      DataTypeIdsDiffer(env, d, name, other);
    }
    TableHolds(entry, names, name);
    DataTypeEntries(env, d);
    CanonicalIdIsPlain(env, DataTypeId, name);
  }

  lemma DataTypeIsNoClassifier(env: Env, d: Diagram, name: string)
    requires DigestsAreHex(env)
    ensures Lookup(NamesOf(env, RawOf(env, d)).classifiers, Some(CanonicalId(env, DataTypeId, name))) == None
  {
    var es, entry, key := WrittenElements(env, d), ClassifierEntry(env, d), CanonicalId(env, DataTypeId, name);
    forall e | e in es ensures entry(e).0 != key {
      match OwnerOf(d.relationships, e.id) {
        case Some(r) => CanonicalIdsOfKindsDiffer(env, RelationshipId, r.id, DataTypeId, name);
        case None => CanonicalIdsOfKindsDiffer(env, ClassifierId, e.id, DataTypeId, name);
      }
    }
    TableKeys(entry, es, key);
    ClassifierEntries(env, d);
  }

  lemma ImporterKnows(env: Env, d: Diagram)
    requires DigestsAreHex(env) && Sound(d) && CollisionFree(env, d)
    ensures Knows(NamesOf(env, RawOf(env, d)), env, d)
  {
    var names := NamesOf(env, RawOf(env, d));
    forall e | e in d.elements
      ensures Lookup(names.classifiers, Some(XmiIdOf(env, d, e.id))) == Some(Identity(IdBack(env, d, e.id), e.name))
    {
      ClassifierIsKnown(env, d, e);
    }
    forall name | name in DataTypeNames(env, d)
      ensures Lookup(names.classifiers, Some(CanonicalId(env, DataTypeId, name))) == None
      ensures Lookup(names.dataTypes, Some(CanonicalId(env, DataTypeId, name))) == Some(name)
    {
      DataTypeIsNoClassifier(env, d, name);
      DataTypeIsKnown(env, d, name);
    }
  }

  // The whole model.

  ghost predicate GoodRelationship(d: Diagram, r: Relationship) {
    && PlainRelationship(r) && r.source.elementId in ElementIds(d) && r.target.elementId in ElementIds(d)
    && (IsAssociationLike(r) ==> GoodEnd(d, r.source) && GoodEnd(d, r.target))
  }

  /** What the importer needs of a diagram, besides digests that do not collide. */
  ghost predicate Importable(env: Env, d: Diagram) {
    && Sound(d) && !IsBlank(d.name) && !HasLineSpace(d.name)
    && (forall e :: e in d.elements ==> GoodClassifier(env, d, e))
    && (forall r :: r in d.relationships ==> GoodRelationship(d, r))
    && (forall name :: name in DataTypeNames(env, d) ==> !IsBlank(name) && !HasLineSpace(name))
  }

  function KeptBack(env: Env, d: Diagram): Relationship -> MappedAssociation {
    (r: Relationship) => Kept(AssociationBack(env, d)(r))
  }

  function RelationshipsBack(env: Env, d: Diagram): seq<Relationship> {
    Map(AssociationBack(env, d), WrittenAssociations(env, d)) + Map(DirectedBack(env, d), WrittenDirected(env, d))
  }

  function ElementsBack(env: Env, d: Diagram): seq<Classifier> { Map(ClassifierBack(env, d), WrittenElements(env, d)) }

  function ModelBack(env: Env, seed: Seed, d: Diagram): Model {
    ModelOf(env, seed, d.name, ElementsBack(env, d), RelationshipsBack(env, d))
  }

  lemma WrittenElementsAre(env: Env, d: Diagram)
    requires Sound(d)
    ensures forall e :: e in WrittenElements(env, d) <==> e in d.elements
  {
    EveryClassifierIsWrittenOnce(env, d);
    SameMembers(WrittenElements(env, d), d.elements);
  }

  lemma WrittenRelationshipsAre(env: Env, d: Diagram)
    requires Sound(d)
    ensures forall r :: r in WrittenAssociations(env, d) ==> r in d.relationships && IsAssociationLike(r)
    ensures forall r :: r in WrittenDirected(env, d) ==> r in d.relationships && !IsAssociationLike(r)
  {
    SameMembers(SortedRelationships(env, d), d.relationships);
    forall r | r in WrittenAssociations(env, d) ensures r in d.relationships && IsAssociationLike(r) {
      assert AssociationLike()(r);
    }
    EveryDirectedRelationshipIsWrittenOnce(env, d);
    SameMembers(WrittenDirected(env, d), Filter(IsDirected(), d.relationships));
    forall r | r in WrittenDirected(env, d) ensures r in d.relationships && !IsAssociationLike(r) {
      assert IsDirected()(r);
    }
  }

  lemma ElementsComeBack(env: Env, d: Diagram, names: Names)
    requires DigestsAreHex(env) && Importable(env, d) && Knows(names, env, d)
    ensures MapAll(MapClassifier(env, names), RawOf(env, d).classifiers) == Some(ElementsBack(env, d))
  {
    var map1, raw, back := MapClassifier(env, names), RawClassifierOf(env, d), ClassifierBack(env, d);
    WrittenElementsAre(env, d);
    forall e | e in WrittenElements(env, d) ensures map1(raw(e)) == Some(back(e)) {
      ClassifierComesBack(env, d, names, e);
    }
    MapAllOfMap(map1, raw, back, WrittenElements(env, d));
  }

  lemma AssociationsComeBack(env: Env, d: Diagram, names: Names)
    requires DigestsAreHex(env) && Importable(env, d) && CollisionFree(env, d) && Knows(names, env, d)
    ensures MapAll(MapAssociation(env, names), RawOf(env, d).associations)
              == Some(Map(KeptBack(env, d), WrittenAssociations(env, d)))
  {
    var map1, raw, back := MapAssociation(env, names), RawAssociationOf(env, d), KeptBack(env, d);
    WrittenRelationshipsAre(env, d);
    forall r | r in WrittenAssociations(env, d) ensures map1(raw(r)) == Some(back(r)) {
      EndIdsDiffer(env, d, r);
      assert GoodRelationship(d, r);
      AssociationComesBack(env, d, names, r);
    }
    MapAllOfMap(map1, raw, back, WrittenAssociations(env, d));
  }

  lemma DirectedOnesComeBack(env: Env, d: Diagram, names: Names)
    requires DigestsAreHex(env) && Importable(env, d) && Knows(names, env, d)
    ensures MapAll(MapDirected(env, names), RawOf(env, d).directed)
              == Some(Map(DirectedBack(env, d), WrittenDirected(env, d)))
  {
    var map1, raw, back := MapDirected(env, names), RawDirectedOf(env, d), DirectedBack(env, d);
    WrittenRelationshipsAre(env, d);
    forall r | r in WrittenDirected(env, d) ensures map1(raw(r)) == Some(back(r)) {
      assert GoodRelationship(d, r);
      DirectedComesBack(env, d, names, r);
    }
    MapAllOfMap(map1, raw, back, WrittenDirected(env, d));
  }

  lemma AllAssociationsAreKept(env: Env, d: Diagram, s: seq<Relationship>)
    ensures FlatMap(KeptIn(), Map(KeptBack(env, d), s)) == Map(AssociationBack(env, d), s)
  {
    FlatMapOfMap(KeptIn(), KeptBack(env, d), Singly(AssociationBack(env, d)), s);
    MapAsFlatMap(AssociationBack(env, d), s);
  }

  lemma ClassifiersAreNamed(env: Env, d: Diagram, c: RawClassifier)
    requires DigestsAreHex(env) && Importable(env, d) && c in RawOf(env, d).classifiers
    ensures IsIdentifier(c.id) && IsName(c.name)
  {
    var e := MapSource(RawClassifierOf(env, d), WrittenElements(env, d), c);
    WrittenElementsAre(env, d);
    assert GoodClassifier(env, d, e);
    XmiIdIsPlain(env, d, e.id);
    PlainIsWord(XmiIdOf(env, d, e.id));
  }

  lemma DataTypesAreNamed(env: Env, d: Diagram, t: RawDataType)
    requires DigestsAreHex(env) && Importable(env, d) && t in RawOf(env, d).dataTypes
    ensures IsIdentifier(t.id) && IsName(t.name)
  {
    var name := MapSource(RawDataTypeOf(env), SortedDataTypes(env, d), t);
    SameMembers(SortedDataTypes(env, d), DataTypeNames(env, d));
    CanonicalIsIdentifier(env, DataTypeId, name);
  }

  lemma EverythingIsNamed(env: Env, d: Diagram)
    requires DigestsAreHex(env) && Importable(env, d)
    ensures IsNamed(RawOf(env, d))
  {
    forall c | c in RawOf(env, d).classifiers ensures IsIdentifier(c.id) && IsName(c.name) {
      ClassifiersAreNamed(env, d, c);
    }
    forall t | t in RawOf(env, d).dataTypes ensures IsIdentifier(t.id) && IsName(t.name) {
      DataTypesAreNamed(env, d, t);
    }
  }

  // Types.

  function TypesBack(env: Env, d: Diagram): TypeReference -> TypeReference { (t: TypeReference) => TypeBack(env, d, t) }

  lemma TypesOfOperationBack(env: Env, d: Diagram, o: Operation)
    ensures TypesOfOperation()(OperationBack(env, d)(o)) == Map(TypesBack(env, d), TypesOfOperation()(o))
  {
  }

  lemma TypesOfClassifierBack(env: Env, d: Diagram, e: Classifier)
    ensures TypesOfClassifier()(ClassifierBack(env, d)(e)) == Map(TypesBack(env, d), TypesOfClassifier()(e))
  {
    var back, f := TypesBack(env, d), ClassifierBack(env, d)(e);
    forall o | o in e.operations ensures OperationTypesBack(env, d)(o) == TypesOfOperation()(OperationBack(env, d)(o)) {
      TypesOfOperationBack(env, d, o);
    }
    FlatMapOfMap(TypesOfOperation(), OperationBack(env, d), OperationTypesBack(env, d), e.operations);
    MapOfFlatMap(back, TypesOfOperation(), OperationTypesBack(env, d), e.operations);
    var types := Map((a: Attribute) => a.typ, e.attributes);
    assert Map((a: Attribute) => a.typ, f.attributes) == Map(back, types);
    MapAppend(back, types, FlatMap(TypesOfOperation(), e.operations));
  }

  function OperationTypesBack(env: Env, d: Diagram): Operation -> seq<TypeReference> {
    (o: Operation) => Map(TypesBack(env, d), TypesOfOperation()(o))
  }

  function ClassifierTypesBack(env: Env, d: Diagram): Classifier -> seq<TypeReference> {
    (e: Classifier) => Map(TypesBack(env, d), TypesOfClassifier()(e))
  }

  lemma TypesComeBack(env: Env, seed: Seed, d: Diagram)
    requires Sound(d)
    ensures multiset(Types(ModelBack(env, seed, d).diagram)) == multiset(Map(TypesBack(env, d), Types(d)))
  {
    var es := WrittenElements(env, d);
    EveryClassifierIsWrittenOnce(env, d);
    FlatMapPermuted(TypesOfClassifier(), ModelBack(env, seed, d).diagram.elements, ElementsBack(env, d));
    forall e | e in es ensures TypesOfClassifier()(ClassifierBack(env, d)(e)) == ClassifierTypesBack(env, d)(e) {
      TypesOfClassifierBack(env, d, e);
    }
    FlatMapOfMap(TypesOfClassifier(), ClassifierBack(env, d), ClassifierTypesBack(env, d), es);
    FlatMapPermuted(ClassifierTypesBack(env, d), es, d.elements);
    MapOfFlatMap(TypesBack(env, d), TypesOfClassifier(), ClassifierTypesBack(env, d), d.elements);
  }

  lemma TypeOrigin(env: Env, seed: Seed, d: Diagram, t: TypeReference) returns (origin: TypeReference)
    requires Sound(d) && t in Types(ModelBack(env, seed, d).diagram)
    ensures origin in Types(d) && t == TypeBack(env, d, origin)
  {
    var types, back := Types(d), Types(ModelBack(env, seed, d).diagram);
    assert multiset(back) == multiset(Map(TypesBack(env, d), types)) by { TypesComeBack(env, seed, d); }
    SameMembers(back, Map(TypesBack(env, d), types));
    origin := MapSource(TypesBack(env, d), types, t);
  }

  lemma TypeStays(env: Env, seed: Seed, d: Diagram, t: TypeReference)
    requires Sound(d) && t in Types(d)
    ensures TypeBack(env, d, t) in Types(ModelBack(env, seed, d).diagram)
  {
    var types, back := Types(d), Types(ModelBack(env, seed, d).diagram);
    MapTarget(TypesBack(env, d), types, t);
    assert multiset(back) == multiset(Map(TypesBack(env, d), types)) by { TypesComeBack(env, seed, d); }
    SameMembers(back, Map(TypesBack(env, d), types));
  }

  lemma DataTypeStays(env: Env, seed: Seed, d: Diagram, name: string)
    requires Sound(d) && name in DataTypeNames(env, d)
    ensures name in DataTypeNames(env, ModelBack(env, seed, d).diagram)
  {
    var t := DataTypeUse(env, d, name);
    TypeStays(env, seed, d, t);
    DataTypeIsNamed(env, ModelBack(env, seed, d).diagram, TypeBack(env, d, t));
  }

  lemma DataTypeIsNamed(env: Env, d: Diagram, t: TypeReference)
    requires t in Types(d) && IsDataType(env, t)
    ensures t.name in DataTypeNames(env, d)
  {
    var types := Filter(DataTypes(env), Types(d));
    assert DataTypes(env)(t) && t in types;
    var i :| 0 <= i < |types| && types[i] == t;
    assert Map((t: TypeReference) => t.name, types)[i] == t.name;
  }

  lemma DataTypeUse(env: Env, d: Diagram, name: string) returns (t: TypeReference)
    requires name in DataTypeNames(env, d)
    ensures t in Types(d) && IsDataType(env, t) && t.name == name
  {
    var types := Filter(DataTypes(env), Types(d));
    var names := Map((t: TypeReference) => t.name, types);
    assert name in names;
    var i :| 0 <= i < |names| && names[i] == name;
    t := types[i];
    assert t in types && DataTypes(env)(t);
  }

  lemma PrimitivesStayCanonical(env: Env, seed: Seed, d: Diagram, t: TypeReference)
    requires Sound(d) && t in Types(ModelBack(env, seed, d).diagram) && t.elementId.None?
    requires forall t :: t in Types(d) ==> ExportableType(env, d, t)
    ensures OmgPrimitive(env, t.name).None? || OmgPrimitive(env, t.name) == Some(t.name)
  {
    var origin := TypeOrigin(env, seed, d, t);
    assert ExportableType(env, d, origin);
  }

  lemma NamesOfDataTypes(env: Env, names: seq<string>)
    ensures Map(DataTypeName(), Map(RawDataTypeOf(env), names)) == names
  {
    forall i | 0 <= i < |names| ensures Map(DataTypeName(), Map(RawDataTypeOf(env), names))[i] == names[i] {
      assert Map(RawDataTypeOf(env), names)[i] == RawDataTypeOf(env)(names[i]);
    }
  }

  lemma DataTypesAreNoPrimitives(env: Env, d: Diagram)
    ensures forall t :: t in RawOf(env, d).dataTypes ==> OmgPrimitive(env, t.name.GetOr("")).None?
  {
    var names := SortedDataTypes(env, d);
    forall t | t in Map(RawDataTypeOf(env), names) ensures OmgPrimitive(env, t.name.GetOr("")).None? {
      var name := MapSource(RawDataTypeOf(env), names, t);
      SameMembers(names, DataTypeNames(env, d));
      var use := DataTypeUse(env, d, name);
    }
  }

  lemma DataTypesComeBack(env: Env, seed: Seed, d: Diagram)
    requires Sound(d) && forall t :: t in Types(d) ==> ExportableType(env, d, t)
    ensures DataTypesFit(env, RawOf(env, d).dataTypes, ModelBack(env, seed, d).diagram)
  {
    var back := ModelBack(env, seed, d).diagram;
    forall t | t in Types(back) && t.elementId.None?
      ensures OmgPrimitive(env, t.name).None? || OmgPrimitive(env, t.name) == Some(t.name)
    {
      PrimitivesStayCanonical(env, seed, d, t);
    }
    DataTypesAreNoPrimitives(env, d);
    NamesOfDataTypes(env, SortedDataTypes(env, d));
    PermutedIsDistinct(SortedDataTypes(env, d), DataTypeNames(env, d));
  }

  // Diagnostics.

  lemma NoVisibilityDiagnostics(env: Env, d: Diagram, e: Classifier)
    ensures ClassifierDiagnostics()(RawClassifierOf(env, d)(e)) == []
  {
    var c := RawClassifierOf(env, d)(e);
    forall a | a in e.attributes ensures AttributeDiagnostics()(RawAttributeOf(env, d)(a)) == [] {
      VisibilityComesBack(a.visibility);
    }
    FlatMapOfNothings(AttributeDiagnostics(), RawAttributeOf(env, d), e.attributes);
    forall o | o in e.operations ensures OperationDiagnostics()(RawOperationOf(env, d)(o)) == [] {
      VisibilityComesBack(o.visibility);
    }
    FlatMapOfNothings(OperationDiagnostics(), RawOperationOf(env, d), e.operations);
    assert ClassifierDiagnostics()(c) == FlatMap(AttributeDiagnostics(), c.attributes)
        + FlatMap(OperationDiagnostics(), c.operations);
  }

  lemma NoClassifierDiagnostics(env: Env, d: Diagram)
    ensures FlatMap(ClassifierDiagnostics(), RawOf(env, d).classifiers) == []
  {
    var es := WrittenElements(env, d);
    forall e | e in es ensures ClassifierDiagnostics()(RawClassifierOf(env, d)(e)) == [] {
      NoVisibilityDiagnostics(env, d, e);
    }
    FlatMapOfNothings(ClassifierDiagnostics(), RawClassifierOf(env, d), es);
  }

  lemma NoDataTypeDiagnostics(env: Env, seed: Seed, d: Diagram)
    requires Sound(d)
    ensures FlatMap(DataTypeDiagnostics(DataTypeNames(env, ModelBack(env, seed, d).diagram)), RawOf(env, d).dataTypes)
              == []
  {
    var names, used := SortedDataTypes(env, d), DataTypeNames(env, ModelBack(env, seed, d).diagram);
    SameMembers(names, DataTypeNames(env, d));
    forall name | name in names ensures DataTypeDiagnostics(used)(RawDataTypeOf(env)(name)) == [] {
      DataTypeStays(env, seed, d, name);
      assert name in used;
    }
    FlatMapOfNothings(DataTypeDiagnostics(used), RawDataTypeOf(env), names);
  }

  lemma NoAssociationDiagnostics(env: Env, d: Diagram, s: seq<Relationship>)
    ensures FlatMap(AssociationDiagnostics(), Map(KeptBack(env, d), s)) == []
  {
    FlatMapOfNothings(AssociationDiagnostics(), KeptBack(env, d), s);
  }

  lemma NoDiagnostics(env: Env, seed: Seed, d: Diagram)
    requires Sound(d)
    ensures Diagnostics(env, RawOf(env, d), Map(KeptBack(env, d), WrittenAssociations(env, d)),
                ModelBack(env, seed, d).diagram) == []
  {
    NoClassifierDiagnostics(env, d);
    NoAssociationDiagnostics(env, d, WrittenAssociations(env, d));
    NoDataTypeDiagnostics(env, seed, d);
  }

  /** The raw model of an exported diagram is imported completely and without a diagnostic. */
  lemma RawIsImported(env: Env, seed: Seed, d: Diagram)
    requires DigestsAreHex(env) && Importable(env, d) && CollisionFree(env, d)
    requires forall t :: t in Types(d) ==> ExportableType(env, d, t)
    ensures ImportRaw(env, seed, RawOf(env, d)) == Some(Imported(ModelBack(env, seed, d), []))
  {
    var raw := RawOf(env, d);
    var names := NamesOf(env, raw);
    ImporterKnows(env, d);
    EverythingIsNamed(env, d);
    ElementsComeBack(env, d, names);
    AssociationsComeBack(env, d, names);
    DirectedOnesComeBack(env, d, names);
    AllAssociationsAreKept(env, d, WrittenAssociations(env, d));
    DataTypesComeBack(env, seed, d);
    NoDiagnostics(env, seed, d);
    ImportIsMapped(env, seed, raw, ElementsBack(env, d), Map(KeptBack(env, d), WrittenAssociations(env, d)),
                   Map(DirectedBack(env, d), WrittenDirected(env, d)), ModelBack(env, seed, d));
  }

  lemma ImportIsMapped(env: Env, seed: Seed, raw: Raw, elements: seq<Classifier>, associations: seq<MappedAssociation>,
                       directed: seq<Relationship>, model: Model)
    requires IsNamed(raw) && MapAll(MapClassifier(env, NamesOf(env, raw)), raw.classifiers) == Some(elements)
    requires MapAll(MapAssociation(env, NamesOf(env, raw)), raw.associations) == Some(associations)
    requires MapAll(MapDirected(env, NamesOf(env, raw)), raw.directed) == Some(directed)
    requires model == ModelOf(env, seed, raw.modelName.value, elements, FlatMap(KeptIn(), associations) + directed)
    requires DataTypesFit(env, raw.dataTypes, model.diagram)
    ensures ImportRaw(env, seed, raw) == Some(Imported(model, Diagnostics(env, raw, associations, model.diagram)))
  {
  }
}
