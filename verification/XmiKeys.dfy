/** Every xmi:id of an exported document stands for one part of the model. */
module XmiKeys {

  import opened Wrappers
  import opened Sequences
  import opened Permutations
  import opened Uml
  import opened Integrity
  import opened XmiText
  import opened XmiExport
  import opened XmiReading
  import opened XmiContents
  import opened XmiReadBack
  import opened XmiCoverage

  /** What an xmi:id is computed from. */
  datatype Key = Key(kind: IdKind, id: string)

  function CanonicalOf(env: Env): Key -> string { (k: Key) => CanonicalId(env, k.kind, k.id) }

  // The ids of the schema.

  predicate IsLetter(c: char) { 'a' <= c <= 'z' || 'A' <= c <= 'Z' }

  predicate IsSchemaId(id: string) {
    2 <= |id| <= 64 && IsLetter(id[0]) && forall c :: c in id ==> IsLetter(c) || IsDigit(c) || c == '_' || c == '-'
  }

  predicate HasSchemaIds(m: Model) { forall id :: id in AllIds(m) ==> IsSchemaId(id) }

  /** The part before the first colon. */
  function Base(id: string): string {
    if id == "" || id[0] == ':' then "" else [id[0]] + Base(id[1..])
  }

  lemma {:induction false} BaseOf(id: string, suffix: string)
    requires ':' !in id && (suffix == "" || suffix[0] == ':')
    ensures Base(id + suffix) == id
  {
    if id == "" {
      assert id + suffix == suffix;
    } else {
      assert (id + suffix)[1..] == id[1..] + suffix;
      BaseOf(id[1..], suffix);
    }
  }

  lemma SchemaIdHasNoColon(id: string)
    requires IsSchemaId(id)
    ensures ':' !in id && Base(id) == id
  {
    BaseOf(id, "");
    assert id + "" == id;
  }

  // The keys of each part of the model.

  function AttributeKey(): Attribute -> Key { (a: Attribute) => Key(AttributeId, a.id) }

  function ParameterKey(): Parameter -> Key { (p: Parameter) => Key(ParameterId, p.id) }

  function KeysOfOperation(o: Operation): seq<Key> {
    [Key(OperationId, o.id)] + Map(ParameterKey(), o.parameters) + [Key(ParameterId, ReturnId(o))]
  }

  function OperationKeys(): Operation -> seq<Key> { (o: Operation) => KeysOfOperation(o) }

  function KeysOfMembers(e: Classifier): seq<Key> {
    Map(AttributeKey(), e.attributes) + FlatMap(OperationKeys(), e.operations)
  }

  function MemberKeys(): Classifier -> seq<Key> { (e: Classifier) => KeysOfMembers(e) }

  function ClassifierKeys(): Classifier -> seq<Key> {
    (e: Classifier) => [Key(ClassifierId, e.id)] + MemberKeys()(e)
  }

  function RelationshipKey(): Relationship -> Key { (r: Relationship) => Key(RelationshipId, r.id) }

  function EndKeys(r: Relationship): seq<Key> { [Key(EndId, SourceEndId(r)), Key(EndId, TargetEndId(r))] }

  function RelationshipKeys(): Relationship -> seq<Key> {
    (r: Relationship) => [RelationshipKey()(r)] + EndKeys(r)
  }

  function DataTypeKey(): string -> Key { (name: string) => Key(DataTypeId, name) }

  /** The keys of all parts of the model, whether written or not. */
  function AllKeys(env: Env, d: Diagram): seq<Key> {
    [Key(ModelId, d.id)] + Map(DataTypeKey(), SortedDataTypes(env, d))
    + FlatMap(ClassifierKeys(), d.elements) + FlatMap(RelationshipKeys(), d.relationships)
  }

  // They differ, because the ids of the model do.

  ghost predicate BasedOn<T(!new)>(keys: T -> seq<Key>, ids: T -> seq<string>, x: T) {
    Distinct(keys(x)) && forall k :: k in keys(x) ==> Base(k.id) in ids(x)
  }

  lemma {:induction false} DistinctByBase<T(!new)>(keys: T -> seq<Key>, ids: T -> seq<string>, s: seq<T>)
    requires Distinct(FlatMap(ids, s)) && forall x :: x in s ==> BasedOn(keys, ids, x)
    ensures Distinct(FlatMap(keys, s))
    ensures forall k :: k in FlatMap(keys, s) ==> Base(k.id) in FlatMap(ids, s)
  {
    forall i, j | 0 <= i < j < |s| ensures Disjoint(keys, s[i], s[j]) {
      FlatMapIsDisjoint(ids, s, i, j);
      assert BasedOn(keys, ids, s[i]) && BasedOn(keys, ids, s[j]);
    }
    DistinctFlatMap(keys, s);
    forall k | k in FlatMap(keys, s) ensures Base(k.id) in FlatMap(ids, s) {
      var x := FlatMapSource(keys, s, k);
      FlatMapMember(ids, s, x, Base(k.id));
    }
  }

  lemma MapIsDistinct<A(!new)>(key: A -> Key, s: seq<A>, ids: seq<string>)
    requires |ids| == |s| && Distinct(ids) && forall i :: 0 <= i < |s| ==> key(s[i]).id == ids[i] && IsSchemaId(ids[i])
    ensures Distinct(Map(key, s)) && forall k :: k in Map(key, s) ==> k.id in ids && Base(k.id) in ids && ':' !in k.id
  {
    forall k | k in Map(key, s) ensures k.id in ids && Base(k.id) in ids && ':' !in k.id {
      var i :| 0 <= i < |s| && Map(key, s)[i] == k;
      SchemaIdHasNoColon(ids[i]);
    }
  }

  lemma OperationKeysDiffer(o: Operation)
    requires Distinct(IdsOfOperation()(o)) && forall id :: id in IdsOfOperation()(o) ==> IsSchemaId(id)
    ensures BasedOn(OperationKeys(), IdsOfOperation(), o)
  {
    var ids, parameters, returned := ParameterIds(o.parameters), Map(ParameterKey(), o.parameters),
        Key(ParameterId, ReturnId(o));
    DistinctAppend([o.id], ids);
    SchemaIdHasNoColon(o.id);
    BaseOf(o.id, ":return");
    assert ReturnId(o)[|o.id|] == ':';
    forall i | 0 <= i < |ids| ensures IsSchemaId(ids[i]) { assert ids[i] in IdsOfOperation()(o); }
    MapIsDistinct(ParameterKey(), o.parameters, ids);
    DistinctAppend([Key(OperationId, o.id)], parameters);
    DistinctAppend([Key(OperationId, o.id)] + parameters, [returned]);
    assert forall k :: k in parameters ==> k.kind == ParameterId;
  }

  lemma OperationsKeysDiffer(os: seq<Operation>)
    requires Distinct(FlatMap(IdsOfOperation(), os)) && forall id :: id in FlatMap(IdsOfOperation(), os) ==>
               IsSchemaId(id)
    ensures Distinct(FlatMap(OperationKeys(), os))
    ensures forall k :: k in FlatMap(OperationKeys(), os) ==> Base(k.id) in FlatMap(IdsOfOperation(), os)
  {
    forall o | o in os ensures BasedOn(OperationKeys(), IdsOfOperation(), o) {
      var i :| 0 <= i < |os| && os[i] == o;
      FlatMapPart(IdsOfOperation(), os, i);
      forall id | id in IdsOfOperation()(o) ensures IsSchemaId(id) { FlatMapMember(IdsOfOperation(), os, o, id); }
      OperationKeysDiffer(o);
    }
    DistinctByBase(OperationKeys(), IdsOfOperation(), os);
  }

  lemma ClassifierKeysDiffer(e: Classifier)
    requires Distinct(IdsOfClassifier()(e)) && forall id :: id in IdsOfClassifier()(e) ==> IsSchemaId(id)
    ensures BasedOn(ClassifierKeys(), IdsOfClassifier(), e)
  {
    var attributeIds, operationIds := AttributeIds(e.attributes), FlatMap(IdsOfOperation(), e.operations);
    var attributes, operations := Map(AttributeKey(), e.attributes), FlatMap(OperationKeys(), e.operations);
    var ids := IdsOfClassifier()(e);
    assert ids == [e.id] + attributeIds + operationIds;
    DistinctAppend([e.id] + attributeIds, operationIds);
    DistinctAppend([e.id], attributeIds);
    SchemaIdHasNoColon(e.id);
    forall i | 0 <= i < |attributeIds| ensures IsSchemaId(attributeIds[i]) { assert attributeIds[i] in ids; }
    MapIsDistinct(AttributeKey(), e.attributes, attributeIds);
    OperationsKeysDiffer(e.operations);
    MemberKindsDiffer(e);
    ThreePartsDiffer(Key(ClassifierId, e.id), attributes, operations);
  }

  lemma ThreePartsDiffer(head: Key, attributes: seq<Key>, operations: seq<Key>)
    requires Distinct(attributes) && Distinct(operations) && head.kind == ClassifierId
    requires forall k :: k in attributes ==> k.kind == AttributeId
    requires forall k :: k in operations ==> k.kind == OperationId || k.kind == ParameterId
    ensures Distinct([head] + (attributes + operations))
  {
    DistinctAppend(attributes, operations);
    DistinctAppend([head], attributes + operations);
  }

  lemma MemberKindsDiffer(e: Classifier)
    ensures forall k :: k in Map(AttributeKey(), e.attributes) ==> k.kind == AttributeId
    ensures forall k :: k in FlatMap(OperationKeys(), e.operations) ==> k.kind == OperationId || k.kind == ParameterId
    ensures forall k :: k in MemberKeys()(e) ==> k.kind == AttributeId || k.kind == OperationId || k.kind == ParameterId
  {
    forall k | k in FlatMap(OperationKeys(), e.operations) ensures k.kind == OperationId || k.kind == ParameterId {
      var o := FlatMapSource(OperationKeys(), e.operations, k);
    }
  }

  lemma RelationshipKeysDiffer(r: Relationship)
    requires IsSchemaId(r.id)
    ensures BasedOn(RelationshipKeys(), IdOfRelationship(), r)
  {
    SchemaIdHasNoColon(r.id);
    BaseOf(r.id, ":source");
    BaseOf(r.id, ":target");
    var source, target := Key(EndId, SourceEndId(r)), Key(EndId, TargetEndId(r));
    assert SourceEndId(r)[|r.id| + 1] == 's' && TargetEndId(r)[|r.id| + 1] == 't';
    assert RelationshipKey()(r) == Key(RelationshipId, r.id) && EndKeys(r) == [source, target];
    assert RelationshipKeys()(r) == [Key(RelationshipId, r.id)] + [source, target];
    assert forall k :: k in RelationshipKeys()(r) ==> Base(k.id) == r.id;
    assert IdOfRelationship()(r) == [r.id];
  }

  lemma DataTypeKeysDiffer(env: Env, d: Diagram)
    ensures Distinct(Map(DataTypeKey(), SortedDataTypes(env, d)))
  {
    var names := SortedDataTypes(env, d);
    PermutedIsDistinct(names, DataTypeNames(env, d));
  }

  lemma ElementKeysDiffer(m: Model)
    requires Distinct(AllIds(m)) && HasSchemaIds(m)
    ensures Distinct(FlatMap(ClassifierKeys(), m.diagram.elements))
    ensures forall k :: k in FlatMap(ClassifierKeys(), m.diagram.elements) ==>
              k.kind in {ClassifierId, AttributeId, OperationId, ParameterId}
  {
    var es := m.diagram.elements;
    DistinctAppend([m.project.id, m.diagram.id] + ClassifiersIds(es), RelationshipIds(m.diagram.relationships));
    DistinctAppend([m.project.id, m.diagram.id], ClassifiersIds(es));
    forall e | e in es ensures BasedOn(ClassifierKeys(), IdsOfClassifier(), e) {
      var i :| 0 <= i < |es| && es[i] == e;
      FlatMapPart(IdsOfClassifier(), es, i);
      forall id | id in IdsOfClassifier()(e) ensures IsSchemaId(id) {
        FlatMapMember(IdsOfClassifier(), es, e, id);
        assert id in AllIds(m);
      }
      ClassifierKeysDiffer(e);
    }
    DistinctByBase(ClassifierKeys(), IdsOfClassifier(), es);
    forall k | k in FlatMap(ClassifierKeys(), es)
        ensures k.kind in {ClassifierId, AttributeId, OperationId, ParameterId} {
      var e := FlatMapSource(ClassifierKeys(), es, k);
      MemberKindsDiffer(e);
      assert k == Key(ClassifierId, e.id) || k in MemberKeys()(e);
    }
  }

  lemma RelationshipsKeysDiffer(m: Model)
    requires Distinct(AllIds(m)) && HasSchemaIds(m)
    ensures Distinct(FlatMap(RelationshipKeys(), m.diagram.relationships))
    ensures forall k :: k in FlatMap(RelationshipKeys(), m.diagram.relationships) ==> k.kind in {RelationshipId, EndId}
  {
    var rs := m.diagram.relationships;
    DistinctAppend([m.project.id, m.diagram.id] + ClassifiersIds(m.diagram.elements), RelationshipIds(rs));
    forall r | r in rs ensures BasedOn(RelationshipKeys(), IdOfRelationship(), r) {
      FlatMapMember(IdOfRelationship(), rs, r, r.id);
      assert r.id in AllIds(m);
      RelationshipKeysDiffer(r);
    }
    DistinctByBase(RelationshipKeys(), IdOfRelationship(), rs);
    forall k | k in FlatMap(RelationshipKeys(), rs) ensures k.kind in {RelationshipId, EndId} {
      var r := FlatMapSource(RelationshipKeys(), rs, k);
      assert k == RelationshipKey()(r) || k in EndKeys(r);
    }
  }

  lemma AllKeysDiffer(env: Env, m: Model)
    requires Distinct(AllIds(m)) && HasSchemaIds(m)
    ensures Distinct(AllKeys(env, m.diagram))
  {
    var d := m.diagram;
    var names := Map(DataTypeKey(), SortedDataTypes(env, d));
    var classifiers, relationships := FlatMap(ClassifierKeys(), d.elements),
        FlatMap(RelationshipKeys(), d.relationships);
    DataTypeKeysDiffer(env, d);
    ElementKeysDiffer(m);
    RelationshipsKeysDiffer(m);
    FourPartsDiffer(Key(ModelId, d.id), names, classifiers, relationships);
  }

  lemma FourPartsDiffer(head: Key, names: seq<Key>, classifiers: seq<Key>, relationships: seq<Key>)
    requires Distinct(names) && Distinct(classifiers) && Distinct(relationships) && head.kind == ModelId
    requires forall k :: k in names ==> k.kind == DataTypeId
    requires forall k :: k in classifiers ==> k.kind in {ClassifierId, AttributeId, OperationId, ParameterId}
    requires forall k :: k in relationships ==> k.kind in {RelationshipId, EndId}
    ensures Distinct([head] + names + classifiers + relationships)
  {
    DistinctAppend([head], names);
    DistinctAppend([head] + names, classifiers);
    DistinctAppend([head] + names + classifiers, relationships);
  }

  // The keys of the ids that are written.

  function InlineKeys(d: Diagram): Classifier -> seq<Key> {
    (e: Classifier) => Map(RelationshipKey(), InlinesIn(d)(e))
  }

  function WrittenClassifierKeys(d: Diagram): Classifier -> seq<Key> {
    (e: Classifier) => ClassifierKeys()(e) + InlineKeys(d)(e)
  }

  function WrittenClassKeys(d: Diagram, c: Option<Classifier>): seq<Key> {
    if c.None? then [] else MemberKeys()(c.value) + InlineKeys(d)(c.value)
  }

  function KeysWrittenFor(d: Diagram, r: Relationship): seq<Key> {
    if IsAssociationLike(r) then [RelationshipKey()(r)] + (WrittenClassKeys(d, ClassOf(d, r)) + EndKeys(r))
    else if r.kind == Dependency then [RelationshipKey()(r)]
    else []
  }

  function WrittenRelationshipKeys(d: Diagram): Relationship -> seq<Key> { (r: Relationship) => KeysWrittenFor(d, r) }

  function WrittenKeys(env: Env, d: Diagram): seq<Key> {
    [Key(ModelId, d.id)] + (Map(DataTypeKey(), SortedDataTypes(env, d))
    + FlatMap(WrittenClassifierKeys(d), PlainClassifiers(env, d))
    + FlatMap(WrittenRelationshipKeys(d), SortedRelationships(env, d)))
  }

  lemma MemberIdsAreCanonical(env: Env, d: Diagram, e: Classifier)
    ensures MemberXmiIds(env, d, e) == Map(CanonicalOf(env), MemberKeys()(e) + InlineKeys(d)(e))
  {
    var canonical := CanonicalOf(env);
    OnesOfMap(AttributeXmiId(env), canonical, AttributeKey(), e.attributes);
    OnesOfMap(RelationshipXmiId(env), canonical, RelationshipKey(), InlinesIn(d)(e));
    forall o | o in e.operations ensures OperationXmiIds(env)(o) == Map(canonical, OperationKeys()(o)) {
      OnesOfMap(ParameterXmiId(env), canonical, ParameterKey(), o.parameters);
      var head, returned := Key(OperationId, o.id), Key(ParameterId, ReturnId(o));
      MapAppend(canonical, [head] + Map(ParameterKey(), o.parameters), [returned]);
      MapAppend(canonical, [head], Map(ParameterKey(), o.parameters));
    }
    MapOfFlatMap(canonical, OperationKeys(), OperationXmiIds(env), e.operations);
    MapAppend(canonical, Map(AttributeKey(), e.attributes), FlatMap(OperationKeys(), e.operations));
    MapAppend(canonical, MemberKeys()(e), InlineKeys(d)(e));
  }

  lemma ClassifierIdsAreCanonical(env: Env, d: Diagram, e: Classifier)
    requires OwnerOf(d.relationships, e.id).None?
    ensures ClassifierXmiIds(env, d)(e) == Map(CanonicalOf(env), WrittenClassifierKeys(d)(e))
  {
    var head, members := [Key(ClassifierId, e.id)], MemberKeys()(e) + InlineKeys(d)(e);
    MemberIdsAreCanonical(env, d, e);
    MapAppend(CanonicalOf(env), head, members);
    assert Map(CanonicalOf(env), head) == [XmiIdOf(env, d, e.id)];
    KeysRegroup(head, MemberKeys()(e), InlineKeys(d)(e));
    assert WrittenClassifierKeys(d)(e) == head + members;
  }

  lemma KeysRegroup(a: seq<Key>, b: seq<Key>, c: seq<Key>)
    ensures a + b + c == a + (b + c)
  {
  }

  lemma RelationshipIdsAreCanonical(env: Env, d: Diagram, r: Relationship)
    ensures RelationshipXmiIds(env, d)(r) == Map(CanonicalOf(env), WrittenRelationshipKeys(d)(r))
  {
    var canonical, head := CanonicalOf(env), [RelationshipKey()(r)];
    if IsAssociationLike(r) {
      var c := ClassOf(d, r);
      if c.Some? { MemberIdsAreCanonical(env, d, c.value); }
      MapAppend(canonical, WrittenClassKeys(d, c), EndKeys(r));
      MapAppend(canonical, head, WrittenClassKeys(d, c) + EndKeys(r));
      assert Map(canonical, EndKeys(r)) == EndXmiIds(env, r);
    }
  }

  lemma ClassifiersIdsAreCanonical(env: Env, d: Diagram, es: seq<Classifier>)
    requires forall e :: e in es ==> OwnerOf(d.relationships, e.id).None?
    ensures FlatMap(ClassifierXmiIds(env, d), es) == Map(CanonicalOf(env), FlatMap(WrittenClassifierKeys(d), es))
  {
    forall e | e in es ensures ClassifierXmiIds(env, d)(e) == Map(CanonicalOf(env), WrittenClassifierKeys(d)(e)) {
      ClassifierIdsAreCanonical(env, d, e);
    }
    MapOfFlatMap(CanonicalOf(env), WrittenClassifierKeys(d), ClassifierXmiIds(env, d), es);
  }

  lemma RelationshipsIdsAreCanonical(env: Env, d: Diagram, rs: seq<Relationship>)
    ensures FlatMap(RelationshipXmiIds(env, d), rs) == Map(CanonicalOf(env), FlatMap(WrittenRelationshipKeys(d), rs))
  {
    forall r | r in rs ensures RelationshipXmiIds(env, d)(r) == Map(CanonicalOf(env), WrittenRelationshipKeys(d)(r)) {
      RelationshipIdsAreCanonical(env, d, r);
    }
    MapOfFlatMap(CanonicalOf(env), WrittenRelationshipKeys(d), RelationshipXmiIds(env, d), rs);
  }

  lemma MapOfFour<A, B>(f: A -> B, h: seq<A>, a: seq<A>, b: seq<A>, c: seq<A>)
    ensures Map(f, h + (a + b + c)) == Map(f, h) + (Map(f, a) + Map(f, b) + Map(f, c))
  {
    MapAppend(f, a, b);
    MapAppend(f, a + b, c);
    MapAppend(f, h, a + b + c);
  }

  lemma WrittenIdsAreCanonical(env: Env, d: Diagram)
    ensures WrittenIds(env, d) == Map(CanonicalOf(env), WrittenKeys(env, d))
  {
    var canonical, names, es, rs := CanonicalOf(env), SortedDataTypes(env, d), PlainClassifiers(env, d),
        SortedRelationships(env, d);
    OnesOfMap(DataTypeXmiId(env), canonical, DataTypeKey(), names);
    assert forall e :: e in es ==> IsPlainClassifier(d)(e);
    ClassifiersIdsAreCanonical(env, d, es);
    RelationshipsIdsAreCanonical(env, d, rs);
    var h := [Key(ModelId, d.id)];
    assert Map(canonical, h) == [CanonicalId(env, ModelId, d.id)];
    MapOfFour(canonical, h, Map(DataTypeKey(), names), FlatMap(WrittenClassifierKeys(d), es),
        FlatMap(WrittenRelationshipKeys(d), rs));
  }

  // Each key is written at most once.

  function ClassKeysWith(d: Diagram): Relationship -> seq<Key> {
    (r: Relationship) => FlatMap(ClassifierKeys(), ClassWith(d)(r))
  }

  function DirectedKeysWith(d: Diagram): Relationship -> seq<Key> {
    (r: Relationship) => Map(RelationshipKey(), DirectedWith(d)(r))
  }

  function AssociationKeys(): Relationship -> seq<Key> {
    (r: Relationship) => FlatMap(RelationshipKeys(), Keeping(AssociationLike())(r))
  }

  function PartKeysWith(d: Diagram): Relationship -> seq<Key> {
    (r: Relationship) => ClassKeysWith(d)(r) + DirectedKeysWith(d)(r)
  }

  function MoreKeysWith(d: Diagram): Relationship -> seq<Key> {
    (r: Relationship) => PartKeysWith(d)(r) + AssociationKeys()(r)
  }

  lemma Rearranged(head: seq<Key>, r: seq<Key>, m: seq<Key>, i: seq<Key>, e: seq<Key>)
    ensures multiset(r + (m + i + e)) <= multiset(head + m + i + (r + e))
  {
  }

  lemma ClassAssociationWritesItsKeys(d: Diagram, r: Relationship, e: Classifier)
    requires IsAssociationLike(r) && ClassOf(d, r) == Some(e)
               && AssociationKeys()(r) == [RelationshipKey()(r)] + EndKeys(r)
    ensures multiset(WrittenRelationshipKeys(d)(r)) <= multiset(MoreKeysWith(d)(r))
  {
    var key, members, inlines := [RelationshipKey()(r)], MemberKeys()(e), InlineKeys(d)(e);
    ClassWritesItsKeys(d, r, e);
    assert WrittenRelationshipKeys(d)(r) == key + (members + inlines + EndKeys(r));
    assert MoreKeysWith(d)(r) == [Key(ClassifierId, e.id)] + members + inlines + (key + EndKeys(r));
    Rearranged([Key(ClassifierId, e.id)], key, members, inlines, EndKeys(r));
  }

  lemma DependencyWritesItsKey(d: Diagram, r: Relationship)
    requires r.kind == Dependency
    ensures multiset(WrittenRelationshipKeys(d)(r)) <= multiset(MoreKeysWith(d)(r))
  {
    var key := [RelationshipKey()(r)];
    assert !IsAssociationLike(r);
    assert DirectedWith(d)(r) == [r];
    assert DirectedKeysWith(d)(r) == key;
    assert WrittenRelationshipKeys(d)(r) == key;
    assert PartKeysWith(d)(r) == ClassKeysWith(d)(r) + key;
    assert MoreKeysWith(d)(r) == PartKeysWith(d)(r) + AssociationKeys()(r);
  }

  lemma RelationshipWritesItsKeys(d: Diagram, r: Relationship)
    ensures multiset(WrittenRelationshipKeys(d)(r)) <= multiset(MoreKeysWith(d)(r))
  {
    if IsAssociationLike(r) {
      assert Keeping(AssociationLike())(r) == [r];
      FlatMapOne(RelationshipKeys(), r);
      assert AssociationKeys()(r) == [RelationshipKey()(r)] + EndKeys(r);
      if ClassOf(d, r).Some? {
        ClassAssociationWritesItsKeys(d, r, ClassOf(d, r).value);
      } else {
        assert [] + EndKeys(r) == EndKeys(r);
        assert WrittenRelationshipKeys(d)(r) == AssociationKeys()(r);
        assert MoreKeysWith(d)(r) == PartKeysWith(d)(r) + AssociationKeys()(r);
      }
    } else if r.kind == Dependency {
      DependencyWritesItsKey(d, r);
    } else {
      assert WrittenRelationshipKeys(d)(r) == [];
    }
  }

  lemma ClassWritesItsKeys(d: Diagram, r: Relationship, e: Classifier)
    requires IsAssociationLike(r) && ClassOf(d, r) == Some(e)
    ensures PartKeysWith(d)(r) == ClassifierKeys()(e) + InlineKeys(d)(e)
  {
    assert ClassWith(d)(r) == [e];
    FlatMapOne(ClassifierKeys(), e);
    FlatMapOne(InlinesIn(d), e);
    assert ClassKeysWith(d)(r) == ClassifierKeys()(e);
    assert DirectedWith(d)(r) == InlinesIn(d)(e);
    assert DirectedKeysWith(d)(r) == InlineKeys(d)(e);
  }

  lemma WrittenRelationshipKeysAreParts(d: Diagram, rs: seq<Relationship>)
    ensures multiset(FlatMap(WrittenRelationshipKeys(d), rs)) <=
            multiset(FlatMap(ClassifierKeys(), FlatMap(ClassWith(d), rs)))
                + multiset(Map(RelationshipKey(), FlatMap(DirectedWith(d), rs)))
            + multiset(FlatMap(RelationshipKeys(), Filter(AssociationLike(), rs)))
  {
    forall r | r in rs ensures multiset(WrittenRelationshipKeys(d)(r)) <= multiset(MoreKeysWith(d)(r)) {
      RelationshipWritesItsKeys(d, r);
    }
    FlatMapFewer(WrittenRelationshipKeys(d), MoreKeysWith(d), rs);
    FlatMapSplit(MoreKeysWith(d), PartKeysWith(d), AssociationKeys(), rs);
    FlatMapSplit(PartKeysWith(d), ClassKeysWith(d), DirectedKeysWith(d), rs);
    FlatMapTwice(ClassifierKeys(), ClassWith(d), ClassKeysWith(d), rs);
    MapOfFlatMap(RelationshipKey(), DirectedWith(d), DirectedKeysWith(d), rs);
    FlatMapTwice(RelationshipKeys(), Keeping(AssociationLike()), AssociationKeys(), rs);
    FilterAsFlatMap(AssociationLike(), rs);
  }

  lemma WrittenClassifierKeysAreParts(d: Diagram, es: seq<Classifier>)
    ensures multiset(FlatMap(WrittenClassifierKeys(d), es)) ==
            multiset(FlatMap(ClassifierKeys(), es)) + multiset(Map(RelationshipKey(), FlatMap(InlinesIn(d), es)))
  {
    FlatMapSplit(WrittenClassifierKeys(d), ClassifierKeys(), InlineKeys(d), es);
    MapOfFlatMap(RelationshipKey(), InlinesIn(d), InlineKeys(d), es);
  }

  lemma KeysAreRelationshipKeys(rs: seq<Relationship>)
    ensures multiset(Map(RelationshipKey(), rs)) <= multiset(FlatMap(RelationshipKeys(), rs))
  {
    MapAsFlatMap(RelationshipKey(), rs);
    forall r | r in rs ensures multiset(Singly(RelationshipKey())(r)) <= multiset(RelationshipKeys()(r)) {
      assert Singly(RelationshipKey())(r) == [RelationshipKey()(r)];
      assert RelationshipKeys()(r) == [RelationshipKey()(r)] + EndKeys(r);
    }
    FlatMapFewer(Singly(RelationshipKey()), RelationshipKeys(), rs);
  }

  lemma PartsHaveFewerKeys(directed: seq<Relationship>, associations: seq<Relationship>, all: seq<Relationship>)
    requires multiset(associations) + multiset(directed) == multiset(all)
    ensures multiset(Map(RelationshipKey(), directed)) + multiset(FlatMap(RelationshipKeys(), associations))
            <= multiset(FlatMap(RelationshipKeys(), all))
  {
    KeysAreRelationshipKeys(directed);
    FlatMapAppend(RelationshipKeys(), directed, associations);
    FlatMapPermuted(RelationshipKeys(), directed + associations, all);
  }

  lemma RelationshipKeysOfParts(env: Env, d: Diagram)
    requires Sound(d)
    ensures multiset(Map(RelationshipKey(), WrittenDirected(env, d)))
              + multiset(FlatMap(RelationshipKeys(), WrittenAssociations(env, d)))
            <= multiset(FlatMap(RelationshipKeys(), d.relationships))
  {
    EveryRelationshipIsWrittenOnce(env, d);
    PartsHaveFewerKeys(WrittenDirected(env, d), WrittenAssociations(env, d), d.relationships);
  }

  lemma WrittenKeysAreKeys(env: Env, d: Diagram)
    requires Sound(d)
    ensures multiset(WrittenKeys(env, d)) <= multiset(AllKeys(env, d))
  {
    var es, rs := PlainClassifiers(env, d), SortedRelationships(env, d);
    var classes, inline, directed := FlatMap(ClassWith(d), rs), FlatMap(InlinesIn(d), es), FlatMap(DirectedWith(d), rs);
    WrittenClassifierKeysAreParts(d, es);
    WrittenRelationshipKeysAreParts(d, rs);
    FlatMapAppend(ClassifierKeys(), es, classes);
    EveryClassifierIsWrittenOnce(env, d);
    FlatMapPermuted(ClassifierKeys(), WrittenElements(env, d), d.elements);
    MapAppend(RelationshipKey(), inline, directed);
    RelationshipKeysOfParts(env, d);
  }

  // Collisions.

  /** No two of the keys that are of the same kind have the same digest. */
  ghost predicate NoCollisions(env: Env, keys: seq<Key>) {
    forall k, l :: k in keys && l in keys && k.kind == l.kind && CanonicalOf(env)(k) == CanonicalOf(env)(l) ==> k == l
  }

  ghost predicate CollisionFree(env: Env, d: Diagram) { NoCollisions(env, WrittenKeys(env, d)) }

  lemma CollisionsAreOfOneKind(env: Env, k: Key, l: Key)
    requires DigestsAreHex(env) && CanonicalOf(env)(k) == CanonicalOf(env)(l)
    ensures k.kind == l.kind
  {
    if k.kind != l.kind { CanonicalIdsOfKindsDiffer(env, k.kind, k.id, l.kind, l.id); }
  }

  lemma WrittenKeysDiffer(env: Env, m: Model)
    requires Sound(m.diagram) && Distinct(AllIds(m)) && HasSchemaIds(m)
    ensures Distinct(WrittenKeys(env, m.diagram))
  {
    AllKeysDiffer(env, m);
    WrittenKeysAreKeys(env, m.diagram);
    FewerAreDistinct(WrittenKeys(env, m.diagram), AllKeys(env, m.diagram));
  }

  /** The xmi:ids of an exported document differ exactly when no two digests collide. */
  lemma WrittenIdsDiffer(env: Env, m: Model)
    requires DigestsAreHex(env) && Sound(m.diagram) && Distinct(AllIds(m)) && HasSchemaIds(m)
    ensures Distinct(WrittenIds(env, m.diagram)) <==> CollisionFree(env, m.diagram)
  {
    WrittenKeysDiffer(env, m);
    WrittenIdsAreCanonical(env, m.diagram);
    CanonicalIdsDiffer(env, WrittenKeys(env, m.diagram));
  }

  lemma CanonicalIdsDiffer(env: Env, keys: seq<Key>)
    requires DigestsAreHex(env) && Distinct(keys)
    ensures Distinct(Map(CanonicalOf(env), keys)) <==> NoCollisions(env, keys)
  {
    var canonical := CanonicalOf(env);
    MapDistinct(canonical, keys);
    forall k, l | k in keys && l in keys && canonical(k) == canonical(l) ensures k.kind == l.kind {
      CollisionsAreOfOneKind(env, k, l);
    }
  }
}
