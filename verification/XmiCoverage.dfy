/** The exporter writes every classifier and every relationship of a well-formed diagram exactly once. */
module XmiCoverage {

  import opened Wrappers
  import opened Sequences
  import opened Sorting
  import opened Permutations
  import opened Uml
  import opened Integrity
  import opened DeletionIntegrity
  import opened XmiText
  import opened XmiExport
  import opened XmiReadBack

  /** What the proofs below use of a diagram that is well formed and can be exported. */
  ghost predicate Sound(d: Diagram) {
    && Distinct(d.elements) && Distinct(d.relationships)
    && (forall e, f :: e in d.elements && f in d.elements && e.id == f.id ==> e == f)
    && (forall r, s :: r in d.relationships && s in d.relationships && r.id == s.id ==> r == s)
    && (forall r, s :: r in d.relationships && s in d.relationships && SharedClass(r, s) ==> r == s)
    && (forall r :: r in d.relationships ==> r.source.elementId in ElementIds(d) && r.target.elementId in ElementIds(d))
    && (forall r :: r in d.relationships && r.associationClassId.Some? ==> IsAssociationLike(r) && ClassOf(d, r).Some?)
  }

  predicate SharedClass(r: Relationship, s: Relationship) {
    r.associationClassId.Some? && r.associationClassId == s.associationClassId
  }

  // Association classes.

  lemma OwnerIsUnique(d: Diagram, r: Relationship)
    requires Sound(d) && r in d.relationships && r.associationClassId.Some?
    ensures OwnerOf(d.relationships, r.associationClassId.value) == Some(r)
  {
    var owner := OwnerOf(d.relationships, r.associationClassId.value);
    assert owner.Some?;
    assert SharedClass(owner.value, r);
  }

  lemma ClassesAreOwned(d: Diagram, e: Classifier)
    requires Sound(d) && e in d.elements
    ensures OwnerOf(d.relationships, e.id).Some? ==>
              OwnerOf(d.relationships, e.id).value in d.relationships
                  && ClassWith(d)(OwnerOf(d.relationships, e.id).value) == [e]
  {
    match OwnerOf(d.relationships, e.id) {
      case Some(r) =>
        var c := ClassOf(d, r).value;
        assert c.id == e.id;
      case None =>
    }
  }

  function IsOwned(d: Diagram): Classifier -> bool { (e: Classifier) => OwnerOf(d.relationships, e.id).Some? }

  lemma ClassesAreWrittenOnce(d: Diagram)
    requires Sound(d)
    ensures Distinct(FlatMap(ClassWith(d), d.relationships))
  {
    var f, rs := ClassWith(d), d.relationships;
    forall i, j | 0 <= i < j < |rs| ensures Disjoint(f, rs[i], rs[j]) {
      assert rs[i] in rs && rs[j] in rs && rs[i] != rs[j];
      assert !SharedClass(rs[i], rs[j]);
    }
    DistinctFlatMap(f, rs);
  }

  lemma OwnedClassesAreWritten(d: Diagram, e: Classifier)
    requires Sound(d)
    ensures e in FlatMap(ClassWith(d), d.relationships) <==> e in d.elements && IsOwned(d)(e)
  {
    if e in FlatMap(ClassWith(d), d.relationships) {
      var r := FlatMapSource(ClassWith(d), d.relationships, e);
      assert ClassOf(d, r) == Some(e);
      OwnerIsUnique(d, r);
    }
    if e in d.elements && IsOwned(d)(e) {
      ClassesAreOwned(d, e);
      FlatMapMember(ClassWith(d), d.relationships, OwnerOf(d.relationships, e.id).value, e);
    }
  }

  lemma WrittenClasses(d: Diagram)
    requires Sound(d)
    ensures multiset(FlatMap(ClassWith(d), d.relationships)) == multiset(Filter(IsOwned(d), d.elements))
  {
    var classes, owned := FlatMap(ClassWith(d), d.relationships), Filter(IsOwned(d), d.elements);
    ClassesAreWrittenOnce(d);
    FilterIsDistinct(IsOwned(d), d.elements);
    forall e ensures e in classes <==> e in owned { OwnedClassesAreWritten(d, e); }
    DistinctPermute(classes, owned);
  }

  lemma EveryClassifierIsWrittenOnce(env: Env, d: Diagram)
    requires Sound(d)
    ensures multiset(WrittenElements(env, d)) == multiset(d.elements)
  {
    WrittenClasses(d);
    FlatMapPermuted(ClassWith(d), SortedRelationships(env, d), d.relationships);
    FilterPermuted(IsPlainClassifier(d), Sorted(ClassifierOrder(env), d.elements), d.elements);
    FilterPartition(IsPlainClassifier(d), IsOwned(d), d.elements);
  }

  // Relationships.

  function IsInlineOne(): Relationship -> bool { (r: Relationship) => IsInline(r) }

  function IsDependency(): Relationship -> bool { (r: Relationship) => r.kind == Dependency }

  function IsDirected(): Relationship -> bool { (r: Relationship) => !IsAssociationLike(r) }

  lemma InlinesOfAll(d: Diagram)
    requires Sound(d)
    ensures multiset(FlatMap(InlinesIn(d), d.elements)) == multiset(Filter(IsInlineOne(), d.relationships))
  {
    var f, es, rs := InlinesIn(d), d.elements, d.relationships;
    forall e | e in es ensures Distinct(f(e)) { FilterIsDistinct(InlineFrom(e.id), rs); }
    forall i, j | 0 <= i < j < |es| ensures Disjoint(f, es[i], es[j]) {
      assert es[i] in es && es[j] in es && es[i] != es[j];
      forall r | r in f(es[i]) ensures r !in f(es[j]) {
        assert InlineFrom(es[i].id)(r);
      }
    }
    DistinctFlatMap(f, es);
    FilterIsDistinct(IsInlineOne(), rs);
    forall r ensures r in FlatMap(f, es) <==> r in Filter(IsInlineOne(), rs) {
      if r in FlatMap(f, es) { var e := FlatMapSource(f, es, r); }
      if r in Filter(IsInlineOne(), rs) {
        var e :| e in es && e.id == r.source.elementId;
        assert InlineFrom(e.id)(r) && r in f(e);
        FlatMapMember(f, es, e, r);
      }
    }
    DistinctPermute(FlatMap(f, es), Filter(IsInlineOne(), rs));
  }

  /** The relationships written inside the association class of an association. */
  function InlinesWith(d: Diagram): Relationship -> seq<Relationship> {
    (r: Relationship) => FlatMap(InlinesIn(d), ClassWith(d)(r))
  }

  lemma DirectedParts(d: Diagram, rs: seq<Relationship>)
    ensures multiset(FlatMap(DirectedWith(d), rs)) ==
            multiset(FlatMap(InlinesIn(d), FlatMap(ClassWith(d), rs))) + multiset(Filter(IsDependency(), rs))
  {
    forall r | r in rs ensures multiset(DirectedWith(d)(r)) == multiset(InlinesWith(d)(r))
        + multiset(Keeping(IsDependency())(r)) {
      if !IsAssociationLike(r) { assert ClassWith(d)(r) == []; }
    }
    FlatMapSplit(DirectedWith(d), InlinesWith(d), Keeping(IsDependency()), rs);
    FlatMapTwice(InlinesIn(d), ClassWith(d), InlinesWith(d), rs);
    FilterAsFlatMap(IsDependency(), rs);
  }

  lemma EveryDirectedRelationshipIsWrittenOnce(env: Env, d: Diagram)
    requires Sound(d)
    ensures multiset(WrittenDirected(env, d)) == multiset(Filter(IsDirected(), d.relationships))
  {
    var rs := SortedRelationships(env, d);
    DirectedParts(d, rs);
    FlatMapAppend(InlinesIn(d), PlainClassifiers(env, d), FlatMap(ClassWith(d), rs));
    EveryClassifierIsWrittenOnce(env, d);
    FlatMapPermuted(InlinesIn(d), WrittenElements(env, d), d.elements);
    InlinesOfAll(d);
    FilterPermuted(IsDependency(), rs, d.relationships);
    DirectedKinds(d.relationships);
  }

  lemma DirectedIsOfOneKind(r: Relationship)
    ensures multiset(Keeping(IsDirected())(r)) == multiset(Keeping(IsInlineOne())(r))
              + multiset(Keeping(IsDependency())(r))
  {
    var all, inline, dependency := Keeping(IsDirected())(r), Keeping(IsInlineOne())(r), Keeping(IsDependency())(r);
    if IsAssociationLike(r) {
      assert all == [] && inline == [] && dependency == [];
    } else if IsInline(r) {
      assert all == [r] && inline == [r] && dependency == [];
    } else {
      assert all == [r] && inline == [] && dependency == [r];
    }
  }

  lemma DirectedKinds(rs: seq<Relationship>)
    ensures multiset(Filter(IsDirected(), rs)) == multiset(Filter(IsInlineOne(), rs))
              + multiset(Filter(IsDependency(), rs))
  {
    FilterAsFlatMap(IsDirected(), rs);
    FilterAsFlatMap(IsInlineOne(), rs);
    FilterAsFlatMap(IsDependency(), rs);
    var all, inline, dependency := Keeping(IsDirected()), Keeping(IsInlineOne()), Keeping(IsDependency());
    forall r | r in rs ensures multiset(all(r)) == multiset(inline(r)) + multiset(dependency(r)) {
      DirectedIsOfOneKind(r);
    }
    FlatMapSplit(all, inline, dependency, rs);
  }

  lemma EveryRelationshipIsWrittenOnce(env: Env, d: Diagram)
    requires Sound(d)
    ensures multiset(WrittenAssociations(env, d)) + multiset(WrittenDirected(env, d)) == multiset(d.relationships)
  {
    EveryDirectedRelationshipIsWrittenOnce(env, d);
    FilterPermuted(AssociationLike(), SortedRelationships(env, d), d.relationships);
    FilterPartition(AssociationLike(), IsDirected(), d.relationships);
  }

  // Well-formed diagrams that can be exported are sound.

  lemma RelationshipsDiffer(m: Model)
    requires Distinct(AllIds(m))
    ensures Distinct(m.diagram.relationships)
    ensures forall r, s :: r in m.diagram.relationships && s in m.diagram.relationships && r.id == s.id ==> r == s
  {
    var d := m.diagram;
    IdsAreKeys(m);
    DistinctAppend([m.project.id, m.diagram.id] + ClassifiersIds(d.elements), RelationshipIds(d.relationships));
    forall i, j | 0 <= i < j < |d.relationships| ensures d.relationships[i] != d.relationships[j] {
      FlatMapIsDisjoint(IdOfRelationship(), d.relationships, i, j);
      assert d.relationships[i].id in IdOfRelationship()(d.relationships[i]);
    }
  }

  lemma ElementsDiffer(m: Model)
    requires Distinct(AllIds(m))
    ensures Distinct(m.diagram.elements)
    ensures forall e, f :: e in m.diagram.elements && f in m.diagram.elements && e.id == f.id ==> e == f
  {
    var es := m.diagram.elements;
    IdsAreKeys(m);
    forall i, j | 0 <= i < j < |es| ensures es[i].id != es[j].id {
      assert DifferentElements()(es[i], es[j]);
    }
    forall e, f | e in es && f in es && e.id == f.id ensures e == f {
      var i :| 0 <= i < |es| && es[i] == e;
      var j :| 0 <= j < |es| && es[j] == f;
    }
  }

  lemma ClassesDiffer(rs: seq<Relationship>)
    requires ClassesDistinct(rs)
    ensures forall r, s :: r in rs && s in rs && SharedClass(r, s) ==> r == s
  {
    forall r, s | r in rs && s in rs && SharedClass(r, s) ensures r == s {
      var i :| 0 <= i < |rs| && rs[i] == r;
      var j :| 0 <= j < |rs| && rs[j] == s;
      assert rs[i].associationClassId == rs[j].associationClassId && rs[i].associationClassId.Some?;
      assert i == j;
    }
  }

  lemma EndsAreElements(d: Diagram)
    requires RelationshipsFit(d)
    ensures forall r :: r in d.relationships ==>
              r.source.elementId in ElementIds(d) && r.target.elementId in ElementIds(d)
  {
    forall r | r in d.relationships ensures r.source.elementId in ElementIds(d) && r.target.elementId in ElementIds(d) {
      assert EndsFit(d.elements, r);
      KindIsOfMember(d, r.source.elementId);
      KindIsOfMember(d, r.target.elementId);
    }
  }

  lemma ExportableIsSound(norm: string -> string, env: Env, m: Model)
    requires IntegrityBesidesSignatures(norm, m) && Exportable(env, m.diagram)
    ensures Sound(m.diagram)
  {
    var d := m.diagram;
    RelationshipsDiffer(m);
    ElementsDiffer(m);
    ClassesDiffer(d.relationships);
    EndsAreElements(d);
    forall r | r in d.relationships && r.associationClassId.Some? ensures IsAssociationLike(r) && ClassOf(d, r).Some? {
      assert ExportableRelationship(d, r);
    }
  }
}
