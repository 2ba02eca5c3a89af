/** Which end of an imported association becomes its source. */
module XmiAssociations {

  import opened Wrappers
  import opened Sequences
  import opened Uml
  import opened XmiText
  import opened XmiParser
  import opened XmiImport

  /** The kind, the whole of it and its part, read off two ends of which the first may be the whole. */
  ghost predicate WholeAndPart(env: Env, names: Names, a: RawAssociation, whole: RawEnd, part: RawEnd, r: Relationship)
  {
    && MapEnd(env, names, a.navigableEnds)(whole) == Some(r.source)
    && MapEnd(env, names, a.navigableEnds)(part) == Some(r.target)
    && (whole.aggregation == Some("composite") ==> r.kind == Composition)
    && (whole.aggregation == Some("shared") ==> r.kind == Aggregation)
    && (!IsWhole(whole) ==> r.kind == Association)
  }

  /**
   Of the two ends of an association that is kept, listed in whatever order, at most one is a whole. That one becomes
   the source and decides the kind; without it the listed order is kept and the kind is that of a plain association.
   */
  lemma TheWholeIsTheSource(env: Env, names: Names, a: RawAssociation, r: Relationship)
    requires MapAssociation(env, names)(a) == Some(Kept(r))
    ensures OrderedEnds(a).Some? && |OrderedEnds(a).value| == 2
    ensures var first, second := OrderedEnds(a).value[0], OrderedEnds(a).value[1];
      && !(IsWhole(first) && IsWhole(second))
      && (IsWhole(second) ==> WholeAndPart(env, names, a, second, first, r))
      && (!IsWhole(second) ==> WholeAndPart(env, names, a, first, second, r))
  {
    assert |"shared"| == 6 && |"composite"| == 9;
  }

  function Exchanged<T>(s: seq<T>): seq<T>
    requires |s| == 2
  {
    [s[1], s[0]]
  }

  /** What is left of a relationship when its ends change places. */
  function Turned(r: Relationship): Relationship { r.(source := r.target, target := r.source) }

  lemma TwoAreMapped<A, B>(f: A -> Option<B>, s: seq<A>)
    requires |s| == 2
    ensures MapAll(f, s) ==
            if f(s[0]).None? || f(s[1]).None? then None else Some([f(s[0]).value, f(s[1]).value])
  {
    assert s[1..] == [s[1]];
    MapAllOne(f, s[1]);
    if f(s[0]).Some? && f(s[1]).Some? {
      assert [f(s[0]).value] + [f(s[1]).value] == [f(s[0]).value, f(s[1]).value];
    }
  }

  lemma ExchangedEndsAreFound(a: RawAssociation)
    requires |a.memberEnds| == 2 && OrderedEnds(a).Some?
    ensures |OrderedEnds(a).value| == 2
    ensures OrderedEnds(a.(memberEnds := Exchanged(a.memberEnds))) == Some(Exchanged(OrderedEnds(a).value))
  {
    var b := a.(memberEnds := Exchanged(a.memberEnds));
    TwoAreMapped(FindEnd(a.ends), a.memberEnds);
    TwoAreMapped(FindEnd(a.ends), b.memberEnds);
    assert AllDistinct(b.memberEnds) by { assert a.memberEnds[0] != a.memberEnds[1]; }
  }

  lemma ExchangedEndsExist(a: RawAssociation, ends: seq<RawEnd>)
    requires |ends| == 2 && NavigableEndsExist(a, ends)
    ensures NavigableEndsExist(a, Exchanged(ends))
  {
    forall e | e in ends ensures e in Exchanged(ends) { assert Exchanged(ends)[0] == ends[1]; }
  }

  /** Listing the ends the other way round changes nothing but the direction of an association without a whole. */
  lemma OrderMattersWithoutAWholeOnly(env: Env, names: Names, a: RawAssociation, r: Relationship)
    requires MapAssociation(env, names)(a) == Some(Kept(r)) && |a.memberEnds| == 2
    ensures MapAssociation(env, names)(a.(memberEnds := Exchanged(a.memberEnds))) ==
            Some(Kept(if r.kind == Association then Turned(r) else r))
  {
    TheWholeIsTheSource(env, names, a, r);
    ExchangedEndsAreFound(a);
    ExchangedEndsExist(a, OrderedEnds(a).value);
  }
}
