/** Filtering, mapping and searching of sequences, with the laws the other modules use. */
module Sequences {

  import opened Wrappers

  function Filter<T(!new)>(p: T -> bool, s: seq<T>): (r: seq<T>)
    ensures |r| <= |s|
    ensures forall x :: x in r <==> x in s && p(x)
  {
    if s == [] then []
    else (if p(s[0]) then [s[0]] else []) + Filter(p, s[1..])
  }

  function Map<A, B>(f: A -> B, s: seq<A>): (r: seq<B>)
    ensures |r| == |s|
    ensures forall i :: 0 <= i < |s| ==> r[i] == f(s[i])
  {
    seq(|s|, i requires 0 <= i < |s| => f(s[i]))
  }

  lemma MapAppend<A, B>(f: A -> B, a: seq<A>, b: seq<A>)
    ensures Map(f, a + b) == Map(f, a) + Map(f, b)
  {
  }

  lemma MapCons<A, B>(f: A -> B, s: seq<A>)
    requires s != []
    ensures Map(f, s) == [f(s[0])] + Map(f, s[1..])
  {
  }

  /** None as soon as one element has no image. */
  function MapAll<A, B>(f: A -> Option<B>, s: seq<A>): Option<seq<B>> {
    if s == [] then Some([])
    else
      var head, tail := f(s[0]), MapAll(f, s[1..]);
      if head.None? || tail.None? then None else Some([head.value] + tail.value)
  }

  lemma {:induction false} MapAllAppend<A, B>(f: A -> Option<B>, a: seq<A>, b: seq<A>)
    ensures MapAll(f, a + b) ==
            (var x, y := MapAll(f, a), MapAll(f, b); if x.None? || y.None? then None else Some(x.value + y.value))
  {
    if a == [] {
      assert a + b == b;
      var y := MapAll(f, b);
      if y.Some? { assert [] + y.value == y.value; }
    } else {
      assert (a + b)[0] == a[0] && (a + b)[1..] == a[1..] + b;
      MapAllAppend(f, a[1..], b);
      var x, y := MapAll(f, a[1..]), MapAll(f, b);
      if f(a[0]).Some? && x.Some? && y.Some? {
        assert [f(a[0]).value] + x.value + y.value == [f(a[0]).value] + (x.value + y.value);
      }
    }
  }

  lemma MapAllOne<A, B>(f: A -> Option<B>, x: A)
    ensures MapAll(f, [x]) == if f(x).None? then None else Some([f(x).value])
  {
    assert [x][0] == x && [x][1..] == [];
    assert MapAll(f, [x][1..]) == Some([]);
    if f(x).Some? { assert [f(x).value] + [] == [f(x).value]; }
  }

  lemma {:induction false} MapAllOfMap<A(!new), B, C>(f: B -> Option<C>, g: A -> B, h: A -> C, s: seq<A>)
    requires forall x :: x in s ==> f(g(x)) == Some(h(x))
    ensures MapAll(f, Map(g, s)) == Some(Map(h, s))
  {
    if s != [] {
      assert Map(g, s)[1..] == Map(g, s[1..]);
      MapAllOfMap(f, g, h, s[1..]);
      assert Map(h, s) == [h(s[0])] + Map(h, s[1..]);
    }
  }

  lemma {:induction false} MapAllEqual<A(!new), B>(f: A -> Option<B>, g: A -> Option<B>, s: seq<A>)
    requires MapAll(f, s).Some?
    ensures MapAll(g, s) == MapAll(f, s) <==> forall x :: x in s ==> g(x) == f(x)
  {
    if s != [] {
      MapAllEqual(f, g, s[1..]);
      assert forall x :: x in s <==> x == s[0] || x in s[1..];
      if g(s[0]).Some? && MapAll(g, s[1..]).Some? {
        var a, b := [g(s[0]).value] + MapAll(g, s[1..]).value, [f(s[0]).value] + MapAll(f, s[1..]).value;
        assert a[0] == g(s[0]).value && a[1..] == MapAll(g, s[1..]).value;
        assert b[0] == f(s[0]).value && b[1..] == MapAll(f, s[1..]).value;
      }
    }
  }

  function FlatMap<A, B>(f: A -> seq<B>, s: seq<A>): (r: seq<B>) {
    if s == [] then [] else f(s[0]) + FlatMap(f, s[1..])
  }

  lemma {:induction false} FlatMapAppend<A, B>(f: A -> seq<B>, a: seq<A>, b: seq<A>)
    ensures FlatMap(f, a + b) == FlatMap(f, a) + FlatMap(f, b)
  {
    if a == [] {
      assert a + b == b;
    } else {
      assert (a + b)[0] == a[0] && (a + b)[1..] == a[1..] + b;
      FlatMapAppend(f, a[1..], b);
    }
  }

  lemma FlatMapOne<A, B>(f: A -> seq<B>, x: A)
    ensures FlatMap(f, [x]) == f(x)
  {
    assert [x][1..] == [];
  }

  lemma {:induction false} FlatMapOfMap<A(!new), B, C>(f: B -> seq<C>, g: A -> B, h: A -> seq<C>, s: seq<A>)
    requires forall x :: x in s ==> f(g(x)) == h(x)
    ensures FlatMap(f, Map(g, s)) == FlatMap(h, s)
  {
    if s != [] {
      assert Map(g, s)[1..] == Map(g, s[1..]);
      FlatMapOfMap(f, g, h, s[1..]);
    }
  }

  lemma {:induction false} FlatMapMember<A, B>(f: A -> seq<B>, s: seq<A>, x: A, y: B)
    requires x in s && y in f(x)
    ensures y in FlatMap(f, s)
  {
    if s[0] != x { FlatMapMember(f, s[1..], x, y); }
  }

  /** Filtering before flattening drops elements. */
  lemma {:induction false} FlatMapOfFilter<A(!new), B>(f: A -> seq<B>, p: A -> bool, s: seq<A>)
    ensures multiset(FlatMap(f, Filter(p, s))) <= multiset(FlatMap(f, s))
  {
    if s != [] {
      FlatMapOfFilter(f, p, s[1..]);
      if !p(s[0]) { assert Filter(p, s) == Filter(p, s[1..]); }
    }
  }

  function Reversed<T>(s: seq<T>): (r: seq<T>)
    ensures |r| == |s|
  {
    if s == [] then [] else Reversed(s[1..]) + [s[0]]
  }

  lemma {:induction false} ReversedPermutes<T>(s: seq<T>)
    ensures multiset(Reversed(s)) == multiset(s)
  {
    if s != [] {
      assert s == [s[0]] + s[1..];
      ReversedPermutes(s[1..]);
    }
  }

  lemma {:induction false} ReversedAppend<T>(a: seq<T>, x: T)
    ensures Reversed(a + [x]) == [x] + Reversed(a)
  {
    if a == [] {
      assert [] + [x] == [x] && [x][1..] == [];
    } else {
      var all := a + [x];
      assert all[0] == a[0] && all[1..] == a[1..] + [x];
      ReversedAppend(a[1..], x);
      assert Reversed(all) == Reversed(a[1..] + [x]) + [a[0]];
      assert ([x] + Reversed(a[1..])) + [a[0]] == [x] + (Reversed(a[1..]) + [a[0]]);
    }
  }

  lemma {:induction false} ReversedIndex<T>(s: seq<T>, i: nat)
    requires i < |s|
    ensures Reversed(s)[i] == s[|s| - 1 - i]
  {
    if i < |s| - 1 { ReversedIndex(s[1..], i); }
  }

  /** The first position whose element satisfies p. */
  function IndexWhere<T>(p: T -> bool, s: seq<T>): (r: Option<nat>)
    ensures r.Some? ==> r.value < |s| && p(s[r.value]) && forall i :: 0 <= i < r.value ==> !p(s[i])
    ensures r.None? <==> forall i :: 0 <= i < |s| ==> !p(s[i])
  {
    if s == [] then None
    else if p(s[0]) then Some(0)
    else
      match IndexWhere(p, s[1..])
      case None => None
      case Some(i) => Some(i + 1)
  }

  function RemoveAt<T(!new)>(s: seq<T>, i: nat): (r: seq<T>)
    requires i < |s|
    ensures forall x :: x in r ==> x in s
  {
    s[..i] + s[i + 1..]
  }

  ghost predicate Distinct<T>(s: seq<T>) {
    forall i, j :: 0 <= i < j < |s| ==> s[i] != s[j]
  }

  lemma DistinctAppend<T>(a: seq<T>, b: seq<T>)
    ensures Distinct(a + b) <==> Distinct(a) && Distinct(b) && forall x :: x in b ==> x !in a
  {
    var s := a + b;
    assert forall i :: 0 <= i < |a| ==> s[i] == a[i];
    assert forall j :: 0 <= j < |b| ==> s[|a| + j] == b[j];
    if Distinct(s) {
      forall i, j | 0 <= i < j < |b| ensures b[i] != b[j] { assert s[|a| + i] == b[i] && s[|a| + j] == b[j]; }
      forall i, j | 0 <= i < |a| && 0 <= j < |b| ensures a[i] != b[j] { assert s[|a| + j] == b[j]; }
    }
    if Distinct(a) && Distinct(b) && forall x :: x in b ==> x !in a {
      forall i, j | 0 <= i < j < |s| ensures s[i] != s[j] {
        if i < |a| <= j {
          assert s[j] == b[j - |a|] && s[i] in a;
        }
      }
    }
  }

  lemma {:induction false} FilterAppend<T(!new)>(p: T -> bool, a: seq<T>, b: seq<T>)
    ensures Filter(p, a + b) == Filter(p, a) + Filter(p, b)
  {
    if a == [] {
      assert a + b == b;
    } else {
      assert (a + b)[1..] == a[1..] + b;
      FilterAppend(p, a[1..], b);
    }
  }

  lemma {:induction false} FilterSplit<T(!new)>(p: T -> bool, s: seq<T>, i: nat)
    requires i < |s|
    ensures Filter(p, s) == Filter(p, s[..i]) + (if p(s[i]) then [s[i]] else []) + Filter(p, s[i + 1..])
  {
    var one := [s[i]];
    assert s == s[..i] + (one + s[i + 1..]);
    FilterAppend(p, s[..i], one + s[i + 1..]);
    FilterAppend(p, one, s[i + 1..]);
    assert one[1..] == [];
    assert Filter(p, one) == if p(s[i]) then one else [];
  }

  lemma FilterUpdate<T(!new)>(p: T -> bool, s: seq<T>, i: nat, x: T)
    requires i < |s| && !p(s[i]) && !p(x)
    ensures Filter(p, s[i := x]) == Filter(p, s)
  {
    FilterSplit(p, s, i);
    FilterSplit(p, s[i := x], i);
    assert s[i := x][..i] == s[..i] && s[i := x][i + 1..] == s[i + 1..];
  }

  lemma FilterRemoveAt<T(!new)>(p: T -> bool, s: seq<T>, i: nat)
    requires i < |s| && !p(s[i])
    ensures Filter(p, RemoveAt(s, i)) == Filter(p, s)
  {
    assert RemoveAt(s, i) == s[..i] + s[i + 1..];
    FilterSplit(p, s, i);
    FilterAppend(p, s[..i], s[i + 1..]);
  }

  lemma FilterNone<T(!new)>(p: T -> bool, s: seq<T>)
    requires forall x :: x in s ==> !p(x)
    ensures Filter(p, s) == []
  {
  }

  lemma FilterSame<T(!new)>(p: T -> bool, q: T -> bool, s: seq<T>)
    requires forall x :: x in s ==> p(x) == q(x)
    ensures Filter(p, s) == Filter(q, s)
  {
  }

  /** A map that keeps p and does not touch the elements satisfying p is invisible to Filter(p). */
  lemma {:induction false} FilterMap<T(!new)>(p: T -> bool, f: T -> T, s: seq<T>)
    requires forall x :: x in s ==> p(f(x)) == p(x) && (p(x) ==> f(x) == x)
    ensures Filter(p, Map(f, s)) == Filter(p, s)
  {
    if s != [] {
      assert Map(f, s)[1..] == Map(f, s[1..]);
      FilterMap(p, f, s[1..]);
    }
  }

  ghost predicate Pairwise<T(!new)>(rel: (T, T) -> bool, s: seq<T>) {
    forall i, j :: 0 <= i < j < |s| ==> rel(s[i], s[j])
  }

  ghost predicate PairwiseWhere<T(!new)>(rel: (T, T) -> bool, p: T -> bool, s: seq<T>) {
    forall i, j :: 0 <= i < j < |s| && p(s[i]) && p(s[j]) ==> rel(s[i], s[j])
  }

  lemma PairwiseCons<T(!new)>(rel: (T, T) -> bool, x: T, s: seq<T>)
    ensures Pairwise(rel, [x] + s) <==> Pairwise(rel, s) && forall y :: y in s ==> rel(x, y)
  {
    var all := [x] + s;
    assert forall i :: 0 <= i < |s| ==> all[i + 1] == s[i];
    if Pairwise(rel, all) {
      forall i, j | 0 <= i < j < |s| ensures rel(s[i], s[j]) { assert rel(all[i + 1], all[j + 1]); }
      forall y | y in s ensures rel(x, y) {
        var j :| 0 <= j < |s| && s[j] == y;
        assert rel(all[0], all[j + 1]);
      }
    }
  }

  lemma PairwiseWhereCons<T(!new)>(rel: (T, T) -> bool, p: T -> bool, x: T, s: seq<T>)
    ensures PairwiseWhere(rel, p, [x] + s) <==>
            PairwiseWhere(rel, p, s) && (p(x) ==> forall y :: y in s && p(y) ==> rel(x, y))
  {
    var all := [x] + s;
    assert forall i :: 0 <= i < |s| ==> all[i + 1] == s[i];
    if PairwiseWhere(rel, p, all) {
      forall i, j | 0 <= i < j < |s| && p(s[i]) && p(s[j]) ensures rel(s[i], s[j]) {
        assert rel(all[i + 1], all[j + 1]);
      }
      forall y | p(x) && y in s && p(y) ensures rel(x, y) {
        var j :| 0 <= j < |s| && s[j] == y;
        assert rel(all[0], all[j + 1]);
      }
    }
  }

  /** A filtered sequence is pairwise related exactly when the kept elements are. */
  lemma {:induction false} PairwiseFilter<T(!new)>(rel: (T, T) -> bool, p: T -> bool, s: seq<T>)
    ensures Pairwise(rel, Filter(p, s)) <==> PairwiseWhere(rel, p, s)
  {
    if s != [] {
      var x, rest := s[0], s[1..];
      assert s == [x] + rest;
      PairwiseFilter(rel, p, rest);
      PairwiseWhereCons(rel, p, x, rest);
      if p(x) {
        PairwiseCons(rel, x, Filter(p, rest));
        assert (forall y :: y in Filter(p, rest) ==> rel(x, y)) <==> (forall y :: y in rest && p(y) ==> rel(x, y));
      } else {
        assert Filter(p, s) == Filter(p, rest);
      }
    }
  }
}
