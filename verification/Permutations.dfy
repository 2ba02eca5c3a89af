/** Sequences with the same elements in another order, and sequences without repetition. */
module Permutations {

  import opened Sequences

  lemma {:induction false} DistinctByCount<T>(s: seq<T>)
    ensures Distinct(s) <==> forall x :: x in s ==> multiset(s)[x] == 1
  {
    if s != [] {
      assert s == [s[0]] + s[1..];
      DistinctAppend([s[0]], s[1..]);
      DistinctByCount(s[1..]);
      assert forall x :: x in s[1..] ==> multiset(s)[x] == multiset(s[1..])[x] + (if x == s[0] then 1 else 0);
      if s[0] in s[1..] {
        assert multiset(s[1..])[s[0]] >= 1;
        assert multiset(s)[s[0]] >= 2;
      } else {
        assert multiset(s[1..])[s[0]] == 0;
        assert multiset(s)[s[0]] == 1;
      }
    }
  }

  lemma FewerAreDistinct<T>(a: seq<T>, b: seq<T>)
    requires multiset(a) <= multiset(b) && Distinct(b)
    ensures Distinct(a)
  {
    DistinctByCount(a);
    DistinctByCount(b);
    forall x | x in a ensures multiset(a)[x] == 1 {
      assert multiset(a)[x] <= multiset(b)[x];
      assert x in multiset(b);
    }
  }

  lemma SameMembers<T>(s: seq<T>, t: seq<T>)
    requires multiset(s) == multiset(t)
    ensures |s| == |t| && forall x :: x in s <==> x in t
  {
    assert |multiset(s)| == |s| && |multiset(t)| == |t|;
    forall x ensures x in s <==> x in t {
      assert x in s <==> x in multiset(s);
      assert x in t <==> x in multiset(t);
    }
  }

  lemma DistinctPermute<T>(s: seq<T>, t: seq<T>)
    requires Distinct(s) && Distinct(t) && forall x :: x in s <==> x in t
    ensures multiset(s) == multiset(t)
  {
    DistinctByCount(s);
    DistinctByCount(t);
    forall x ensures multiset(s)[x] == multiset(t)[x] {
      assert x in s <==> x in multiset(s);
      assert x in t <==> x in multiset(t);
    }
  }

  lemma PermutedIsDistinct<T>(s: seq<T>, t: seq<T>)
    requires multiset(s) == multiset(t) && Distinct(t)
    ensures Distinct(s)
  {
    FewerAreDistinct(s, t);
  }

  // Flattening.

  lemma {:induction false} FlatMapSource<A, B>(f: A -> seq<B>, s: seq<A>, y: B) returns (x: A)
    requires y in FlatMap(f, s)
    ensures x in s && y in f(x)
  {
    if y in f(s[0]) { x := s[0]; } else { x := FlatMapSource(f, s[1..], y); }
  }

  lemma {:induction false} FlatMapPermuted<A, B>(f: A -> seq<B>, s: seq<A>, t: seq<A>)
    requires multiset(s) == multiset(t)
    ensures multiset(FlatMap(f, s)) == multiset(FlatMap(f, t))
    decreases |s|
  {
    if s == [] {
      assert |multiset(t)| == 0;
    } else {
      SameMembers(s, t);
      assert s[0] in s;
      var i :| 0 <= i < |t| && t[i] == s[0];
      var rest := t[..i] + t[i + 1..];
      assert s == [s[0]] + s[1..];
      assert t == t[..i] + ([t[i]] + t[i + 1..]);
      assert multiset(t) == multiset(t[..i]) + multiset([t[i]]) + multiset(t[i + 1..]);
      assert multiset(s[1..]) == multiset(s) - multiset([s[0]]);
      assert multiset(rest) == multiset(t) - multiset([t[i]]);
      FlatMapPermuted(f, s[1..], rest);
      FlatMapAppend(f, t[..i], [t[i]] + t[i + 1..]);
      FlatMapAppend(f, [t[i]], t[i + 1..]);
      FlatMapOne(f, t[i]);
      FlatMapAppend(f, t[..i], t[i + 1..]);
    }
  }

  function Keeping<T>(p: T -> bool): T -> seq<T> { (x: T) => if p(x) then [x] else [] }

  function Singly<A, B>(f: A -> B): A -> seq<B> { (x: A) => [f(x)] }

  lemma {:induction false} FilterAsFlatMap<T(!new)>(p: T -> bool, s: seq<T>)
    ensures Filter(p, s) == FlatMap(Keeping(p), s)
  {
    if s != [] { FilterAsFlatMap(p, s[1..]); }
  }

  lemma {:induction false} MapAsFlatMap<A, B>(f: A -> B, s: seq<A>)
    ensures Map(f, s) == FlatMap(Singly(f), s)
  {
    if s != [] {
      MapAsFlatMap(f, s[1..]);
      assert Map(f, s) == [f(s[0])] + Map(f, s[1..]);
    }
  }

  lemma {:induction false} OnesOfMap<A(!new), B, C>(h: A -> seq<C>, f: B -> C, key: A -> B, s: seq<A>)
    requires forall x :: x in s ==> h(x) == [f(key(x))]
    ensures FlatMap(h, s) == Map(f, Map(key, s))
  {
    if s != [] {
      OnesOfMap(h, f, key, s[1..]);
      var keys := Map(key, s[1..]);
      assert Map(key, s) == [key(s[0])] + keys;
      MapAppend(f, [key(s[0])], keys);
      assert s[0] in s && Map(f, [key(s[0])]) == [f(key(s[0]))];
    }
  }

  lemma {:induction false} FlatMapOfNothings<A(!new), B, C>(f: B -> seq<C>, g: A -> B, s: seq<A>)
    requires forall x :: x in s ==> f(g(x)) == []
    ensures FlatMap(f, Map(g, s)) == []
  {
    if s != [] {
      assert Map(g, s)[1..] == Map(g, s[1..]);
      FlatMapOfNothings(f, g, s[1..]);
    }
  }

  lemma MapSame<A(!new), B>(f: A -> B, g: A -> B, s: seq<A>)
    requires forall x :: x in s ==> f(x) == g(x)
    ensures Map(f, s) == Map(g, s)
  {
    assert forall i :: 0 <= i < |s| ==> s[i] in s;
  }

  lemma MapOfMap<A(!new), B, C>(f: B -> C, g: A -> B, h: A -> C, s: seq<A>)
    requires forall x :: x in s ==> f(g(x)) == h(x)
    ensures Map(f, Map(g, s)) == Map(h, s)
  {
    assert forall i :: 0 <= i < |s| ==> s[i] in s && Map(g, s)[i] == g(s[i]);
  }

  lemma MapTarget<A, B>(f: A -> B, s: seq<A>, x: A)
    requires x in s
    ensures f(x) in Map(f, s)
  {
    var i :| 0 <= i < |s| && s[i] == x;
    assert Map(f, s)[i] == f(x);
  }

  lemma MapSource<A, B>(f: A -> B, s: seq<A>, y: B) returns (x: A)
    requires y in Map(f, s)
    ensures x in s && y == f(x)
  {
    var i :| 0 <= i < |s| && Map(f, s)[i] == y;
    x := s[i];
  }

  /** Elements with different images are told apart by them. */
  lemma DistinctMeansEqual<A(!new), B>(f: A -> B, s: seq<A>, x: A, y: A)
    requires Distinct(Map(f, s)) && x in s && y in s && f(x) == f(y)
    ensures x == y
  {
    var i :| 0 <= i < |s| && s[i] == x;
    var j :| 0 <= j < |s| && s[j] == y;
    assert Map(f, s)[i] == Map(f, s)[j];
  }

  /** A map repeats nothing exactly when it is injective on what it is applied to. */
  lemma MapDistinct<A(!new), B>(f: A -> B, s: seq<A>)
    requires Distinct(s)
    ensures Distinct(Map(f, s)) <==> forall x, y :: x in s && y in s && f(x) == f(y) ==> x == y
  {
    if Distinct(Map(f, s)) {
      forall x, y | x in s && y in s && f(x) == f(y) ensures x == y {
        var i :| 0 <= i < |s| && s[i] == x;
        var j :| 0 <= j < |s| && s[j] == y;
        assert Map(f, s)[i] == Map(f, s)[j];
      }
    }
  }

  lemma FilterPermuted<T(!new)>(p: T -> bool, s: seq<T>, t: seq<T>)
    requires multiset(s) == multiset(t)
    ensures multiset(Filter(p, s)) == multiset(Filter(p, t))
  {
    FilterAsFlatMap(p, s);
    FilterAsFlatMap(p, t);
    FlatMapPermuted(Keeping(p), s, t);
  }

  lemma MapPermuted<A, B>(f: A -> B, s: seq<A>, t: seq<A>)
    requires multiset(s) == multiset(t)
    ensures multiset(Map(f, s)) == multiset(Map(f, t))
  {
    MapAsFlatMap(f, s);
    MapAsFlatMap(f, t);
    FlatMapPermuted(Singly(f), s, t);
  }

  lemma {:induction false} MapOfFlatMap<A(!new), B, C>(f: B -> C, g: A -> seq<B>, h: A -> seq<C>, s: seq<A>)
    requires forall x :: x in s ==> h(x) == Map(f, g(x))
    ensures FlatMap(h, s) == Map(f, FlatMap(g, s))
  {
    if s != [] {
      MapOfFlatMap(f, g, h, s[1..]);
      MapAppend(f, g(s[0]), FlatMap(g, s[1..]));
    }
  }

  lemma {:induction false} FlatMapTwice<A(!new), B, C>(f: B -> seq<C>, g: A -> seq<B>, h: A -> seq<C>, s: seq<A>)
    requires forall x :: x in s ==> h(x) == FlatMap(f, g(x))
    ensures FlatMap(h, s) == FlatMap(f, FlatMap(g, s))
  {
    if s != [] {
      FlatMapTwice(f, g, h, s[1..]);
      FlatMapAppend(f, g(s[0]), FlatMap(g, s[1..]));
    }
  }

  /** Flattening two contributions at once contributes as much as flattening each. */
  lemma {:induction false} FlatMapSplit<A(!new), B>(h: A -> seq<B>, f: A -> seq<B>, g: A -> seq<B>, s: seq<A>)
    requires forall x :: x in s ==> multiset(h(x)) == multiset(f(x)) + multiset(g(x))
    ensures multiset(FlatMap(h, s)) == multiset(FlatMap(f, s)) + multiset(FlatMap(g, s))
  {
    if s != [] { FlatMapSplit(h, f, g, s[1..]); }
  }

  lemma {:induction false} FlatMapFewer<A(!new), B>(f: A -> seq<B>, g: A -> seq<B>, s: seq<A>)
    requires forall x :: x in s ==> multiset(f(x)) <= multiset(g(x))
    ensures multiset(FlatMap(f, s)) <= multiset(FlatMap(g, s))
  {
    if s != [] { FlatMapFewer(f, g, s[1..]); }
  }

  lemma {:induction false} FilterPartition<T(!new)>(p: T -> bool, q: T -> bool, s: seq<T>)
    requires forall x :: x in s ==> p(x) == !q(x)
    ensures multiset(Filter(p, s)) + multiset(Filter(q, s)) == multiset(s)
  {
    if s != [] {
      assert s == [s[0]] + s[1..];
      FilterPartition(p, q, s[1..]);
    }
  }

  lemma {:induction false} FilterIsDistinct<T(!new)>(p: T -> bool, s: seq<T>)
    requires Distinct(s)
    ensures Distinct(Filter(p, s))
  {
    FilterPartition(p, (x: T) => !p(x), s);
    FewerAreDistinct(Filter(p, s), s);
  }

  ghost predicate Disjoint<A, B>(f: A -> seq<B>, x: A, y: A) { forall z :: z in f(x) ==> z !in f(y) }

  lemma {:induction false} DistinctFlatMap<A(!new), B>(f: A -> seq<B>, s: seq<A>)
    requires forall x :: x in s ==> Distinct(f(x))
    requires forall i, j :: 0 <= i < j < |s| ==> Disjoint(f, s[i], s[j])
    ensures Distinct(FlatMap(f, s))
  {
    if s != [] {
      var rest := s[1..];
      forall i, j | 0 <= i < j < |rest| ensures Disjoint(f, rest[i], rest[j]) {
        assert Disjoint(f, s[i + 1], s[j + 1]);
      }
      DistinctFlatMap(f, rest);
      DistinctAppend(f(s[0]), FlatMap(f, rest));
      forall z | z in FlatMap(f, rest) ensures z !in f(s[0]) {
        var x := FlatMapSource(f, rest, z);
        var j :| 0 <= j < |rest| && rest[j] == x;
        assert Disjoint(f, s[0], s[j + 1]);
      }
    }
  }

  /** When the images of a flattened sequence never repeat, images of different elements are disjoint. */
  lemma {:induction false} FlatMapIsDisjoint<A(!new), B>(f: A -> seq<B>, s: seq<A>, i: nat, j: nat)
    requires Distinct(FlatMap(f, s)) && i < j < |s|
    ensures Distinct(f(s[i])) && Distinct(f(s[j])) && Disjoint(f, s[i], s[j])
  {
    DistinctAppend(f(s[0]), FlatMap(f, s[1..]));
    if i > 0 {
      FlatMapIsDisjoint(f, s[1..], i - 1, j - 1);
    } else {
      FlatMapPart(f, s[1..], j - 1);
      forall z | z in f(s[0]) ensures z !in f(s[j]) {
        if z in f(s[j]) {
          FlatMapMember(f, s[1..], s[j], z);
        }
      }
    }
  }

  lemma {:induction false} FlatMapPart<A(!new), B>(f: A -> seq<B>, s: seq<A>, i: nat)
    requires Distinct(FlatMap(f, s)) && i < |s|
    ensures Distinct(f(s[i]))
  {
    DistinctAppend(f(s[0]), FlatMap(f, s[1..]));
    if i > 0 { FlatMapPart(f, s[1..], i - 1); }
  }
}
