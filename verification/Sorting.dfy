/** Sorting by a strict total order. */
module Sorting {

  import opened Sequences
  import opened Permutations

  ghost predicate StrictOrder<T(!new)>(before: (T, T) -> bool) {
    && (forall a, b, c :: before(a, b) && before(b, c) ==> before(a, c))
    && (forall a, b :: before(a, b) ==> !before(b, a))
    && (forall a, b :: a != b ==> before(a, b) || before(b, a))
  }

  ghost predicate Ordered<T(!new)>(before: (T, T) -> bool, s: seq<T>) { Pairwise(before, s) }

  function Insert<T(!new)>(before: (T, T) -> bool, x: T, s: seq<T>): (r: seq<T>)
    ensures multiset(r) == multiset{x} + multiset(s)
  {
    if s == [] then [x]
    else if before(x, s[0]) then [x] + s
    else
      assert s == [s[0]] + s[1..];
      [s[0]] + Insert(before, x, s[1..])
  }

  function Sorted<T(!new)>(before: (T, T) -> bool, s: seq<T>): (r: seq<T>)
    ensures multiset(r) == multiset(s)
  {
    if s == [] then []
    else
      assert s == [s[0]] + s[1..];
      Insert(before, s[0], Sorted(before, s[1..]))
  }

  lemma {:induction false} InsertIsOrdered<T(!new)>(before: (T, T) -> bool, x: T, s: seq<T>)
    requires StrictOrder(before) && Ordered(before, s) && x !in s
    ensures Ordered(before, Insert(before, x, s))
  {
    if s == [] {
    } else if before(x, s[0]) {
      PairwiseCons(before, x, s);
    } else {
      var rest := Insert(before, x, s[1..]);
      assert s == [s[0]] + s[1..];
      PairwiseCons(before, s[0], s[1..]);
      InsertIsOrdered(before, x, s[1..]);
      SameMembers(rest, [x] + s[1..]);
      PairwiseCons(before, s[0], rest);
    }
  }

  lemma {:induction false} SortedIsOrdered<T(!new)>(before: (T, T) -> bool, s: seq<T>)
    requires StrictOrder(before) && Distinct(s)
    ensures Ordered(before, Sorted(before, s))
  {
    if s != [] {
      SortedIsOrdered(before, s[1..]);
      SameMembers(Sorted(before, s[1..]), s[1..]);
      InsertIsOrdered(before, s[0], Sorted(before, s[1..]));
    }
  }

  lemma TailMembers<T(!new)>(before: (T, T) -> bool, a: seq<T>, b: seq<T>, x: T)
    requires StrictOrder(before) && Ordered(before, a) && a != [] && b != [] && a[0] == b[0] && x in a[1..] && x in b
    ensures x in b[1..]
  {
    assert before(a[0], x);
  }

  lemma HeadsAgree<T(!new)>(before: (T, T) -> bool, a: seq<T>, b: seq<T>)
    requires StrictOrder(before) && Ordered(before, a) && Ordered(before, b) && a != [] && b != [] && a[0] in b
               && b[0] in a
    ensures a[0] == b[0]
  {
    var i :| 0 <= i < |b| && b[i] == a[0];
    var j :| 0 <= j < |a| && a[j] == b[0];
  }

  lemma {:induction false} OrderedIsUnique<T(!new)>(before: (T, T) -> bool, a: seq<T>, b: seq<T>)
    requires StrictOrder(before) && Ordered(before, a) && Ordered(before, b) && forall x :: x in a <==> x in b
    ensures a == b
  {
    assert forall i :: 0 <= i < |b| ==> b[i] in b;
    assert forall i :: 0 <= i < |a| ==> a[i] in a;
    if a != [] {
      assert a[0] in a && a[0] in b;
      assert b[0] in b && b[0] in a;
      HeadsAgree(before, a, b);
      assert Ordered(before, a[1..]) && Ordered(before, b[1..]);
      forall x | x in a[1..] ensures x in b[1..] { TailMembers(before, a, b, x); }
      forall x | x in b[1..] ensures x in a[1..] { TailMembers(before, b, a, x); }
      OrderedIsUnique(before, a[1..], b[1..]);
      assert a == [a[0]] + a[1..] && b == [b[0]] + b[1..];
    }
  }

  /** The order in which elements came does not survive sorting. */
  lemma SortingForgetsOrder<T(!new)>(before: (T, T) -> bool, a: seq<T>, b: seq<T>)
    requires StrictOrder(before) && Distinct(a) && Distinct(b) && forall x :: x in a <==> x in b
    ensures Sorted(before, a) == Sorted(before, b)
  {
    SortedIsOrdered(before, a);
    SortedIsOrdered(before, b);
    SameMembers(Sorted(before, a), a);
    SameMembers(Sorted(before, b), b);
    OrderedIsUnique(before, Sorted(before, a), Sorted(before, b));
  }

  // Orders in which different elements may be equally far.

  ghost predicate WeakOrder<T(!new)>(before: (T, T) -> bool) {
    && (forall a, b, c :: before(a, c) ==> before(a, b) || before(b, c))
    && (forall a, b :: before(a, b) ==> !before(b, a))
  }

  function NotAfter<T(!new)>(before: (T, T) -> bool): (T, T) -> bool { (x, y) => !before(y, x) }

  lemma {:induction false} InsertDoesNotDescend<T(!new)>(before: (T, T) -> bool, x: T, s: seq<T>)
    requires WeakOrder(before) && Pairwise(NotAfter(before), s)
    ensures Pairwise(NotAfter(before), Insert(before, x, s))
  {
    if s == [] {
    } else if before(x, s[0]) {
      forall y | y in s ensures NotAfter(before)(x, y) {
        assert y != s[0] ==> NotAfter(before)(s[0], y);
      }
      PairwiseCons(NotAfter(before), x, s);
    } else {
      var rest := Insert(before, x, s[1..]);
      assert s == [s[0]] + s[1..];
      PairwiseCons(NotAfter(before), s[0], s[1..]);
      InsertDoesNotDescend(before, x, s[1..]);
      SameMembers(rest, [x] + s[1..]);
      PairwiseCons(NotAfter(before), s[0], rest);
    }
  }

  lemma {:induction false} SortedDoesNotDescend<T(!new)>(before: (T, T) -> bool, s: seq<T>)
    requires WeakOrder(before)
    ensures Pairwise(NotAfter(before), Sorted(before, s))
  {
    if s != [] {
      SortedDoesNotDescend(before, s[1..]);
      InsertDoesNotDescend(before, s[0], Sorted(before, s[1..]));
    }
  }
}
