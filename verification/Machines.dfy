/** Running a partial step function over a sequence of inputs. */
module Machines {

  import opened Wrappers

  function RunWith<S, E>(step: (S, E) -> Option<S>, st: S, events: seq<E>): Option<S>
    decreases |events|
  {
    if events == [] then Some(st)
    else
      match step(st, events[0])
      case None => None
      case Some(next) => RunWith(step, next, events[1..])
  }

  lemma {:induction false} RunWithAppend<S, E>(step: (S, E) -> Option<S>, st: S, a: seq<E>, b: seq<E>)
    ensures RunWith(step, st, a + b) ==
            (var mid := RunWith(step, st, a); if mid.None? then None else RunWith(step, mid.value, b))
    decreases |a|
  {
    if a == [] {
      assert a + b == b;
    } else {
      assert (a + b)[0] == a[0] && (a + b)[1..] == a[1..] + b;
      var next := step(st, a[0]);
      if next.Some? { RunWithAppend(step, next.value, a[1..], b); }
    }
  }
}
