/** Runs of a state machine: a step function applied to a sequence of events.
    The component models phrase their run theorems with these definitions. */
module Runs {

  function Run<S, E>(step: (S, E) -> S, s: S, events: seq<E>): S {
    if events == [] then s
    else step(Run(step, s, events[..|events| - 1]), events[|events| - 1])
  }

  /** How many steps of the run were hits, judged in the state they were taken. */
  function Count<S, E>(step: (S, E) -> S, hit: (S, E) -> bool, s: S, events: seq<E>): nat {
    if events == [] then 0
    else
      var before := events[..|events| - 1];
      Count(step, hit, s, before) + if hit(Run(step, s, before), events[|events| - 1]) then 1 else 0
  }

  lemma {:induction false} RunConcat<S, E>(step: (S, E) -> S, s: S, first: seq<E>, later: seq<E>)
    ensures Run(step, s, first + later) == Run(step, Run(step, s, first), later)
  {
    if later == [] {
      assert first + later == first;
    } else {
      var all := first + later;
      assert all[..|all| - 1] == first + later[..|later| - 1];
      RunConcat(step, s, first, later[..|later| - 1]);
    }
  }

  lemma RunAppend<S, E>(step: (S, E) -> S, s: S, events: seq<E>, e: E)
    ensures Run(step, s, events + [e]) == step(Run(step, s, events), e)
  {
    assert (events + [e])[..|events|] == events;
  }

  lemma {:induction false} RunKeeps<S(!new), E(!new)>(step: (S, E) -> S, inv: S -> bool, s: S, events: seq<E>)
    requires inv(s)
    requires forall x, e :: inv(x) ==> inv(step(x, e))
    ensures inv(Run(step, s, events))
  {
    if events == [] {
    } else {
      RunKeeps(step, inv, s, events[..|events| - 1]);
    }
  }

  /** A measure that grows by at least one at every hit bounds the hits. */
  lemma {:induction false} CountWithin<S(!new), E(!new)>(
    step: (S, E) -> S, hit: (S, E) -> bool, inv: S -> bool, measure: S -> nat, s: S, events: seq<E>)
    requires inv(s)
    requires forall x, e :: inv(x) ==> inv(step(x, e))
    requires forall x, e :: inv(x) ==> measure(x) + (if hit(x, e) then 1 else 0) <= measure(step(x, e))
    ensures inv(Run(step, s, events))
    ensures measure(s) + Count(step, hit, s, events) <= measure(Run(step, s, events))
  {
    if events == [] {
    } else {
      CountWithin(step, hit, inv, measure, s, events[..|events| - 1]);
    }
  }

  /** A measure that grows by exactly the hits counts them. */
  lemma {:induction false} CountExactly<S(!new), E(!new)>(
    step: (S, E) -> S, hit: (S, E) -> bool, inv: S -> bool, measure: S -> nat, s: S, events: seq<E>)
    requires inv(s)
    requires forall x, e :: inv(x) ==> inv(step(x, e))
    requires forall x, e :: inv(x) ==> measure(x) + (if hit(x, e) then 1 else 0) == measure(step(x, e))
    ensures measure(s) + Count(step, hit, s, events) == measure(Run(step, s, events))
  {
    if events == [] {
    } else {
      CountExactly(step, hit, inv, measure, s, events[..|events| - 1]);
      RunKeeps(step, inv, s, events[..|events| - 1]);
    }
  }

  /** If hits are exactly the steps that break `good`, and nothing repairs it, then
      `good` at the end means that there was no hit. */
  lemma {:induction false} UnbrokenIff<S(!new), E(!new)>(
    step: (S, E) -> S, hit: (S, E) -> bool, inv: S -> bool, good: S -> bool, s: S, events: seq<E>)
    requires inv(s) && good(s)
    requires forall x, e :: inv(x) ==> inv(step(x, e))
    requires forall x, e :: inv(x) && good(x) ==> (hit(x, e) <==> !good(step(x, e)))
    requires forall x, e :: inv(x) && !good(x) ==> !good(step(x, e))
    ensures Count(step, hit, s, events) == 0 <==> good(Run(step, s, events))
  {
    if events == [] {
    } else {
      UnbrokenIff(step, hit, inv, good, s, events[..|events| - 1]);
      RunKeeps(step, inv, s, events[..|events| - 1]);
    }
  }
}
