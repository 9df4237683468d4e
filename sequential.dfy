/** The generic `sequential` runner: a step is run on each item in list order
    and the final completion is called once, with the first error or none. */
module Runner {
  import opened Types

  /** What the runner does, in order: run the step on an item, or call `final`. */
  datatype Event<T> = Visit(item: T) | Final(outcome: Option<Error>)

  /** The state the steps leave, the error handed to `final`, and the trace of calls. */
  datatype Run<S, T> = Run(state: S, outcome: Option<Error>, trace: seq<Event<T>>)

  /** Runs `step` on the first item; on an error calls `final` with it,
      otherwise carries on with the rest; on the empty list calls `final(nil)`. */
  function Sequential<S, T>(items: seq<T>, s: S, step: (S, T) -> (S, Option<Error>)): (r: Run<S, T>)
    ensures 1 <= |r.trace| <= |items| + 1
    decreases |items|
  {
    if |items| == 0 then Run(s, None, [Final(None)])
    else
      var (s', e) := step(s, items[0]);
      if e.Some? then Run(s', e, [Visit(items[0]), Final(e)])
      else
        var rest := Sequential(items[1..], s', step);
        Run(rest.state, rest.outcome, [Visit(items[0])] + rest.trace)
  }

  /** The trace visits a prefix of the items, in order, and ends with the
      call of `final` with the outcome. */
  lemma {:induction false} TraceShape<S, T>(items: seq<T>, s: S, step: (S, T) -> (S, Option<Error>))
    ensures var r := Sequential(items, s, step);
            && r.trace[|r.trace| - 1] == Final(r.outcome)
            && forall i :: 0 <= i < |r.trace| - 1 ==> r.trace[i] == Visit(items[i])
    decreases |items|
  {
    if |items| > 0 && step(s, items[0]).1.None? {
      var rest := Sequential(items[1..], step(s, items[0]).0, step);
      TraceShape(items[1..], step(s, items[0]).0, step);
      var r := Sequential(items, s, step);
      assert r.trace == [Visit(items[0])] + rest.trace;
      forall i | 0 < i < |r.trace| - 1 ensures r.trace[i] == Visit(items[i]) {
        assert r.trace[i] == rest.trace[i - 1];
        assert items[1..][i - 1] == items[i];
      }
    }
  }

  /** The state after running the step, without regard to errors, on the first `k` items. */
  function StateAfter<S, T>(items: seq<T>, s: S, step: (S, T) -> (S, Option<Error>), k: nat): S
    requires k <= |items|
    decreases k
  {
    if k == 0 then s else StateAfter(items[1..], step(s, items[0]).0, step, k - 1)
  }

  /** The error the step reports on item `i` when run after the items before it. */
  function ErrorAt<S, T>(items: seq<T>, s: S, step: (S, T) -> (S, Option<Error>), i: nat): Option<Error>
    requires i < |items|
  {
    step(StateAfter(items, s, step, i), items[i]).1
  }

  /** How many items `sequential` ran the step on. */
  function Visited<S, T>(items: seq<T>, s: S, step: (S, T) -> (S, Option<Error>)): nat
  {
    |Sequential(items, s, step).trace| - 1
  }

  /** Running on `items` after a successful first step is running on its tail. */
  lemma Shift<S, T>(items: seq<T>, s: S, step: (S, T) -> (S, Option<Error>), i: nat)
    requires i + 1 < |items|
    ensures StateAfter(items, s, step, i + 1) == StateAfter(items[1..], step(s, items[0]).0, step, i)
    ensures ErrorAt(items, s, step, i + 1) == ErrorAt(items[1..], step(s, items[0]).0, step, i)
  {
    assert items[i + 1] == items[1..][i];
  }

  /** When the first step succeeds, `sequential` visits one more item than on the tail. */
  lemma VisitedTail<S, T>(items: seq<T>, s: S, step: (S, T) -> (S, Option<Error>))
    requires |items| > 0 && step(s, items[0]).1.None?
    ensures Visited(items, s, step) == Visited(items[1..], step(s, items[0]).0, step) + 1
    ensures Sequential(items, s, step).outcome == Sequential(items[1..], step(s, items[0]).0, step).outcome
    ensures Sequential(items, s, step).state == Sequential(items[1..], step(s, items[0]).0, step).state
  {
  }

  /** When the first step fails, `sequential` stops there with its error and its state. */
  lemma StopsAtError<S, T>(items: seq<T>, s: S, step: (S, T) -> (S, Option<Error>))
    requires |items| > 0 && step(s, items[0]).1.Some?
    ensures Sequential(items, s, step).outcome == step(s, items[0]).1
    ensures Sequential(items, s, step).state == step(s, items[0]).0
  {
  }

  /** Every visited item except the last one succeeded: the runner stops at
      the first item whose step reports an error. */
  lemma {:induction false} VisitedPrefixSucceeded<S, T>(items: seq<T>, s: S, step: (S, T) -> (S, Option<Error>))
    ensures forall i :: 0 <= i < Visited(items, s, step) - 1 ==> ErrorAt(items, s, step, i).None?
    decreases |items|
  {
    if |items| > 0 && step(s, items[0]).1.None? {
      var s' := step(s, items[0]).0;
      VisitedPrefixSucceeded(items[1..], s', step);
      VisitedTail(items, s, step);
      forall i | 0 <= i < Visited(items, s, step) - 1
        ensures ErrorAt(items, s, step, i).None?
      {
        if i > 0 {
          Shift(items, s, step, i - 1);
        }
      }
    }
  }

  /** `final` gets nil only when every item succeeded; the runner then
      visited them all and left the state of the full fold. */
  lemma {:induction false} NilMeansAllSucceeded<S, T>(items: seq<T>, s: S, step: (S, T) -> (S, Option<Error>))
    requires Sequential(items, s, step).outcome.None?
    ensures forall i :: 0 <= i < |items| ==> ErrorAt(items, s, step, i).None?
    ensures Visited(items, s, step) == |items|
    ensures Sequential(items, s, step).state == StateAfter(items, s, step, |items|)
    decreases |items|
  {
    if |items| > 0 {
      var s' := step(s, items[0]);
      assert ErrorAt(items, s, step, 0) == s'.1;
      NilMeansAllSucceeded(items[1..], s'.0, step);
      VisitedTail(items, s, step);
      forall i | 0 <= i < |items| ensures ErrorAt(items, s, step, i).None? {
        if i > 0 {
          Shift(items, s, step, i - 1);
        }
      }
      if |items| > 1 {
        Shift(items, s, step, |items| - 2);
      }
    }
  }

  /** When every item succeeds, `final` gets nil, including on the empty list. */
  lemma {:induction false} AllSucceededMeansNil<S, T>(items: seq<T>, s: S, step: (S, T) -> (S, Option<Error>))
    requires forall i :: 0 <= i < |items| ==> ErrorAt(items, s, step, i).None?
    ensures Sequential(items, s, step).outcome.None?
    decreases |items|
  {
    if |items| > 0 {
      var s' := step(s, items[0]);
      assert ErrorAt(items, s, step, 0) == s'.1;
      forall i | 0 <= i < |items| - 1 ensures ErrorAt(items[1..], s'.0, step, i).None? {
        Shift(items, s, step, i);
      }
      AllSucceededMeansNil(items[1..], s'.0, step);
      VisitedTail(items, s, step);
    }
  }

  /** On an error, `final` gets the error of the last visited item, and the
      state is the one that item's step left. */
  lemma {:induction false} ErrorIsLastVisited<S, T>(items: seq<T>, s: S, step: (S, T) -> (S, Option<Error>))
    ensures Sequential(items, s, step).outcome.Some? ==>
            && 1 <= Visited(items, s, step) <= |items|
            && Sequential(items, s, step).outcome == ErrorAt(items, s, step, Visited(items, s, step) - 1)
            && Sequential(items, s, step).state ==
               step(StateAfter(items, s, step, Visited(items, s, step) - 1), items[Visited(items, s, step) - 1]).0
    decreases |items|
  {
    if |items| > 0 {
      var s' := step(s, items[0]);
      if s'.1.None? {
        ErrorIsLastVisited(items[1..], s'.0, step);
        VisitedTail(items, s, step);
        var k := Visited(items, s, step);
        if Sequential(items, s, step).outcome.Some? && k >= 2 {
          Shift(items, s, step, k - 2);
          assert items[k - 1] == items[1..][k - 2];
        }
      }
    }
  }

  /** The final completion is called exactly once, as the last event. */
  lemma FinalCalledOnce<S, T>(items: seq<T>, s: S, step: (S, T) -> (S, Option<Error>))
    ensures var t := Sequential(items, s, step).trace;
            forall i :: 0 <= i < |t| ==> (t[i].Final? <==> i == |t| - 1)
  {
    TraceShape(items, s, step);
  }

  /** The empty list: `final(nil)` at once, no step run, state untouched. */
  lemma EmptyListCallsFinalWithNil<S, T>(s: S, step: (S, T) -> (S, Option<Error>))
    ensures Sequential([], s, step) == Run(s, None, [Final(None)])
  {
  }
}
