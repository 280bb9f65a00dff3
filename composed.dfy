/**
 * `ComposedExecutionContext` (composed-execution-context.ts) and
 * `ExecutionContext.compose` (execution-context.ts:42-44): a list of contexts
 * whose `run` nests the runs of all of them, built with `reduce`.
 */
module Composed {
  import opened Tasks
  import opened Runtime
  import opened Engine
  import opened EngineFacts

  /** The list in the opposite order. */
  function Reversed(s: seq<ContextId>): (r: seq<ContextId>)
    ensures |r| == |s|
    ensures forall i :: 0 <= i < |s| ==> r[i] == s[|s| - 1 - i]
  {
    if s == [] then [] else Reversed(s[1..]) + [s[0]]
  }

  /**
   * The `reduce` of composed-execution-context.ts:10-11 over `cs` with seed `func`:
   * each step turns the callable built so far into `() => context.run(built)`.
   */
  function Reduce(cs: seq<ContextId>, func: Body): (r: Body)
    ensures cs == [] ==> r == func
    ensures cs != [] ==> r == Run(cs[|cs| - 1], Reduce(cs[..|cs| - 1], func))
    decreases |cs|
  {
    if cs == [] then func
    else
      assert |cs| > 1 ==> cs[1..][..|cs| - 2] == cs[..|cs| - 1][1..];
      Reduce(cs[1..], Run(cs[0], func))
  }

  /** `cs[0].run(() => cs[1].run(() => ... cs[n-1].run(func)))`: the first context outermost. */
  function Nest(cs: seq<ContextId>, func: Body): (r: Body)
  {
    if cs == [] then func else Run(cs[0], Nest(cs[1..], func))
  }

  /** Reducing the reversed list nests the contexts in list order, the first outermost. */
  lemma {:induction false} ReduceReversedIsNest(cs: seq<ContextId>, func: Body)
    ensures Reduce(Reversed(cs), func) == Nest(cs, func)
  {
    if cs != [] {
      assert Reversed(cs)[..|cs| - 1] == Reversed(cs[1..]);
      ReduceReversedIsNest(cs[1..], func);
    }
  }

  lemma ReversedTwice(s: seq<ContextId>)
    ensures Reversed(Reversed(s)) == s
  {
    assert forall i :: 0 <= i < |s| ==> Reversed(Reversed(s))[i] == s[i];
  }

  /** Reducing the list as stored nests it in the opposite order, the last context outermost. */
  lemma ReduceIsReversedNest(cs: seq<ContextId>, func: Body)
    ensures Reduce(cs, func) == Nest(Reversed(cs), func)
  {
    ReversedTwice(cs);
    ReduceReversedIsNest(Reversed(cs), func);
  }

  /** With no contexts, the composed `run` calls `func` itself: the reduce seed. */
  lemma EmptyComposition(func: Body)
    ensures Reduce(Reversed([]), func) == func
  {
  }

  /** No context of `cs` wraps the units of the tasks it is given. */
  predicate NoneWraps(w: World, cs: seq<ContextId>)
  {
    forall i :: 0 <= i < |cs| ==> !WrapsUnits(w, cs[i])
  }

  /** A `run` on a context that does not wrap enters it, then whatever the body enters. */
  lemma RunEntries(w: World, c: ContextId, b: Body, inner: seq<ContextId>)
    requires !WrapsUnits(w, c)
    requires Entries(ExecBody(Enter(w, c), b).world.trace) == Entries(Enter(w, c).trace) + inner
    ensures Entries(RunContext(w, c, b).world.trace) == Entries(w.trace) + [c] + inner
  {
    var w1 := Enter(w, c);
    var t := |w.tasks|;
    RunSteps(w, c, b);
    var u := ExecBody(w1, b);
    EntriesAppend(w.trace, [Entered(c), ScheduleCalled(c, t)]);
    assert Entries([Entered(c), ScheduleCalled(c, t)]) == [c];
    assert Entries(w1.trace) == Entries(w.trace) + [c];
    var w2 := EmitTask(u.world, t, "finish");
    NoticesAreQuiet(u.world.trace, w2.trace);
    assert RunContext(w, c, b).world.trace == w2.trace;
  }

  /** One layer of the nesting: what holds inside `c.run` holds around it, with `c` entered first. */
  lemma NestStep(w: World, c: ContextId, inner: Body, rest: seq<ContextId>, o: Outcome)
    requires !WrapsUnits(w, c)
    requires ExecBody(Enter(w, c), inner).out == o
    requires Entries(ExecBody(Enter(w, c), inner).world.trace) == Entries(Enter(w, c).trace) + rest
    ensures RunContext(w, c, inner).out == o
    ensures Entries(RunContext(w, c, inner).world.trace) == Entries(w.trace) + [c] + rest
  {
    RunReturnsBody(w, c, inner);
    RunEntries(w, c, inner, rest);
  }

  /** Entering the head of `cs` and then the rest is entering `cs`. */
  lemma EnteredFirst(before: seq<ContextId>, cs: seq<ContextId>)
    requires cs != []
    ensures before + [cs[0]] + cs[1..] == before + cs
  {
    assert [cs[0]] + cs[1..] == cs;
  }

  /**
   * The nested runs of a composition over contexts that do not wrap: the value
   * or error of `func` comes out unchanged, and each context is entered exactly
   * once, in list order.
   */
  lemma {:induction false} NestPassesThrough(w: World, cs: seq<ContextId>, func: Body)
    requires Flat(func) && NoneWraps(w, cs)
    ensures ExecBody(w, Nest(cs, func)).out == FlatOutcome(func)
    ensures Entries(ExecBody(w, Nest(cs, func)).world.trace) == Entries(w.trace) + cs
    decreases |cs|
  {
    if cs == [] {
      FlatBodyOutcome(w, func);
    } else {
      var w1 := Enter(w, cs[0]);
      var rest := cs[1..];
      assert NoneWraps(w1, rest) by {
        forall i | 0 <= i < |rest|
          ensures !WrapsUnits(w1, rest[i])
        {
          assert !WrapsUnits(w, cs[i + 1]);
        }
      }
      NestPassesThrough(w1, rest, func);
      assert ExecBody(w, Nest(cs, func)) == RunContext(w, cs[0], Nest(rest, func));
      NestStep(w, cs[0], Nest(rest, func), rest, FlatOutcome(func));
      EnteredFirst(Entries(w.trace), cs);
    }
  }

  /**
   * The composed context: the list of contexts given to `compose`, stored as an
   * array that every `run` reverses in place.
   */
  class ComposedExecutionContext {
    var contexts: array<ContextId>

    /** `new ComposedExecutionContext(contexts)`, which `ExecutionContext.compose` returns. */
    constructor (cs: seq<ContextId>)
      ensures contexts[..] == cs && fresh(contexts)
    {
      contexts := new ContextId[|cs|](i requires 0 <= i < |cs| => cs[i]);
    }

    /** `contexts.reverse()`: the stored list is reversed where it is. */
    method Reverse()
      modifies contexts
      ensures contexts[..] == Reversed(old(contexts[..]))
    {
      var n := contexts.Length;
      var i := 0;
      while i < n / 2
        invariant 0 <= i <= n / 2
        invariant forall k :: 0 <= k < i ==> contexts[k] == old(contexts[n - 1 - k]) && contexts[n - 1 - k] == old(contexts[k])
        invariant forall k :: i <= k < n - i ==> contexts[k] == old(contexts[k])
      {
        contexts[i], contexts[n - 1 - i] := contexts[n - 1 - i], contexts[i];
        i := i + 1;
      }
    }

    /**
     * `run(func)`: reverse the stored list, reduce it into nested runs and call
     * the result. The nesting is the list as it was before the call, first
     * context outermost, and the stored list ends up reversed, so the next call
     * nests the other way round.
     */
    method Run(w: World, func: Body) returns (r: Exec)
      modifies contexts
      ensures contexts[..] == Reversed(old(contexts[..]))
      ensures r == ExecBody(w, Nest(old(contexts[..]), func))
    {
      Reverse();
      r := ExecBody(w, Reduce(contexts[..], func));
      ReduceReversedIsNest(old(contexts[..]), func);
    }
  }

  /** `ExecutionContext.compose(a, b, c)`: a composed context over its arguments in the given order. */
  method Compose(cs: seq<ContextId>) returns (composed: ComposedExecutionContext)
    ensures composed.contexts[..] == cs && fresh(composed) && fresh(composed.contexts)
  {
    composed := new ComposedExecutionContext(cs);
  }
}
