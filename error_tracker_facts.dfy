/**
 * What `UnhandledErrorTracker` (unhandled-error-tracker.ts) promises: an error
 * thrown by a unit it was given reaches its 'error' handlers instead of the
 * caller, and the tracker's `run` itself never throws.
 */
module ErrorTrackerFacts {
  import opened Channel
  import opened Tasks
  import opened Runtime
  import opened Engine
  import opened EngineFacts
  import opened FiringFacts

  /** The calls of tracker `c`'s 'error' handlers for an outcome: one round for a throw, none for a return. */
  function ErrorCalls(contexts: seq<Context>, c: ContextId, o: Outcome): seq<Event>
  {
    if o.Threw? then Emitted(contexts, c, "error", [o.error]) else []
  }

  /**
   * Entering an UnhandledErrorTracker: its `schedule` wraps the sync task once
   * and touches no context, and the sync task has no listeners.
   */
  lemma EnterErrorTracker(w: World, c: ContextId)
    requires WrapsUnits(w, c)
    ensures var w' := Enter(w, c); var t := |w.tasks|;
      && w'.contexts == w.contexts
      && w'.tasks[t].unit == Guarded(c, Original)
      && forall name :: Listeners(w'.tasks[t].eventMap, name) == []
  {
    var w1 := w.(frames := [ContextZone(c)] + w.frames, trace := w.trace + [Entered(c)]);
    var t := |w.tasks|;
    var task := NewTask(Original, Sync, StackOf(w1.frames, w1.contexts, ExecutionContextClass));
    var w2 := w1.(tasks := w1.tasks + [task]);
    assert ScheduleHook(w2, c, t).tasks[t] == task.(unit := Guarded(c, Original));
  }

  /**
   * `run` on an UnhandledErrorTracker, step by step: the body runs inside the
   * guard, a throw becomes an 'error' emit on the tracker, 'finish' is emitted
   * on the sync task, and `run` returns undefined whatever the body did.
   */
  lemma GuardedRunSteps(w: World, c: ContextId, b: Body)
    requires WrapsUnits(w, c)
    ensures var u := ExecBody(Enter(w, c), b);
      var g := if u.out.Threw? then EmitContext(u.world, c, "error", [u.out.error]) else u.world;
      RunContext(w, c, b) == Exec(EmitTask(g, |w.tasks|, "finish").(frames := w.frames), Returned(Undefined))
  {
    var w1 := Enter(w, c);
    var t := |w.tasks|;
    assert ExecUnit(w1, Original, Direct(b)) == ExecBody(w1, b);
    assert ExecUnit(w1, w1.tasks[t].unit, Direct(b)).out == Returned(Undefined);
  }

  /** Emitting an event that has no listeners only records it. */
  lemma EmitUnheard(w: World, t: TaskId, name: string)
    requires t < |w.tasks| && Listeners(w.tasks[t].eventMap, name) == []
    ensures EmitTask(w, t, name) == w.(trace := w.trace + [TaskEmitted(t, name)])
  {
  }

  /**
   * `tracker.run(func)` for a body that enters no context: the body's marks,
   * then the tracker's 'error' handlers called with what it threw (if it threw),
   * then 'finish' on the sync task; `run` returns undefined, and neither a
   * context nor an earlier task changes.
   */
  lemma ErrorTrackerSwallows(w: World, c: ContextId, b: Body)
    requires WrapsUnits(w, c) && Flat(b)
    ensures var r := RunContext(w, c, b); var t := |w.tasks|;
      && r.out == Returned(Undefined)
      && r.world.frames == w.frames
      && r.world.contexts == w.contexts
      && |r.world.tasks| == t + 1 && r.world.tasks[..t] == w.tasks
      && r.world.trace
         == w.trace + [Entered(c), ScheduleCalled(c, t)] + FlatTrace(b)
            + ErrorCalls(w.contexts, c, FlatOutcome(b)) + [TaskEmitted(t, "finish")]
  {
    var w1 := Enter(w, c);
    var t := |w.tasks|;
    EnterErrorTracker(w, c);
    GuardedRunSteps(w, c, b);
    FlatBodyEffect(w1, b);
    var u := ExecBody(w1, b);
    var g := if u.out.Threw? then EmitContext(u.world, c, "error", [u.out.error]) else u.world;
    assert g.trace == w1.trace + FlatTrace(b) + ErrorCalls(w.contexts, c, FlatOutcome(b));
    EmitUnheard(g, t, "finish");
  }

  /**
   * A tracker's `run` around a body that returns: nothing is reported, and
   * `run` leaves what the body left followed by 'finish' on the sync task.
   */
  lemma GuardedRunOfReturn(w: World, c: ContextId, b: Body, tail: seq<Event>)
    requires WrapsUnits(w, c)
    requires ExecBody(Enter(w, c), b).out.Returned?
    requires ExecBody(Enter(w, c), b).world.trace == Enter(w, c).trace + tail
    requires ExecBody(Enter(w, c), b).world.tasks[|w.tasks|] == Enter(w, c).tasks[|w.tasks|]
    ensures var r := RunContext(w, c, b); var t := |w.tasks|;
      && r.out == Returned(Undefined)
      && r.world.trace == w.trace + [Entered(c), ScheduleCalled(c, t)] + tail + [TaskEmitted(t, "finish")]
  {
    EnterErrorTracker(w, c);
    GuardedRunSteps(w, c, b);
    EmitUnheard(ExecBody(Enter(w, c), b).world, |w.tasks|, "finish");
  }

  lemma Regroup(a: seq<Event>, x: seq<Event>, y: seq<Event>, z: seq<Event>)
    ensures a + x + [] + y + z == a + (x + y + z)
  {
  }

  /**
   * `outer.run(() => inner.run(() => { throw e; }))` with two trackers: the
   * inner one reports `e` to its 'error' handlers and returns undefined, so the
   * outer one sees a normal return and its own 'error' handlers are never called.
   */
  lemma InnerTrackerStopsPropagation(w: World, outer: ContextId, inner: ContextId, e: Value)
    requires WrapsUnits(w, outer) && WrapsUnits(w, inner)
    ensures var r := RunContext(w, outer, Run(inner, Throw(e))); var t := |w.tasks|;
      && r.out == Returned(Undefined)
      && r.world.trace
         == w.trace + [Entered(outer), ScheduleCalled(outer, t)]
            + ([Entered(inner), ScheduleCalled(inner, t + 1)] + Emitted(w.contexts, inner, "error", [e]) + [TaskEmitted(t + 1, "finish")])
            + [TaskEmitted(t, "finish")]
  {
    var w1 := Enter(w, outer);
    var t := |w.tasks|;
    EnterErrorTracker(w, outer);
    var f := WrapCallable(inner, Throw(e));
    ErrorTrackerSwallows(w1, inner, Throw(e));
    var tail := [Entered(inner), ScheduleCalled(inner, t + 1)] + Emitted(w.contexts, inner, "error", [e]) + [TaskEmitted(t + 1, "finish")];
    assert FlatTrace(Throw(e)) == [];
    assert ErrorCalls(w1.contexts, inner, FlatOutcome(Throw(e))) == Emitted(w.contexts, inner, "error", [e]);
    Regroup(w1.trace, [Entered(inner), ScheduleCalled(inner, t + 1)], Emitted(w.contexts, inner, "error", [e]), [TaskEmitted(t + 1, "finish")]);
    GuardedRunOfReturn(w, outer, Run(inner, Throw(e)), tail);
  }

  /**
   * A deferral made directly inside an UnhandledErrorTracker's `run`: the host
   * task's chain is the one task the tracker's hook made, whose unit is the
   * finishing wrapper inside the tracker's guard, with no listeners.
   */
  lemma DeferGuarded(w: World, c: ContextId, src: Source, cb: Body)
    requires WrapsUnits(w, c) && DirectlyInside(w.frames, c)
    ensures var r := ScheduleNative(w, src, cb); var n := |w.natives|; var e := |w.tasks|;
      && r.out == Returned(Num(n))
      && r.world.natives == w.natives + [NativeTask(src, cb, [e], w.frames, Scheduled)]
      && |r.world.tasks| == e + 1 && r.world.tasks[..e] == w.tasks
      && r.world.tasks[e].unit == Guarded(c, Finishing(e, src == SetInterval, c, Original))
      && r.world.tasks[e].eventMap == map[]
      && r.world.trace == w.trace + [ScheduleCalled(c, e)]
  {
    var n := |w.natives|;
    var w1 := w.(natives := w.natives + [NativeTask(src, cb, [], w.frames, Scheduled)]);
    var w2 := OnScheduleTask(w1, c, n);
    GuardedHookStep(w1, c, n);
    assert [|w.tasks|] + [] == [|w.tasks|];
    assert w2.natives == w.natives + [NativeTask(src, cb, [|w.tasks|], w.frames, Scheduled)];
    assert w.frames[1..][1..] == w.frames[2..];
    NoHooksNoChange(w2, w.frames[2..], n);
    assert ScheduleHooks(w1, w.frames, n) == w2;
  }

  /**
   * Firing a `setTimeout` task made that way whose callback throws `x`: the
   * finishing wrapper inside the guard emits 'finish' first, then the guard
   * reports `x` to the tracker's 'error' handlers, and the firing returns normally.
   */
  lemma GuardedTimeoutReports(w: World, n: NativeId, e: TaskId, c: ContextId, x: Value)
    requires n < |w.natives| && w.natives[n].state == Scheduled && w.natives[n].chain == [e]
    requires w.natives[n].source == SetTimeout && w.natives[n].callback == Throw(x)
    requires e < |w.tasks| && w.tasks[e].unit == Guarded(c, Finishing(e, false, c, Original))
    requires Listeners(w.tasks[e].eventMap, "finish") == []
    ensures var f := Fire(w, n);
      && f.out == Returned(Undefined)
      && f.world.frames == w.frames
      && f.world.trace == w.trace + [TaskEmitted(e, "finish")] + Emitted(w.contexts, c, "error", [x])
      && f.world.natives[n].state == Completed
  {
    var native := w.natives[n];
    var w1 := w.(frames := native.zone, natives := w.natives[n := native.(state := Running)]);
    var core := Native(Throw(x), [e], 0);
    FinishingRuns(w1, Finishing(e, false, c, Original), Throw(x), [e], 0);
    assert ExecChain(w1, Throw(x), [e], 1) == Exec(w1, Threw(x));
    EmitUnheard(w1, e, "finish");
    var w2 := w1.(trace := w1.trace + [TaskEmitted(e, "finish")]);
    assert ExecUnit(w1, Finishing(e, false, c, Original), core) == Exec(w2, Threw(x));
    assert ExecChain(w1, Throw(x), [e], 0) == Exec(EmitContext(w2, c, "error", [x]), Returned(Undefined));
  }

  /**
   * Two UnhandledErrorTrackers, `inner` entered inside `outer`, and a deferral
   * inside both: the inner tracker's hook runs first, so the chain is the outer
   * tracker's task followed by the inner one's, each guarded by its own tracker.
   */
  lemma DeferUnderTwoGuards(w: World, inner: ContextId, outer: ContextId, src: Source, cb: Body)
    requires WrapsUnits(w, inner) && WrapsUnits(w, outer)
    requires |w.frames| >= 2 && w.frames[0] == ExecutionZone(inner) && w.frames[1] == ContextZone(inner)
    requires DirectlyInside(w.frames[2..], outer)
    ensures var r := ScheduleNative(w, src, cb); var n := |w.natives|; var e := |w.tasks|;
      && r.world.natives == w.natives + [NativeTask(src, cb, [e + 1, e], w.frames, Scheduled)]
      && |r.world.tasks| == e + 2
      && r.world.tasks[e].unit == Guarded(inner, Finishing(e, src == SetInterval, inner, Original))
      && r.world.tasks[e + 1].unit == Guarded(outer, Finishing(e + 1, src == SetInterval, outer, Original))
      && r.world.tasks[e].eventMap == map[] && r.world.tasks[e + 1].eventMap == map[]
  {
    var n := |w.natives|;
    var e := |w.tasks|;
    var w1 := w.(natives := w.natives + [NativeTask(src, cb, [], w.frames, Scheduled)]);
    TwoHooksOnly(w1, w.frames, inner, outer, n);
    GuardedSteps(w1, inner, outer, n);
  }

  /** The two hooks in turn on a native task with an empty chain: the inner tracker's task, then the outer tracker's in front of it. */
  lemma GuardedSteps(w: World, inner: ContextId, outer: ContextId, n: NativeId)
    requires WrapsUnits(w, inner) && WrapsUnits(w, outer) && n < |w.natives| && w.natives[n].chain == []
    ensures var w3 := OnScheduleTask(OnScheduleTask(w, inner, n), outer, n); var e := |w.tasks|;
      && w3.natives == w.natives[n := w.natives[n].(chain := [e + 1, e])]
      && |w3.tasks| == e + 2
      && w3.tasks[e].unit == Guarded(inner, Finishing(e, w.natives[n].source == SetInterval, inner, Original))
      && w3.tasks[e + 1].unit == Guarded(outer, Finishing(e + 1, w.natives[n].source == SetInterval, outer, Original))
      && w3.tasks[e].eventMap == map[] && w3.tasks[e + 1].eventMap == map[]
  {
    var e := |w.tasks|;
    var w2 := OnScheduleTask(w, inner, n);
    GuardedHookStep(w, inner, n);
    assert WrapsUnits(w2, outer);
    GuardedHookStep(w2, outer, n);
    var w3 := OnScheduleTask(w2, outer, n);
    assert w3.tasks[e] == w2.tasks[e] by { assert w3.tasks[..e + 1][e] == w2.tasks[e]; }
    assert [e + 1] + ([e] + []) == [e + 1, e];
  }

  /** The hook of an UnhandledErrorTracker on native task `n`: one guarded task, with no listeners, in front of the chain. */
  lemma GuardedHookStep(w: World, c: ContextId, n: NativeId)
    requires WrapsUnits(w, c) && n < |w.natives|
    ensures var w' := OnScheduleTask(w, c, n); var e := |w.tasks|;
      && Persists(w, w')
      && w'.natives == w.natives[n := w.natives[n].(chain := [e] + w.natives[n].chain)]
      && |w'.tasks| == e + 1 && w'.tasks[..e] == w.tasks
      && w'.tasks[e].unit == Guarded(c, Finishing(e, w.natives[n].source == SetInterval, c, Original))
      && w'.tasks[e].eventMap == map[]
      && w'.trace == w.trace + [ScheduleCalled(c, e)]
  {
  }

  /** Inside `outer.run(() => inner.run(...))` outside any other execution zone, the frames have that shape. */
  lemma InsideTwoRuns(w: World, inner: ContextId, outer: ContextId)
    requires Hooks(w.frames) == 0
    ensures var f := Enter(Enter(w, outer), inner).frames;
      && |f| >= 2 && f[0] == ExecutionZone(inner) && f[1] == ContextZone(inner)
      && DirectlyInside(f[2..], outer)
  {
    assert Enter(Enter(w, outer), inner).frames[2..] == Enter(w, outer).frames;
    assert Enter(w, outer).frames[2..] == w.frames;
  }

  /**
   * Firing such a `setTimeout` task whose callback throws `x`: the inner guard
   * reports `x` and returns normally, so the outer guard has nothing to report;
   * 'finish' is emitted on the inner task, then the inner tracker's 'error'
   * handlers are called, then 'finish' is emitted on the outer task.
   */
  lemma NestedGuardsReportOnce(w: World, n: NativeId, e: TaskId, inner: ContextId, outer: ContextId, x: Value)
    requires n < |w.natives| && w.natives[n].state == Scheduled && w.natives[n].chain == [e + 1, e]
    requires w.natives[n].source == SetTimeout && w.natives[n].callback == Throw(x)
    requires e + 1 < |w.tasks|
    requires w.tasks[e].unit == Guarded(inner, Finishing(e, false, inner, Original))
    requires w.tasks[e + 1].unit == Guarded(outer, Finishing(e + 1, false, outer, Original))
    requires Listeners(w.tasks[e].eventMap, "finish") == [] && Listeners(w.tasks[e + 1].eventMap, "finish") == []
    ensures var f := Fire(w, n);
      && f.out == Returned(Undefined)
      && f.world.trace
         == w.trace + [TaskEmitted(e, "finish")] + Emitted(w.contexts, inner, "error", [x]) + [TaskEmitted(e + 1, "finish")]
      && f.world.natives[n].state == Completed
  {
    var native := w.natives[n];
    var chain := [e + 1, e];
    var w1 := w.(frames := native.zone, natives := w.natives[n := native.(state := Running)]);
    assert ExecChain(w1, Throw(x), chain, 2) == Exec(w1, Threw(x));
    FinishingRuns(w1, Finishing(e, false, inner, Original), Throw(x), chain, 1);
    EmitUnheard(w1, e, "finish");
    var g := EmitContext(EmitTask(w1, e, "finish"), inner, "error", [x]);
    assert ExecChain(w1, Throw(x), chain, 1) == Exec(g, Returned(Undefined));
    FinishingRuns(w1, Finishing(e + 1, false, outer, Original), Throw(x), chain, 0);
    EmitUnheard(g, e + 1, "finish");
    var h := g.(trace := g.trace + [TaskEmitted(e + 1, "finish")]);
    assert ExecUnit(w1, Finishing(e + 1, false, outer, Original), Native(Throw(x), chain, 0)) == Exec(h, Returned(Undefined));
    assert ExecChain(w1, Throw(x), chain, 0) == Exec(h, Returned(Undefined));
  }

  /**
   * `tracker.run(() => setTimeout(() => { throw x; }))` outside any other
   * execution zone: `run` returns undefined, and the timer is left pending with
   * the one guarded task the tracker's hook made.
   */
  lemma TimeoutInErrorTracker(w: World, c: ContextId, x: Value)
    requires WrapsUnits(w, c) && Hooks(w.frames) == 0
    ensures var r := RunContext(w, c, Defer(SetTimeout, Throw(x))); var n := |w.natives|; var e := |w.tasks| + 1;
      && r.out == Returned(Undefined)
      && Emitted(r.world.contexts, c, "error", [x]) == Emitted(w.contexts, c, "error", [x])
      && n < |r.world.natives| && r.world.natives[n].state == Scheduled && r.world.natives[n].chain == [e]
      && r.world.natives[n].source == SetTimeout && r.world.natives[n].callback == Throw(x)
      && e < |r.world.tasks| && r.world.tasks[e].unit == Guarded(c, Finishing(e, false, c, Original))
      && Listeners(r.world.tasks[e].eventMap, "finish") == []
  {
    var w1 := Enter(w, c);
    EnterErrorTracker(w, c);
    GuardedRunDeferSteps(w, c, SetTimeout, Throw(x));
    assert w1.frames[2..] == w.frames;
    GuardedDeferThenFinish(w1, c, |w.tasks|, x);
  }

  /** `run` on an UnhandledErrorTracker around a deferral, step by step. */
  lemma GuardedRunDeferSteps(w: World, c: ContextId, src: Source, cb: Body)
    requires WrapsUnits(w, c)
    ensures var u := ScheduleNative(Enter(w, c), src, cb);
      RunContext(w, c, Defer(src, cb))
      == Exec(EmitTask(u.world, |w.tasks|, "finish").(frames := w.frames), Returned(Undefined))
  {
    GuardedRunSteps(w, c, Defer(src, cb));
    DeferStep(Enter(w, c), src, cb);
  }

  /** The middle of that `run`: the deferral directly inside the tracker, then 'finish' on the sync task `t`. */
  lemma GuardedDeferThenFinish(w: World, c: ContextId, t: TaskId, x: Value)
    requires WrapsUnits(w, c) && DirectlyInside(w.frames, c)
    requires t < |w.tasks| && Listeners(w.tasks[t].eventMap, "finish") == []
    ensures var u := ScheduleNative(w, SetTimeout, Throw(x)); var g := EmitTask(u.world, t, "finish");
      var n := |w.natives|; var e := |w.tasks|;
      && Emitted(g.contexts, c, "error", [x]) == Emitted(w.contexts, c, "error", [x])
      && n < |g.natives| && g.natives[n].state == Scheduled && g.natives[n].chain == [e]
      && g.natives[n].source == SetTimeout && g.natives[n].callback == Throw(x)
      && e < |g.tasks| && g.tasks[e].unit == Guarded(c, Finishing(e, false, c, Original))
      && Listeners(g.tasks[e].eventMap, "finish") == []
  {
    DeferGuarded(w, c, SetTimeout, Throw(x));
    var u := ScheduleNative(w, SetTimeout, Throw(x));
    assert u.world.tasks[t] == w.tasks[t];
    EmitUnheard(u.world, t, "finish");
  }

  /**
   * The error thrown by that timer's callback reaches the tracker's 'error'
   * handlers when the timer fires, after 'finish' on the timer's task, and the
   * firing itself returns normally.
   */
  lemma ForwardsDeferredError(w: World, c: ContextId, x: Value)
    requires WrapsUnits(w, c) && Hooks(w.frames) == 0
    ensures var r := RunContext(w, c, Defer(SetTimeout, Throw(x)));
      var f := Fire(r.world, |w.natives|);
      && r.out == Returned(Undefined)
      && f.out == Returned(Undefined)
      && f.world.trace
         == r.world.trace + [TaskEmitted(|w.tasks| + 1, "finish")] + Emitted(w.contexts, c, "error", [x])
  {
    var r := RunContext(w, c, Defer(SetTimeout, Throw(x)));
    TimeoutInErrorTracker(w, c, x);
    GuardedTimeoutReports(r.world, |w.natives|, |w.tasks| + 1, c, x);
  }
}
