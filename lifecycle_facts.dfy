/**
 * When a LifeCycleTracker emits 'stable': its counter goes up once per task
 * scheduled directly inside its `run`, down once per 'cancel' or 'finish' on
 * such a task, and 'stable' is emitted on the decrement that reaches zero.
 */
module LifeCycleFacts {
  import opened Wrappers
  import opened Channel
  import opened Tasks
  import opened Runtime
  import opened Engine
  import opened EngineFacts
  import opened FiringFacts
  import LifeCycleTracker

  /** An enabled LifeCycleTracker (or an instance of a subclass of it). */
  predicate Tracking(w: World, c: ContextId)
  {
    c < |w.contexts| && BuiltIn(w.contexts[c].cls) == LifeCycleTrackerClass && w.contexts[c].enabled
  }

  /** What the tracker's 'stable' handlers see when it emits. */
  function StableCalls(w: World, c: ContextId): seq<Event>
  {
    Emitted(w.contexts, c, "stable", [])
  }

  /** `new LifeCycleTracker(enabled)`: enabled unless told otherwise, counter at zero, nothing registered. */
  function NewTracker(enabled: bool := true): (ctx: Context)
    ensures ctx.cls == LifeCycleTrackerClass && ctx.enabled == enabled && ctx.counter == 0
    ensures ctx.eventMap == map[] && ctx.taskMap == map[]
  {
    Context(LifeCycleTrackerClass, enabled, map[], map[], 0, map[])
  }

  /** A tracker disabled at construction never counts anything it is asked to schedule. */
  lemma DisabledNeverCounts(w: World, c: ContextId, t: TaskId)
    requires c < |w.contexts| && !w.contexts[c].enabled
    ensures LifeCycleTracker.Schedule(w, c, t) == w
  {
  }

  /**
   * The decrement closure: the counter drops by one with no clamping at zero, and
   * 'stable' is emitted exactly when the new value is zero.
   */
  lemma StableExactlyAtZero(w: World, c: ContextId)
    requires c < |w.contexts|
    ensures var w' := DecrementCounter(w, c);
      && w'.contexts[c].counter == w.contexts[c].counter - 1
      && (w'.trace != w.trace ==> w'.contexts[c].counter == 0)
      && (w'.contexts[c].counter == 0 ==> w'.trace == w.trace + StableCalls(w, c))
  {
  }

  /**
   * Entering an enabled tracker's `run` counts the sync task: the counter goes
   * up by one and the decrement is registered for both 'cancel' and 'finish'.
   */
  lemma EnterCounts(w: World, c: ContextId)
    requires Tracking(w, c)
    ensures var w' := Enter(w, c); var t := |w.tasks|;
      && w'.contexts == w.contexts[c := w.contexts[c].(counter := w.contexts[c].counter + 1)]
      && w'.tasks[t].unit == Original
      && Listeners(w'.tasks[t].eventMap, "finish") == [Decrement(c)]
      && Listeners(w'.tasks[t].eventMap, "cancel") == [Decrement(c)]
  {
    var w1 := w.(frames := [ContextZone(c)] + w.frames, trace := w.trace + [Entered(c)]);
    var t := |w.tasks|;
    var task := NewTask(Original, Sync, StackOf(w1.frames, w1.contexts, ExecutionContextClass));
    var w2 := w1.(tasks := w1.tasks + [task]);
    var w3 := w2.(trace := w2.trace + [ScheduleCalled(c, t)]);
    assert ([ContextZone(c)] + w.frames)[1..] == w.frames;
    assert StackOf(w3.frames, w3.contexts, LifeCycleTrackerClass)[0] == c;
    assert LifeCycleTracker.Counts(w3, c);
  }

  /** Emitting an event whose only listener is the decrement of tracker `c`. */
  lemma EmitSingleDecrement(w: World, t: TaskId, name: string, c: ContextId)
    requires t < |w.tasks| && Listeners(w.tasks[t].eventMap, name) == [Decrement(c)]
    ensures EmitTask(w, t, name) == DecrementCounter(w.(trace := w.trace + [TaskEmitted(t, name)]), c)
  {
    var w1 := w.(trace := w.trace + [TaskEmitted(t, name)]);
    assert [Decrement(c)][1..] == [];
    assert PerformAll(w1, t, name, [Decrement(c)]) == PerformAll(Perform(w1, t, name, Decrement(c)), t, name, []);
  }

  /** A flat body run where tracker `c` has counted one task, then 'finish' on that task. */
  lemma FlatBodyThenFinish(w: World, c: ContextId, t: TaskId, b: Body)
    requires c < |w.contexts| && w.contexts[c].counter == 1 && Flat(b)
    requires t < |w.tasks| && Listeners(w.tasks[t].eventMap, "finish") == [Decrement(c)]
    ensures var u := ExecBody(w, b); var w' := EmitTask(u.world, t, "finish");
      && u.out == FlatOutcome(b)
      && w'.contexts[c].counter == 0
      && w'.trace == w.trace + FlatTrace(b) + [TaskEmitted(t, "finish")] + StableCalls(w, c)
  {
    FlatBodyEffect(w, b);
    var u := ExecBody(w, b);
    EmitSingleDecrement(u.world, t, "finish", c);
  }

  /**
   * A body with no deferred work: 'stable' has not fired while the body runs
   * (its marks come before it), and has fired by the time `run` returns.
   */
  lemma SyncRunBecomesStable(w: World, c: ContextId, b: Body)
    requires Tracking(w, c) && w.contexts[c].counter == 0 && Flat(b)
    ensures var r := RunContext(w, c, b); var t := |w.tasks|;
      && r.out == FlatOutcome(b)
      && r.world.contexts[c].counter == 0
      && r.world.trace
         == w.trace + [Entered(c), ScheduleCalled(c, t)] + FlatTrace(b) + [TaskEmitted(t, "finish")] + StableCalls(w, c)
  {
    var w1 := Enter(w, c);
    EnterCounts(w, c);
    RunSteps(w, c, b);
    FlatBodyThenFinish(w1, c, |w.tasks|, b);
    assert StableCalls(w1, c) == StableCalls(w, c);
  }

  /**
   * The hook of tracker `c` on a deferral made where `c` is the current tracker:
   * the new task wraps the native callback, is remembered, finishes through the
   * finishing wrapper, and is counted.
   */
  lemma OnScheduleCounted(w: World, c: ContextId, n: NativeId)
    requires Tracking(w, c) && n < |w.natives| && Current(w, LifeCycleTrackerClass) == Some(c)
    ensures var w' := OnScheduleTask(w, c, n); var e := |w.tasks|; var native := w.natives[n];
      && w'.frames == w.frames
      && w'.natives == w.natives[n := native.(chain := [e] + native.chain)]
      && |w'.tasks| == e + 1 && w'.tasks[..e] == w.tasks
      && w'.tasks[e].unit == Finishing(e, native.source == SetInterval, c, Original)
      && !w'.tasks[e].cancelled && w'.tasks[e].runCount == 0
      && Listeners(w'.tasks[e].eventMap, "finish") == [Decrement(c)]
      && Listeners(w'.tasks[e].eventMap, "cancel") == [Decrement(c)]
      && w'.contexts == w.contexts[c := w.contexts[c].(counter := w.contexts[c].counter + 1,
                                                     taskMap := w.contexts[c].taskMap[n := e])]
      && w'.trace == w.trace + [ScheduleCalled(c, e)]
  {
    var e := |w.tasks|;
    var native := w.natives[n];
    var etask := NewTask(Original, KindOf(native.source), StackOf(w.frames, w.contexts, ExecutionContextClass));
    var w1 := w.(tasks := w.tasks + [etask], natives := w.natives[n := native.(chain := [e] + native.chain)]);
    var w2 := w1.(contexts := w1.contexts[c := w1.contexts[c].(taskMap := w1.contexts[c].taskMap[n := e])]);
    var w3 := SetTask(w2, e, w2.tasks[e].(unit := Finishing(e, native.source == SetInterval, c, w2.tasks[e].unit)));
    assert OnScheduleTask(w, c, n) == ScheduleHook(w3, c, e);
    StackOfSameClasses(w.frames, w.contexts, w3.contexts, LifeCycleTrackerClass);
    CountingHookStep(w3, c, e);
  }

  /** The `schedule` of an enabled tracker that is the current one, on a task with no listeners yet. */
  lemma CountingHookStep(w: World, c: ContextId, e: TaskId)
    requires c < |w.contexts| && e < |w.tasks| && BuiltIn(w.contexts[c].cls) == LifeCycleTrackerClass
    requires w.contexts[c].enabled && Current(w, LifeCycleTrackerClass) == Some(c)
    requires w.tasks[e].eventMap == map[]
    ensures var w' := ScheduleHook(w, c, e);
      && w'.frames == w.frames && w'.natives == w.natives
      && w'.tasks == w.tasks[e := w.tasks[e].(eventMap := w'.tasks[e].eventMap)]
      && Listeners(w'.tasks[e].eventMap, "finish") == [Decrement(c)]
      && Listeners(w'.tasks[e].eventMap, "cancel") == [Decrement(c)]
      && w'.contexts == w.contexts[c := w.contexts[c].(counter := w.contexts[c].counter + 1)]
      && w'.trace == w.trace + [ScheduleCalled(c, e)]
  {
    assert LifeCycleTracker.Counts(w.(trace := w.trace + [ScheduleCalled(c, e)]), c);
  }

  /**
   * A deferral made directly inside an enabled tracker's `run`: one native task,
   * one new task counted by the tracker with the decrement registered for
   * 'cancel' and 'finish', and one `schedule` call.
   */
  lemma DeferCounted(w: World, c: ContextId, src: Source, cb: Body)
    requires Tracking(w, c) && DirectlyInside(w.frames, c)
    ensures var r := ScheduleNative(w, src, cb); var n := |w.natives|; var e := |w.tasks|;
      && r.out == Returned(Num(n))
      && r.world.frames == w.frames
      && r.world.natives == w.natives + [NativeTask(src, cb, [e], w.frames, Scheduled)]
      && |r.world.tasks| == e + 1 && r.world.tasks[..e] == w.tasks
      && r.world.tasks[e].unit == Finishing(e, src == SetInterval, c, Original)
      && !r.world.tasks[e].cancelled && r.world.tasks[e].runCount == 0
      && Listeners(r.world.tasks[e].eventMap, "finish") == [Decrement(c)]
      && Listeners(r.world.tasks[e].eventMap, "cancel") == [Decrement(c)]
      && r.world.contexts == w.contexts[c := w.contexts[c].(counter := w.contexts[c].counter + 1,
                                                          taskMap := w.contexts[c].taskMap[n := e])]
      && r.world.trace == w.trace + [ScheduleCalled(c, e)]
  {
    var n := |w.natives|;
    var w1 := w.(natives := w.natives + [NativeTask(src, cb, [], w.frames, Scheduled)]);
    assert w.frames[1..][1..] == w.frames[2..];
    assert IsA(w.contexts[c].cls, LifeCycleTrackerClass);
    var below := StackOf(w.frames[2..], w.contexts, LifeCycleTrackerClass);
    assert StackOf(w.frames[1..], w.contexts, LifeCycleTrackerClass) == [c] + below;
    assert StackOf(w1.frames, w1.contexts, LifeCycleTrackerClass) == [c] + below;
    OnScheduleCounted(w1, c, n);
    var w2 := OnScheduleTask(w1, c, n);
    assert [|w.tasks|] + [] == [|w.tasks|];
    assert w2.natives == w.natives + [NativeTask(src, cb, [|w.tasks|], w.frames, Scheduled)];
    NoHooksNoChange(w2, w.frames[2..], n);
    assert ScheduleHooks(w1, w.frames, n) == w2;
  }

  /**
   * `tracker.run(() => setTimeout(cb))` outside any other execution zone: both
   * the sync task and the timer are counted, the sync task's 'finish' brings the
   * counter back to one only, and 'stable' has not been emitted when `run` returns.
   */
  lemma TimeoutKeepsUnstable(w: World, c: ContextId, cb: Body)
    requires Tracking(w, c) && w.contexts[c].counter == 0 && Hooks(w.frames) == 0
    ensures var r := RunContext(w, c, Defer(SetTimeout, cb)); var t := |w.tasks|; var n := |w.natives|;
      && r.out == Returned(Num(n))
      && r.world.contexts[c].counter == 1
      && r.world.trace == w.trace + [Entered(c), ScheduleCalled(c, t), ScheduleCalled(c, t + 1), TaskEmitted(t, "finish")]
      && StableCalls(r.world, c) == StableCalls(w, c)
  {
    var w1 := Enter(w, c);
    var t := |w.tasks|;
    EnteredTracker(w, c);
    RunDeferSteps(w, c, SetTimeout, cb);
    DeferThenFinish(w1, c, t, cb);
    TraceAfterTwo(w.trace, w1.trace, Entered(c), ScheduleCalled(c, t), ScheduleCalled(c, t + 1), TaskEmitted(t, "finish"));
  }

  /** Where that timer waits: pending under the tracker, in the frames of the `run`, as the only new native task, after the two new tasks. */
  lemma TimeoutPlacedInRun(w: World, c: ContextId, cb: Body)
    requires Tracking(w, c) && w.contexts[c].counter == 0 && Hooks(w.frames) == 0
    ensures var r := RunContext(w, c, Defer(SetTimeout, cb)); var n := |w.natives|; var t := |w.tasks|;
      && PendingUnderOne(r.world, n, t + 1, c)
      && r.world.natives[n].source == SetTimeout && r.world.natives[n].callback == cb
      && Listeners(r.world.tasks[t + 1].eventMap, "finish") == [Decrement(c)]
      && |r.world.natives| == n + 1 && |r.world.tasks| == t + 2
      && r.world.natives[n].zone == Enter(w, c).frames
  {
    var w1 := Enter(w, c);
    EnteredTracker(w, c);
    RunDeferSteps(w, c, SetTimeout, cb);
    DeferThenFinish(w1, c, |w.tasks|, cb);
    DeferThenFinishPlaced(w1, c, |w.tasks|, cb);
  }

  lemma TraceAfterTwo(t0: seq<Event>, t1: seq<Event>, a: Event, b: Event, x: Event, y: Event)
    requires t1 == t0 + [a, b]
    ensures t1 + [x, y] == t0 + [a, b, x, y]
  {
  }

  /** Inside the tracker's `run`, outside any other execution zone: what a deferral there starts from. */
  lemma EnteredTracker(w: World, c: ContextId)
    requires Tracking(w, c) && w.contexts[c].counter == 0 && Hooks(w.frames) == 0
    ensures var w1 := Enter(w, c); var t := |w.tasks|;
      && Tracking(w1, c) && DirectlyInside(w1.frames, c) && w1.contexts[c].counter == 1
      && t < |w1.tasks| && Listeners(w1.tasks[t].eventMap, "finish") == [Decrement(c)]
  {
    EnterCounts(w, c);
    DirectlyInsideRun(w, c);
  }

  /** Inside `run`, outside any other execution zone, a deferral meets only the context's own hooks. */
  lemma DirectlyInsideRun(w: World, c: ContextId)
    requires Hooks(w.frames) == 0
    ensures DirectlyInside(Enter(w, c).frames, c)
  {
    assert Enter(w, c).frames[2..] == w.frames;
  }

  /** The middle of that `run`: the deferral inside it, then 'finish' on the sync task `t`. */
  lemma DeferThenFinish(w: World, c: ContextId, t: TaskId, cb: Body)
    requires Tracking(w, c) && DirectlyInside(w.frames, c) && w.contexts[c].counter == 1
    requires t < |w.tasks| && Listeners(w.tasks[t].eventMap, "finish") == [Decrement(c)]
    ensures var u := ScheduleNative(w, SetTimeout, cb); var w' := EmitTask(u.world, t, "finish");
      var e := |w.tasks|; var n := |w.natives|;
      && u.out == Returned(Num(n))
      && w'.contexts[c].counter == 1
      && w'.trace == w.trace + [ScheduleCalled(c, e), TaskEmitted(t, "finish")]
      && PendingUnderOne(w', n, e, c)
      && w'.natives[n].source == SetTimeout && w'.natives[n].callback == cb
      && Listeners(w'.tasks[e].eventMap, "finish") == [Decrement(c)]
      && StableCalls(w', c) == StableCalls(w, c)
  {
    DeferCounted(w, c, SetTimeout, cb);
    var u := ScheduleNative(w, SetTimeout, cb);
    assert u.world.tasks[t] == w.tasks[t];
    EmitSingleDecrement(u.world, t, "finish", c);
  }

  /** Where that deferral leaves the timer: the only new native task, waiting in the frames it was made in. */
  lemma DeferThenFinishPlaced(w: World, c: ContextId, t: TaskId, cb: Body)
    requires Tracking(w, c) && DirectlyInside(w.frames, c)
    ensures var u := ScheduleNative(w, SetTimeout, cb); var w' := EmitTask(u.world, t, "finish");
      var n := |w.natives|;
      && w'.natives[n].zone == w.frames
      && |w'.natives| == n + 1 && |w'.tasks| == |w.tasks| + 1
  {
    DeferCounted(w, c, SetTimeout, cb);
  }

  /**
   * Firing that timer, with a callback that defers nothing: 'finish' on the
   * timer's task brings the counter to zero and 'stable' is emitted after
   * everything the callback did.
   */
  lemma TimeoutFiringStabilises(w: World, n: NativeId, e: TaskId, c: ContextId)
    requires PendingUnderOne(w, n, e, c) && w.natives[n].source == SetTimeout && Flat(w.natives[n].callback)
    requires c < |w.contexts| && w.contexts[c].counter == 1
    requires Listeners(w.tasks[e].eventMap, "finish") == [Decrement(c)]
    ensures var f := Fire(w, n); var cb := w.natives[n].callback;
      && f.out == FlatOutcome(cb)
      && f.world.contexts[c].counter == 0
      && f.world.trace == w.trace + FlatTrace(cb) + [TaskEmitted(e, "finish")] + StableCalls(w, c)
      && f.world.natives[n].state == Completed
  {
    var native := w.natives[n];
    var w1 := w.(frames := native.zone, natives := w.natives[n := native.(state := Running)]);
    FireSteps(w, n, e, c);
    FlatBodyThenFinish(w1, c, e, native.callback);
    FlatBodyEffect(w1, native.callback);
  }

  /**
   * Firing a timer whose callback clears that same timer: the clear is ignored,
   * so there is no 'cancel' and no second decrement. 'finish' brings the counter
   * to zero and 'stable' is emitted once, after it.
   */
  lemma SelfClearingTimeoutStabilises(w: World, n: NativeId, e: TaskId, c: ContextId)
    requires PendingUnderOne(w, n, e, c) && w.natives[n].source == SetTimeout && w.natives[n].callback == Clear(n)
    requires c < |w.contexts| && w.contexts[c].counter == 1
    requires Listeners(w.tasks[e].eventMap, "finish") == [Decrement(c)]
    ensures var f := Fire(w, n);
      && f.out == Returned(Undefined)
      && f.world.contexts[c].counter == 0
      && f.world.trace == w.trace + [TaskEmitted(e, "finish")] + StableCalls(w, c)
      && f.world.tasks[e].cancelled == w.tasks[e].cancelled
      && f.world.natives[n].state == Completed
  {
    SelfClearingTimeoutIgnored(w, n, e, c);
    EmitSingleDecrement(w, e, "finish", c);
  }

  /**
   * Firing a timer deferred directly inside the tracker's `run` whose callback
   * defers another timer: the new timer is counted before the firing's 'finish'
   * is decremented, so the counter stays at one, 'stable' is not emitted, and
   * the new timer is pending under the tracker in the same way.
   */
  lemma TimeoutFromTimeoutKeepsUnstable(w: World, n: NativeId, e: TaskId, c: ContextId, cb: Body)
    requires PendingUnderOne(w, n, e, c) && w.natives[n].source == SetTimeout
    requires w.natives[n].callback == Defer(SetTimeout, cb) && DirectlyInside(w.natives[n].zone, c)
    requires Tracking(w, c) && w.contexts[c].counter == 1
    requires Listeners(w.tasks[e].eventMap, "finish") == [Decrement(c)]
    ensures var f := Fire(w, n); var m := |w.natives|;
      && f.out == Returned(Num(m))
      && f.world.contexts[c].counter == 1
      && f.world.trace == w.trace + [ScheduleCalled(c, |w.tasks|), TaskEmitted(e, "finish")]
      && f.world.natives[n].state == Completed
      && PendingUnderOne(f.world, m, |w.tasks|, c)
      && f.world.natives[m].source == SetTimeout && f.world.natives[m].callback == cb
      && f.world.natives[m].zone == w.natives[n].zone
      && Listeners(f.world.tasks[|w.tasks|].eventMap, "finish") == [Decrement(c)]
      && StableCalls(f.world, c) == StableCalls(w, c)
  {
    var native := w.natives[n];
    var w1 := w.(frames := native.zone, natives := w.natives[n := native.(state := Running)]);
    FireSteps(w, n, e, c);
    DeferStep(w1, SetTimeout, cb);
    DeferThenFinish(w1, c, e, cb);
    DeferCounted(w1, c, SetTimeout, cb);
  }

  /**
   * The whole simple timeout scenario: not stable after `run`, stable once the
   * timer has fired, never stable in between.
   */
  lemma SimpleTimeoutScenario(w: World, c: ContextId, cb: Body)
    requires Tracking(w, c) && w.contexts[c].counter == 0 && Hooks(w.frames) == 0 && Flat(cb)
    ensures var r := RunContext(w, c, Defer(SetTimeout, cb)); var t := |w.tasks|;
      var f := Fire(r.world, |w.natives|);
      && r.world.contexts[c].counter == 1
      && f.world.contexts[c].counter == 0
      && f.world.trace
         == w.trace + [Entered(c), ScheduleCalled(c, t), ScheduleCalled(c, t + 1), TaskEmitted(t, "finish")]
            + FlatTrace(cb) + [TaskEmitted(t + 1, "finish")] + StableCalls(w, c)
  {
    var r := RunContext(w, c, Defer(SetTimeout, cb));
    TimeoutKeepsUnstable(w, c, cb);
    TimeoutPlacedInRun(w, c, cb);
    TimeoutFiringStabilises(r.world, |w.natives|, |w.tasks| + 1, c);
  }

  /**
   * The two firings of `setTimeout(() => setTimeout(cb))` deferred directly
   * inside the tracker's `run`, with the sync task already finished: the outer
   * timer leaves the counter at one, the inner one brings it to zero and
   * 'stable' is emitted last.
   */
  lemma TwoFirings(r: World, n: NativeId, e: TaskId, c: ContextId, cb: Body)
    requires PendingUnderOne(r, n, e, c) && r.natives[n].source == SetTimeout
    requires r.natives[n].callback == Defer(SetTimeout, cb) && DirectlyInside(r.natives[n].zone, c)
    requires Tracking(r, c) && r.contexts[c].counter == 1 && Flat(cb)
    requires Listeners(r.tasks[e].eventMap, "finish") == [Decrement(c)]
    ensures var f1 := Fire(r, n); var f2 := Fire(f1.world, |r.natives|);
      && f1.world.contexts[c].counter == 1
      && f2.world.contexts[c].counter == 0
      && f1.world.trace == r.trace + [ScheduleCalled(c, |r.tasks|), TaskEmitted(e, "finish")]
      && f2.world.trace == f1.world.trace + FlatTrace(cb) + [TaskEmitted(|r.tasks|, "finish")] + StableCalls(r, c)
  {
    TimeoutFromTimeoutKeepsUnstable(r, n, e, c, cb);
    var f1 := Fire(r, n);
    TimeoutFiringStabilises(f1.world, |r.natives|, |r.tasks|, c);
  }

  /**
   * `tracker.run(() => setTimeout(() => setTimeout(cb)))` with a callback `cb`
   * that defers nothing: the counter is one after `run` and still one after the
   * outer timer fires, and reaches zero, with 'stable' emitted, only when the
   * inner timer has fired.
   */
  lemma NestedTimeoutScenario(w: World, c: ContextId, cb: Body)
    requires Tracking(w, c) && w.contexts[c].counter == 0 && Hooks(w.frames) == 0 && Flat(cb)
    ensures var r := RunContext(w, c, Defer(SetTimeout, Defer(SetTimeout, cb)));
      var f1 := Fire(r.world, |w.natives|);
      var f2 := Fire(f1.world, |w.natives| + 1);
      var t := |w.tasks|;
      && r.world.contexts[c].counter == 1
      && f1.world.contexts[c].counter == 1
      && f2.world.contexts[c].counter == 0
      && f1.world.trace == r.world.trace + [ScheduleCalled(c, t + 2), TaskEmitted(t + 1, "finish")]
      && f2.world.trace == f1.world.trace + FlatTrace(cb) + [TaskEmitted(t + 2, "finish")] + StableCalls(w, c)
  {
    var r := RunContext(w, c, Defer(SetTimeout, Defer(SetTimeout, cb)));
    TimeoutKeepsUnstable(w, c, Defer(SetTimeout, cb));
    TimeoutPlacedInRun(w, c, Defer(SetTimeout, cb));
    DirectlyInsideRun(w, c);
    TwoFirings(r.world, |w.natives|, |w.tasks| + 1, c, cb);
  }

  /**
   * No clamping: a counted task that is cancelled and then finishes decrements
   * twice, so a counter at one ends at minus one, with 'stable' emitted once, at the cancel.
   */
  lemma CancelThenFinishDecrementsTwice(w: World, t: TaskId, c: ContextId)
    requires t < |w.tasks| && c < |w.contexts| && w.contexts[c].counter == 1
    requires Listeners(w.tasks[t].eventMap, "cancel") == [Decrement(c)]
    requires Listeners(w.tasks[t].eventMap, "finish") == [Decrement(c)]
    ensures var w' := EmitTask(EmitTask(w, t, "cancel"), t, "finish");
      && w'.contexts[c].counter == -1
      && w'.trace == w.trace + [TaskEmitted(t, "cancel")] + StableCalls(w, c) + [TaskEmitted(t, "finish")]
  {
    EmitSingleDecrement(w, t, "cancel", c);
    EmitSingleDecrement(EmitTask(w, t, "cancel"), t, "finish", c);
  }
}
