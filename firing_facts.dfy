/**
 * What the hooks of execution-context.ts:68-107 promise about deferred work:
 * every enclosing context's `schedule` is called once per deferral, each firing
 * emits 'finish' on the task, a `setInterval` task is scheduled again after
 * each firing unless it was cancelled, and cancelling marks the task and emits 'cancel'.
 */
module FiringFacts {
  import opened Wrappers
  import opened Channel
  import opened Tasks
  import opened Runtime
  import opened Engine
  import opened EngineFacts

  /** Frames without execution zones run no hooks. */
  lemma {:induction false} NoHooksNoChange(w: World, zone: seq<Frame>, n: NativeId)
    requires Hooks(zone) == 0
    ensures ScheduleHooks(w, zone, n) == w
    decreases |zone|
  {
    if zone != [] {
      NoHooksNoChange(w, zone[1..], n);
    }
  }

  /** Directly inside `c.run`, the walk meets `c`'s hook and no other. */
  lemma DirectHookOnly(w: World, zone: seq<Frame>, c: ContextId, n: NativeId)
    requires DirectlyInside(zone, c)
    ensures ScheduleHooks(w, zone, n) == OnScheduleTask(w, c, n)
  {
    assert zone[1..][1..] == zone[2..];
    NoHooksNoChange(OnScheduleTask(w, c, n), zone[2..], n);
  }

  /** Directly inside `inner.run`, itself directly inside `outer.run`: the walk meets `inner`'s hook, then `outer`'s. */
  lemma TwoHooksOnly(w: World, zone: seq<Frame>, inner: ContextId, outer: ContextId, n: NativeId)
    requires |zone| >= 2 && zone[0] == ExecutionZone(inner) && zone[1] == ContextZone(inner)
    requires DirectlyInside(zone[2..], outer)
    ensures ScheduleHooks(w, zone, n) == OnScheduleTask(OnScheduleTask(w, inner, n), outer, n)
  {
    assert zone[1..][1..] == zone[2..];
    DirectHookOnly(OnScheduleTask(w, inner, n), zone[2..], outer, n);
  }

  /** A deferral made in `zone` calls `schedule` once per execution zone of `zone`, and enters no context. */
  lemma {:induction false} HooksScheduleOnceEach(w: World, zone: seq<Frame>, n: NativeId)
    requires n < |w.natives|
    ensures ScheduleCount(ScheduleHooks(w, zone, n).trace) == ScheduleCount(w.trace) + Hooks(zone)
    ensures Entries(ScheduleHooks(w, zone, n).trace) == Entries(w.trace)
    decreases |zone|
  {
    if zone != [] {
      match zone[0].hooksOf
      case Some(c) =>
        var w1 := OnScheduleTask(w, c, n);
        EntriesAppend(w.trace, [ScheduleCalled(c, |w.tasks|)]);
        HooksScheduleOnceEach(w1, zone[1..], n);
      case None =>
        HooksScheduleOnceEach(w, zone[1..], n);
    }
  }

  /** A body that defers work but enters and cancels nothing. */
  predicate Straight(b: Body)
  {
    match b
    case Run(_, _) => false
    case Clear(_) => false
    case Seq(first, second) => Straight(first) && Straight(second)
    case _ => true
  }

  /** Whether a straight body throws. */
  predicate Throws(b: Body)
    requires Straight(b)
  {
    match b
    case Throw(_) => true
    case Seq(first, second) => Throws(first) || Throws(second)
    case _ => false
  }

  /** The deferrals a straight body makes before it throws, if it does. */
  function Deferrals(b: Body): nat
    requires Straight(b)
  {
    match b
    case Defer(_, _) => 1
    case Seq(first, second) => Deferrals(first) + (if Throws(first) then 0 else Deferrals(second))
    case _ => 0
  }

  /** A deferral calls `schedule` once per execution zone it is made in, and returns the native task's handle. */
  lemma DeferScheduleCount(w: World, src: Source, cb: Body)
    ensures var r := ScheduleNative(w, src, cb);
      && r.out == Returned(Num(|w.natives|))
      && ScheduleCount(r.world.trace) == ScheduleCount(w.trace) + Hooks(w.frames)
      && Entries(r.world.trace) == Entries(w.trace)
  {
    var w1 := w.(natives := w.natives + [NativeTask(src, cb, [], w.frames, Scheduled)]);
    HooksScheduleOnceEach(w1, w.frames, |w.natives|);
  }

  /** Running a straight body: one `schedule` call per deferral and enclosing execution zone. */
  lemma {:induction false} StraightScheduleCount(w: World, b: Body)
    requires Straight(b)
    ensures ExecBody(w, b).out.Threw? == Throws(b)
    ensures ScheduleCount(ExecBody(w, b).world.trace) == ScheduleCount(w.trace) + Deferrals(b) * Hooks(w.frames)
    ensures Entries(ExecBody(w, b).world.trace) == Entries(w.trace)
    decreases b
  {
    var h := Hooks(w.frames);
    match b
    case Mark(m) =>
      EntriesAppend(w.trace, [Marked(m)]);
      assert Deferrals(b) == 0 && 0 * h == 0;
    case Defer(src, cb) =>
      DeferScheduleCount(w, src, cb);
      assert Deferrals(b) == 1 && 1 * h == h;
    case Seq(first, second) =>
      StraightSeq(w, first, second);
    case _ =>
  }

  /** The step of `StraightScheduleCount` for `Seq`: the counts of the two parts add up. */
  lemma {:induction false} StraightSeq(w: World, first: Body, second: Body)
    requires Straight(first) && Straight(second)
    ensures var b := Seq(first, second);
      && ExecBody(w, b).out.Threw? == Throws(b)
      && ScheduleCount(ExecBody(w, b).world.trace) == ScheduleCount(w.trace) + Deferrals(b) * Hooks(w.frames)
      && Entries(ExecBody(w, b).world.trace) == Entries(w.trace)
    decreases Seq(first, second), 0
  {
    var h := Hooks(w.frames);
    StraightScheduleCount(w, first);
    var r := ExecBody(w, first);
    if !Throws(first) {
      assert ExecBody(w, Seq(first, second)) == ExecBody(r.world, second);
      assert Hooks(r.world.frames) == h;
      StraightScheduleCount(r.world, second);
      var d1, d2 := Deferrals(first), Deferrals(second);
      assert Deferrals(Seq(first, second)) == d1 + d2;
      CountsAdd(ScheduleCount(w.trace), ScheduleCount(r.world.trace),
                ScheduleCount(ExecBody(r.world, second).world.trace), d1, d2, h);
    } else {
      assert ExecBody(w, Seq(first, second)) == r;
      assert Deferrals(Seq(first, second)) == Deferrals(first);
    }
  }

  /** `d1` deferrals and then `d2` more, each meeting `h` hooks, call `schedule` `(d1 + d2) * h` times. */
  lemma CountsAdd(before: int, middle: int, after: int, d1: int, d2: int, h: int)
    requires middle == before + d1 * h && after == middle + d2 * h
    ensures after == before + (d1 + d2) * h
  {
  }

  /** The guard of an UnhandledErrorTracker only adds notifications to what the unit it wraps does. */
  lemma GuardIsQuiet(w: World, c: ContextId, inner: Unit, core: Core)
    ensures var g := ExecUnit(w, Guarded(c, inner), core); var r := ExecUnit(w, inner, core);
      NoticesOnly(r.world.trace, g.world.trace)
  {
  }

  /** The sync task's unit calls the body, possibly inside the context's guard: the counts are the body's. */
  lemma SyncUnitCounts(w: World, c: ContextId, b: Body, u: Unit)
    requires u == Original || u == Guarded(c, Original)
    ensures ScheduleCount(ExecUnit(w, u, Direct(b)).world.trace) == ScheduleCount(ExecBody(w, b).world.trace)
    ensures Entries(ExecUnit(w, u, Direct(b)).world.trace) == Entries(ExecBody(w, b).world.trace)
  {
    if u != Original {
      GuardIsQuiet(w, c, Original, Direct(b));
      NoticesAreQuiet(ExecBody(w, b).world.trace, ExecUnit(w, u, Direct(b)).world.trace);
    }
  }

  /**
   * `run` calls `schedule` once for its sync task and, for each deferral in the
   * body, once per execution zone the deferral is made in: its own and the
   * enclosing ones. It enters exactly `c`.
   */
  lemma RunScheduleCount(w: World, c: ContextId, b: Body)
    requires Straight(b)
    ensures var r := RunContext(w, c, b);
      && ScheduleCount(r.world.trace) == ScheduleCount(w.trace) + 1 + Deferrals(b) * (1 + Hooks(w.frames))
      && Entries(r.world.trace) == Entries(w.trace) + [c]
  {
    var w1 := Enter(w, c);
    HooksInsideRun(w, c);
    StraightScheduleCount(w1, b);
    RunCounts(w, c, b, Deferrals(b) * Hooks(w1.frames));
  }

  /** Inside `run` there is one more execution zone. */
  lemma HooksInsideRun(w: World, c: ContextId)
    ensures Hooks(Enter(w, c).frames) == 1 + Hooks(w.frames)
  {
    var frames := Enter(w, c).frames;
    assert frames[1..] == [ContextZone(c)] + w.frames;
    assert frames[1..][1..] == w.frames;
  }

  /** `run` adds its own `schedule` call and entry to the `k` calls and no entries of the body inside it. */
  lemma RunCounts(w: World, c: ContextId, b: Body, k: int)
    requires ScheduleCount(ExecBody(Enter(w, c), b).world.trace) == ScheduleCount(Enter(w, c).trace) + k
    requires Entries(ExecBody(Enter(w, c), b).world.trace) == Entries(Enter(w, c).trace)
    ensures var r := RunContext(w, c, b);
      && ScheduleCount(r.world.trace) == ScheduleCount(w.trace) + 1 + k
      && Entries(r.world.trace) == Entries(w.trace) + [c]
  {
    var t := |w.tasks|;
    var w1 := Enter(w, c);
    EntriesAppend(w.trace, [Entered(c), ScheduleCalled(c, t)]);
    assert ScheduleCount(w1.trace) == ScheduleCount(w.trace) + 1;
    var u := ExecUnit(w1, w1.tasks[t].unit, Direct(b));
    SyncUnitCounts(w1, c, b, w1.tasks[t].unit);
    var w2 := EmitTask(u.world, t, "finish");
    NoticesAreQuiet(u.world.trace, w2.trace);
    assert RunContext(w, c, b).world.trace == w2.trace;
  }

  /** `schedule` may add listeners or wrap the unit, but never touches a task's flags. */
  lemma ScheduleKeepsFlags(w: World, c: ContextId, t: TaskId)
    ensures var w' := ScheduleHook(w, c, t);
      forall i :: 0 <= i < |w.tasks| ==>
        w'.tasks[i].cancelled == w.tasks[i].cancelled && w'.tasks[i].runCount == w.tasks[i].runCount
  {
  }

  /**
   * After every firing of a deferred task, 'finish' is emitted on it; a
   * `setInterval` task then counts the run and is scheduled again on the owner
   * unless it is cancelled by now.
   */
  lemma FinishEveryFiring(w: World, t: TaskId, recurring: bool, owner: ContextId)
    requires t < |w.tasks|
    ensures var w' := AfterFiring(w, t, recurring, owner);
      && |w'.trace| > |w.trace| && w'.trace[|w.trace|] == TaskEmitted(t, "finish")
      && w'.tasks[t].runCount == w.tasks[t].runCount + (if recurring then 1 else 0)
      && w'.tasks[t].cancelled == w.tasks[t].cancelled
      && ScheduleCount(w'.trace) == ScheduleCount(w.trace) + (if recurring && !w.tasks[t].cancelled then 1 else 0)
      && Entries(w'.trace) == Entries(w.trace)
  {
    var w1 := EmitTask(w, t, "finish");
    NoticesAreQuiet(w.trace, w1.trace);
    if recurring {
      var w2 := SetTask(w1, t, w1.tasks[t].(runCount := w1.tasks[t].runCount + 1));
      if !w2.tasks[t].cancelled {
        ScheduleKeepsFlags(w2, owner, t);
        EntriesAppend(w2.trace, [ScheduleCalled(owner, t)]);
      }
    }
  }

  /** The chain of a native task scheduled under one execution zone: the hook's task's unit around the callback. */
  lemma ChainOfOne(w: World, cb: Body, e: TaskId, recurring: bool, c: ContextId)
    requires e < |w.tasks| && w.tasks[e].unit == Finishing(e, recurring, c, Original)
    ensures var r := ExecBody(w, cb);
      ExecChain(w, cb, [e], 0) == Exec(AfterFiring(r.world, e, recurring, c), r.out)
  {
    assert ExecUnit(w, Original, Native(cb, [e], 0)) == ExecChain(w, cb, [e], 1);
  }

  /** A pending native task whose chain is the one task its context's hook made. */
  predicate PendingUnderOne(w: World, n: NativeId, e: TaskId, c: ContextId)
  {
    && n < |w.natives| && w.natives[n].state == Scheduled && w.natives[n].chain == [e]
    && e < |w.tasks| && w.tasks[e].unit == Finishing(e, w.natives[n].source == SetInterval, c, Original)
  }

  /** Firing such a task: the callback runs in the frames it was scheduled in, then the finishing step. */
  lemma FireSteps(w: World, n: NativeId, e: TaskId, c: ContextId)
    requires PendingUnderOne(w, n, e, c)
    ensures var native := w.natives[n];
      var w1 := w.(frames := native.zone, natives := w.natives[n := native.(state := Running)]);
      var r := ExecBody(w1, native.callback);
      var w2 := AfterFiring(r.world, e, native.source == SetInterval, c);
      var state := if w2.natives[n].state.Cancelled? then Cancelled
                   else if native.source == SetInterval then Scheduled else Completed;
      Fire(w, n) == Exec(w2.(frames := w.frames, natives := w2.natives[n := w2.natives[n].(state := state)]), r.out)
  {
    var native := w.natives[n];
    var w1 := w.(frames := native.zone, natives := w.natives[n := native.(state := Running)]);
    ChainOfOne(w1, native.callback, e, native.source == SetInterval, c);
  }

  /**
   * A `setInterval` task whose callback does not cancel it: after the firing it
   * is pending again, its run is counted, and `schedule` was called on it once more.
   */
  lemma IntervalReschedules(w: World, n: NativeId, e: TaskId, c: ContextId)
    requires PendingUnderOne(w, n, e, c) && w.natives[n].source == SetInterval
    requires !w.tasks[e].cancelled && Flat(w.natives[n].callback)
    ensures var f := Fire(w, n);
      && f.out == FlatOutcome(w.natives[n].callback)
      && f.world.frames == w.frames
      && f.world.natives[n].state == Scheduled
      && f.world.tasks[e].runCount == w.tasks[e].runCount + 1
      && ScheduleCount(f.world.trace) == ScheduleCount(w.trace) + 1
  {
    var native := w.natives[n];
    var w1 := w.(frames := native.zone, natives := w.natives[n := native.(state := Running)]);
    FireSteps(w, n, e, c);
    FlatBodyEffect(w1, native.callback);
    MarksAreQuiet(FlatTrace(native.callback));
    EntriesAppend(w1.trace, FlatTrace(native.callback));
    var r := ExecBody(w1, native.callback);
    FinishEveryFiring(r.world, e, true, c);
  }

  /** Cancelling through frames without execution zones: nothing to do, and nothing fails. */
  lemma {:induction false} CancelNoHooks(w: World, zone: seq<Frame>, n: NativeId)
    requires Hooks(zone) == 0
    ensures CancelHooks(w, zone, n) == Exec(w, Returned(Undefined))
    decreases |zone|
  {
    if zone != [] {
      CancelNoHooks(w, zone[1..], n);
    }
  }

  /** The zone of a task deferred directly inside `c.run`, with no execution zone further out. */
  predicate DirectlyInside(zone: seq<Frame>, c: ContextId)
  {
    |zone| >= 2 && zone[0] == ExecutionZone(c) && zone[1] == ContextZone(c) && Hooks(zone[2..]) == 0
  }

  /**
   * `clearTimeout`/`clearInterval` on a cancellable task deferred inside
   * `c.run`: the task `c`'s hook made is marked cancelled and 'cancel' is emitted
   * on it, before the host task itself is cancelled.
   */
  lemma CancelMarksTask(w: World, n: NativeId, c: ContextId)
    requires n < |w.natives| && Cancellable(w.natives[n])
    requires DirectlyInside(w.natives[n].zone, c)
    requires c < |w.contexts| && n in w.contexts[c].taskMap && w.contexts[c].taskMap[n] < |w.tasks|
    ensures var r := CancelNative(w, n); var e := w.contexts[c].taskMap[n];
      && r.out == Returned(Undefined)
      && r.world.tasks == w.tasks[e := w.tasks[e].(cancelled := true)]
      && |r.world.trace| > |w.trace| && r.world.trace[|w.trace|] == TaskEmitted(e, "cancel")
      && NoticesOnly(w.trace, r.world.trace)
      && r.world.natives[n].state == Cancelled
  {
    var zone := w.natives[n].zone;
    var e := w.contexts[c].taskMap[n];
    var w1 := SetTask(w, e, w.tasks[e].(cancelled := true));
    var w2 := EmitTask(w1, e, "cancel");
    assert zone[1..][1..] == zone[2..];
    CancelNoHooks(w2, zone[2..], n);
    assert CancelHooks(w, zone, n) == Exec(w2, Returned(Undefined));
  }

  /**
   * A `setInterval` task whose callback clears it: the firing cancels the task,
   * 'finish' still follows, the run is counted, and `schedule` is not called
   * again; the host task stays cancelled.
   */
  lemma SelfClearingIntervalStops(w: World, n: NativeId, e: TaskId, c: ContextId)
    requires PendingUnderOne(w, n, e, c) && w.natives[n].source == SetInterval
    requires w.natives[n].callback == Clear(n) && DirectlyInside(w.natives[n].zone, c)
    requires c < |w.contexts| && n in w.contexts[c].taskMap && w.contexts[c].taskMap[n] == e
    ensures var f := Fire(w, n);
      && f.out == Returned(Undefined)
      && f.world.frames == w.frames
      && f.world.natives[n].state == Cancelled
      && f.world.tasks[e].cancelled
      && f.world.tasks[e].runCount == w.tasks[e].runCount + 1
      && ScheduleCount(f.world.trace) == ScheduleCount(w.trace)
  {
    var native := w.natives[n];
    var w1 := w.(frames := native.zone, natives := w.natives[n := native.(state := Running)]);
    FireSteps(w, n, e, c);
    CancelMarksTask(w1, n, c);
    var r := ExecBody(w1, Clear(n));
    NoticesAreQuiet(w1.trace, r.world.trace);
    FinishEveryFiring(r.world, e, true, c);
  }

  /**
   * A `setTimeout` task whose callback clears it: the host has already taken
   * the timer off its list, so nothing is cancelled. No 'cancel' is emitted,
   * the hook's task is not marked, and the host task completes after 'finish'.
   */
  lemma SelfClearingTimeoutIgnored(w: World, n: NativeId, e: TaskId, c: ContextId)
    requires PendingUnderOne(w, n, e, c) && w.natives[n].source == SetTimeout
    requires w.natives[n].callback == Clear(n)
    ensures var f := Fire(w, n);
      && f.out == Returned(Undefined)
      && f.world.frames == w.frames
      && f.world.natives[n].state == Completed
      && f.world.tasks[e].cancelled == w.tasks[e].cancelled
      && f.world.trace == EmitTask(w, e, "finish").trace
      && f.world.contexts == EmitTask(w, e, "finish").contexts
  {
    var native := w.natives[n];
    var w1 := w.(frames := native.zone, natives := w.natives[n := native.(state := Running)]);
    FireSteps(w, n, e, c);
    assert ExecBody(w1, Clear(n)) == Exec(w1, Returned(Undefined));
    var finish := w.(trace := w.trace + [TaskEmitted(e, "finish")]);
    PerformAllIgnoresHost(finish, native.zone, w1.natives, e, "finish", Listeners(w.tasks[e].eventMap, "finish"));
    assert w1.(trace := w.trace + [TaskEmitted(e, "finish")]) == finish.(frames := native.zone, natives := w1.natives);
  }

  /** The unit a hook leaves on the task it made: the finishing wrapper, guarded when the context is an UnhandledErrorTracker. */
  predicate HookUnit(u: Unit, e: TaskId, recurring: bool)
  {
    || (u.Finishing? && u.task == e && u.recurring == recurring && u.inner == Original)
    || (u.Guarded? && u.inner.Finishing? && u.inner.task == e && u.inner.recurring == recurring
        && u.inner.inner == Original)
  }

  /** Every task on native task `n`'s chain exists, was made for its source with captured stack `s`, and carries a hook's unit. */
  predicate ChainMadeWith(w: World, n: NativeId, s: seq<ContextId>)
    requires n < |w.natives|
  {
    forall i :: 0 <= i < |w.natives[n].chain| ==>
      && w.natives[n].chain[i] < |w.tasks|
      && w.tasks[w.natives[n].chain[i]].kind == KindOf(w.natives[n].source)
      && w.tasks[w.natives[n].chain[i]].capturedStack == s
      && HookUnit(w.tasks[w.natives[n].chain[i]].unit, w.natives[n].chain[i], w.natives[n].source == SetInterval)
  }

  /**
   * The hooks of the execution zones in `zone` on native task `n`: one task per
   * zone is put on the chain, each made with the stack of the deferring frames,
   * and nothing else about the native task changes.
   */
  lemma {:induction false} HooksCapture(w: World, zone: seq<Frame>, n: NativeId, s: seq<ContextId>)
    requires n < |w.natives| && s == StackOf(w.frames, w.contexts, ExecutionContextClass)
    requires ChainMadeWith(w, n, s)
    ensures var w' := ScheduleHooks(w, zone, n);
      && w'.natives == w.natives[n := w.natives[n].(chain := w'.natives[n].chain)]
      && |w'.natives[n].chain| == |w.natives[n].chain| + Hooks(zone)
      && ChainMadeWith(w', n, s)
    decreases |zone|
  {
    if zone != [] {
      var w1 := match zone[0].hooksOf case Some(c) => OnScheduleTask(w, c, n) case None => w;
      assert ScheduleHooks(w, zone, n) == ScheduleHooks(w1, zone[1..], n);
      if zone[0].hooksOf.Some? {
        HookStepCaptures(w, zone[0].hooksOf.value, n, s);
      }
      HooksCapture(w1, zone[1..], n, s);
    }
  }

  /** One hook of that walk: its task goes in front of the chain, made like the others. */
  lemma HookStepCaptures(w: World, c: ContextId, n: NativeId, s: seq<ContextId>)
    requires n < |w.natives| && s == StackOf(w.frames, w.contexts, ExecutionContextClass)
    requires ChainMadeWith(w, n, s)
    ensures var w' := OnScheduleTask(w, c, n);
      && w'.natives == w.natives[n := w.natives[n].(chain := [|w.tasks|] + w.natives[n].chain)]
      && s == StackOf(w'.frames, w'.contexts, ExecutionContextClass)
      && ChainMadeWith(w', n, s)
  {
    var w1 := OnScheduleTask(w, c, n);
    var e := |w.tasks|;
    var chain := w.natives[n].chain;
    StackOfSameClasses(w.frames, w.contexts, w1.contexts, ExecutionContextClass);
    forall i | 0 <= i < |w1.natives[n].chain|
      ensures w1.natives[n].chain[i] < |w1.tasks|
      ensures w1.tasks[w1.natives[n].chain[i]].kind == KindOf(w1.natives[n].source)
      ensures w1.tasks[w1.natives[n].chain[i]].capturedStack == s
      ensures HookUnit(w1.tasks[w1.natives[n].chain[i]].unit, w1.natives[n].chain[i], w1.natives[n].source == SetInterval)
    {
      if i > 0 {
        assert w1.natives[n].chain[i] == chain[i - 1];
        assert w1.tasks[..e][chain[i - 1]] == w.tasks[chain[i - 1]];
      }
    }
  }

  /**
   * `setTimeout`, `setInterval` and friends deferring `cb`: the host task keeps
   * the deferring frames as its zone, and its chain holds one task per
   * execution zone there, each with the `stack()` of those frames as captured stack.
   */
  lemma ScheduleNativeCaptures(w: World, src: Source, cb: Body)
    ensures var r := ScheduleNative(w, src, cb); var n := |w.natives|;
      && r.out == Returned(Num(n))
      && |r.world.natives| == n + 1 && r.world.natives[..n] == w.natives
      && r.world.natives[n] == NativeTask(src, cb, r.world.natives[n].chain, w.frames, Scheduled)
      && |r.world.natives[n].chain| == Hooks(w.frames)
      && ChainMadeWith(r.world, n, StackOf(w.frames, w.contexts, ExecutionContextClass))
  {
    var n := |w.natives|;
    var w1 := w.(natives := w.natives + [NativeTask(src, cb, [], w.frames, Scheduled)]);
    HooksCapture(w1, w.frames, n, StackOf(w.frames, w.contexts, ExecutionContextClass));
    var w' := ScheduleHooks(w1, w.frames, n);
    assert w'.natives[..n] == w1.natives[..n];
  }

  /** A finishing wrapper over the original callable, at position `j` of the chain: the rest of the chain, then the finishing step. */
  lemma FinishingRuns(w: World, u: Unit, cb: Body, chain: seq<TaskId>, j: nat)
    requires j < |chain| && u.Finishing? && u.inner == Original
    ensures var k := ExecChain(w, cb, chain, j + 1);
      ExecUnit(w, u, Native(cb, chain, j)) == Exec(AfterFiring(k.world, u.task, u.recurring, u.owner), k.out)
  {
    assert ExecUnit(w, Original, Native(cb, chain, j)) == ExecChain(w, cb, chain, j + 1);
  }

  /** A guard only adds to the trace of what it wraps. */
  lemma GuardExtends(w: World, u: Unit, core: Core)
    requires u.Guarded?
    ensures ExecUnit(w, u.inner, core).world.trace <= ExecUnit(w, u, core).world.trace
  {
  }

  /**
   * A chain of hook units from position `j`: the callback runs first, in the
   * world the chain was called in, and the wrappers only add to the trace after
   * it; with no guard among them the callback's outcome comes out unchanged.
   */
  lemma {:induction false} ChainRunsCallback(w: World, cb: Body, chain: seq<TaskId>, j: nat, recurring: bool)
    requires forall i :: j <= i < |chain| ==> chain[i] < |w.tasks| && HookUnit(w.tasks[chain[i]].unit, chain[i], recurring)
    ensures var r := ExecChain(w, cb, chain, j); var b := ExecBody(w, cb);
      && b.world.trace <= r.world.trace
      && ((forall i :: j <= i < |chain| ==> w.tasks[chain[i]].unit.Finishing?) ==> r.out == b.out)
    decreases |chain| - j
  {
    if j < |chain| {
      ChainRunsCallback(w, cb, chain, j + 1, recurring);
      ChainStep(w, cb, chain, j, recurring);
    }
  }

  /** One hook unit of that chain: it adds to the trace of the rest of the chain, and passes its outcome through unless it is a guard. */
  lemma ChainStep(w: World, cb: Body, chain: seq<TaskId>, j: nat, recurring: bool)
    requires j < |chain| && chain[j] < |w.tasks| && HookUnit(w.tasks[chain[j]].unit, chain[j], recurring)
    ensures var k := ExecChain(w, cb, chain, j + 1); var r := ExecChain(w, cb, chain, j);
      && k.world.trace <= r.world.trace
      && (w.tasks[chain[j]].unit.Finishing? ==> r.out == k.out)
  {
    var u := w.tasks[chain[j]].unit;
    var core := Native(cb, chain, j);
    var fin := if u.Finishing? then u else u.inner;
    FinishingRuns(w, fin, cb, chain, j);
    if u.Guarded? {
      GuardExtends(w, u, core);
    }
  }

  /**
   * Firing a pending native task whose chain holds hook units, for a chain of
   * any length: the callback runs in the frames the task was scheduled in, with
   * the task marked running, before any finishing step; the frames are restored
   * afterwards, and with no guard on the chain the callback's outcome is the firing's.
   */
  lemma FireRunsCallbackInZone(w: World, n: NativeId, s: seq<ContextId>)
    requires n < |w.natives| && w.natives[n].state == Scheduled && ChainMadeWith(w, n, s)
    ensures var native := w.natives[n];
      var b := ExecBody(w.(frames := native.zone, natives := w.natives[n := native.(state := Running)]), native.callback);
      var f := Fire(w, n);
      && b.world.trace <= f.world.trace
      && f.world.frames == w.frames
      && ((forall i :: 0 <= i < |native.chain| ==> w.tasks[native.chain[i]].unit.Finishing?) ==> f.out == b.out)
  {
    var native := w.natives[n];
    var w1 := w.(frames := native.zone, natives := w.natives[n := native.(state := Running)]);
    ChainRunsCallback(w1, native.callback, native.chain, 0, native.source == SetInterval);
  }
}
