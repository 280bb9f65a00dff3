/** What `stack()`, `run` and `wrap` promise, stated over the engine model. */
module EngineFacts {
  import opened Wrappers
  import opened Tasks
  import opened Runtime
  import opened Engine

  /** `instanceof` is transitive. */
  lemma {:induction false} IsATransitive(a: ClassTag, b: ClassTag, c: ClassTag)
    requires IsA(a, b) && IsA(b, c)
    ensures IsA(a, c)
  {
    if a != b {
      match a
      case Subclass(_, parent) => IsATransitive(parent, b, c);
      case _ =>
    }
  }

  /** The contexts of `s` that are instances of `cls`, in order. */
  function InstancesOf(s: seq<ContextId>, contexts: seq<Context>, cls: ClassTag): (r: seq<ContextId>)
    requires forall i :: 0 <= i < |s| ==> s[i] < |contexts|
    ensures |r| <= |s|
    ensures forall i :: 0 <= i < |r| ==> r[i] in s && IsA(contexts[r[i]].cls, cls)
  {
    if s == [] then []
    else (if IsA(contexts[s[0]].cls, cls) then [s[0]] else []) + InstancesOf(s[1..], contexts, cls)
  }

  /**
   * `stack()` called on a class keeps, in order, exactly the instances of that
   * class among the entries of `ExecutionContext.stack()`.
   */
  lemma {:induction false} StackOfClass(frames: seq<Frame>, contexts: seq<Context>, cls: ClassTag)
    ensures StackOf(frames, contexts, cls)
         == InstancesOf(StackOf(frames, contexts, ExecutionContextClass), contexts, cls)
  {
    if frames != [] {
      StackOfClass(frames[1..], contexts, cls);
      var all := StackOf(frames, contexts, ExecutionContextClass);
      var rest := StackOf(frames[1..], contexts, ExecutionContextClass);
      match frames[0].defines
      case Some(c) =>
        if c < |contexts| && IsA(contexts[c].cls, cls) {
          assert all == [c] + rest;
          assert all[1..] == rest;
        } else if c < |contexts| && IsA(contexts[c].cls, ExecutionContextClass) {
          assert all == [c] + rest;
          assert all[1..] == rest;
        }
      case None =>
    }
  }

  /** Only the classes of the contexts matter to `stack()`. */
  lemma {:induction false} StackOfSameClasses(frames: seq<Frame>, cs: seq<Context>, cs': seq<Context>, cls: ClassTag)
    requires |cs| == |cs'| && forall i :: 0 <= i < |cs| ==> cs[i].cls == cs'[i].cls
    ensures StackOf(frames, cs, cls) == StackOf(frames, cs', cls)
  {
    if frames != [] {
      StackOfSameClasses(frames[1..], cs, cs', cls);
    }
  }

  /**
   * Inside `c.run`, `stack()` has one more entry, `c` first when it is an
   * instance of the class asked for; the execution zone forked inside the
   * context zone adds no second entry.
   */
  lemma StackInsideRun(w: World, c: ContextId, cls: ClassTag)
    ensures var w' := Enter(w, c);
      StackOf(w'.frames, w'.contexts, cls)
        == (if c < |w.contexts| && IsA(w.contexts[c].cls, cls) then [c] else []) + StackOf(w.frames, w.contexts, cls)
  {
    var w' := Enter(w, c);
    var inner := [ContextZone(c)] + w.frames;
    assert w'.frames[1..] == inner;
    assert inner[1..] == w.frames;
    StackOfSameClasses(w.frames, w.contexts, w'.contexts, cls);
  }

  /** `stack()` is empty outside any `run`. */
  lemma StackOutsideRun(w: World, cls: ClassTag)
    requires w.frames == []
    ensures StackOf(w.frames, w.contexts, cls) == [] && Current(w, cls) == None
  {
  }

  /** `A.run(() => B.run(...))`: inside both, `stack()` is `[B, A]` followed by whatever was there before. */
  lemma NestedRunStack(w: World, a: ContextId, b: ContextId)
    requires a < |w.contexts| && b < |w.contexts|
    ensures var w' := Enter(Enter(w, a), b);
      StackOf(w'.frames, w'.contexts, ExecutionContextClass) == [b, a] + StackOf(w.frames, w.contexts, ExecutionContextClass)
      && Current(w', ExecutionContextClass) == Some(b)
  {
    var wa := Enter(w, a);
    var below := StackOf(w.frames, w.contexts, ExecutionContextClass);
    StackInsideRun(w, a, ExecutionContextClass);
    assert IsA(w.contexts[a].cls, ExecutionContextClass);
    assert StackOf(wa.frames, wa.contexts, ExecutionContextClass) == [a] + below;
    StackInsideRun(wa, b, ExecutionContextClass);
    assert IsA(wa.contexts[b].cls, ExecutionContextClass);
  }

  /**
   * `run` returns what the body returns and rethrows what it throws, unless the
   * context's own `schedule` wrapped the sync task (an UnhandledErrorTracker).
   */
  lemma RunReturnsBody(w: World, c: ContextId, b: Body)
    requires !WrapsUnits(w, c)
    ensures RunContext(w, c, b).out == ExecBody(Enter(w, c), b).out
  {
  }

  /** A deferral in user code is the host primitive's scheduling from the current frames. */
  lemma DeferStep(w: World, src: Source, cb: Body)
    ensures ExecBody(w, Defer(src, cb)) == ScheduleNative(w, src, cb)
  {
  }

  /** `run` on a context whose `schedule` leaves the sync task's unit alone, step by step. */
  lemma RunSteps(w: World, c: ContextId, b: Body)
    requires !WrapsUnits(w, c)
    ensures var w1 := Enter(w, c); var u := ExecBody(w1, b);
      RunContext(w, c, b) == Exec(EmitTask(u.world, |w.tasks|, "finish").(frames := w.frames), u.out)
  {
  }

  /** `run` around a single deferral, step by step. */
  lemma RunDeferSteps(w: World, c: ContextId, src: Source, cb: Body)
    requires !WrapsUnits(w, c)
    ensures var u := ScheduleNative(Enter(w, c), src, cb);
      RunContext(w, c, Defer(src, cb)) == Exec(EmitTask(u.world, |w.tasks|, "finish").(frames := w.frames), u.out)
  {
    RunSteps(w, c, Defer(src, cb));
    DeferStep(Enter(w, c), src, cb);
  }

  /**
   * `run` enters `c`, calls `schedule` on a new sync task first, and emits
   * 'finish' on that task after the body, whether the body returned or threw;
   * the frames around it are restored.
   */
  lemma RunFinishesSyncTask(w: World, c: ContextId, b: Body)
    ensures var r := RunContext(w, c, b);
      && r.world.frames == w.frames
      && |r.world.trace| >= |w.trace| + 3
      && r.world.trace[|w.trace|] == Entered(c)
      && r.world.trace[|w.trace| + 1] == ScheduleCalled(c, |w.tasks|)
      && TaskEmitted(|w.tasks|, "finish") in r.world.trace[|w.trace| + 2..]
  {
    var w1 := Enter(w, c);
    var t := |w.tasks|;
    var u := ExecUnit(w1, w1.tasks[t].unit, Direct(b));
    var w2 := EmitTask(u.world, t, "finish");
    assert w2.trace[|u.world.trace|] == TaskEmitted(t, "finish");
    assert w2.trace[|w.trace| + 2..][|u.world.trace| - |w.trace| - 2] == TaskEmitted(t, "finish");
  }

  /** A body that enters no context, defers nothing and cancels nothing. */
  predicate Flat(b: Body)
  {
    match b
    case Return(_) => true
    case Throw(_) => true
    case Mark(_) => true
    case Seq(first, second) => Flat(first) && Flat(second)
    case _ => false
  }

  /** What a flat body returns or throws, wherever it runs. */
  function FlatOutcome(b: Body): Outcome
    requires Flat(b)
  {
    match b
    case Return(v) => Returned(v)
    case Throw(e) => Threw(e)
    case Mark(_) => Returned(Undefined)
    case Seq(first, second) =>
      var o := FlatOutcome(first);
      if o.Threw? then o else FlatOutcome(second)
  }

  /** The marks a flat body leaves, up to the first throw. */
  function FlatTrace(b: Body): (t: seq<Event>)
    requires Flat(b)
    ensures forall i :: 0 <= i < |t| ==> t[i].Marked?
  {
    match b
    case Mark(m) => [Marked(m)]
    case Seq(first, second) =>
      FlatTrace(first) + (if FlatOutcome(first).Threw? then [] else FlatTrace(second))
    case _ => []
  }

  /** Marks enter no context and call no `schedule`. */
  lemma {:induction false} MarksAreQuiet(t: seq<Event>)
    requires forall i :: 0 <= i < |t| ==> t[i].Marked?
    ensures Entries(t) == [] && ScheduleCount(t) == 0
  {
    if t != [] {
      MarksAreQuiet(t[1..]);
    }
  }

  /** A flat body only leaves its marks, in order, and returns or throws the same wherever it runs. */
  lemma {:induction false} FlatBodyEffect(w: World, b: Body)
    requires Flat(b)
    ensures ExecBody(w, b) == Exec(w.(trace := w.trace + FlatTrace(b)), FlatOutcome(b))
    decreases b
  {
    match b
    case Seq(first, second) =>
      FlatBodyEffect(w, first);
      var w1 := w.(trace := w.trace + FlatTrace(first));
      if !FlatOutcome(first).Threw? {
        FlatBodyEffect(w1, second);
        assert w.trace + FlatTrace(first) + FlatTrace(second) == w.trace + FlatTrace(b);
      } else {
        assert FlatTrace(b) == FlatTrace(first);
      }
    case _ =>
  }

  /** A flat body's outcome, and the contexts its trace enters: none. */
  lemma FlatBodyOutcome(w: World, b: Body)
    requires Flat(b)
    ensures ExecBody(w, b).out == FlatOutcome(b)
    ensures Entries(ExecBody(w, b).world.trace) == Entries(w.trace)
  {
    FlatBodyEffect(w, b);
    MarksAreQuiet(FlatTrace(b));
    EntriesAppend(w.trace, FlatTrace(b));
  }
}
