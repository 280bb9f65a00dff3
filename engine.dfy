/**
 * `ExecutionContext.run`, the `onScheduleTask`/`onCancelTask` hooks of the
 * `ExecutionZone` it forks, and the host firing a deferred task
 * (execution-context.ts:46-124), as transformations of a `World`.
 */
module Engine {
  import opened Wrappers
  import opened Channel
  import opened Tasks
  import opened Runtime
  import LifeCycleTracker
  import UnhandledErrorTracker

  /** The zone `run` forks first: it defines `ec0:context`. */
  function ContextZone(c: ContextId): Frame { Frame(Some(c), None) }

  /** The zone forked inside it: it carries the context's scheduling hooks. */
  function ExecutionZone(c: ContextId): Frame { Frame(None, Some(c)) }

  /** Whether `schedule` of context `c` wraps the units of the tasks it is given. */
  predicate WrapsUnits(w: World, c: ContextId)
  {
    c < |w.contexts| && BuiltIn(w.contexts[c].cls) == UnhandledErrorTrackerClass
  }

  /** The number of execution zones in a frame chain: the hooks a deferral made there runs through. */
  function Hooks(zone: seq<Frame>): (n: nat)
    ensures n <= |zone|
  {
    if zone == [] then 0 else (if zone[0].hooksOf.Some? then 1 else 0) + Hooks(zone[1..])
  }

  /**
   * `context.schedule(task)`: the call is recorded, then the override of the
   * context's class runs (ExecutionContext's own is a no-op, execution-context.ts:122-124).
   */
  function ScheduleHook(w: World, c: ContextId, t: TaskId): (w': World)
    ensures Persists(w, w') && w'.natives == w.natives && |w'.tasks| == |w.tasks|
    ensures w'.trace == w.trace + [ScheduleCalled(c, t)]
    ensures c >= |w.contexts|
            || (BuiltIn(w.contexts[c].cls) != LifeCycleTrackerClass
                && BuiltIn(w.contexts[c].cls) != UnhandledErrorTrackerClass) ==>
      w' == w.(trace := w.trace + [ScheduleCalled(c, t)])
    ensures c < |w.contexts| && BuiltIn(w.contexts[c].cls) == LifeCycleTrackerClass ==>
      w' == LifeCycleTracker.Schedule(w.(trace := w.trace + [ScheduleCalled(c, t)]), c, t)
    ensures c < |w.contexts| && BuiltIn(w.contexts[c].cls) == UnhandledErrorTrackerClass ==>
      w' == UnhandledErrorTracker.Schedule(w.(trace := w.trace + [ScheduleCalled(c, t)]), c, t)
  {
    var w1 := w.(trace := w.trace + [ScheduleCalled(c, t)]);
    if c >= |w.contexts| then w1
    else
      match BuiltIn(w.contexts[c].cls)
      case LifeCycleTrackerClass => LifeCycleTracker.Schedule(w1, c, t)
      case UnhandledErrorTrackerClass => UnhandledErrorTracker.Schedule(w1, c, t)
      case _ => w1
  }

  /**
   * The first half of `run` (execution-context.ts:55-66): fork the context zone,
   * build the sync task over the callable with the stack as it now is, call
   * `this.schedule` on it, fork the execution zone. The sync task's id is `|w.tasks|`.
   */
  function Enter(w: World, c: ContextId): (w': World)
    ensures w'.frames == [ExecutionZone(c), ContextZone(c)] + w.frames
    ensures Grows(w, w') && w'.natives == w.natives && |w'.tasks| == |w.tasks| + 1
    ensures w'.tasks[..|w.tasks|] == w.tasks
    ensures w'.tasks[|w.tasks|].kind == Sync && !w'.tasks[|w.tasks|].cancelled && w'.tasks[|w.tasks|].runCount == 0
    ensures w'.tasks[|w.tasks|].capturedStack == StackOf([ContextZone(c)] + w.frames, w.contexts, ExecutionContextClass)
    ensures w'.tasks[|w.tasks|].unit == if WrapsUnits(w, c) then Guarded(c, Original) else Original
    ensures w'.trace == w.trace + [Entered(c), ScheduleCalled(c, |w.tasks|)]
  {
    var w1 := w.(frames := [ContextZone(c)] + w.frames, trace := w.trace + [Entered(c)]);
    var t := |w1.tasks|;
    var task := NewTask(Original, Sync, StackOf(w1.frames, w1.contexts, ExecutionContextClass));
    var w2 := w1.(tasks := w1.tasks + [task]);
    var w3 := ScheduleHook(w2, c, t);
    w3.(frames := [ExecutionZone(c)] + w3.frames)
  }

  /** Where the callable a unit wraps comes from: `run`'s body, or position `pos` of a native task's chain. */
  datatype Core = Direct(body: Body) | Native(callback: Body, chain: seq<TaskId>, pos: nat)

  function CoreBody(k: Core): Body
  {
    match k
    case Direct(b) => b
    case Native(cb, _, _) => cb
  }

  function CoreLeft(k: Core): nat
  {
    match k
    case Direct(_) => 0
    case Native(_, chain, i) => if i < |chain| then |chain| - i else 0
  }

  /** Running user code in the current frames. */
  function ExecBody(w: World, b: Body): (r: Exec)
    ensures Persists(w, r.world)
    decreases b, 0, 0, 0, Original
  {
    match b
    case Return(v) => Exec(w, Returned(v))
    case Throw(e) => Exec(w, Threw(e))
    case Mark(m) => Exec(w.(trace := w.trace + [Marked(m)]), Returned(Undefined))
    case Seq(first, second) =>
      var r := ExecBody(w, first);
      if r.out.Threw? then r else ExecBody(r.world, second)
    case Run(c, inner) => RunContext(w, c, inner)
    case Defer(src, cb) => ScheduleNative(w, src, cb)
    case Clear(n) => CancelNative(w, n)
  }

  /**
   * `context.run(func)`: enter, call the sync task's unit (read once, after
   * `schedule` may have wrapped it), emit 'finish' on the sync task whether the
   * unit returned or threw, leave both zones, and return or rethrow what the unit did.
   */
  function RunContext(w: World, c: ContextId, b: Body): (r: Exec)
    ensures Persists(w, r.world)
    decreases b, 2, 0, 0, Original
  {
    var w1 := Enter(w, c);
    var t := |w.tasks|;
    var r := ExecUnit(w1, w1.tasks[t].unit, Direct(b));
    var w2 := EmitTask(r.world, t, "finish");
    Exec(w2.(frames := w.frames), r.out)
  }

  /** Calling a unit: its wrappers from the outside in, down to the callable it was built from. */
  function ExecUnit(w: World, u: Unit, core: Core): (r: Exec)
    ensures Persists(w, r.world)
    decreases CoreBody(core), 1, CoreLeft(core), 0, u
  {
    match u
    case Original =>
      (match core
       case Direct(b) => ExecBody(w, b)
       case Native(cb, chain, i) => if i < |chain| then ExecChain(w, cb, chain, i + 1) else ExecBody(w, cb))
    case Guarded(c, inner) =>
      var r := ExecUnit(w, inner, core);
      (match r.out
       case Threw(e) => Exec(EmitContext(r.world, c, "error", [e]), Returned(Undefined))
       case Returned(_) => Exec(r.world, Returned(Undefined)))
    case Finishing(t, recurring, owner, inner) =>
      var r := ExecUnit(w, inner, core);
      Exec(AfterFiring(r.world, t, recurring, owner), r.out)
  }

  /**
   * The native callback from position `j` of the chain on: the unit of the task
   * the `j`-th hook made (read when it is called), and past the end the callback
   * user code passed to the host.
   */
  function ExecChain(w: World, cb: Body, chain: seq<TaskId>, j: nat): (r: Exec)
    ensures Persists(w, r.world)
    decreases cb, 1, if j <= |chain| then |chain| - j else 0, 1, Original
  {
    if j >= |chain| then ExecBody(w, cb)
    else if chain[j] >= |w.tasks| then Exec(w, Threw(TypeError))
    else ExecUnit(w, w.tasks[chain[j]].unit, Native(cb, chain, j))
  }

  /**
   * The `finally` of the hook's wrapper (execution-context.ts:91-101): emit
   * 'finish'; for a `setInterval` task count the run and, unless cancelled,
   * call `this.schedule` on the same task again.
   */
  function AfterFiring(w: World, t: TaskId, recurring: bool, owner: ContextId): (w': World)
    ensures Persists(w, w') && w'.natives == w.natives && |w'.tasks| == |w.tasks|
    ensures w.trace <= w'.trace
  {
    var w1 := EmitTask(w, t, "finish");
    if recurring && t < |w1.tasks| then
      var w2 := SetTask(w1, t, w1.tasks[t].(runCount := w1.tasks[t].runCount + 1));
      if !w2.tasks[t].cancelled then ScheduleHook(w2, owner, t) else w2
    else w1
  }

  /**
   * `onScheduleTask` of context `c`'s execution zone for native task `n`
   * (execution-context.ts:76-107): a new task over the current native callback,
   * the native callback now calls that task's unit, the task is remembered in
   * `taskMap`, its unit gets the finishing wrapper, and `this.schedule` is called.
   */
  function OnScheduleTask(w: World, c: ContextId, n: NativeId): (w': World)
    ensures Persists(w, w') && |w'.natives| == |w.natives|
    ensures n < |w.natives| ==> w'.trace == w.trace + [ScheduleCalled(c, |w.tasks|)] && |w'.tasks| == |w.tasks| + 1
    ensures n >= |w.natives| ==> w' == w
    ensures n < |w.natives| ==>
      var e := |w.tasks|;
      var src := w.natives[n].source;
      var finishing := Finishing(e, src == SetInterval, c, Original);
      && w'.tasks[..e] == w.tasks
      && w'.natives == w.natives[n := w.natives[n].(chain := [e] + w.natives[n].chain)]
      && w'.tasks[e].kind == KindOf(src)
      && w'.tasks[e].capturedStack == StackOf(w.frames, w.contexts, ExecutionContextClass)
      && !w'.tasks[e].cancelled && w'.tasks[e].runCount == 0
      && w'.tasks[e].unit == (if WrapsUnits(w, c) then Guarded(c, finishing) else finishing)
      && (c < |w.contexts| ==> n in w'.contexts[c].taskMap && w'.contexts[c].taskMap[n] == e)
      && (!(c < |w.contexts| && BuiltIn(w.contexts[c].cls) == LifeCycleTrackerClass) ==> w'.tasks[e].eventMap == map[])
  {
    if n >= |w.natives| then w
    else
      var native := w.natives[n];
      var e := |w.tasks|;
      var etask := NewTask(Original, KindOf(native.source), StackOf(w.frames, w.contexts, ExecutionContextClass));
      var w1 := w.(tasks := w.tasks + [etask], natives := w.natives[n := native.(chain := [e] + native.chain)]);
      var w2 :=
        if c < |w1.contexts| then
          w1.(contexts := w1.contexts[c := w1.contexts[c].(taskMap := w1.contexts[c].taskMap[n := e])])
        else w1;
      var w3 := SetTask(w2, e, w2.tasks[e].(unit := Finishing(e, native.source == SetInterval, c, w2.tasks[e].unit)));
      ScheduleHook(w3, c, e)
  }

  /** Zone.js delegating `scheduleTask` from the current zone outwards: every execution zone's hook runs, innermost first. */
  function ScheduleHooks(w: World, zone: seq<Frame>, n: NativeId): (w': World)
    ensures Persists(w, w') && |w'.natives| == |w.natives|
    decreases |zone|
  {
    if zone == [] then w
    else
      var w1 := match zone[0].hooksOf
        case Some(c) => OnScheduleTask(w, c, n)
        case None => w;
      ScheduleHooks(w1, zone[1..], n)
  }

  /** A host primitive deferring `cb` from the current frames; the result is the native task's handle. */
  function ScheduleNative(w: World, src: Source, cb: Body): (r: Exec)
    ensures Persists(w, r.world)
  {
    var n := |w.natives|;
    var w1 := w.(natives := w.natives + [NativeTask(src, cb, [], w.frames, Scheduled)]);
    Exec(ScheduleHooks(w1, w.frames, n), Returned(Num(n)))
  }

  /**
   * Zone.js delegating `cancelTask` from the native task's zone outwards; each
   * execution zone's hook (execution-context.ts:68-75) marks the task its
   * context made as cancelled and emits 'cancel' on it.
   */
  function CancelHooks(w: World, zone: seq<Frame>, n: NativeId): (r: Exec)
    ensures Persists(w, r.world) && |r.world.natives| == |w.natives|
    decreases |zone|
  {
    if zone == [] then Exec(w, Returned(Undefined))
    else
      match zone[0].hooksOf
      case None => CancelHooks(w, zone[1..], n)
      case Some(c) =>
        if c >= |w.contexts| || n !in w.contexts[c].taskMap || w.contexts[c].taskMap[n] >= |w.tasks| then
          Exec(w, Threw(TypeError))
        else
          var e := w.contexts[c].taskMap[n];
          var w1 := SetTask(w, e, w.tasks[e].(cancelled := true));
          CancelHooks(EmitTask(w1, e, "cancel"), zone[1..], n)
  }

  /**
   * Whether the host hands a `clearTimeout`/`clearInterval` of this task to the
   * zones: a promise reaction never, a pending task always, and a running one
   * only when it is an interval (a one-shot timer has already left the host's
   * timer list when its callback runs).
   */
  predicate Cancellable(native: NativeTask)
  {
    && native.source != PromiseThen
    && (native.state.Scheduled? || (native.state.Running? && native.source == SetInterval))
  }

  /** `clearTimeout`/`clearInterval`: a cancellable native task is cancelled; anything else is ignored. */
  function CancelNative(w: World, n: NativeId): (r: Exec)
    ensures Persists(w, r.world)
    ensures !(n < |w.natives| && Cancellable(w.natives[n])) ==> r == Exec(w, Returned(Undefined))
    ensures r.out.Returned? && n < |w.natives| && Cancellable(w.natives[n]) ==> r.world.natives[n].state == Cancelled
  {
    if n >= |w.natives| || !Cancellable(w.natives[n]) then
      Exec(w, Returned(Undefined))
    else
      var r := CancelHooks(w, w.natives[n].zone, n);
      if r.out.Threw? then r
      else
        var w1 := r.world;
        Exec(w1.(natives := w1.natives[n := w1.natives[n].(state := Cancelled)]), Returned(Undefined))
  }

  /**
   * The host firing native task `n`: only a pending one fires; it runs in the
   * frames it was scheduled in, through its callback chain. A `setInterval`
   * task that was not cancelled meanwhile stays pending; other tasks complete.
   */
  function Fire(w: World, n: NativeId): (r: Exec)
    ensures Persists(w, r.world)
  {
    if n >= |w.natives| || !w.natives[n].state.Scheduled? then Exec(w, Returned(Undefined))
    else
      var native := w.natives[n];
      var w1 := w.(frames := native.zone, natives := w.natives[n := native.(state := Running)]);
      var r := ExecChain(w1, native.callback, native.chain, 0);
      var w2 := r.world;
      var state :=
        if w2.natives[n].state.Cancelled? then Cancelled
        else if native.source == SetInterval then Scheduled
        else Completed;
      Exec(w2.(frames := w.frames, natives := w2.natives[n := w2.natives[n].(state := state)]), r.out)
  }

  /** `context.wrap(func)`: a callable that, when called, runs `func` inside `context.run`. */
  function WrapCallable(c: ContextId, func: Body): (r: Body)
    ensures forall w :: ExecBody(w, r) == RunContext(w, c, func)
  {
    Run(c, func)
  }
}
