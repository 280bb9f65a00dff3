/**
 * The state the execution-context engine works on, made explicit.
 *
 * Zone.js keeps the current zone and its parent chain; here `World.frames` is that
 * chain, innermost first. A `Frame` either defines the `ec0:context` property (the
 * zone `run` forks first) or carries the `onScheduleTask`/`onCancelTask` hooks of a
 * context (the `ExecutionZone` forked inside it). Context objects, task objects and
 * the host's native tasks live in tables indexed by identity, and `trace` records
 * what an outside observer sees: contexts entered, `schedule` calls, task events,
 * handler calls and the marks user code leaves.
 */
module Runtime {
  import opened Wrappers
  import opened Channel
  import opened Tasks

  type NativeId = nat

  /** Classes of contexts: the built-ins and user subclasses with their parent class. */
  datatype ClassTag =
    | ExecutionContextClass
    | LifeCycleTrackerClass
    | StateTrackerClass
    | UnhandledErrorTrackerClass
    | Subclass(id: nat, parent: ClassTag)

  /** `instanceof`: a class is an instance of itself and of every ancestor. */
  predicate IsA(cls: ClassTag, of: ClassTag)
    ensures cls == of ==> IsA(cls, of)
    ensures of == ExecutionContextClass ==> IsA(cls, of)
  {
    cls == of ||
    match cls
    case ExecutionContextClass => false
    case Subclass(_, parent) => IsA(parent, of)
    case _ => of == ExecutionContextClass
  }

  /** The built-in class whose `schedule` an instance of `cls` runs. */
  function BuiltIn(cls: ClassTag): (b: ClassTag)
    ensures !b.Subclass? && IsA(cls, b)
    ensures forall b': ClassTag :: !b'.Subclass? && IsA(cls, b') ==> IsA(b, b')
  {
    match cls
    case Subclass(_, parent) => BuiltIn(parent)
    case _ => cls
  }

  /**
   * A context object: its class, the constructor arguments of the built-ins
   * (`enabled` of LifeCycleTracker, `state` of StateTracker), its event channel,
   * the tracker's `_counter`, and `taskMap` from native task to the task the
   * context's hook made for it.
   */
  datatype Context = Context(
    cls: ClassTag,
    enabled: bool,
    state: map<string, Value>,
    eventMap: EventMap<HandlerId>,
    counter: int,
    taskMap: map<NativeId, TaskId>)

  datatype Frame = Frame(defines: Option<ContextId>, hooksOf: Option<ContextId>)

  /** Host primitives that defer work, and their Zone.js task types. */
  datatype Source = SetTimeout | SetInterval | PromiseThen | DomEvent

  /** `typeMap` of execution-context.ts:77-81 applied to the primitive's task type. */
  function KindOf(s: Source): TaskKind
  {
    match s
    case SetTimeout => Macrotask
    case SetInterval => Macrotask
    case PromiseThen => Microtask
    case DomEvent => Event
  }

  /**
   * User code: return, throw, leave a mark, do two things in order (an error in
   * the first skips the second), `ctx.run(() => body)`, defer a callback with a
   * host primitive (the result is the native task's handle), or cancel one.
   */
  datatype Body =
    | Return(value: Value)
    | Throw(error: Value)
    | Mark(mark: int)
    | Seq(first: Body, second: Body)
    | Run(context: ContextId, body: Body)
    | Defer(source: Source, callback: Body)
    | Clear(native: NativeId)

  datatype NativeState = Scheduled | Running | Cancelled | Completed

  /**
   * A host task: its primitive, the callback user code passed, `chain` (the tasks
   * the hooks made for it, outermost hook first: the native callback calls the
   * first one's unit, whose original callable calls the next one's), and `zone`,
   * the frames it was scheduled in and fires in.
   */
  datatype NativeTask = NativeTask(
    source: Source,
    callback: Body,
    chain: seq<TaskId>,
    zone: seq<Frame>,
    state: NativeState)

  datatype Event =
    | Entered(context: ContextId)
    | ScheduleCalled(context: ContextId, task: TaskId)
    | TaskEmitted(task: TaskId, name: string)
    | HandlerCalled(context: ContextId, handler: HandlerId, name: string, args: seq<Value>)
    | TaskHandlerCalled(task: TaskId, handler: HandlerId, name: string)
    | Marked(mark: int)

  datatype World = World(
    frames: seq<Frame>,
    contexts: seq<Context>,
    tasks: seq<ExecutionTask>,
    natives: seq<NativeTask>,
    trace: seq<Event>)

  /** The world after running some code, and what the code returned or threw. */
  datatype Exec = Exec(world: World, out: Outcome)

  /**
   * What code running in the engine never changes: the contexts' classes,
   * constructor arguments and listeners; the tables and the trace only grow.
   */
  ghost predicate Grows(w: World, w': World)
  {
    && |w'.contexts| == |w.contexts|
    && (forall i :: 0 <= i < |w.contexts| ==>
          && w'.contexts[i].cls == w.contexts[i].cls
          && w'.contexts[i].enabled == w.contexts[i].enabled
          && w'.contexts[i].state == w.contexts[i].state
          && w'.contexts[i].eventMap == w.contexts[i].eventMap)
    && |w.tasks| <= |w'.tasks|
    && |w.natives| <= |w'.natives|
    && w.trace <= w'.trace
  }

  /** `Grows`, and the frames around the code are the same afterwards: every `run` pops what it pushed. */
  ghost predicate Persists(w: World, w': World)
  {
    w'.frames == w.frames && Grows(w, w')
  }

  /** Trace entries that only report a notification: a task event or a handler call. */
  predicate IsNotice(e: Event)
  {
    e.TaskEmitted? || e.TaskHandlerCalled? || e.HandlerCalled?
  }

  /** `t'` extends `t` with notifications only: no context entered, no `schedule` call, no mark. */
  ghost predicate NoticesOnly(t: seq<Event>, t': seq<Event>)
  {
    t <= t' && forall i :: |t| <= i < |t'| ==> IsNotice(t'[i])
  }

  /** The contexts whose `run` was entered, in order. */
  function Entries(trace: seq<Event>): (s: seq<ContextId>)
    ensures |s| <= |trace|
  {
    if trace == [] then []
    else (if trace[0].Entered? then [trace[0].context] else []) + Entries(trace[1..])
  }

  /** The number of `schedule` calls. */
  function ScheduleCount(trace: seq<Event>): (n: nat)
    ensures n <= |trace|
  {
    if trace == [] then 0
    else (if trace[0].ScheduleCalled? then 1 else 0) + ScheduleCount(trace[1..])
  }

  lemma {:induction false} EntriesAppend(a: seq<Event>, b: seq<Event>)
    ensures Entries(a + b) == Entries(a) + Entries(b)
    ensures ScheduleCount(a + b) == ScheduleCount(a) + ScheduleCount(b)
  {
    if a == [] {
      assert a + b == b;
    } else {
      assert (a + b)[0] == a[0];
      assert (a + b)[1..] == a[1..] + b;
      EntriesAppend(a[1..], b);
      assert Entries(a + b) == (if a[0].Entered? then [a[0].context] else []) + Entries(a[1..] + b);
      assert ScheduleCount(a + b) == (if a[0].ScheduleCalled? then 1 else 0) + ScheduleCount(a[1..] + b);
    }
  }

  /** Notifications enter no context and call no `schedule`. */
  lemma {:induction false} NoticesAreQuiet(t: seq<Event>, t': seq<Event>)
    requires NoticesOnly(t, t')
    ensures Entries(t') == Entries(t) && ScheduleCount(t') == ScheduleCount(t)
    decreases |t'|
  {
    if |t'| > |t| {
      var last := t'[..|t'| - 1];
      assert t' == last + [t'[|t'| - 1]];
      assert NoticesOnly(t, last);
      NoticesAreQuiet(t, last);
      EntriesAppend(last, [t'[|t'| - 1]]);
    } else {
      assert t' == t;
    }
  }

  /**
   * `ExecutionContext.stack()` called on class `cls`: one entry per frame that
   * itself defines a context which is an instance of `cls`, innermost first.
   */
  function StackOf(frames: seq<Frame>, contexts: seq<Context>, cls: ClassTag): (s: seq<ContextId>)
    ensures forall i :: 0 <= i < |s| ==> s[i] < |contexts| && IsA(contexts[s[i]].cls, cls)
    ensures |s| <= |frames|
  {
    if frames == [] then []
    else
      var rest := StackOf(frames[1..], contexts, cls);
      match frames[0].defines
      case Some(c) => if c < |contexts| && IsA(contexts[c].cls, cls) then [c] + rest else rest
      case None => rest
  }

  /** The `while (zone)` walk of execution-context.ts:13-28, from the current zone outwards. */
  method Stack(w: World, cls: ClassTag) returns (stack: seq<ContextId>)
    ensures stack == StackOf(w.frames, w.contexts, cls)
  {
    stack := [];
    var i := 0;
    while i < |w.frames|
      invariant 0 <= i <= |w.frames|
      invariant stack + StackOf(w.frames[i..], w.contexts, cls) == StackOf(w.frames, w.contexts, cls)
    {
      var zone := w.frames[i];
      assert w.frames[i..][1..] == w.frames[i + 1..];
      if zone.defines.Some? && zone.defines.value < |w.contexts|
         && IsA(w.contexts[zone.defines.value].cls, cls) {
        stack := stack + [zone.defines.value];
      }
      i := i + 1;
    }
  }

  /** `current()`: the first entry of the stack, absent when the stack is empty. */
  function Current(w: World, cls: ClassTag): (c: Option<ContextId>)
    ensures c.None? <==> StackOf(w.frames, w.contexts, cls) == []
    ensures c.Some? ==> c.value == StackOf(w.frames, w.contexts, cls)[0]
  {
    var s := StackOf(w.frames, w.contexts, cls);
    if s == [] then None else Some(s[0])
  }

  /** `fetch(callback)`: the callback's result on the current context, or nothing. */
  function Fetch<R>(w: World, cls: ClassTag, callback: ContextId -> R): (r: Option<R>)
    ensures r.Some? <==> Current(w, cls).Some?
    ensures r.Some? ==> r.value == callback(Current(w, cls).value)
  {
    match Current(w, cls)
    case Some(c) => Some(callback(c))
    case None => None
  }

  /** The trace entries for the calls a context's `emit` makes. */
  function HandlerCalls(c: ContextId, calls: seq<Call<HandlerId, seq<Value>>>, name: string): (es: seq<Event>)
    ensures |es| == |calls|
    ensures forall i :: 0 <= i < |calls| ==>
      es[i] == HandlerCalled(c, calls[i].listener, name, calls[i].args)
  {
    if calls == [] then []
    else [HandlerCalled(c, calls[0].listener, name, calls[0].args)] + HandlerCalls(c, calls[1..], name)
  }

  /** The handler calls of context `c` emitting `name` with `args`: one per registered handler, in order. */
  function Emitted(contexts: seq<Context>, c: ContextId, name: string, args: seq<Value>): seq<Event>
  {
    if c < |contexts| then HandlerCalls(c, CallsFor(Listeners(contexts[c].eventMap, name), args), name) else []
  }

  /** A context's protected `emit(name, ...args)`: its handlers for `name` are called in order. */
  function EmitContext(w: World, c: ContextId, name: string, args: seq<Value>): (w': World)
    ensures w' == w.(trace := w.trace + Emitted(w.contexts, c, name, args)) && NoticesOnly(w.trace, w'.trace)
  {
    if c < |w.contexts| then
      w.(trace := w.trace + HandlerCalls(c, CallsFor(Listeners(w.contexts[c].eventMap, name), args), name))
    else w
  }

  /**
   * The decrement closure LifeCycleTracker `c` registers on a task
   * (lifecycle-tracker.ts:19-23): the counter drops by one, and when it reaches
   * exactly zero the tracker emits 'stable'.
   */
  function DecrementCounter(w: World, c: ContextId): (w': World)
    ensures w'.frames == w.frames && w'.tasks == w.tasks && w'.natives == w.natives
    ensures c < |w.contexts| ==>
      && w'.contexts == w.contexts[c := w.contexts[c].(counter := w.contexts[c].counter - 1)]
      && w'.trace == w.trace + (if w.contexts[c].counter == 1 then Emitted(w.contexts, c, "stable", []) else [])
    ensures c >= |w.contexts| ==> w' == w
  {
    if c < |w.contexts| then
      var n := w.contexts[c].counter - 1;
      var w1 := w.(contexts := w.contexts[c := w.contexts[c].(counter := n)]);
      if n == 0 then EmitContext(w1, c, "stable", []) else w1
    else w
  }

  /** Calling one listener of task `t`'s event `name`. */
  function Perform(w: World, t: TaskId, name: string, l: TaskListener): (w': World)
    ensures w'.frames == w.frames && w'.tasks == w.tasks && w'.natives == w.natives
    ensures |w'.contexts| == |w.contexts|
    ensures forall i :: 0 <= i < |w.contexts| ==> w'.contexts[i] == w.contexts[i].(counter := w'.contexts[i].counter)
    ensures NoticesOnly(w.trace, w'.trace)
    ensures forall i :: 0 <= i < |w.contexts| ==>
      w'.contexts[i].counter == w.contexts[i].counter - (if l == Decrement(i) then 1 else 0)
    ensures l.Handler? ==> w'.trace == w.trace + [TaskHandlerCalled(t, l.id, name)]
    ensures l.Decrement? ==>
      w'.trace == w.trace + (if l.tracker < |w.contexts| && w.contexts[l.tracker].counter == 1
                             then Emitted(w.contexts, l.tracker, "stable", []) else [])
  {
    match l
    case Decrement(c) => DecrementCounter(w, c)
    case Handler(h) => w.(trace := w.trace + [TaskHandlerCalled(t, h, name)])
  }

  /** The `forEach` over a task's listener list, in order. */
  function PerformAll(w: World, t: TaskId, name: string, ls: seq<TaskListener>): (w': World)
    ensures w'.frames == w.frames && w'.tasks == w.tasks && w'.natives == w.natives
    ensures |w'.contexts| == |w.contexts|
    ensures forall i :: 0 <= i < |w.contexts| ==> w'.contexts[i] == w.contexts[i].(counter := w'.contexts[i].counter)
    ensures NoticesOnly(w.trace, w'.trace)
    decreases ls
  {
    if ls == [] then w else PerformAll(Perform(w, t, name, ls[0]), t, name, ls[1..])
  }

  /** A task's `emit(name)`: recorded, then its listeners for `name` run in order. */
  function EmitTask(w: World, t: TaskId, name: string): (w': World)
    ensures Persists(w, w') && w'.tasks == w.tasks && w'.natives == w.natives
    ensures NoticesOnly(w.trace, w'.trace)
    ensures t < |w.tasks| ==> |w'.trace| > |w.trace| && w'.trace[|w.trace|] == TaskEmitted(t, name)
    ensures t >= |w.tasks| ==> w' == w
  {
    if t < |w.tasks| then
      PerformAll(w.(trace := w.trace + [TaskEmitted(t, name)]), t, name, Listeners(w.tasks[t].eventMap, name))
    else w
  }

  /** The task-listener calls recorded in a trace, in order. */
  function TaskNotices(trace: seq<Event>): (s: seq<Event>)
    ensures |s| <= |trace|
    ensures forall i :: 0 <= i < |s| ==> s[i].TaskHandlerCalled?
  {
    if trace == [] then []
    else (if trace[0].TaskHandlerCalled? then [trace[0]] else []) + TaskNotices(trace[1..])
  }

  /** The calls task `t`'s `emit(name)` makes to the user handlers among `ls`, in list order. */
  function HandlerNotices(t: TaskId, name: string, ls: seq<TaskListener>): (s: seq<Event>)
    ensures |s| <= |ls|
    ensures forall i :: 0 <= i < |s| ==> s[i].TaskHandlerCalled? && s[i].task == t && s[i].name == name
  {
    if ls == [] then []
    else (if ls[0].Handler? then [TaskHandlerCalled(t, ls[0].id, name)] else []) + HandlerNotices(t, name, ls[1..])
  }

  lemma {:induction false} TaskNoticesAppend(a: seq<Event>, b: seq<Event>)
    ensures TaskNotices(a + b) == TaskNotices(a) + TaskNotices(b)
  {
    if a == [] {
      assert a + b == b;
    } else {
      assert (a + b)[0] == a[0];
      assert (a + b)[1..] == a[1..] + b;
      TaskNoticesAppend(a[1..], b);
    }
  }

  /** A context's handler calls contain no task-listener call. */
  lemma {:induction false} HandlerCallsHaveNoTaskNotices(c: ContextId, calls: seq<Call<HandlerId, seq<Value>>>, name: string)
    ensures TaskNotices(HandlerCalls(c, calls, name)) == []
  {
    if calls != [] {
      var es := HandlerCalls(c, calls, name);
      assert es[1..] == HandlerCalls(c, calls[1..], name);
      HandlerCallsHaveNoTaskNotices(c, calls[1..], name);
    }
  }

  /** One listener adds its own handler call, if it is a user handler, and no other task-listener call. */
  lemma PerformNotices(w: World, t: TaskId, name: string, l: TaskListener)
    ensures TaskNotices(Perform(w, t, name, l).trace)
            == TaskNotices(w.trace) + (if l.Handler? then [TaskHandlerCalled(t, l.id, name)] else [])
  {
    var w' := Perform(w, t, name, l);
    match l
    case Handler(h) =>
      TaskNoticesAppend(w.trace, [TaskHandlerCalled(t, h, name)]);
    case Decrement(c) =>
      var e := if c < |w.contexts| && w.contexts[c].counter == 1 then Emitted(w.contexts, c, "stable", []) else [];
      TaskNoticesAppend(w.trace, e);
      if c < |w.contexts| {
        HandlerCallsHaveNoTaskNotices(c, CallsFor(Listeners(w.contexts[c].eventMap, "stable"), []), "stable");
      }
  }

  /**
   * A task's listener list, performed in order: every tracker's counter drops
   * by the number of its decrement closures in the list, and the user handlers
   * are called in list order.
   */
  lemma PerformAllEffect(w: World, t: TaskId, name: string, ls: seq<TaskListener>)
    ensures var w' := PerformAll(w, t, name, ls);
      && (forall i :: 0 <= i < |w.contexts| ==>
            w'.contexts[i].counter == w.contexts[i].counter - multiset(ls)[Decrement(i)])
      && TaskNotices(w'.trace) == TaskNotices(w.trace) + HandlerNotices(t, name, ls)
  {
    PerformAllCounters(w, t, name, ls);
    PerformAllNotices(w, t, name, ls);
  }

  lemma {:induction false} PerformAllCounters(w: World, t: TaskId, name: string, ls: seq<TaskListener>)
    ensures var w' := PerformAll(w, t, name, ls);
      forall i :: 0 <= i < |w.contexts| ==> w'.contexts[i].counter == w.contexts[i].counter - multiset(ls)[Decrement(i)]
    decreases ls
  {
    if ls != [] {
      PerformAllCounters(Perform(w, t, name, ls[0]), t, name, ls[1..]);
      assert ls == [ls[0]] + ls[1..];
      assert multiset(ls) == multiset([ls[0]]) + multiset(ls[1..]);
    }
  }

  lemma {:induction false} PerformAllNotices(w: World, t: TaskId, name: string, ls: seq<TaskListener>)
    ensures TaskNotices(PerformAll(w, t, name, ls).trace) == TaskNotices(w.trace) + HandlerNotices(t, name, ls)
    decreases ls
  {
    if ls != [] {
      PerformAllNotices(Perform(w, t, name, ls[0]), t, name, ls[1..]);
      PerformNotices(w, t, name, ls[0]);
      var first := if ls[0].Handler? then [TaskHandlerCalled(t, ls[0].id, name)] else [];
      assert TaskNotices(w.trace) + first + HandlerNotices(t, name, ls[1..])
          == TaskNotices(w.trace) + (first + HandlerNotices(t, name, ls[1..]));
    }
  }

  /**
   * A task's `emit(name)`: besides the record of the event, every tracker's
   * counter drops by the number of its decrement closures registered for
   * `name`, and the task's user handlers for `name` are called in order.
   */
  lemma EmitTaskEffect(w: World, t: TaskId, name: string)
    requires t < |w.tasks|
    ensures var w' := EmitTask(w, t, name); var ls := Listeners(w.tasks[t].eventMap, name);
      && (forall i :: 0 <= i < |w.contexts| ==>
            w'.contexts[i].counter == w.contexts[i].counter - multiset(ls)[Decrement(i)])
      && TaskNotices(w'.trace) == TaskNotices(w.trace) + HandlerNotices(t, name, ls)
  {
    var w1 := w.(trace := w.trace + [TaskEmitted(t, name)]);
    PerformAllEffect(w1, t, name, Listeners(w.tasks[t].eventMap, name));
    TaskNoticesAppend(w.trace, [TaskEmitted(t, name)]);
  }

  /**
   * A task's `emit(name)` reads neither the zone frames nor the host's task
   * list: changing those beforehand changes nothing in the trace or the
   * contexts it leaves.
   */
  lemma {:induction false} PerformAllIgnoresHost(w: World, frames: seq<Frame>, natives: seq<NativeTask>, t: TaskId, name: string, ls: seq<TaskListener>)
    ensures var moved := PerformAll(w.(frames := frames, natives := natives), t, name, ls);
      var stayed := PerformAll(w, t, name, ls);
      moved.trace == stayed.trace && moved.contexts == stayed.contexts
    decreases ls
  {
    if ls != [] {
      var p := Perform(w, t, name, ls[0]);
      assert Perform(w.(frames := frames, natives := natives), t, name, ls[0]) == p.(frames := frames, natives := natives);
      PerformAllIgnoresHost(p, frames, natives, t, name, ls[1..]);
    }
  }

  /** Writing task `t` back into the task table. */
  function SetTask(w: World, t: TaskId, task: ExecutionTask): (w': World)
    requires t < |w.tasks|
  {
    w.(tasks := w.tasks[t := task])
  }
}
