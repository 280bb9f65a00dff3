# rezone execution contexts, modelled in Dafny

rezone provides nestable *execution contexts* on top of Zone.js. `context.run(func)`
calls `func` inside a zone that remembers the context. Every piece of asynchronous
work scheduled from there becomes an `ExecutionTask`, which the context's
`schedule` method sees and may wrap or observe. The built-in contexts are:

- `LifeCycleTracker`: counts outstanding tasks and emits `stable` when the count reaches zero;
- `StateTracker`: key/value state that is looked up nearest first;
- `UnhandledErrorTracker`: catches what a task throws and emits it as `error`.

This project models that core: the listener channels, tasks, `run` and its two
scheduling hooks, the host firing deferred work, composition, and the three
built-in trackers. It proves the properties listed under "Model" below. What it
does not cover, or states more weakly than the source promises, is listed under
"Left out".

- **Event channels** (`channel.dfy`). A listener map from event name to an ordered
  list; `add` appends, `remove` filters by identity and `emit` calls the listeners in
  order. The imperative form is the `EventChannel` class; its `Emit` is a loop
  proved against `CallsFor`. The same functions serve the channel of
  `BaseExecutionContext` and the one inside `ExecutionTask`.
- **Tasks** (`tasks.dfy`). An `ExecutionTask` is a record: its `unit`, kind,
  captured stack, `cancelled`, `runCount` and listener map. A unit is a stack of
  the two wrappers the library installs (the hook's finishing wrapper and the error
  tracker's guard) around the callable the task was built from.
- **The engine state** (`runtime.dfy`). A `World` holds:
  - `frames`: the zone chain, innermost first. A frame either defines a context
    (the zone `run` forks first) or carries a context's scheduling hooks (the
    `ExecutionZone` forked inside it);
  - tables of contexts, tasks and host ("native") tasks, indexed by identity;
  - `trace`: what an observer sees. That is contexts entered, `schedule` calls, task
    events, handler calls, and marks left by user code.

  `stack()` is the `StackOf` function and the `Stack` loop method.
- **run, the hooks, and host firing** (`engine.dfy`). User code is a small body
  language: return, throw, mark, sequence, `ctx.run`, defer with a host primitive,
  and cancel. `run` and the two hooks are interpreted over the `World`. The host
  firing a deferred task is an explicit `Fire` step.
- **Composition** (`composed.dfy`). `ComposedExecutionContext` is a class over an
  `array`. Its `run` reverses that array in place, then reduces it into nested runs.
- **The built-ins**:
  - `builtins.dfy`: the two overridden `schedule` methods;
  - `state_tracker.dfy`: `StateTracker.get`;
  - the `*_facts.dfy` files: what the trackers promise, proved as lemmas.

Where the declared signatures and the calling code disagree, the model follows the
calling code:

- **`ExecutionTask`'s constructor.** `src/execution-task.ts:10-13` declares a
  constructor over a `TaskContainer`. Every caller (`src/execution-context.ts:63`,
  `:83`) passes `(callable, kind, stack)`, and later sets `cancelled` and
  `runCount`. The model builds tasks as the callers do. The initial `unit` is the
  callable, and writing `unit` replaces it.
- **`UnhandledErrorTracker`.** Its constructor takes no argument
  (`src/builtin/unhandled-error-tracker.ts:5-7`), and the tracker always swallows
  the error. The model has no stop-propagation flag: an outer tracker never sees an
  error that an inner tracker caught.
- **`StateTracker`'s state** is a `Map`, modelled as a Dafny `map`.

## Model

| member | source | states |
|---|---|---|
| Channel.Listeners | src/base-execution-context.ts:13 | a name with no stored list has no listeners; a stored list is returned whole |
| Channel.Add | src/base-execution-context.ts:16-18 | the named list gains the listener at its end; every other name's list is unchanged |
| Channel.Without | src/base-execution-context.ts:21 | the filtered list no longer holds the callback, keeps every other entry and adds none |
| Channel.Remove | src/base-execution-context.ts:20-22 | the name is then present and holds the filtered list; every other name's list is unchanged |
| Channel.CallsFor | src/base-execution-context.ts:12-14 | one call per listener, in list order, each with the same arguments |
| Channel.WithoutAppend | src/base-execution-context.ts:20-22 | removal keeps the remaining listeners in their original order |
| Channel.WithoutAbsent | src/base-execution-context.ts:20-22 | removing a callback that is not in the list leaves the list as it was |
| Channel.CallsForAppend | src/base-execution-context.ts:12-18 | the calls for a concatenation are the calls for each part, in order |
| Channel.EmitUnknownIsNoOp | src/base-execution-context.ts:12-14 | emitting a name that has no list makes no call |
| Channel.AddedListenerCalledLast | src/base-execution-context.ts:12-18 | after an add, emit makes the old calls and then exactly one call of the new listener; a listener added twice is called twice |
| Channel.AddThenRemove | src/base-execution-context.ts:16-22 | after an add and a remove of the same handler, it is not in the list and the others keep their order |
| Channel.RemoveUnregistered | src/base-execution-context.ts:20-22 | removing a handler that was never registered changes no name's listeners |
| Channel.EventChannel.constructor | src/base-execution-context.ts:5 | a new channel has an empty map |
| Channel.EventChannel.AddEventListener | src/execution-task.ts:33-35 | the stored map becomes `Add` of the old one (the same code as the context's channel) |
| Channel.EventChannel.RemoveEventListener | src/execution-task.ts:37-39 | the stored map becomes `Remove` of the old one |
| Channel.EventChannel.Emit | src/execution-task.ts:29-31 | the `forEach` loop makes exactly the calls `CallsFor` lists, in order |
| Tasks.NewTask | src/execution-task.ts:10-19 | a new task's unit is the callable it was built from; it has the given kind and stack, is not cancelled, has run 0 times and has no listeners |
| Tasks.Wrap | src/execution-task.ts:25-27 | the new unit is the augmentor applied to the old one; nothing else changes |
| Tasks.AddTaskListener | src/execution-task.ts:33-35 | the task's list for the name gains the listener at its end; every other name's list and every other field of the task is unchanged |
| Tasks.WrapNests | src/execution-task.ts:21-27 | two successive wraps nest, with the latest augmentor outermost |
| Runtime.IsA | src/execution-context.ts:21 | every class is an instance of itself and of ExecutionContext |
| Runtime.BuiltIn | src/execution-context.ts:122-124 | a class runs the `schedule` of a built-in class it is an instance of, and of the most derived one: every built-in class it is an instance of is an ancestor of that one |
| Runtime.StackOf | src/execution-context.ts:13-28 | every entry is a known context that is an instance of the class asked for; there are no more entries than zones |
| Runtime.Stack | src/execution-context.ts:13-28 | the `while` walk over the zone chain computes exactly `StackOf` |
| Runtime.Current | src/execution-context.ts:30-32 | absent exactly when the stack is empty, and otherwise the stack's first entry |
| Runtime.Fetch | src/execution-context.ts:34-40 | the callback's result, on the current context, exactly when there is one; nothing otherwise |
| Runtime.HandlerCalls | src/base-execution-context.ts:12-14 | one handler call per listener call, in order, with the event name and arguments |
| Runtime.EmitContext | src/base-execution-context.ts:12-14 | a context's emit only appends its handlers' calls to the trace |
| Runtime.DecrementCounter | src/builtin/lifecycle-tracker.ts:19-23 | the counter drops by one; the trace gains the 'stable' handler calls exactly when the counter was one; nothing else changes |
| Runtime.Perform | src/execution-task.ts:29-31 | a decrement lowers its own tracker's counter by one and no other, and emits 'stable' exactly when that counter was one; a user handler is recorded as one call on the task, with the event name; nothing else changes |
| Runtime.PerformAll | src/execution-task.ts:29-31 | the task's listeners, run in order, only change counters and add notifications |
| Runtime.PerformAllIgnoresHost | src/execution-task.ts:29-31 | the task's listeners read neither the zone frames nor the host's task list: the trace and contexts they leave do not depend on them |
| Runtime.EmitTask | src/execution-task.ts:29-31 | the event is recorded first; the tasks, native tasks and frames are unchanged, and only notifications follow; an unknown task emits nothing |
| Runtime.PerformNotices | src/execution-task.ts:29-31 | one listener adds its own handler call, when it is a user handler, and no other task-listener call |
| Runtime.PerformAllEffect | src/execution-task.ts:29-31 | running a listener list lowers every tracker's counter by the number of its decrements in the list, and calls the user handlers in list order |
| Runtime.EmitTaskEffect | src/execution-task.ts:29-31 | a task's emit lowers every tracker's counter by the number of its decrements registered for the event, and calls the task's user handlers for it in registration order |
| LifeCycleTracker.Schedule | src/builtin/lifecycle-tracker.ts:13-27 | nothing changes unless the tracker is enabled and is the current LifeCycleTracker; otherwise the counter goes up by one and one decrement is appended to the task's 'cancel' and 'finish' lists, with nothing else changed |
| UnhandledErrorTracker.Schedule | src/builtin/unhandled-error-tracker.ts:9-17 | the task's unit is wrapped in the tracker's guard exactly once; nothing else changes |
| Engine.ScheduleHook | src/execution-context.ts:122-124 | the `schedule` call is recorded once; then ExecutionContext's own `schedule` changes nothing more, an instance of LifeCycleTracker runs that class's `schedule`, and an instance of UnhandledErrorTracker runs its own |
| Engine.Enter | src/execution-context.ts:55-66 | pushes the context zone and the execution zone, and appends one sync task (kind sync, not cancelled, never run, the stack as it is inside the context zone), guarded when the context is an error tracker; the trace gains the entry and one `schedule` call |
| Engine.ExecBody | src/execution-context.ts:110-118 | user code leaves the frames, the contexts' classes, arguments and listeners as they were, and only grows the tables |
| Engine.RunContext | src/execution-context.ts:54-119 | the frames around `run` are restored; what `run` promises is proved in EngineFacts, FiringFacts and the tracker facts |
| Engine.ExecUnit | src/execution-context.ts:87-102 | calling a unit restores the frames and only grows the tables |
| Engine.ExecChain | src/execution-context.ts:83-84 | the native callback's trampoline restores the frames and only grows the tables |
| Engine.AfterFiring | src/execution-context.ts:91-101 | the `finally` step adds no task and no native task, and only extends the trace |
| Engine.OnScheduleTask | src/execution-context.ts:76-107 | for a known native task: exactly one new task, of the kind of the native task's source, with the stack of the current frames, not cancelled and never run, whose unit is the finishing wrapper (inside the guard when the context is an error tracker) and which has no listeners unless the context is a LifeCycleTracker; it is put in front of the native callback chain and remembered in the context's `taskMap`; earlier tasks are unchanged and `schedule` is called once on it. For an unknown native task, nothing |
| Engine.ScheduleHooks | src/execution-context.ts:76-107 | delegation through the zones keeps the frames and the native table's size |
| Engine.ScheduleNative | src/execution-context.ts:76-107 | a deferral keeps the frames and only grows the tables |
| Engine.CancelHooks | src/execution-context.ts:68-75 | cancel delegation keeps the frames and the native table's size |
| Engine.CancelNative | src/execution-context.ts:68-75 | `clearTimeout`/`clearInterval` reaches the zones only for a pending task, or a running interval, that is not a promise reaction; anything else leaves the state as it was, and a clear that succeeds leaves the host task cancelled |
| Engine.Fire | src/execution-context.ts:87-102 | firing keeps the frames around it and only grows the tables |
| Engine.WrapCallable | src/execution-context.ts:50-52 | calling the wrapped function, in any state, is exactly `run` on the same context |
| EngineFacts.IsATransitive | src/execution-context.ts:21 | `instanceof` is transitive along the subclass chain |
| EngineFacts.InstancesOf | src/execution-context.ts:21 | keeps only instances of the class, taken from the given list |
| EngineFacts.StackOfClass | src/execution-context.ts:13-28 | `stack()` on a class is, in order, exactly the instances of that class on the ExecutionContext stack |
| EngineFacts.StackOfSameClasses | src/execution-context.ts:13-28 | only the contexts' classes matter to `stack()` |
| EngineFacts.StackInsideRun | src/execution-context.ts:17-27 | inside `c.run`, the stack gains exactly `c` in front when `c` is an instance of the class asked for; the execution zone adds no second entry |
| EngineFacts.StackOutsideRun | src/execution-context.ts:13-32 | outside any run the stack is empty and there is no current context |
| EngineFacts.NestedRunStack | src/execution-context.ts:17-27 | `A.run(() => B.run(...))` gives `[B, A]` followed by the stack outside both, and `B` is current |
| EngineFacts.RunReturnsBody | src/execution-context.ts:110-118 | `run` returns what its body returns and rethrows what it throws, unless the context wraps its units |
| EngineFacts.RunSteps | src/execution-context.ts:54-119 | `run` is: enter, run the body, emit 'finish' on the sync task, restore the frames |
| EngineFacts.FlatBodyOutcome | src/execution-context.ts:54-66 | a body that enters no context returns what it describes and enters no context |
| EngineFacts.RunFinishesSyncTask | src/execution-context.ts:62-117 | `run` enters the context, then calls `schedule` on its sync task, and emits 'finish' on it after the body whether the body returned or threw; the frames are restored |
| Composed.Reversed | src/composed-execution-context.ts:10 | the same length, with element `i` taken from position `n-1-i` |
| Composed.Reduce | src/composed-execution-context.ts:10-11 | with no contexts, the seed itself; otherwise the last context's run is outermost, around the reduce of the others |
| Composed.ReduceReversedIsNest | src/composed-execution-context.ts:10-11 | reducing the reversed list nests the contexts in list order, the first outermost |
| Composed.ReversedTwice | src/composed-execution-context.ts:10 | reversing twice restores the list |
| Composed.ReduceIsReversedNest | src/composed-execution-context.ts:10-11 | reducing the stored list unreversed nests it in the opposite order |
| Composed.EmptyComposition | src/composed-execution-context.ts:10-11 | with no contexts, the composed run calls `func` itself |
| Composed.NestPassesThrough | src/composed-execution-context.ts:9-12 | the value or error of `func` comes through every layer unchanged, and each context is entered exactly once, in list order |
| Composed.ComposedExecutionContext.constructor | src/composed-execution-context.ts:5-7 | the stored array holds the given contexts in order |
| Composed.ComposedExecutionContext.Reverse | src/composed-execution-context.ts:10 | the stored array is reversed in place |
| Composed.ComposedExecutionContext.Run | src/composed-execution-context.ts:9-12 | the result is the nested runs of the list as it was before the call, first context outermost; the stored array ends up reversed, so the next call nests the other way round |
| Composed.Compose | src/execution-context.ts:42-44 | a new composed context over the arguments, in the given order |
| StateTracker.Lookup | src/builtin/state-tracker.ts:11-18 | the value from the first tracker that has the key, or the default when none has it |
| StateTracker.Get | src/builtin/state-tracker.ts:11-18 | the default when no tracker on the stack has the key; the current tracker's value when it has the key |
| StateTracker.GetInsideRun | src/builtin/state-tracker.ts:11-18 | inside `t.run`, `t`'s own entry wins; a key `t` lacks is looked up as outside |
| StateTracker.LookupSameStates | src/builtin/state-tracker.ts:11-18 | only the trackers' states matter to a lookup |
| StateTracker.NestedTrackers | src/builtin/state-tracker.ts:11-18 | the inner tracker shadows the outer one; a key only the outer one has is still found; a key neither has falls through |
| StateTracker.GetOutsideTrackers | src/builtin/state-tracker.ts:17 | with no tracker on the stack, `get` returns the default |
| StateTracker.OtherContextsSkipped | src/builtin/state-tracker.ts:12 | running inside a context that is not a StateTracker does not change `get` |
| FiringFacts.NoHooksNoChange | src/execution-context.ts:76-107 | deferring through zones without hooks changes nothing |
| FiringFacts.HooksScheduleOnceEach | src/execution-context.ts:105 | a deferral calls `schedule` once per execution zone it is made in, and enters no context |
| FiringFacts.DeferScheduleCount | src/execution-context.ts:76-107 | a deferral returns its native task's handle and calls `schedule` once per enclosing execution zone |
| FiringFacts.StraightScheduleCount | src/execution-context.ts:105 | a body that defers but enters nothing calls `schedule` once per deferral and enclosing execution zone |
| FiringFacts.GuardIsQuiet | src/builtin/unhandled-error-tracker.ts:10-16 | the error guard adds only notifications to what its unit does |
| FiringFacts.RunScheduleCount | src/execution-context.ts:54-119 | `run` calls `schedule` once for its sync task and, for each deferral in the body, once per execution zone around it; it enters exactly its context |
| FiringFacts.ScheduleKeepsFlags | src/execution-context.ts:122-124 | no `schedule` touches a task's `cancelled` or `runCount` |
| FiringFacts.FinishEveryFiring | src/execution-context.ts:87-101 | after every firing 'finish' is emitted first; a `setInterval` task counts the run and is scheduled again exactly when it is not cancelled |
| FiringFacts.ChainOfOne | src/execution-context.ts:83-102 | the native callback calls the hook's task's unit, which runs the callback and then the finishing step |
| FiringFacts.FireSteps | src/execution-context.ts:83-102 | firing runs the callback in the frames it was scheduled in, then the finishing step; a `setInterval` task stays pending unless cancelled |
| FiringFacts.IntervalReschedules | src/execution-context.ts:96-100 | a `setInterval` firing that does not cancel leaves the task pending, counts the run and calls `schedule` once more |
| FiringFacts.CancelNoHooks | src/execution-context.ts:68-75 | cancelling through zones without hooks does nothing and does not fail |
| FiringFacts.CancelMarksTask | src/execution-context.ts:68-75 | for a task the host lets be cancelled, cancelling sets `cancelled` on the hook's task and nothing else in the table, emits 'cancel' on it first, and cancels the host task |
| FiringFacts.SelfClearingTimeoutIgnored | src/execution-context.ts:68-75 | a one-shot timer that clears itself from its own callback is not cancelled: no 'cancel', the hook's task is not marked, and the firing is exactly its 'finish' before the task completes |
| FiringFacts.SelfClearingIntervalStops | src/execution-context.ts:87-101 | an interval whose callback clears it is cancelled, still gets its 'finish' and its counted run, and is not scheduled again |
| FiringFacts.HookStepCaptures | src/execution-context.ts:76-107 | one hook puts its new task in front of the native task's chain, made like the tasks already there |
| FiringFacts.HooksCapture | src/execution-context.ts:76-107 | the hooks of a frame chain put one task per execution zone on the native task's chain, each of the native task's kind, with the stack of the deferring frames and a hook's unit; nothing else about the native task changes |
| FiringFacts.ScheduleNativeCaptures | src/execution-context.ts:76-107 | a deferral returns the new native task's handle; the native task keeps the deferring frames as its zone, and its chain holds one task per execution zone there, each with the `stack()` of those frames |
| FiringFacts.FinishingRuns | src/execution-context.ts:83-101 | a finishing wrapper runs the rest of the chain, then the `finally` step, and passes the outcome through |
| FiringFacts.GuardExtends | src/builtin/unhandled-error-tracker.ts:10-16 | the guard only adds to the trace of what it wraps |
| FiringFacts.ChainStep | src/execution-context.ts:83-102 | one hook unit only adds to the trace of the rest of the chain, and passes its outcome through unless it is a guard |
| FiringFacts.ChainRunsCallback | src/execution-context.ts:83-102 | for a chain of any length, the callback runs first, in the world the chain was called in; the wrappers only add to the trace after it, and with no guard the callback's outcome comes out unchanged |
| FiringFacts.FireRunsCallbackInZone | src/execution-context.ts:83-102 | for a chain of any length, firing runs the callback in the frames the task was scheduled in, before any finishing step, and restores the frames; with no guard the callback's outcome is the firing's |
| LifeCycleFacts.NewTracker | src/builtin/lifecycle-tracker.ts:5-11 | a new tracker is enabled unless told otherwise, and its counter starts at zero |
| LifeCycleFacts.DisabledNeverCounts | src/builtin/lifecycle-tracker.ts:14-15 | a disabled tracker's `schedule` changes nothing |
| LifeCycleFacts.StableExactlyAtZero | src/builtin/lifecycle-tracker.ts:19-23 | a decrement lowers the counter by one, with no clamping; 'stable' is emitted exactly when the new value is zero |
| LifeCycleFacts.EnterCounts | src/builtin/lifecycle-tracker.ts:13-27 | entering an enabled tracker's run counts the sync task and registers the decrement for 'cancel' and 'finish' |
| LifeCycleFacts.EmitSingleDecrement | src/builtin/lifecycle-tracker.ts:19-26 | an event whose only listener is the decrement records the event, then decrements |
| LifeCycleFacts.SyncRunBecomesStable | src/builtin/lifecycle-tracker.ts:13-27 | for a body with no deferred work, the body's marks come before 'stable', and 'stable' has fired by the time `run` returns, with the counter back at zero |
| LifeCycleFacts.OnScheduleCounted | src/execution-context.ts:76-107 | the hook of the current tracker makes one new task that wraps the native callback, remembers it, and counts it with both decrements |
| LifeCycleFacts.DeferCounted | src/builtin/lifecycle-tracker.ts:13-27 | a deferral directly inside an enabled tracker's run makes one native task and one counted task, and one `schedule` call |
| LifeCycleFacts.TimeoutKeepsUnstable | src/builtin/lifecycle-tracker.ts:19-26 | after `run(() => setTimeout(cb))` the counter is one and 'stable' has not been emitted; the trace is the entry, the two `schedule` calls and the sync task's 'finish' |
| LifeCycleFacts.DeferThenFinish | src/builtin/lifecycle-tracker.ts:19-26 | a deferral and then 'finish' on the sync task leave the counter at one, with no 'stable' |
| LifeCycleFacts.DeferThenFinishPlaced | src/execution-context.ts:76-107 | that deferral's native task is the only new one and waits in the frames it was made in |
| LifeCycleFacts.CountingHookStep | src/builtin/lifecycle-tracker.ts:13-27 | the `schedule` of the current, enabled tracker counts the task and registers the decrement for 'finish' and 'cancel', changing nothing else |
| LifeCycleFacts.TimeoutFiringStabilises | src/builtin/lifecycle-tracker.ts:19-26 | firing that timer brings the counter to zero and emits 'stable' after everything the callback did |
| LifeCycleFacts.TimeoutPlacedInRun | src/execution-context.ts:76-107 | the timer deferred in `run` is pending with the decrement on 'finish', and waits in the frames of the run, as the only new native task, after the sync task and its own task |
| LifeCycleFacts.SelfClearingTimeoutStabilises | src/builtin/lifecycle-tracker.ts:19-26 | a counted timer that clears itself decrements once, on 'finish': the counter reaches zero and 'stable' is emitted once, after 'finish' |
| LifeCycleFacts.TimeoutFromTimeoutKeepsUnstable | src/builtin/lifecycle-tracker.ts:13-27 | a timer callback that defers another timer: the new timer is counted before the decrement, so the counter stays at one and 'stable' is not emitted; the new timer is pending under the tracker in the same way |
| LifeCycleFacts.TwoFirings | src/builtin/lifecycle-tracker.ts:13-27 | the outer timer's firing leaves the counter at one; the inner timer's firing brings it to zero and emits 'stable' last |
| LifeCycleFacts.NestedTimeoutScenario | src/builtin/lifecycle-tracker.ts:13-27 | `run(() => setTimeout(() => setTimeout(cb)))`: not stable after `run` nor after the first firing; stable, with 'stable' emitted last, once the inner timer has fired |
| LifeCycleFacts.SimpleTimeoutScenario | src/builtin/lifecycle-tracker.ts:13-27 | the whole timeout scenario: not stable after `run`, stable once the timer has fired, 'stable' emitted exactly once, at the end |
| LifeCycleFacts.CancelThenFinishDecrementsTwice | src/builtin/lifecycle-tracker.ts:25-26 | a counted task that is cancelled and then finishes decrements twice: from one to minus one, with 'stable' emitted once, at the cancel |
| ErrorTrackerFacts.EnterErrorTracker | src/builtin/unhandled-error-tracker.ts:9-17 | entering an error tracker's run guards the sync task once and touches no context |
| ErrorTrackerFacts.GuardedRunSteps | src/builtin/unhandled-error-tracker.ts:10-16 | an error tracker's run emits 'error' with exactly what the body threw, then 'finish', and returns undefined whatever the body did |
| ErrorTrackerFacts.ErrorTrackerSwallows | src/builtin/unhandled-error-tracker.ts:10-16 | for a body that enters nothing, the 'error' handlers are called with the thrown error exactly when the body throws; `run` returns undefined and changes no context |
| ErrorTrackerFacts.GuardedRunOfReturn | src/builtin/unhandled-error-tracker.ts:10-16 | around a body that returns, nothing is reported and the body's return value is discarded |
| ErrorTrackerFacts.InnerTrackerStopsPropagation | src/builtin/unhandled-error-tracker.ts:13-15 | with two nested trackers, only the inner one reports the error; the outer one sees a normal return and its 'error' handlers are never called |
| ErrorTrackerFacts.GuardedHookStep | src/builtin/unhandled-error-tracker.ts:9-17 | an error tracker's hook puts one task in front of the chain, with the finishing wrapper inside the tracker's guard and no listeners |
| ErrorTrackerFacts.DeferGuarded | src/builtin/unhandled-error-tracker.ts:9-17 | a deferral directly inside an error tracker's run makes one native task whose chain is one task, with the finishing wrapper inside the tracker's guard and no listeners |
| ErrorTrackerFacts.GuardedTimeoutReports | src/builtin/unhandled-error-tracker.ts:10-16 | firing such a timer whose callback throws: 'finish' on the task first, then the tracker's 'error' handlers with the thrown value; the firing returns normally |
| ErrorTrackerFacts.GuardedRunDeferSteps | src/builtin/unhandled-error-tracker.ts:10-16 | an error tracker's run around a deferral is: enter, defer, 'finish' on the sync task, return undefined |
| ErrorTrackerFacts.GuardedDeferThenFinish | src/builtin/unhandled-error-tracker.ts:9-17 | the deferral and the sync task's 'finish' leave the timer pending with its one guarded task, and the tracker's 'error' handlers as they were |
| ErrorTrackerFacts.TimeoutInErrorTracker | src/builtin/unhandled-error-tracker.ts:9-17 | after `tracker.run(() => setTimeout(() => { throw x; }))`, `run` has returned undefined and the timer is pending with its one guarded task |
| ErrorTrackerFacts.ForwardsDeferredError | src/builtin/unhandled-error-tracker.ts:10-16 | the error that timer's callback throws reaches the tracker's 'error' handlers when the timer fires, after 'finish', and the firing returns normally |
| ErrorTrackerFacts.InsideTwoRuns | src/execution-context.ts:55-66 | inside `outer.run(() => inner.run(...))` the frames are the inner run's two zones, then the outer run's |
| ErrorTrackerFacts.DeferUnderTwoGuards | src/builtin/unhandled-error-tracker.ts:9-17 | a deferral under two error trackers gives a chain of the outer tracker's task, then the inner one's, each guarded by its own tracker, with no listeners |
| ErrorTrackerFacts.NestedGuardsReportOnce | src/builtin/unhandled-error-tracker.ts:13-15 | firing such a timer whose callback throws: the inner tracker reports the error and the outer one reports nothing; 'finish' on the inner task, the inner 'error' calls, then 'finish' on the outer task |

## Left out

- Zone.js itself is not modelled: `Zone.current`, `fork`, `getZoneWith`, and the
  `pz.scheduleTask`/`pz.cancelTask` delegation. The zone chain is the `frames`
  sequence. Delegation runs every enclosing execution zone's hook, innermost first.
  A native task's callback chain then calls the outermost hook's task first.
- Timer delays, microtask ordering and the host's choice of what fires next are
  host behaviour. Firing is an explicit `Engine.Fire` step that the caller chooses.
- Callable arguments are not modelled. Every callable is called with no arguments,
  as `run` calls its unit. The `window`/`global` binding of the unit
  (`src/execution-context.ts:111`) is not modelled either.
- Listeners are recorded as calls, and a listener that throws is not modelled. In
  the source such a throw would stop the `forEach` part-way.
- Users' own overrides of `schedule` and `run` are not modelled. A user subclass runs
  the `schedule` of the built-in class it extends. The only augmentors passed to
  `wrap` are the library's two wrappers (`Tasks.Unit`). An arbitrary user-written
  augmentor, such as one that adds effects before and after its unit, has no
  counterpart in the body language.
- The `taskMap` `WeakMap` is an ordinary map, with no garbage collection.
  - Engine.CancelHooks: a hook whose task map has no entry for the native task raises
    `TypeError`. That entry is always there for tasks scheduled through the hook.
- Objects are table entries. `ExecutionTask` is a record in the world's task table,
  indexed by identity, not a class. The container write-through of the `unit`
  setter is folded into the record's `unit` field. The listener map is the same
  `Channel` map as the context's.
- A `setInterval` callback that clears itself only on its third run is not
  modelled: a body cannot read the run count, so no single callback both leaves
  the interval alone and clears it. No lemma states the schedule count of such a
  run. By analogy, its first two firings behave as `FiringFacts.IntervalReschedules`
  describes for a callback that does not clear, and its last as
  `FiringFacts.SelfClearingIntervalStops` describes.
- Composed.ComposedExecutionContext.constructor: it copies the given contexts into
  a fresh array. The source keeps the caller's array itself
  (`src/composed-execution-context.ts:5`), and `run` reverses that array in place
  (`:10`), so a caller that kept the array would see it reversed. The model does
  not capture that aliasing. `compose` passes a fresh rest-parameter array, so its
  path is unaffected.
- Runtime.PerformAll: its own contract states only that counters change and
  notifications are added. The counter drop and the order of the handler calls are
  stated by `Runtime.PerformAllEffect`.
- Runtime.EmitTask: its own contract states only what stays the same and that the
  event is recorded first. The counter drop and the order of the handler calls are
  stated by `Runtime.EmitTaskEffect`.
- Runtime.PerformAllEffect: the 'stable' calls a decrement makes are not placed
  in the trace. The lemma counts the decrements and orders the user handler calls.
- LifeCycleTracker.Schedule: the property that 'stable' is never emitted on an
  increment is carried by `trace` being unchanged. No separate lemma states it.
- Engine.ExecBody: its own contract states only what user code never changes. What
  it computes is stated by the lemmas that name it.
- Engine.RunContext: its own contract states only that the frames are restored. Its
  promises are `EngineFacts.RunReturnsBody`, `EngineFacts.RunFinishesSyncTask` and
  `FiringFacts.RunScheduleCount`.
- Engine.ExecUnit: its own contract states only persistence. The wrappers are
  described by `FiringFacts.ChainOfOne` and `ErrorTrackerFacts.GuardedRunSteps`.
- Engine.ExecChain: its own contract states only persistence; see `FiringFacts.ChainOfOne`
  and `FiringFacts.ChainRunsCallback`.
- Engine.AfterFiring: its own contract states only that the tables keep their size;
  see `FiringFacts.FinishEveryFiring`.
- Engine.ScheduleHooks: its own contract states only persistence; see
  `FiringFacts.HooksScheduleOnceEach`.
- Engine.ScheduleNative: its own contract states only persistence; see
  `FiringFacts.DeferScheduleCount`, `FiringFacts.ScheduleNativeCaptures` and
  `LifeCycleFacts.DeferCounted`.
- Engine.CancelHooks: its own contract states only persistence; see `FiringFacts.CancelMarksTask`.
- Engine.CancelNative: which tasks the host lets `clearTimeout`/`clearInterval` cancel is
  decided by Zone.js's timer patch, which is not part of this model. `Engine.Cancellable`
  states the rule taken from it: never a promise reaction, always a pending task, and a
  running task only when it is an interval (a running DOM-event task is treated like a
  one-shot timer). The effect on the hook's task is in `FiringFacts.CancelMarksTask`.
- Engine.Fire: its own contract states only persistence; see `FiringFacts.FireSteps`,
  `FiringFacts.FireRunsCallbackInZone`, `FiringFacts.IntervalReschedules`,
  `LifeCycleFacts.TimeoutFiringStabilises` and `ErrorTrackerFacts.GuardedTimeoutReports`.
- FiringFacts.ChainRunsCallback: through a guard, the lemma states only that the
  trace is extended. What the guard reports is stated for one and two trackers by
  `ErrorTrackerFacts.GuardedTimeoutReports` and `ErrorTrackerFacts.NestedGuardsReportOnce`.
- Composed.NestPassesThrough: proved for contexts that do not wrap their units and
  for bodies that enter no context. Through an error tracker the value is
  discarded, as `ErrorTrackerFacts.GuardedRunSteps` states.
