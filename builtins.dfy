/**
 * `LifeCycleTracker.schedule` (lifecycle-tracker.ts:13-27): counts the task when
 * tracking is enabled and this tracker is the current LifeCycleTracker, and
 * registers the decrement closure for both 'cancel' and 'finish' on the task.
 */
module LifeCycleTracker {
  import opened Wrappers
  import opened Channel
  import opened Tasks
  import opened Runtime

  /** Whether `schedule` on tracker `c` counts: enabled, and the current tracker is `c` itself. */
  predicate Counts(w: World, c: ContextId)
    requires c < |w.contexts|
  {
    w.contexts[c].enabled && Current(w, LifeCycleTrackerClass) == Some(c)
  }

  function Schedule(w: World, c: ContextId, t: TaskId): (w': World)
    ensures Persists(w, w') && w'.natives == w.natives && w'.trace == w.trace
    ensures |w'.tasks| == |w.tasks|
    ensures c >= |w.contexts| || t >= |w.tasks| || !Counts(w, c) ==> w' == w
    ensures c < |w.contexts| && t < |w.tasks| && Counts(w, c) ==>
      && w'.contexts == w.contexts[c := w.contexts[c].(counter := w.contexts[c].counter + 1)]
      && Listeners(w'.tasks[t].eventMap, "cancel") == Listeners(w.tasks[t].eventMap, "cancel") + [Decrement(c)]
      && Listeners(w'.tasks[t].eventMap, "finish") == Listeners(w.tasks[t].eventMap, "finish") + [Decrement(c)]
      && (forall name :: name != "cancel" && name != "finish" ==>
            Listeners(w'.tasks[t].eventMap, name) == Listeners(w.tasks[t].eventMap, name))
      && w'.tasks == w.tasks[t := w'.tasks[t]]
      && w'.tasks[t] == w.tasks[t].(eventMap := w'.tasks[t].eventMap)
  {
    if c >= |w.contexts| || t >= |w.tasks| || !Counts(w, c) then w
    else
      var ctx := w.contexts[c];
      var task := AddTaskListener(AddTaskListener(w.tasks[t], "cancel", Decrement(c)), "finish", Decrement(c));
      w.(contexts := w.contexts[c := ctx.(counter := ctx.counter + 1)],
         tasks := w.tasks[t := task])
  }
}

/**
 * `UnhandledErrorTracker.schedule` (unhandled-error-tracker.ts:9-17): wraps the
 * task's unit in a guard that catches what it throws and emits it as 'error'.
 */
module UnhandledErrorTracker {
  import opened Tasks
  import opened Runtime

  function Schedule(w: World, c: ContextId, t: TaskId): (w': World)
    ensures t < |w.tasks| ==> w' == w.(tasks := w.tasks[t := w.tasks[t].(unit := Guarded(c, w.tasks[t].unit))])
    ensures t >= |w.tasks| ==> w' == w
  {
    if t < |w.tasks| then SetTask(w, t, Wrap(w.tasks[t], u => Guarded(c, u))) else w
  }
}
