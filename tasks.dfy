/**
 * `ExecutionTask`: one schedulable unit of work. The runtime keeps every task in
 * a table indexed by `TaskId`, which stands for the task object's identity; the
 * functions below give the record after one of the object's setters has run.
 */
module Tasks {
  import opened Channel

  type ContextId = nat
  type TaskId = nat
  type HandlerId = nat

  /** What JavaScript code returns or throws. `TypeError` is the error the runtime raises itself. */
  datatype Value = Undefined | Num(n: int) | Text(s: string) | Error(code: nat) | TypeError

  /** A callable either returns a value or throws one. */
  datatype Outcome = Returned(value: Value) | Threw(error: Value)

  /** The `type` strings: 'sync' for `run`'s own task, then Zone.js's three kinds. */
  datatype TaskKind = Sync | Microtask | Macrotask | Event

  /**
   * A task's `unit`, as a stack of closures around the callable the task was built from.
   *   Original             the callable the task was built from;
   *   Finishing(t, r, o, u) the wrapper installed by the `onScheduleTask` hook of
   *                         context `o` (execution-context.ts:88-102): runs `u`, then
   *                         emits 'finish' on task `t`, and when `r` (the native task
   *                         comes from `setInterval`) counts the run and re-schedules;
   *   Guarded(c, u)         the wrapper installed by `UnhandledErrorTracker` `c`.
   */
  datatype Unit =
    | Original
    | Finishing(task: TaskId, recurring: bool, owner: ContextId, inner: Unit)
    | Guarded(tracker: ContextId, inner: Unit)

  /** Listener identities on a task: the tracker's decrement closure, or a handler. */
  datatype TaskListener = Decrement(tracker: ContextId) | Handler(id: HandlerId)

  datatype ExecutionTask = ExecutionTask(
    unit: Unit,
    kind: TaskKind,
    capturedStack: seq<ContextId>,
    cancelled: bool,
    runCount: nat,
    eventMap: EventMap<TaskListener>)

  /** `new ExecutionTask(callable, kind, stack)`: not cancelled, never run, no listeners. */
  function NewTask(callable: Unit, kind: TaskKind, stack: seq<ContextId>): (t: ExecutionTask)
    ensures t.unit == callable && t.kind == kind && t.capturedStack == stack
    ensures !t.cancelled && t.runCount == 0
    ensures forall name :: Listeners(t.eventMap, name) == []
  {
    ExecutionTask(callable, kind, stack, false, 0, map[])
  }

  /** `wrap(augmentor)`: the new unit is the augmentor applied to the old one; nothing else changes. */
  function Wrap(t: ExecutionTask, augmentor: Unit -> Unit): (t': ExecutionTask)
    ensures t'.unit == augmentor(t.unit)
    ensures t' == t.(unit := t'.unit)
  {
    t.(unit := augmentor(t.unit))
  }

  /** `addEventListener` on the task's own channel. */
  function AddTaskListener(t: ExecutionTask, name: string, l: TaskListener): (t': ExecutionTask)
    ensures Listeners(t'.eventMap, name) == Listeners(t.eventMap, name) + [l]
    ensures forall other :: other != name ==> Listeners(t'.eventMap, other) == Listeners(t.eventMap, other)
    ensures t' == t.(eventMap := t'.eventMap)
  {
    t.(eventMap := Add(t.eventMap, name, l))
  }

  /** Successive wraps nest: the latest augmentor is outermost. */
  lemma WrapNests(t: ExecutionTask, f: Unit -> Unit, g: Unit -> Unit)
    ensures Wrap(Wrap(t, f), g).unit == g(f(t.unit))
    ensures Wrap(Wrap(t, f), g) == t.(unit := g(f(t.unit)))
  {
  }
}
