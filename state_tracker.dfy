/**
 * `StateTracker.get` (state-tracker.ts:11-18): the value stored under a key by
 * the nearest StateTracker on the stack that has it, or the default.
 */
module StateTracker {
  import opened Wrappers
  import opened Tasks
  import opened Runtime
  import opened Engine
  import opened EngineFacts

  /** Whether tracker `c`'s state has `key`; a context that is not in the table has no state. */
  predicate Has(contexts: seq<Context>, c: ContextId, key: string)
  {
    c < |contexts| && key in contexts[c].state
  }

  /** The `for ... of` over the trackers, returning at the first one that has the key. */
  function Lookup(trackers: seq<ContextId>, contexts: seq<Context>, key: string, defaultValue: Value): (v: Value)
    ensures (forall i :: 0 <= i < |trackers| ==> !Has(contexts, trackers[i], key)) ==> v == defaultValue
    ensures forall i :: 0 <= i < |trackers| && Has(contexts, trackers[i], key)
                     && (forall j :: 0 <= j < i ==> !Has(contexts, trackers[j], key))
                     ==> v == contexts[trackers[i]].state[key]
  {
    if trackers == [] then defaultValue
    else if Has(contexts, trackers[0], key) then contexts[trackers[0]].state[key]
    else Lookup(trackers[1..], contexts, key, defaultValue)
  }

  /** `StateTracker.get(key, defaultValue)`; an omitted default is `Undefined`. */
  function Get(w: World, key: string, defaultValue: Value): (v: Value)
    ensures (forall c :: c in StackOf(w.frames, w.contexts, StateTrackerClass) ==> !Has(w.contexts, c, key))
            ==> v == defaultValue
    ensures Current(w, StateTrackerClass).Some? && Has(w.contexts, Current(w, StateTrackerClass).value, key)
            ==> v == w.contexts[Current(w, StateTrackerClass).value].state[key]
  {
    var s := StackOf(w.frames, w.contexts, StateTrackerClass);
    assert (forall c :: c in s ==> !Has(w.contexts, c, key)) ==> forall i :: 0 <= i < |s| ==> !Has(w.contexts, s[i], key);
    Lookup(s, w.contexts, key, defaultValue)
  }

  /**
   * Inside `t.run` for a StateTracker `t`: `t`'s own entry wins, and a key `t`
   * does not have is looked up as it was outside.
   */
  lemma GetInsideRun(w: World, t: ContextId, key: string, defaultValue: Value)
    requires t < |w.contexts| && IsA(w.contexts[t].cls, StateTrackerClass)
    ensures Get(Enter(w, t), key, defaultValue)
         == if key in w.contexts[t].state then w.contexts[t].state[key] else Get(w, key, defaultValue)
  {
    var w' := Enter(w, t);
    StackInsideRun(w, t, StateTrackerClass);
    var s := StackOf(w.frames, w.contexts, StateTrackerClass);
    assert ([t] + s)[1..] == s;
    assert w'.contexts[t].state == w.contexts[t].state;
    LookupSameStates(s, w.contexts, w'.contexts, key, defaultValue);
  }

  /** Only the states of the contexts matter to a lookup. */
  lemma {:induction false} LookupSameStates(trackers: seq<ContextId>, cs: seq<Context>, cs': seq<Context>, key: string, defaultValue: Value)
    requires |cs| == |cs'| && forall i :: 0 <= i < |cs| ==> cs[i].state == cs'[i].state
    ensures Lookup(trackers, cs, key, defaultValue) == Lookup(trackers, cs', key, defaultValue)
  {
    if trackers != [] {
      LookupSameStates(trackers[1..], cs, cs', key, defaultValue);
    }
  }

  /**
   * `s1.run(() => s2.run(() => get(key)))`: the inner tracker's entry shadows the
   * outer one's, a key only the outer one has is still found, and a key neither
   * has falls through to what was visible outside both (the default outside any tracker).
   */
  lemma NestedTrackers(w: World, s1: ContextId, s2: ContextId, key: string, defaultValue: Value)
    requires s1 < |w.contexts| && IsA(w.contexts[s1].cls, StateTrackerClass)
    requires s2 < |w.contexts| && IsA(w.contexts[s2].cls, StateTrackerClass)
    ensures Get(Enter(Enter(w, s1), s2), key, defaultValue)
         == if key in w.contexts[s2].state then w.contexts[s2].state[key]
            else if key in w.contexts[s1].state then w.contexts[s1].state[key]
            else Get(w, key, defaultValue)
  {
    var w1 := Enter(w, s1);
    GetInsideRun(w, s1, key, defaultValue);
    GetInsideRun(w1, s2, key, defaultValue);
  }

  /** Outside every tracker `get` returns the default it was given. */
  lemma GetOutsideTrackers(w: World, key: string, defaultValue: Value)
    requires StackOf(w.frames, w.contexts, StateTrackerClass) == []
    ensures Get(w, key, defaultValue) == defaultValue
  {
  }

  /** Contexts that are not StateTrackers are skipped: running inside one does not change `get`. */
  lemma OtherContextsSkipped(w: World, c: ContextId, key: string, defaultValue: Value)
    requires c < |w.contexts| && !IsA(w.contexts[c].cls, StateTrackerClass)
    ensures Get(Enter(w, c), key, defaultValue) == Get(w, key, defaultValue)
  {
    var w' := Enter(w, c);
    var s := StackOf(w.frames, w.contexts, StateTrackerClass);
    StackInsideRun(w, c, StateTrackerClass);
    assert StackOf(w'.frames, w'.contexts, StateTrackerClass) == s;
    LookupSameStates(s, w.contexts, w'.contexts, key, defaultValue);
  }
}
