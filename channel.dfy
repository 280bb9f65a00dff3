/**
 * The event channel of `BaseExecutionContext` (and the identical one inside
 * `ExecutionTask`): a map from event name to an ordered listener list.
 * `addEventListener` appends with `concat`, `removeEventListener` keeps the
 * entries that are not identical to the callback, and `emit` calls the
 * listeners of a name in order with the same arguments.
 *
 * Listeners are identities (`L`); the model records a call as `Call(listener, args)`.
 * Because add and remove always store a NEW list, an emit walks the list it read
 * when it started, so computing the calls first and performing them afterwards
 * is the same as calling them one by one.
 */
module Channel {

  type EventMap<L> = map<string, seq<L>>

  /** `this.eventMap.get(eventName) || []` */
  function Listeners<L>(m: EventMap<L>, name: string): (r: seq<L>)
    ensures name !in m ==> r == []
    ensures name in m ==> r == m[name]
  {
    if name in m then m[name] else []
  }

  /** The list stored by `addEventListener`. */
  function Add<L>(m: EventMap<L>, name: string, l: L): (m': EventMap<L>)
    ensures Listeners(m', name) == Listeners(m, name) + [l]
    ensures forall other :: other != name ==> Listeners(m', other) == Listeners(m, other)
  {
    m[name := Listeners(m, name) + [l]]
  }

  /** `filter(x => x !== l)`: every entry identical to `l` is dropped, the rest kept. */
  function Without<L(==)>(ls: seq<L>, l: L): (r: seq<L>)
    ensures l !in r
    ensures forall i :: 0 <= i < |r| ==> r[i] in ls
    ensures forall i :: 0 <= i < |ls| && ls[i] != l ==> ls[i] in r
    ensures |r| <= |ls|
  {
    if ls == [] then []
    else (if ls[0] == l then [] else [ls[0]]) + Without(ls[1..], l)
  }

  /** The list stored by `removeEventListener`; the name always ends up present. */
  function Remove<L(==)>(m: EventMap<L>, name: string, l: L): (m': EventMap<L>)
    ensures name in m'
    ensures Listeners(m', name) == Without(Listeners(m, name), l)
    ensures forall other :: other != name ==> Listeners(m', other) == Listeners(m, other)
  {
    m[name := Without(Listeners(m, name), l)]
  }

  datatype Call<L, A> = Call(listener: L, args: A)

  /** The calls `forEach(handler => handler(...args))` makes, in order. */
  function CallsFor<L, A>(ls: seq<L>, args: A): (cs: seq<Call<L, A>>)
    ensures |cs| == |ls|
    ensures forall i :: 0 <= i < |ls| ==> cs[i].listener == ls[i] && cs[i].args == args
  {
    if ls == [] then [] else [Call(ls[0], args)] + CallsFor(ls[1..], args)
  }

  /** Filtering distributes over concatenation: the order of the kept listeners is kept. */
  lemma {:induction false} WithoutAppend<L>(a: seq<L>, b: seq<L>, l: L)
    ensures Without(a + b, l) == Without(a, l) + Without(b, l)
  {
    if a == [] {
      assert a + b == b;
    } else {
      assert (a + b)[0] == a[0];
      assert (a + b)[1..] == a[1..] + b;
      WithoutAppend(a[1..], b, l);
    }
  }

  /** Removing a listener that is not registered leaves the list as it was. */
  lemma {:induction false} WithoutAbsent<L>(ls: seq<L>, l: L)
    requires l !in ls
    ensures Without(ls, l) == ls
  {
    if ls != [] {
      WithoutAbsent(ls[1..], l);
    }
  }

  /** Emitting after one more registration makes exactly one more call, at the end. */
  lemma {:induction false} CallsForAppend<L, A>(a: seq<L>, b: seq<L>, args: A)
    ensures CallsFor(a + b, args) == CallsFor(a, args) + CallsFor(b, args)
  {
    if a == [] {
      assert a + b == b;
    } else {
      assert (a + b)[1..] == a[1..] + b;
      CallsForAppend(a[1..], b, args);
    }
  }

  /** An event with no listeners produces no calls. */
  lemma EmitUnknownIsNoOp<L, A>(m: EventMap<L>, name: string, args: A)
    requires name !in m
    ensures CallsFor(Listeners(m, name), args) == []
  {
  }

  /** Registration order is call order, and a listener added twice is called twice. */
  lemma AddedListenerCalledLast<L, A>(m: EventMap<L>, name: string, l: L, args: A)
    ensures CallsFor(Listeners(Add(m, name, l), name), args)
         == CallsFor(Listeners(m, name), args) + [Call(l, args)]
  {
    CallsForAppend(Listeners(m, name), [l], args);
  }

  /** Adding then removing a handler: a later emit never calls it, the others keep their order. */
  lemma AddThenRemove<L>(m: EventMap<L>, name: string, h: L)
    ensures Listeners(Remove(Add(m, name, h), name, h), name) == Without(Listeners(m, name), h)
    ensures h !in Listeners(Remove(Add(m, name, h), name, h), name)
  {
    WithoutAppend(Listeners(m, name), [h], h);
  }

  /** Removing a never-registered handler changes no name's listeners. */
  lemma RemoveUnregistered<L>(m: EventMap<L>, name: string, h: L)
    requires h !in Listeners(m, name)
    ensures forall n :: Listeners(Remove(m, name, h), n) == Listeners(m, n)
  {
    WithoutAbsent(Listeners(m, name), h);
  }

  /**
   * The channel object as `BaseExecutionContext` holds it: the methods replace the
   * list stored for one name, and `Emit` walks the current list.
   */
  class EventChannel<L(==)> {
    var eventMap: EventMap<L>

    constructor ()
      ensures eventMap == map[]
    {
      eventMap := map[];
    }

    method AddEventListener(name: string, callback: L)
      modifies this
      ensures eventMap == Add(old(eventMap), name, callback)
    {
      eventMap := eventMap[name := Listeners(eventMap, name) + [callback]];
    }

    method RemoveEventListener(name: string, callback: L)
      modifies this
      ensures eventMap == Remove(old(eventMap), name, callback)
    {
      eventMap := eventMap[name := Without(Listeners(eventMap, name), callback)];
    }

    /** The calls made by `emit(name, ...args)`, in the order they are made. */
    method Emit<A>(name: string, args: A) returns (calls: seq<Call<L, A>>)
      ensures calls == CallsFor(Listeners(eventMap, name), args)
    {
      var ls := Listeners(eventMap, name);
      calls := [];
      var i := 0;
      while i < |ls|
        invariant 0 <= i <= |ls|
        invariant calls == CallsFor(ls[..i], args)
      {
        CallsForAppend(ls[..i], [ls[i]], args);
        assert ls[..i + 1] == ls[..i] + [ls[i]];
        calls := calls + [Call(ls[i], args)];
        i := i + 1;
      }
      assert ls[..i] == ls;
    }
  }
}
