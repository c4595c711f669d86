/**
  `Observable<T>` (MovieListToMVVM/Observable.swift): a value cell with at
  most one listener. Every assignment to `value` calls the listener, if any,
  with the new value; `bind` replaces the listener and calls it at once with
  the current value. Listeners are closures in the source; here each one is
  named by a `ListenerId`, and a call of listener `f` with value `v` is
  recorded as the delivery `Delivery(f, v)`.
 */
module Observables {
  import opened Wrappers

  type ListenerId = nat

  datatype Delivery<T> = Delivery(listener: ListenerId, value: T)

  /** The abstract state of an observable: value, listener and every delivery so far. */
  datatype Slot<T> = Slot(value: T, listener: Option<ListenerId>, deliveries: seq<Delivery<T>>)

  /** `init(_ value:)`: the given value and no listener. */
  function Fresh<T>(v: T): Slot<T>
  {
    Slot(v, None, [])
  }

  /** The calls the `didSet` observer makes for a new value `v`. */
  function Notify<T>(listener: Option<ListenerId>, v: T): seq<Delivery<T>>
  {
    match listener
    case None => []
    case Some(f) => [Delivery(f, v)]
  }

  /** `value = v`: store `v`, then notify the current listener. */
  function Assigned<T>(s: Slot<T>, v: T): Slot<T>
  {
    Slot(v, s.listener, s.deliveries + Notify(s.listener, v))
  }

  /** `bind(f)`: `f` replaces the listener and is called once with the current value. */
  function Bound<T>(s: Slot<T>, f: ListenerId): Slot<T>
  {
    Slot(s.value, Some(f), s.deliveries + [Delivery(f, s.value)])
  }

  /** The assignments `value = vs[0]`, `value = vs[1]`, ... in order. */
  function AssignedAll<T>(s: Slot<T>, vs: seq<T>): Slot<T>
    decreases |vs|
  {
    if vs == [] then s else AssignedAll(Assigned(s, vs[0]), vs[1..])
  }

  /** The deliveries to `f` of each of `vs`, in order. */
  function DeliveriesTo<T>(f: ListenerId, vs: seq<T>): seq<Delivery<T>>
  {
    seq(|vs|, i requires 0 <= i < |vs| => Delivery(f, vs[i]))
  }

  /** After any assignments, reading `value` gives the last value assigned. */
  lemma {:induction false} ReadAfterAssignments<T>(s: Slot<T>, vs: seq<T>)
    requires vs != []
    ensures AssignedAll(s, vs).value == vs[|vs| - 1]
    ensures AssignedAll(s, vs).listener == s.listener
    decreases |vs|
  {
    if |vs| > 1 {
      ReadAfterAssignments(Assigned(s, vs[0]), vs[1..]);
    }
  }

  /** With no listener bound, assignments notify nobody and bind nobody. */
  lemma {:induction false} UnboundNotifiesNobody<T>(s: Slot<T>, vs: seq<T>)
    requires s.listener.None?
    ensures AssignedAll(s, vs).deliveries == s.deliveries
    ensures AssignedAll(s, vs).listener.None?
    decreases |vs|
  {
    if vs != [] {
      UnboundNotifiesNobody(Assigned(s, vs[0]), vs[1..]);
    }
  }

  /**
    With listener `f` bound, every assignment delivers its value to `f`, in
    order, one delivery per assignment even when a value repeats the one
    before it: there is no deduplication.
   */
  lemma {:induction false} EveryAssignmentDelivered<T>(s: Slot<T>, f: ListenerId, vs: seq<T>)
    requires s.listener == Some(f)
    ensures AssignedAll(s, vs).deliveries == s.deliveries + DeliveriesTo(f, vs)
    ensures AssignedAll(s, vs).listener == Some(f)
    decreases |vs|
  {
    if vs != [] {
      var s' := Assigned(s, vs[0]);
      EveryAssignmentDelivered(s', f, vs[1..]);
      assert DeliveriesTo(f, vs) == [Delivery(f, vs[0])] + DeliveriesTo(f, vs[1..]);
    }
  }

  /**
    `bind(g)` replays the current value to `g` once, and from then on `g` is
    the only listener that receives anything: whatever was bound before gets
    none of the later deliveries.
   */
  lemma RebindRoutesToLatest<T>(s: Slot<T>, g: ListenerId, vs: seq<T>)
    ensures AssignedAll(Bound(s, g), vs).deliveries
         == s.deliveries + [Delivery(g, s.value)] + DeliveriesTo(g, vs)
    ensures forall d | d in AssignedAll(Bound(s, g), vs).deliveries[|s.deliveries|..] :: d.listener == g
  {
    EveryAssignmentDelivered(Bound(s, g), g, vs);
    var suffix := AssignedAll(Bound(s, g), vs).deliveries[|s.deliveries|..];
    assert suffix == [Delivery(g, s.value)] + DeliveriesTo(g, vs);
  }

  /** The observable object of the source; `Snapshot()` is its abstract state. */
  class Observable<T> {
    var value: T
    var listener: Option<ListenerId>
    ghost var deliveries: seq<Delivery<T>>

    ghost function Snapshot(): Slot<T>
      reads this
    {
      Slot(value, listener, deliveries)
    }

    /** A new observable holds `v` and has no listener (Observable.swift:20-22). */
    constructor(v: T)
      ensures Snapshot() == Fresh(v)
    {
      value := v;
      listener := None;
      deliveries := [];
    }

    /** The `value` setter with its `didSet` observer (Observable.swift:14-18). */
    method SetValue(v: T)
      modifies this
      ensures Snapshot() == Assigned(old(Snapshot()), v)
    {
      value := v;
      if listener.Some? {
        deliveries := deliveries + [Delivery(listener.value, v)];
      }
    }

    /** `bind` (Observable.swift:24-27). */
    method Bind(f: ListenerId)
      modifies this
      ensures Snapshot() == Bound(old(Snapshot()), f)
    {
      listener := Some(f);
      deliveries := deliveries + [Delivery(f, value)];
    }
  }
}
