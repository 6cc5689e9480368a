/**
 * EventObserver (observer/EventObserver.kt): the catch-all receives the raw
 * event (possibly null), then a non-null event is asked for its data through
 * `Event.withData`, which consumes it whether or not a `withData` callback
 * was supplied.
 */
module EventObservers {
  import opened Optional
  import opened Events

  /** Which optional callbacks were supplied, and the nullable `includeConsumed` flag. */
  datatype EventObserver = EventObserver(withData: bool, includeConsumed: Option<bool>, onChanged: bool)

  /** One callback invocation with its argument. */
  datatype EventCall<T> = EventChanged(event: Option<Event<T>>) | WithData(data: T)

  /** `includeConsumed ?: false` */
  predicate IncludeConsumed(obs: EventObserver)
    ensures obs.includeConsumed == None ==> !IncludeConsumed(obs)
    ensures obs.includeConsumed.Some? ==> IncludeConsumed(obs) == obs.includeConsumed.value
  {
    obs.includeConsumed == Some(true)
  }

  /** The event is non-null, the guard of `withData` lets it through, and a callback receives the data. */
  predicate Delivers<T>(obs: EventObserver, n: Option<Event<T>>, wasConsumed: bool)
  {
    n.Some? && obs.withData && Admits(wasConsumed, IncludeConsumed(obs))
  }

  /** The calls onChanged makes, given whether the event was consumed beforehand. */
  function EventTrace<T>(obs: EventObserver, n: Option<Event<T>>, wasConsumed: bool): (t: seq<EventCall<T>>)
    ensures |t| == (if obs.onChanged then 1 else 0) + (if Delivers(obs, n, wasConsumed) then 1 else 0)
    ensures obs.onChanged ==> t[0] == EventChanged(n)
    ensures Delivers(obs, n, wasConsumed) ==> t[|t| - 1] == WithData(n.value.data)
  {
    (if obs.onChanged then [EventChanged(n)] else []) +
    (if n.Some? && obs.withData && (IncludeConsumed(obs) || !wasConsumed) then [WithData(n.value.data)] else [])
  }

  /** The frame of a dispatch: the event, when there is one. */
  function EventFrame<T>(n: Option<Event<T>>): set<object>
  {
    if n.Some? then {n.value} else {}
  }

  /** EventObserver.onChanged */
  method OnChanged<T>(obs: EventObserver, n: Option<Event<T>>) returns (trace: seq<EventCall<T>>)
    modifies EventFrame(n)
    ensures trace == EventTrace(obs, n, n.Some? && old(n.value.consumed))
    ensures n.Some? ==> n.value.consumed
  {
    trace := if obs.onChanged then [EventChanged(n)] else [];
    if n.Some? {
      var calls := n.value.WithData(IncludeConsumed(obs));
      if obs.withData && calls != [] {
        trace := trace + [WithData(calls[0])];
      }
    }
  }

  /**
   * How many of the observers, dispatching the same event one after the
   * other, pass its data to a `withData` callback: every dispatch consumes
   * the event, so only the first can unless `includeConsumed` is true.
   */
  function Deliveries(wasConsumed: bool, observers: seq<EventObserver>): (n: nat)
    ensures n <= |observers|
    decreases |observers|
  {
    if observers == [] then 0
    else
      var i := |observers| - 1;
      Deliveries(wasConsumed, observers[..i]) +
      (if observers[i].withData && Admits(wasConsumed || i > 0, IncludeConsumed(observers[i])) then 1 else 0)
  }

  /**
   * Without `includeConsumed`, the data reaches at most one callback: the
   * first observer's, and only if the event was not consumed before.
   */
  lemma {:induction false} DeliveredAtMostOnce(wasConsumed: bool, observers: seq<EventObserver>)
    requires forall i :: 0 <= i < |observers| ==> !IncludeConsumed(observers[i])
    ensures Deliveries(wasConsumed, observers) == if !wasConsumed && |observers| > 0 && observers[0].withData then 1 else 0
    decreases |observers|
  {
    if |observers| > 1 {
      var i := |observers| - 1;
      DeliveredAtMostOnce(wasConsumed, observers[..i]);
      assert observers[..i][0] == observers[0];
    }
  }

  /** With `includeConsumed` everywhere, every observer with a callback receives the data. */
  lemma {:induction false} OverrideDeliversToAll(wasConsumed: bool, observers: seq<EventObserver>)
    requires forall i :: 0 <= i < |observers| ==> IncludeConsumed(observers[i]) && observers[i].withData
    ensures Deliveries(wasConsumed, observers) == |observers|
    decreases |observers|
  {
    if observers != [] {
      OverrideDeliversToAll(wasConsumed, observers[..|observers| - 1]);
    }
  }

  /** Dispatching to one more observer adds that observer's delivery, if any. */
  lemma DeliveriesStep(wasConsumed: bool, observers: seq<EventObserver>, i: nat)
    requires i < |observers|
    ensures Deliveries(wasConsumed, observers[..i + 1])
         == Deliveries(wasConsumed, observers[..i]) +
            (if observers[i].withData && Admits(wasConsumed || i > 0, IncludeConsumed(observers[i])) then 1 else 0)
  {
    assert observers[..i + 1][..i] == observers[..i];
  }

  /** One dispatch passes the event's data to `withData` once when it delivers, and never otherwise. */
  lemma TraceDeliveries<T>(obs: EventObserver, e: Event<T>, wasConsumed: bool)
    ensures multiset(EventTrace(obs, Some(e), wasConsumed))[WithData(e.data)]
         == if Delivers(obs, Some(e), wasConsumed) then 1 else 0
    ensures forall c :: c in EventTrace(obs, Some(e), wasConsumed) && c.WithData? ==> c.data == e.data
  {
    var t := EventTrace(obs, Some(e), wasConsumed);
    assert EventChanged(Some(e)) != WithData(e.data);
    if obs.onChanged && Delivers(obs, Some(e), wasConsumed) {
      assert t == [EventChanged(Some(e)), WithData(e.data)];
    } else if obs.onChanged {
      assert t == [EventChanged(Some(e))];
    } else if Delivers(obs, Some(e), wasConsumed) {
      assert t == [WithData(e.data)];
    } else {
      assert t == [];
    }
  }

  /** The loop step of DispatchToAll, on the traces as plain values. */
  lemma DispatchStep<T>(trace: seq<EventCall<T>>, observers: seq<EventObserver>, i: nat, e: Event<T>, wasConsumed: bool)
    requires i < |observers|
    requires multiset(trace)[WithData(e.data)] == Deliveries(wasConsumed, observers[..i])
    requires forall j :: 0 <= j < |trace| && trace[j].WithData? ==> trace[j].data == e.data
    ensures var next := trace + EventTrace(observers[i], Some(e), wasConsumed || i > 0);
            multiset(next)[WithData(e.data)] == Deliveries(wasConsumed, observers[..i + 1]) &&
            forall j :: 0 <= j < |next| && next[j].WithData? ==> next[j].data == e.data
  {
    var t := EventTrace(observers[i], Some(e), wasConsumed || i > 0);
    TraceDeliveries(observers[i], e, wasConsumed || i > 0);
    DeliveriesStep(wasConsumed, observers, i);
    assert multiset(trace + t) == multiset(trace) + multiset(t);
    forall j | 0 <= j < |trace + t| && (trace + t)[j].WithData?
      ensures (trace + t)[j].data == e.data
    {
      if j >= |trace| {
        assert (trace + t)[j] == t[j - |trace|];
        assert t[j - |trace|] in t;
      }
    }
  }

  /** The same event handed to several observers in turn. */
  method DispatchToAll<T>(observers: seq<EventObserver>, e: Event<T>) returns (trace: seq<EventCall<T>>)
    modifies e
    ensures multiset(trace)[WithData(e.data)] == Deliveries(old(e.consumed), observers)
    ensures forall i :: 0 <= i < |trace| && trace[i].WithData? ==> trace[i].data == e.data
    ensures e.consumed == (old(e.consumed) || |observers| > 0)
  {
    trace := [];
    for i := 0 to |observers|
      invariant e.consumed == (old(e.consumed) || i > 0)
      invariant multiset(trace)[WithData(e.data)] == Deliveries(old(e.consumed), observers[..i])
      invariant forall j :: 0 <= j < |trace| && trace[j].WithData? ==> trace[j].data == e.data
    {
      var t := OnChanged(observers[i], Some(e));
      DispatchStep(trace, observers, i, e, old(e.consumed));
      trace := trace + t;
    }
    assert observers[..|observers|] == observers;
  }
}
