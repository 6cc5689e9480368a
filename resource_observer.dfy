/**
 * The two revisions of ResourceObserver: one notification (possibly null)
 * becomes calls to optional callbacks. A callback is a presence flag and a
 * call is an entry of the returned trace; an absent callback leaves no entry.
 */
module ResourceObservers {
  import opened Optional
  import opened Resources

  /** Which of onSuccess, onError, onLoading and onChanged were supplied. */
  datatype ResourceCallbacks = ResourceCallbacks(onSuccess: bool, onError: bool, onLoading: bool, onChanged: bool)

  /** One callback invocation with its argument. */
  datatype ResourceCall<D, E> =
    | OnChanged(notification: Option<Resource<D, E>>)
    | OnSuccess(data: D)
    | OnError(error: E)
    | OnLoading(stale: Option<D>)

  /** Nothing supplied: the no-op defaults of the older revision. */
  const NoCallbacks := ResourceCallbacks(false, false, false, false)

  /** The per-state call a resource is routed to: its own payload, to the callback of its own variant. */
  function RouteOf<D, E>(r: Resource<D, E>): (c: ResourceCall<D, E>)
    ensures c.OnSuccess? <==> StatusOf(r) == SUCCESS
    ensures c.OnError? <==> StatusOf(r) == ERROR
    ensures c.OnLoading? <==> StatusOf(r) == LOADING
    ensures c.OnSuccess? ==> Some(c.data) == DataOf(r)
    ensures c.OnError? ==> Some(c.error) == ErrorOf(r)
    ensures c.OnLoading? ==> c.stale == DataOf(r)
  {
    match r
    case SuccessResource(d) => OnSuccess(d)
    case ErrorResource(e) => OnError(e)
    case LoadingResource(od) => OnLoading(od)
  }

  /** The notification is non-null and the callback for its status was supplied. */
  predicate Fires<D, E>(cb: ResourceCallbacks, n: Option<Resource<D, E>>)
  {
    n.Some? &&
    match StatusOf(n.value)
    case SUCCESS => cb.onSuccess
    case ERROR => cb.onError
    case LOADING => cb.onLoading
  }

  /**
   * observer/ResourceObserver.kt, onChanged: the catch-all receives the raw
   * notification first, then the per-state callback of a non-null one runs.
   */
  function CatchAllFirstTrace<D, E>(cb: ResourceCallbacks, n: Option<Resource<D, E>>): (t: seq<ResourceCall<D, E>>)
    ensures |t| == (if cb.onChanged then 1 else 0) + (if Fires(cb, n) then 1 else 0)
    ensures cb.onChanged ==> t[0] == OnChanged(n)
    ensures Fires(cb, n) ==> t[|t| - 1] == RouteOf(n.value)
  {
    (if cb.onChanged then [OnChanged(n)] else []) +
    match n
    case None => []
    case Some(r) =>
      match r
      case SuccessResource(d) => if cb.onSuccess then [OnSuccess(d)] else []
      case ErrorResource(e) => if cb.onError then [OnError(e)] else []
      case LoadingResource(od) => if cb.onLoading then [OnLoading(od)] else []
  }

  /**
   * ResourceObserver.kt (older revision), onChanged: the per-state callback
   * of a non-null notification first, then the catch-all with the raw value.
   */
  function PerStateFirstTrace<D, E>(cb: ResourceCallbacks, n: Option<Resource<D, E>>): (t: seq<ResourceCall<D, E>>)
    ensures |t| == (if cb.onChanged then 1 else 0) + (if Fires(cb, n) then 1 else 0)
    ensures Fires(cb, n) ==> t[0] == RouteOf(n.value)
    ensures cb.onChanged ==> t[|t| - 1] == OnChanged(n)
  {
    (match n
     case None => []
     case Some(r) =>
       match r
       case SuccessResource(d) => if cb.onSuccess then [OnSuccess(d)] else []
       case ErrorResource(e) => if cb.onError then [OnError(e)] else []
       case LoadingResource(od) => if cb.onLoading then [OnLoading(od)] else []) +
    (if cb.onChanged then [OnChanged(n)] else [])
  }

  /** Every entry of a trace is the raw catch-all call or the routed per-state call. */
  ghost predicate Routed<D, E>(n: Option<Resource<D, E>>, c: ResourceCall<D, E>)
  {
    c == OnChanged(n) || (n.Some? && c == RouteOf(n.value))
  }

  /** Both revisions make only routed calls, and the catch-all fires at most once. */
  lemma {:induction false} TracesAreRouted<D, E>(cb: ResourceCallbacks, n: Option<Resource<D, E>>)
    ensures forall c :: c in CatchAllFirstTrace(cb, n) ==> Routed(n, c)
    ensures forall c :: c in PerStateFirstTrace(cb, n) ==> Routed(n, c)
    ensures multiset(CatchAllFirstTrace(cb, n))[OnChanged(n)] == if cb.onChanged then 1 else 0
  {
    var t := CatchAllFirstTrace(cb, n);
    var u := PerStateFirstTrace(cb, n);
    if n.Some? {
      assert OnChanged(n) != RouteOf(n.value);
    }
    if cb.onChanged && Fires(cb, n) {
      assert t == [OnChanged(n), RouteOf(n.value)];
      assert u == [RouteOf(n.value), OnChanged(n)];
    } else if cb.onChanged {
      assert t == [OnChanged(n)] == u;
    } else if Fires(cb, n) {
      assert t == [RouteOf(n.value)] == u;
    } else {
      assert t == [] == u;
    }
  }

  /** A null notification reaches only the catch-all, in both revisions. */
  lemma NullReachesOnlyCatchAll<D, E>(cb: ResourceCallbacks)
    ensures CatchAllFirstTrace<D, E>(cb, None) == PerStateFirstTrace(cb, None)
    ensures CatchAllFirstTrace<D, E>(cb, None) == if cb.onChanged then [OnChanged(None)] else []
  {
  }

  /**
   * The two revisions make the same calls: they coincide when at most one
   * callback fires, and otherwise fire the same two calls in opposite orders.
   */
  lemma {:induction false} RevisionsDifferOnlyInOrder<D, E>(cb: ResourceCallbacks, n: Option<Resource<D, E>>)
    ensures multiset(CatchAllFirstTrace(cb, n)) == multiset(PerStateFirstTrace(cb, n))
    ensures |CatchAllFirstTrace(cb, n)| < 2 ==> CatchAllFirstTrace(cb, n) == PerStateFirstTrace(cb, n)
    ensures |CatchAllFirstTrace(cb, n)| == 2 ==>
      CatchAllFirstTrace(cb, n) == [PerStateFirstTrace(cb, n)[1], PerStateFirstTrace(cb, n)[0]]
  {
    var t := CatchAllFirstTrace(cb, n);
    var u := PerStateFirstTrace(cb, n);
    if cb.onChanged && Fires(cb, n) {
      assert t == [OnChanged(n), RouteOf(n.value)];
      assert u == [RouteOf(n.value), OnChanged(n)];
    } else if cb.onChanged {
      assert t == [OnChanged(n)] == u;
    } else if Fires(cb, n) {
      assert t == [RouteOf(n.value)] == u;
    } else {
      assert t == [] == u;
    }
  }

  /** With the older revision's defaults nothing observable happens. */
  lemma DefaultsAreNoOps<D, E>(n: Option<Resource<D, E>>)
    ensures PerStateFirstTrace(NoCallbacks, n) == []
  {
  }
}
