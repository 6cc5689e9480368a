/**
 * LiveDataExtensions.kt: the per-element mapping of `mapResource`, the
 * wrap-or-reuse registration of `observeOnce`, `observeResourceOnce` and
 * `observeEventOnce` (without a lifecycle owner), and `compute`.
 */
module LiveDataExtensions {
  import opened Optional
  import opened Resources
  import opened ResourceObservers
  import opened Disposal
  import opened LiveValues
  import opened Events
  import DisposableObservers
  import DisposableResourceObservers
  import DisposableEventObservers

  // ---------------------------------------------------------------- mapResource

  /**
   * The lambda `mapResource` hands to `map`: success and loading data go
   * through `block` (a null loading payload stays null), an error is rebuilt
   * with the same error.
   */
  function MapResource<D, R, E>(block: D -> R, r: Resource<D, E>): (m: Resource<R, E>)
    ensures StatusOf(m) == StatusOf(r)
    ensures ErrorOf(m) == ErrorOf(r)
    ensures DataOf(m) == match DataOf(r) case None => None case Some(d) => Some(block(d))
  {
    match r
    case SuccessResource(d) => Success(block(d))
    case ErrorResource(e) => Error(e)
    case LoadingResource(od) => Loading(match od case None => None case Some(d) => Some(block(d)))
  }

  /** The arguments `block` is invoked with while mapping one resource. */
  function BlockInvocations<D, E>(r: Resource<D, E>): (args: seq<D>)
    ensures |args| <= 1
    ensures args == [] <==> DataOf(r) == None
    ensures args != [] ==> Some(args[0]) == DataOf(r)
  {
    match r
    case SuccessResource(d) => [d]
    case ErrorResource(_) => []
    case LoadingResource(od) => if od.Some? then [od.value] else []
  }

  /** The mapped data is the block's result on the argument it was invoked with, and exists only when it was invoked. */
  lemma MappedDataComesFromInvocations<D, R, E>(block: D -> R, r: Resource<D, E>)
    ensures var args := BlockInvocations(r);
            DataOf(MapResource(block, r)) == if args == [] then None else Some(block(args[0]))
  {
  }

  /** An error, and a loading resource without data, never reach `block`. */
  lemma ErrorAndEmptyLoadingSkipBlock<D, R, E>(block: D -> R, e: E)
    ensures BlockInvocations(Error<D, E>(e)) == [] && MapResource(block, Error<D, E>(e)) == Error(e)
    ensures BlockInvocations(Loading<D, E>(None)) == [] && MapResource(block, Loading<D, E>(None)) == Loading(None)
  {
  }

  /** Mapping with the identity gives back an equal resource. */
  lemma {:induction false} MapIdentity<D, E>(r: Resource<D, E>)
    ensures MapResource(x => x, r) == r
    ensures Equals(MapResource(x => x, r), AResource(r))
  {
    EqualsIsStructural(MapResource(x => x, r), r);
  }

  /** Mapping twice is mapping once with the composed function. */
  lemma MapComposes<D, R, S, E>(f: D -> R, g: R -> S, r: Resource<D, E>)
    ensures MapResource(g, MapResource(f, r)) == MapResource(x => g(f(x)), r)
  {
  }

  // ------------------------------------------------------------- observeOnce

  /** The observer passed to `observeOnce`: already a DisposableObserver, or any other Observer. */
  datatype ObserverArg<T> = AlreadyDisposable(observer: DisposableObservers.DisposableObserver<T>) | PlainObserver

  function ArgFrame<T>(arg: ObserverArg<T>): set<object>
  {
    if arg.AlreadyDisposable? then {arg.observer.liveData} else {}
  }

  /** The value a registration replays: the current one, when the source holds one. */
  function Replayed<T>(latest: Slot<T>): seq<Option<T>>
  {
    if latest.Holds? then [latest.value] else []
  }

  /** The observers after registering `o` forever. */
  function Registered(observers: seq<object>, o: object): (r: seq<object>)
    ensures o in r
  {
    if o in observers then observers else observers + [o]
  }

  /**
   * observeOnce(null, observer): a DisposableObserver is used as it is, any
   * other observer is wrapped with the default disposal; the result is
   * registered forever, and a new registration receives the current value,
   * if the source holds one, at once.
   */
  method ObserveOnce<T>(source: LiveValue<T>, arg: ObserverArg<T>)
    returns (registered: DisposableObservers.DisposableObserver<T>,
             replay: seq<Dispatched<DisposableObservers.ValueCall<T>>>)
    modifies source, ArgFrame(arg)
    ensures arg.AlreadyDisposable? ==> registered == arg.observer
    ensures arg.PlainObserver? ==> fresh(registered) && registered.liveData == source
    ensures arg.PlainObserver? ==>
      DisposableObservers.ConfigOf(registered) == DisposableObservers.AppliedAll(DisposableObservers.DefaultConfig(), [DisposableObservers.SetOnChanged])
    ensures source.latest == old(source.latest)
    ensures var pending := if registered in old(source.observers) then [] else Replayed(old(source.latest));
            replay == Run(DisposableObservers.ValueReaction(registered.onChanged), registered.disposeWhen,
                          registered.disposeAction, true, pending).trace
    ensures registered.liveData == source ==>
            var pending := if registered in old(source.observers) then [] else Replayed(old(source.latest));
            var run := Run(DisposableObservers.ValueReaction(registered.onChanged), registered.disposeWhen,
                           registered.disposeAction, true, pending);
            source.observers == if run.attached then Registered(old(source.observers), registered)
                                else Without(Registered(old(source.observers), registered), registered)
    ensures registered.liveData != source ==> source.observers == Registered(old(source.observers), registered)
    ensures registered.liveData != source ==>
            var pending := if registered in old(source.observers) then [] else Replayed(old(source.latest));
            var run := Run(DisposableObservers.ValueReaction(registered.onChanged), registered.disposeWhen,
                           registered.disposeAction, true, pending);
            registered.liveData.latest == old(registered.liveData.latest) &&
            registered.liveData.observers == if run.attached then old(registered.liveData.observers)
                                             else Without(old(registered.liveData.observers), registered)
  {
    if arg.AlreadyDisposable? {
      registered := arg.observer;
    } else {
      registered := DisposableObservers.DisposableObserverForwarding(source);
    }
    var added := source.ObserveForever(registered);
    replay := [];
    if added && source.latest.Holds? {
      var v := source.latest.value;
      replay := registered.OnChanged(v);
      assert [v][..0] == [];
    }
  }

  /**
   * A DisposableObserver built for another live data and passed to
   * observeOnce: the default action removes it from the live data it was
   * built for, not from the source it was registered on, so the replayed
   * value runs the action, the observer leaves (or stays out of) the live
   * data it was built for, and it stays registered on the source.
   */
  method ObserveOnceForeignObserver<T>(source: LiveValue<T>, o: DisposableObservers.DisposableObserver<T>)
    returns (replay: seq<Dispatched<DisposableObservers.ValueCall<T>>>)
    requires o.liveData != source && o !in source.observers
    requires DisposableObservers.ConfigOf(o) == DisposableObservers.AppliedAll(DisposableObservers.DefaultConfig(), [DisposableObservers.SetOnChanged])
    requires source.latest.Holds? && source.latest.value.Some?
    modifies source, o.liveData
    ensures replay == [Callback(DisposableObservers.Changed(old(source.latest).value)), DisposeActionRun]
    ensures source.observers == old(source.observers) + [o] && source.latest == old(source.latest)
    ensures o.liveData.observers == Without(old(o.liveData.observers), o) && o !in o.liveData.observers
    ensures o.liveData.latest == old(o.liveData.latest)
  {
    ghost var v := source.latest.value;
    var registered;
    registered, replay := ObserveOnce(source, AlreadyDisposable(o));
    assert Replayed(old(source.latest)) == [] + [v];
    RunSnoc(DisposableObservers.ValueReaction(true), o.disposeWhen, o.disposeAction, [], v);
  }

  /**
   * observeOnce(null, block): the observer the block builds is a
   * DisposableObserver, so it is registered as it is; being new, it receives
   * the current value at once.
   */
  method ObserveOnceBuilt<T>(source: LiveValue<T>, block: seq<DisposableObservers.ObserverSetting<T>>)
    returns (registered: DisposableObservers.DisposableObserver<T>,
             replay: seq<Dispatched<DisposableObservers.ValueCall<T>>>)
    modifies source
    ensures fresh(registered) && registered.liveData == source
    ensures DisposableObservers.ConfigOf(registered) == DisposableObservers.AppliedAll(DisposableObservers.DefaultConfig(), block)
    ensures source.latest == old(source.latest)
    ensures replay == Run(DisposableObservers.ValueReaction(registered.onChanged), registered.disposeWhen,
                          registered.disposeAction, true, Replayed(old(source.latest))).trace
    ensures source.observers == if Run(DisposableObservers.ValueReaction(registered.onChanged), registered.disposeWhen,
                                       registered.disposeAction, true, Replayed(old(source.latest))).attached
                                then old(source.observers) + [registered]
                                else old(source.observers)
  {
    var o := DisposableObservers.DisposableObserverOf(source, block);
    assert o !in source.observers;
    registered, replay := ObserveOnce(source, AlreadyDisposable(o));
    WithoutAppended(old(source.observers), registered);
  }

  /**
   * observeOnce(null, observer) with a plain observer, then a series of
   * pushes: the observer sees exactly the run over the replayed value and
   * the pushes, so with the default disposal it is removed after the first
   * non-null value and no later push reaches it.
   */
  method ObserveOnceThenPush<T>(source: LiveValue<T>, pushes: seq<Option<T>>)
    returns (registered: DisposableObservers.DisposableObserver<T>,
             trace: seq<Dispatched<DisposableObservers.ValueCall<T>>>)
    modifies source
    ensures fresh(registered)
    ensures trace == Run(DisposableObservers.ValueReaction(true), Some(DisposableObservers.DefaultDisposeWhen<T>),
                         Some(RemoveObserver), true, Replayed(old(source.latest)) + pushes).trace
    ensures registered in source.observers <==>
            Run(DisposableObservers.ValueReaction(true), Some(DisposableObservers.DefaultDisposeWhen<T>),
                Some(RemoveObserver), true, Replayed(old(source.latest)) + pushes).attached
    ensures source.observers == if Run(DisposableObservers.ValueReaction(true), Some(DisposableObservers.DefaultDisposeWhen<T>),
                                       Some(RemoveObserver), true, Replayed(old(source.latest)) + pushes).attached
                                then old(source.observers) + [registered]
                                else old(source.observers)
    ensures source.latest == if pushes == [] then old(source.latest) else Holds(pushes[|pushes| - 1])
  {
    var replay;
    ghost var first := Replayed(source.latest);
    registered, replay := ObserveOnce(source, PlainObserver);
    WithoutAppended(old(source.observers), registered);
    var react, p, a := DisposableObservers.ValueReaction<T>(true), Some(DisposableObservers.DefaultDisposeWhen<T>), Some(RemoveObserver);
    assert registered.onChanged && registered.disposeWhen == p && registered.disposeAction == a;
    if registered in source.observers {
      var rest := DisposableObservers.DeliverAll(registered, pushes);
      RunConcat(react, p, a, first, pushes);
      trace := replay + rest;
    } else {
      DetachedIsTerminal(react, p, a, first, pushes);
      trace := replay;
      // The pushes still happen on the source; none of them reaches the removed observer.
      ghost var remaining := source.observers;
      for i := 0 to |pushes|
        invariant source.observers == remaining
        invariant source.latest == if i == 0 then old(source.latest) else Holds(pushes[i - 1])
      {
        var recipients := source.Push(pushes[i]);
      }
    }
  }

  /** Each forwarded value appears as one `Changed` entry, in push order. */
  lemma {:induction false} ForwardedValues<T>(pushes: seq<Option<T>>)
    ensures Reactions(DisposableObservers.ValueReaction(true), pushes)
         == seq(|pushes|, i requires 0 <= i < |pushes| => Callback(DisposableObservers.Changed(pushes[i])))
    decreases |pushes|
  {
    if pushes != [] {
      ForwardedValues(pushes[..|pushes| - 1]);
    }
  }

  /**
   * With the default wrapping, the wrapped observer receives every value up
   * to and including the first non-null one, then the observer is removed.
   */
  lemma {:induction false} DefaultWrapDisposesOnFirstNonNull<T>(pushes: seq<Option<T>>, k: nat)
    requires k < |pushes| && pushes[k].Some?
    requires forall j :: 0 <= j < k ==> pushes[j].None?
    ensures Run(DisposableObservers.ValueReaction(true), Some(DisposableObservers.DefaultDisposeWhen<T>),
                Some(RemoveObserver), true, pushes)
         == RunResult(seq(k + 1, i requires 0 <= i < k + 1 => Callback(DisposableObservers.Changed(pushes[i])))
                      + [DisposeActionRun], false)
  {
    var p := Some(DisposableObservers.DefaultDisposeWhen<T>);
    RunStopsAtFirstDisposal(DisposableObservers.ValueReaction(true), p, pushes, k);
    ForwardedValues(pushes[..k + 1]);
  }

  // ----------------------------------------------------- observeResourceOnce

  /** The observer passed to `observeResourceOnce`: already disposable, or a plain ResourceObserver. */
  datatype ResourceObserverArg<D, E> =
    | AlreadyDisposableResource(observer: DisposableResourceObservers.DisposableResourceObserver<D, E>)
    | PlainResourceObserver

  function ResourceArgFrame<D, E>(arg: ResourceObserverArg<D, E>): set<object>
  {
    if arg.AlreadyDisposableResource? then {arg.observer.liveData} else {}
  }

  /**
   * observeResourceOnce(null, observer): a DisposableResourceObserver is used
   * as it is; a plain ResourceObserver is wrapped so that every notification
   * goes to its `onChanged`, with the default resource disposal.
   */
  method ObserveResourceOnce<D, E>(source: LiveValue<Resource<D, E>>, arg: ResourceObserverArg<D, E>)
    returns (registered: DisposableResourceObservers.DisposableResourceObserver<D, E>,
             replay: seq<Dispatched<ResourceCall<D, E>>>)
    modifies source, ResourceArgFrame(arg)
    ensures arg.AlreadyDisposableResource? ==> registered == arg.observer
    ensures arg.PlainResourceObserver? ==> fresh(registered) && registered.liveData == source
    ensures arg.PlainResourceObserver? ==>
      registered.callbacks == ResourceCallbacks(false, false, false, true) &&
      registered.disposeWhen == Some(DisposableResourceObservers.DefaultResourceDisposeWhen<D, E>) &&
      registered.disposeAction == Some(RemoveObserver)
    ensures source.latest == old(source.latest)
    ensures var pending := if registered in old(source.observers) then [] else Replayed(old(source.latest));
            replay == Run(DisposableResourceObservers.ResourceReaction(registered.callbacks), registered.disposeWhen,
                          registered.disposeAction, true, pending).trace
    ensures registered.liveData == source ==>
            var pending := if registered in old(source.observers) then [] else Replayed(old(source.latest));
            var run := Run(DisposableResourceObservers.ResourceReaction(registered.callbacks), registered.disposeWhen,
                           registered.disposeAction, true, pending);
            source.observers == if run.attached then Registered(old(source.observers), registered)
                                else Without(Registered(old(source.observers), registered), registered)
    ensures registered.liveData != source ==> source.observers == Registered(old(source.observers), registered)
    ensures registered.liveData != source ==>
            var pending := if registered in old(source.observers) then [] else Replayed(old(source.latest));
            var run := Run(DisposableResourceObservers.ResourceReaction(registered.callbacks), registered.disposeWhen,
                           registered.disposeAction, true, pending);
            registered.liveData.latest == old(registered.liveData.latest) &&
            registered.liveData.observers == if run.attached then old(registered.liveData.observers)
                                             else Without(old(registered.liveData.observers), registered)
  {
    if arg.AlreadyDisposableResource? {
      registered := arg.observer;
    } else {
      registered := DisposableResourceObservers.DisposableResourceObserverForwarding(source);
    }
    var added := source.ObserveForever(registered);
    replay := [];
    if added && source.latest.Holds? {
      var n := source.latest.value;
      replay := registered.OnChanged(n);
      assert [n][..0] == [];
    }
  }

  /** observeResourceOnce(null, block): the built observer is registered as it is. */
  method ObserveResourceOnceBuilt<D, E>(source: LiveValue<Resource<D, E>>,
                                        block: seq<DisposableResourceObservers.ResourceSetting<D, E>>)
    returns (registered: DisposableResourceObservers.DisposableResourceObserver<D, E>,
             replay: seq<Dispatched<ResourceCall<D, E>>>)
    modifies source
    ensures fresh(registered) && registered.liveData == source
    ensures DisposableResourceObservers.ResourceConfigOf(registered)
         == DisposableResourceObservers.AppliedAll(DisposableResourceObservers.DefaultResourceConfig(), block)
    ensures source.latest == old(source.latest)
    ensures replay == Run(DisposableResourceObservers.ResourceReaction(registered.callbacks), registered.disposeWhen,
                          registered.disposeAction, true, Replayed(old(source.latest))).trace
    ensures source.observers == if Run(DisposableResourceObservers.ResourceReaction(registered.callbacks), registered.disposeWhen,
                                       registered.disposeAction, true, Replayed(old(source.latest))).attached
                                then old(source.observers) + [registered]
                                else old(source.observers)
  {
    var o := DisposableResourceObservers.DisposableResourceObserverOf(source, block);
    assert o !in source.observers;
    registered, replay := ObserveResourceOnce(source, AlreadyDisposableResource(o));
    WithoutAppended(old(source.observers), registered);
  }

  // -------------------------------------------------------- observeEventOnce

  /** The observer passed to `observeEventOnce`: already disposable, or a plain EventObserver. */
  datatype EventObserverArg<T> =
    | AlreadyDisposableEvent(observer: DisposableEventObservers.DisposableEventObserver<T>)
    | PlainEventObserver

  /**
   * observeEventOnce(null, observer): the same wrap-or-reuse rule; the
   * wrapper forwards raw events to the plain observer's `onChanged`. What the
   * registered observer then does with a replayed event is not modelled.
   */
  method ObserveEventOnce<T>(source: LiveValue<Event<T>>, arg: EventObserverArg<T>)
    returns (registered: DisposableEventObservers.DisposableEventObserver<T>)
    modifies source`observers
    ensures arg.AlreadyDisposableEvent? ==> registered == arg.observer
    ensures arg.PlainEventObserver? ==> fresh(registered) && registered.liveData == source
    ensures arg.PlainEventObserver? ==>
      registered.config == DisposableEventObservers.AppliedAll(DisposableEventObservers.DefaultEventConfig(),
                                                              [DisposableEventObservers.SetOnChanged])
    ensures source.observers == Registered(old(source.observers), registered)
  {
    if arg.AlreadyDisposableEvent? {
      registered := arg.observer;
    } else {
      registered := DisposableEventObservers.DisposableEventObserverForwarding(source);
    }
    var added := source.ObserveForever(registered);
  }

  /** observeEventOnce(null, block): the built observer is registered as it is. */
  method ObserveEventOnceBuilt<T>(source: LiveValue<Event<T>>, block: seq<DisposableEventObservers.EventSetting<T>>)
    returns (registered: DisposableEventObservers.DisposableEventObserver<T>)
    modifies source`observers
    ensures fresh(registered) && registered.liveData == source
    ensures registered.config == DisposableEventObservers.AppliedAll(DisposableEventObservers.DefaultEventConfig(), block)
    ensures source.observers == old(source.observers) + [registered]
  {
    var o := DisposableEventObservers.DisposableEventObserverOf(source, block);
    assert o !in source.observers;
    registered := ObserveEventOnce(source, AlreadyDisposableEvent(o));
  }

  // ----------------------------------------------------------------- compute

  /** The predicate `compute` installs: `disposeWhen { true }`. */
  function Always<T>(v: Option<T>): bool
  {
    true
  }

  /**
   * compute(): observeOnce with a builder whose predicate is always true and
   * whose other fields keep their defaults (no callback, remove-self action).
   */
  method Compute<T>(source: LiveValue<T>)
    returns (registered: DisposableObservers.DisposableObserver<T>,
             replay: seq<Dispatched<DisposableObservers.ValueCall<T>>>)
    modifies source
    ensures fresh(registered) && registered.liveData == source
    ensures DisposableObservers.ConfigOf(registered)
         == DisposableObservers.ObserverConfig(Some(Always<T>), Some(RemoveObserver), false)
    ensures source.latest == old(source.latest)
    ensures old(source.latest).Holds? ==> replay == [DisposeActionRun] && source.observers == old(source.observers)
    ensures old(source.latest) == NotSet ==> replay == [] && source.observers == old(source.observers) + [registered]
  {
    registered, replay := ObserveOnceBuilt(source, [DisposableObservers.SetDisposeWhen(Always<T>)]);
    if old(source.latest).Holds? {
      ComputeDisposesOnFirstNotification(Replayed(old(source.latest)));
    }
  }

  /**
   * The `compute` observer disposes on its first notification, whatever the
   * value (null included), making no other call, and is never reached again.
   */
  lemma {:induction false} ComputeDisposesOnFirstNotification<T>(pushes: seq<Option<T>>)
    requires |pushes| > 0
    ensures Run(DisposableObservers.ValueReaction(false), Some(Always<T>), Some(RemoveObserver), true, pushes)
         == RunResult([DisposeActionRun], false)
  {
    var react := DisposableObservers.ValueReaction<T>(false);
    RunStopsAtFirstDisposal(react, Some(Always<T>), pushes, 0);
    assert pushes[..1][..0] == [];
    assert Reactions(react, pushes[..1]) == [];
  }
}
