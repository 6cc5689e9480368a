/**
 * DisposableResourceObserver (observer/DisposableResourceObserver.kt) and its
 * builder (observer/DisposableResourceObserverDsl.kt): the full dispatch of
 * the current ResourceObserver revision, then the dispose check.
 */
module DisposableResourceObservers {
  import opened Optional
  import opened Resources
  import opened ResourceObservers
  import opened Disposal
  import opened LiveValues

  /** The calls one notification makes: catch-all first, then the per-state callback. */
  function ResourceReaction<D, E>(cb: ResourceCallbacks): Option<Resource<D, E>> -> seq<ResourceCall<D, E>>
  {
    n => CatchAllFirstTrace(cb, n)
  }

  /** The builder's default predicate: dispose on a non-null resource that is not loading. */
  function DefaultResourceDisposeWhen<D, E>(n: Option<Resource<D, E>>): (b: bool)
    ensures b <==> n.Some? && (n.value.SuccessResource? || n.value.ErrorResource?)
  {
    n.Some? && StatusOf(n.value) != LOADING
  }

  class DisposableResourceObserver<D, E> {
    const liveData: LiveValue<Resource<D, E>>
    const disposeWhen: Option<Option<Resource<D, E>> -> bool>
    const disposeAction: Option<DisposeAction>
    const callbacks: ResourceCallbacks

    constructor (liveData: LiveValue<Resource<D, E>>, disposeWhen: Option<Option<Resource<D, E>> -> bool>,
                 disposeAction: Option<DisposeAction>, callbacks: ResourceCallbacks)
      ensures this.liveData == liveData && this.disposeWhen == disposeWhen
      ensures this.disposeAction == disposeAction && this.callbacks == callbacks
    {
      this.liveData := liveData;
      this.disposeWhen := disposeWhen;
      this.disposeAction := disposeAction;
      this.callbacks := callbacks;
    }

    /** onChanged(resource): `super.onChanged` completes, then the dispose check. */
    method OnChanged(n: Option<Resource<D, E>>) returns (trace: seq<Dispatched<ResourceCall<D, E>>>)
      modifies liveData`observers
      ensures trace == Step(CatchAllFirstTrace(callbacks, n), disposeWhen, disposeAction, n)
      ensures liveData.observers == if Detaches(disposeWhen, disposeAction, n)
                                    then Without(old(liveData.observers), this)
                                    else old(liveData.observers)
    {
      trace := Wrap(CatchAllFirstTrace(callbacks, n));
      if disposeWhen.Some? && disposeWhen.value(n) {
        if disposeAction.Some? {
          trace := trace + [DisposeActionRun];
          if disposeAction.value.RemoveObserver? {
            liveData.RemoveObserver(this);
          }
        }
      }
    }
  }

  /** A loading push on the observer's own live data: the default predicate keeps the observer. */
  method PushKeeping<D, E>(obs: DisposableResourceObserver<D, E>, n: Option<Resource<D, E>>)
    returns (trace: seq<Dispatched<ResourceCall<D, E>>>)
    requires obs in obs.liveData.observers && n.Some? && n.value.LoadingResource?
    requires obs.disposeWhen == Some(DefaultResourceDisposeWhen<D, E>)
    modifies obs.liveData
    ensures trace == Wrap(CatchAllFirstTrace(obs.callbacks, n))
    ensures obs in obs.liveData.observers
    ensures obs.liveData.observers == old(obs.liveData.observers) && obs.liveData.latest == Holds(n)
  {
    var pushed := obs.liveData.Push(n);
    assert !ShouldDispose(obs.disposeWhen, n);
    trace := obs.OnChanged(n);
    assert trace == Wrap(CatchAllFirstTrace(obs.callbacks, n));
  }

  /** A success or error push on the observer's own live data: the default predicate and action remove the observer. */
  method PushDisposing<D, E>(obs: DisposableResourceObserver<D, E>, n: Option<Resource<D, E>>)
    returns (trace: seq<Dispatched<ResourceCall<D, E>>>)
    requires obs in obs.liveData.observers && n.Some? && !n.value.LoadingResource?
    requires obs.disposeWhen == Some(DefaultResourceDisposeWhen<D, E>) && obs.disposeAction == Some(RemoveObserver)
    modifies obs.liveData
    ensures trace == Wrap(CatchAllFirstTrace(obs.callbacks, n)) + [DisposeActionRun]
    ensures obs !in obs.liveData.observers
    ensures obs.liveData.observers == Without(old(obs.liveData.observers), obs) && obs.liveData.latest == Holds(n)
  {
    var pushed := obs.liveData.Push(n);
    assert Detaches(obs.disposeWhen, obs.disposeAction, n);
    trace := obs.OnChanged(n);
  }

  /**
   * Loading(x), Loading(y), Success(z) pushed on the observer's own live data:
   * with the default predicate and action only the third push disposes.
   */
  method PushLoadingLoadingSuccess<D, E>(obs: DisposableResourceObserver<D, E>, x: Option<D>, y: Option<D>, z: D)
    returns (trace: seq<Dispatched<ResourceCall<D, E>>>)
    requires obs in obs.liveData.observers
    requires obs.disposeWhen == Some(DefaultResourceDisposeWhen<D, E>) && obs.disposeAction == Some(RemoveObserver)
    modifies obs.liveData
    ensures trace == Wrap(CatchAllFirstTrace(obs.callbacks, Some(Loading(x)))) +
                     Wrap(CatchAllFirstTrace(obs.callbacks, Some(Loading(y)))) +
                     Wrap(CatchAllFirstTrace(obs.callbacks, Some(Success(z)))) + [DisposeActionRun]
    ensures obs !in obs.liveData.observers
    ensures obs.liveData.observers == Without(old(obs.liveData.observers), obs)
    ensures obs.liveData.latest == Holds(Some(Success(z)))
  {
    var t1 := PushKeeping(obs, Some(Loading(x)));
    var t2 := PushKeeping(obs, Some(Loading(y)));
    var t3 := PushDisposing(obs, Some(Success(z)));
    trace := t1 + t2 + t3;
  }

  /**
   * With the default predicate and action, the observer stays through null and
   * loading notifications and is removed right after the first success or
   * error; the action runs exactly once and later pushes do not reach it.
   */
  lemma {:induction false} DefaultDisposesOnFirstTerminal<D, E>(cb: ResourceCallbacks,
                                                               pushes: seq<Option<Resource<D, E>>>, k: nat)
    requires k < |pushes| && pushes[k].Some? && !pushes[k].value.LoadingResource?
    requires forall j :: 0 <= j < k ==> pushes[j].None? || pushes[j].value.LoadingResource?
    ensures Run(ResourceReaction(cb), Some(DefaultResourceDisposeWhen), Some(RemoveObserver), true, pushes)
         == RunResult(Reactions(ResourceReaction(cb), pushes[..k + 1]) + [DisposeActionRun], false)
    ensures multiset(Run(ResourceReaction(cb), Some(DefaultResourceDisposeWhen), Some(RemoveObserver),
                         true, pushes).trace)[DisposeActionRun] == 1
  {
    var p := Some(DefaultResourceDisposeWhen<D, E>);
    forall j | 0 <= j < k
      ensures !ShouldDispose(p, pushes[j])
    {
    }
    RunStopsAtFirstDisposal(ResourceReaction(cb), p, pushes, k);
  }

  /** Null and loading notifications never dispose under the defaults. */
  lemma {:induction false} DefaultKeepsThroughLoading<D, E>(cb: ResourceCallbacks, pushes: seq<Option<Resource<D, E>>>)
    requires forall j :: 0 <= j < |pushes| ==> pushes[j].None? || pushes[j].value.LoadingResource?
    ensures Run(ResourceReaction(cb), Some(DefaultResourceDisposeWhen), Some(RemoveObserver), true, pushes)
         == RunResult(Reactions(ResourceReaction(cb), pushes), true)
  {
    var p := Some(DefaultResourceDisposeWhen<D, E>);
    forall j | 0 <= j < |pushes|
      ensures !ShouldDispose(p, pushes[j])
    {
    }
    RunWithoutDisposal(ResourceReaction(cb), p, Some(RemoveObserver), pushes);
  }

  /** The constructor arguments a builder hands to DisposableResourceObserver. */
  datatype ResourceObserverConfig<!D, !E> = ResourceObserverConfig(
    disposeWhen: Option<Option<Resource<D, E>> -> bool>,
    disposeAction: Option<DisposeAction>,
    callbacks: ResourceCallbacks)

  /** Non-null-and-not-loading predicate, remove-self action, all four callbacks absent. */
  function DefaultResourceConfig<D, E>(): ResourceObserverConfig<D, E>
  {
    ResourceObserverConfig(Some(DefaultResourceDisposeWhen<D, E>), Some(RemoveObserver), ResourceCallbacks(false, false, false, false))
  }

  function ResourceConfigOf<D, E>(o: DisposableResourceObserver<D, E>): ResourceObserverConfig<D, E>
  {
    ResourceObserverConfig(o.disposeWhen, o.disposeAction, o.callbacks)
  }

  /** One setter call made by a builder block. */
  datatype ResourceSetting<!D, !E> =
    | SetDisposeWhen(p: Option<Resource<D, E>> -> bool)
    | SetDisposeAction(a: DisposeAction)
    | SetOnSuccess
    | SetOnError
    | SetOnLoading
    | SetOnChanged

  datatype ResourceField = DisposeWhenField | DisposeActionField | OnSuccessField | OnErrorField | OnLoadingField | OnChangedField

  function FieldOf<D, E>(s: ResourceSetting<D, E>): ResourceField
  {
    match s
    case SetDisposeWhen(_) => DisposeWhenField
    case SetDisposeAction(_) => DisposeActionField
    case SetOnSuccess => OnSuccessField
    case SetOnError => OnErrorField
    case SetOnLoading => OnLoadingField
    case SetOnChanged => OnChangedField
  }

  ghost predicate AgreeOn<D, E>(a: ResourceObserverConfig<D, E>, b: ResourceObserverConfig<D, E>, f: ResourceField)
  {
    match f
    case DisposeWhenField => a.disposeWhen == b.disposeWhen
    case DisposeActionField => a.disposeAction == b.disposeAction
    case OnSuccessField => a.callbacks.onSuccess == b.callbacks.onSuccess
    case OnErrorField => a.callbacks.onError == b.callbacks.onError
    case OnLoadingField => a.callbacks.onLoading == b.callbacks.onLoading
    case OnChangedField => a.callbacks.onChanged == b.callbacks.onChanged
  }

  /** A setter replaces its own field and leaves the others. */
  function Applied<D, E>(c: ResourceObserverConfig<D, E>, s: ResourceSetting<D, E>): (r: ResourceObserverConfig<D, E>)
    ensures forall f :: f != FieldOf(s) ==> AgreeOn(r, c, f)
  {
    match s
    case SetDisposeWhen(p) => c.(disposeWhen := Some(p))
    case SetDisposeAction(a) => c.(disposeAction := Some(a))
    case SetOnSuccess => c.(callbacks := c.callbacks.(onSuccess := true))
    case SetOnError => c.(callbacks := c.callbacks.(onError := true))
    case SetOnLoading => c.(callbacks := c.callbacks.(onLoading := true))
    case SetOnChanged => c.(callbacks := c.callbacks.(onChanged := true))
  }

  function AppliedAll<D, E>(c: ResourceObserverConfig<D, E>, block: seq<ResourceSetting<D, E>>): ResourceObserverConfig<D, E>
    decreases |block|
  {
    if block == [] then c else Applied(AppliedAll(c, block[..|block| - 1]), block[|block| - 1])
  }

  /** The last call of each setter wins: repeating it changes nothing. */
  lemma {:induction false} LastSettingWins<D, E>(c: ResourceObserverConfig<D, E>, block: seq<ResourceSetting<D, E>>, i: nat)
    requires i < |block|
    requires forall j :: i < j < |block| ==> FieldOf(block[j]) != FieldOf(block[i])
    ensures Applied(AppliedAll(c, block), block[i]) == AppliedAll(c, block)
    decreases |block|
  {
    var n := |block| - 1;
    if i < n {
      LastSettingWins(c, block[..n], i);
      var before := AppliedAll(c, block[..n]);
      assert AgreeOn(Applied(before, block[n]), before, FieldOf(block[i]));
    }
  }

  /** A field no setter touched keeps its default; in particular an unset callback stays absent. */
  lemma {:induction false} UnsetFieldKeepsDefault<D, E>(c: ResourceObserverConfig<D, E>, block: seq<ResourceSetting<D, E>>,
                                                       f: ResourceField)
    requires forall j :: 0 <= j < |block| ==> FieldOf(block[j]) != f
    ensures AgreeOn(AppliedAll(c, block), c, f)
    decreases |block|
  {
    if block != [] {
      UnsetFieldKeepsDefault(c, block[..|block| - 1], f);
    }
  }

  /** DisposableResourceObserverBuilder: private fields that the setters overwrite. */
  class DisposableResourceObserverBuilder<D, E> {
    const liveData: LiveValue<Resource<D, E>>
    var disposeWhen: Option<Option<Resource<D, E>> -> bool>
    var disposeAction: Option<DisposeAction>
    var onSuccess: bool
    var onError: bool
    var onLoading: bool
    var onChanged: bool

    ghost function Config(): ResourceObserverConfig<D, E>
      reads this
    {
      ResourceObserverConfig(disposeWhen, disposeAction, ResourceCallbacks(onSuccess, onError, onLoading, onChanged))
    }

    constructor (liveData: LiveValue<Resource<D, E>>)
      ensures this.liveData == liveData && Config() == DefaultResourceConfig()
    {
      this.liveData := liveData;
      disposeWhen := Some(DefaultResourceDisposeWhen<D, E>);
      disposeAction := Some(RemoveObserver);
      onSuccess, onError, onLoading, onChanged := false, false, false, false;
    }

    method DisposeWhen(block: Option<Resource<D, E>> -> bool)
      modifies this
      ensures Config() == Applied(old(Config()), SetDisposeWhen(block))
    {
      disposeWhen := Some(block);
    }

    method DisposeAction(block: DisposeAction)
      modifies this
      ensures Config() == Applied(old(Config()), SetDisposeAction(block))
    {
      disposeAction := Some(block);
    }

    method OnSuccess()
      modifies this
      ensures Config() == Applied(old(Config()), SetOnSuccess)
    {
      onSuccess := true;
    }

    method OnError()
      modifies this
      ensures Config() == Applied(old(Config()), SetOnError)
    {
      onError := true;
    }

    method OnLoading()
      modifies this
      ensures Config() == Applied(old(Config()), SetOnLoading)
    {
      onLoading := true;
    }

    method OnChanged()
      modifies this
      ensures Config() == Applied(old(Config()), SetOnChanged)
    {
      onChanged := true;
    }

    /** build(): a new observer on the builder's own live data with the current fields. */
    method Build() returns (o: DisposableResourceObserver<D, E>)
      ensures fresh(o) && o.liveData == liveData && ResourceConfigOf(o) == Config()
    {
      o := new DisposableResourceObserver(liveData, disposeWhen, disposeAction,
                                          ResourceCallbacks(onSuccess, onError, onLoading, onChanged));
    }
  }

  /** disposableResourceObserver(liveData, block) */
  method DisposableResourceObserverOf<D, E>(liveData: LiveValue<Resource<D, E>>, block: seq<ResourceSetting<D, E>>)
    returns (o: DisposableResourceObserver<D, E>)
    ensures fresh(o) && o.liveData == liveData && ResourceConfigOf(o) == AppliedAll(DefaultResourceConfig(), block)
  {
    var b := new DisposableResourceObserverBuilder(liveData);
    for i := 0 to |block|
      invariant b.Config() == AppliedAll(DefaultResourceConfig(), block[..i])
    {
      assert block[..i + 1][..i] == block[..i];
      match block[i]
      case SetDisposeWhen(p) => b.DisposeWhen(p);
      case SetDisposeAction(a) => b.DisposeAction(a);
      case SetOnSuccess => b.OnSuccess();
      case SetOnError => b.OnError();
      case SetOnLoading => b.OnLoading();
      case SetOnChanged => b.OnChanged();
    }
    assert block[..|block|] == block;
    o := b.Build();
  }

  /**
   * disposableResourceObserver(liveData, observer): the default disposal, the
   * per-state callbacks unset, and an `onChanged` that forwards every
   * notification to the wrapped ResourceObserver (its `OnChanged` entries
   * stand for those forwarded calls).
   */
  method DisposableResourceObserverForwarding<D, E>(liveData: LiveValue<Resource<D, E>>)
    returns (o: DisposableResourceObserver<D, E>)
    ensures fresh(o) && o.liveData == liveData
    ensures ResourceConfigOf(o) == AppliedAll(DefaultResourceConfig(), [SetOnChanged])
    ensures o.callbacks == ResourceCallbacks(false, false, false, true)
    ensures o.disposeWhen == Some(DefaultResourceDisposeWhen<D, E>) && o.disposeAction == Some(RemoveObserver)
  {
    o := DisposableResourceObserverOf(liveData, [SetOnChanged]);
  }

  /** The forwarding wrapper's only entries are the raw notifications, one per push. */
  lemma {:induction false} ForwardingTraceIsRawNotifications<D, E>(n: Option<Resource<D, E>>)
    ensures CatchAllFirstTrace(ResourceCallbacks(false, false, false, true), n) == [OnChanged(n)]
  {
  }
}
