/**
 * DisposableObserver (observer/DisposableObserver.kt) and its builder
 * (observer/DisposableObserverDsl.kt): an observer of plain values that
 * calls its optional `onChanged`, then runs `disposeAction(liveData, this)`
 * when `disposeWhen(value)` is true.
 */
module DisposableObservers {
  import opened Optional
  import opened Disposal
  import opened LiveValues

  /** The decorator's only callback call: onChanged(data). */
  datatype ValueCall<T> = Changed(value: Option<T>)

  /** The calls one notification makes, for a present or absent `onChanged`. */
  function ValueReaction<T>(onChanged: bool): Option<T> -> seq<ValueCall<T>>
  {
    v => if onChanged then [Changed(v)] else []
  }

  /** The builder's default predicate: dispose on the first non-null value. */
  function DefaultDisposeWhen<T>(v: Option<T>): bool
  {
    v.Some?
  }

  /**
   * What the builder's defaults mean for an observer: with the default
   * predicate and the default action a notification removes the observer
   * exactly when it is non-null, while with a custom action none does.
   */
  lemma DefaultPredicateDetachesOnNonNull<T>(v: Option<T>)
    ensures Detaches(Some(DefaultDisposeWhen<T>), Some(RemoveObserver), v) <==> v.Some?
    ensures ShouldDispose(Some(DefaultDisposeWhen<T>), v) && !Detaches(Some(DefaultDisposeWhen<T>), Some(CustomAction), v)
            <==> v.Some?
  {
  }

  class DisposableObserver<T> {
    const liveData: LiveValue<T>
    const disposeWhen: Option<Option<T> -> bool>
    const disposeAction: Option<DisposeAction>
    const onChanged: bool

    constructor (liveData: LiveValue<T>, disposeWhen: Option<Option<T> -> bool>,
                 disposeAction: Option<DisposeAction>, onChanged: bool)
      ensures this.liveData == liveData && this.disposeWhen == disposeWhen
      ensures this.disposeAction == disposeAction && this.onChanged == onChanged
    {
      this.liveData := liveData;
      this.disposeWhen := disposeWhen;
      this.disposeAction := disposeAction;
      this.onChanged := onChanged;
    }

    /**
     * onChanged(data): the callback first, then the dispose check; the default
     * action removes this observer from its own live data, a custom one is
     * only recorded.
     */
    method OnChanged(v: Option<T>) returns (trace: seq<Dispatched<ValueCall<T>>>)
      modifies liveData`observers
      ensures trace == Step(ValueReaction(onChanged)(v), disposeWhen, disposeAction, v)
      ensures liveData.observers == if Detaches(disposeWhen, disposeAction, v)
                                    then Without(old(liveData.observers), this)
                                    else old(liveData.observers)
    {
      trace := if onChanged then [Callback(Changed(v))] else [];
      if disposeWhen.Some? && disposeWhen.value(v) {
        if disposeAction.Some? {
          trace := trace + [DisposeActionRun];
          if disposeAction.value.RemoveObserver? {
            liveData.RemoveObserver(this);
          }
        }
      }
    }
  }

  /**
   * One push `v` on the observer's own live data after the pushes `done`:
   * the run over `done` is extended by one step, and the observer list
   * (`registeredAtStart` while the observer is attached) follows it.
   */
  method DeliverNext<T>(obs: DisposableObserver<T>, done: seq<Option<T>>, v: Option<T>, ghost registeredAtStart: seq<object>)
    returns (t: seq<Dispatched<ValueCall<T>>>)
    requires obs in registeredAtStart
    requires obs.liveData.observers == if Run(ValueReaction(obs.onChanged), obs.disposeWhen, obs.disposeAction, true, done).attached
                                       then registeredAtStart
                                       else Without(registeredAtStart, obs)
    modifies obs.liveData
    ensures Run(ValueReaction(obs.onChanged), obs.disposeWhen, obs.disposeAction, true, done + [v]).trace
         == Run(ValueReaction(obs.onChanged), obs.disposeWhen, obs.disposeAction, true, done).trace + t
    ensures obs.liveData.observers == if Run(ValueReaction(obs.onChanged), obs.disposeWhen, obs.disposeAction, true, done + [v]).attached
                                      then registeredAtStart
                                      else Without(registeredAtStart, obs)
    ensures obs.liveData.latest == Holds(v)
  {
    RunSnoc(ValueReaction(obs.onChanged), obs.disposeWhen, obs.disposeAction, done, v);
    var recipients := obs.liveData.Push(v);
    t := [];
    if obs in recipients {
      t := obs.OnChanged(v);
    }
  }

  /**
   * The pushes of `pushes` made on the observer's own live data while it is
   * registered: the observer sees exactly what the pure run describes.
   */
  method DeliverAll<T>(obs: DisposableObserver<T>, pushes: seq<Option<T>>) returns (trace: seq<Dispatched<ValueCall<T>>>)
    requires obs in obs.liveData.observers
    modifies obs.liveData
    ensures trace == Run(ValueReaction(obs.onChanged), obs.disposeWhen, obs.disposeAction, true, pushes).trace
    ensures obs in obs.liveData.observers <==>
            Run(ValueReaction(obs.onChanged), obs.disposeWhen, obs.disposeAction, true, pushes).attached
    ensures obs.liveData.observers == if Run(ValueReaction(obs.onChanged), obs.disposeWhen, obs.disposeAction, true, pushes).attached
                                      then old(obs.liveData.observers)
                                      else Without(old(obs.liveData.observers), obs)
    ensures obs.liveData.latest == if pushes == [] then old(obs.liveData.latest) else Holds(pushes[|pushes| - 1])
  {
    var source := obs.liveData;
    trace := [];
    var i := 0;
    while i < |pushes|
      invariant 0 <= i <= |pushes|
      invariant trace == Run(ValueReaction(obs.onChanged), obs.disposeWhen, obs.disposeAction, true, pushes[..i]).trace
      invariant source.observers == if Run(ValueReaction(obs.onChanged), obs.disposeWhen, obs.disposeAction, true, pushes[..i]).attached
                                    then old(source.observers)
                                    else Without(old(source.observers), obs)
      invariant source.latest == if i == 0 then old(source.latest) else Holds(pushes[i - 1])
    {
      assert pushes[..i + 1] == pushes[..i] + [pushes[i]];
      var t := DeliverNext(obs, pushes[..i], pushes[i], old(source.observers));
      trace := trace + t;
      i := i + 1;
    }
    assert pushes[..i] == pushes;
  }

  /** The constructor arguments a builder hands to DisposableObserver. */
  datatype ObserverConfig<!T> = ObserverConfig(disposeWhen: Option<Option<T> -> bool>,
                                               disposeAction: Option<DisposeAction>,
                                               onChanged: bool)

  /** The builder's initial fields: non-null predicate, remove-self action, no callback. */
  function DefaultConfig<T>(): ObserverConfig<T>
  {
    ObserverConfig(Some(DefaultDisposeWhen<T>), Some(RemoveObserver), false)
  }

  /** What an observer was built with. */
  function ConfigOf<T>(o: DisposableObserver<T>): ObserverConfig<T>
  {
    ObserverConfig(o.disposeWhen, o.disposeAction, o.onChanged)
  }

  /** One setter call made by a builder block. */
  datatype ObserverSetting<!T> = SetDisposeWhen(p: Option<T> -> bool) | SetDisposeAction(a: DisposeAction) | SetOnChanged

  /** The builder field a setter writes. */
  datatype ObserverField = DisposeWhenField | DisposeActionField | OnChangedField

  function FieldOf<T>(s: ObserverSetting<T>): ObserverField
  {
    match s
    case SetDisposeWhen(_) => DisposeWhenField
    case SetDisposeAction(_) => DisposeActionField
    case SetOnChanged => OnChangedField
  }

  /** Two configurations hold the same value in field `f`. */
  ghost predicate AgreeOn<T>(a: ObserverConfig<T>, b: ObserverConfig<T>, f: ObserverField)
  {
    match f
    case DisposeWhenField => a.disposeWhen == b.disposeWhen
    case DisposeActionField => a.disposeAction == b.disposeAction
    case OnChangedField => a.onChanged == b.onChanged
  }

  /** A setter replaces its own field and leaves the others. */
  function Applied<T>(c: ObserverConfig<T>, s: ObserverSetting<T>): (r: ObserverConfig<T>)
    ensures forall f :: f != FieldOf(s) ==> AgreeOn(r, c, f)
  {
    match s
    case SetDisposeWhen(p) => c.(disposeWhen := Some(p))
    case SetDisposeAction(a) => c.(disposeAction := Some(a))
    case SetOnChanged => c.(onChanged := true)
  }

  /** A builder block: its setter calls, in order. */
  function AppliedAll<T>(c: ObserverConfig<T>, block: seq<ObserverSetting<T>>): ObserverConfig<T>
    decreases |block|
  {
    if block == [] then c else Applied(AppliedAll(c, block[..|block| - 1]), block[|block| - 1])
  }

  /** The last call of each setter wins: repeating it changes nothing. */
  lemma {:induction false} LastSettingWins<T>(c: ObserverConfig<T>, block: seq<ObserverSetting<T>>, i: nat)
    requires i < |block|
    requires forall j :: i < j < |block| ==> FieldOf(block[j]) != FieldOf(block[i])
    ensures Applied(AppliedAll(c, block), block[i]) == AppliedAll(c, block)
    decreases |block|
  {
    var n := |block| - 1;
    if i < n {
      LastSettingWins(c, block[..n], i);
      var before := AppliedAll(c, block[..n]);
      assert AgreeOn(Applied(before, block[n]), before, FieldOf(block[i]));
    }
  }

  /** A field no setter touched keeps its default. */
  lemma {:induction false} UnsetFieldKeepsDefault<T>(c: ObserverConfig<T>, block: seq<ObserverSetting<T>>, f: ObserverField)
    requires forall j :: 0 <= j < |block| ==> FieldOf(block[j]) != f
    ensures AgreeOn(AppliedAll(c, block), c, f)
    decreases |block|
  {
    if block != [] {
      UnsetFieldKeepsDefault(c, block[..|block| - 1], f);
    }
  }

  /** DisposableObserverBuilder: private fields that the setters overwrite. */
  class DisposableObserverBuilder<T> {
    const liveData: LiveValue<T>
    var disposeWhen: Option<Option<T> -> bool>
    var disposeAction: Option<DisposeAction>
    var onChanged: bool

    ghost function Config(): ObserverConfig<T>
      reads this
    {
      ObserverConfig(disposeWhen, disposeAction, onChanged)
    }

    constructor (liveData: LiveValue<T>)
      ensures this.liveData == liveData && Config() == DefaultConfig()
    {
      this.liveData := liveData;
      disposeWhen := Some(DefaultDisposeWhen<T>);
      disposeAction := Some(RemoveObserver);
      onChanged := false;
    }

    method DisposeWhen(block: Option<T> -> bool)
      modifies this
      ensures Config() == Applied(old(Config()), SetDisposeWhen(block))
    {
      disposeWhen := Some(block);
    }

    method DisposeAction(block: DisposeAction)
      modifies this
      ensures Config() == Applied(old(Config()), SetDisposeAction(block))
    {
      disposeAction := Some(block);
    }

    method OnChanged()
      modifies this
      ensures Config() == Applied(old(Config()), SetOnChanged)
    {
      onChanged := true;
    }

    /** build(): a new observer on the builder's own live data with the current fields. */
    method Build() returns (o: DisposableObserver<T>)
      ensures fresh(o) && o.liveData == liveData && ConfigOf(o) == Config()
    {
      o := new DisposableObserver(liveData, disposeWhen, disposeAction, onChanged);
    }
  }

  /** disposableObserver(liveData, block): a fresh builder, the block's setter calls, then build. */
  method DisposableObserverOf<T>(liveData: LiveValue<T>, block: seq<ObserverSetting<T>>) returns (o: DisposableObserver<T>)
    ensures fresh(o) && o.liveData == liveData && ConfigOf(o) == AppliedAll(DefaultConfig(), block)
  {
    var b := new DisposableObserverBuilder(liveData);
    for i := 0 to |block|
      invariant b.Config() == AppliedAll(DefaultConfig(), block[..i])
    {
      assert block[..i + 1][..i] == block[..i];
      match block[i]
      case SetDisposeWhen(p) => b.DisposeWhen(p);
      case SetDisposeAction(a) => b.DisposeAction(a);
      case SetOnChanged => b.OnChanged();
    }
    assert block[..|block|] == block;
    o := b.Build();
  }

  /**
   * disposableObserver(liveData, observer): the default disposal, and an
   * `onChanged` that forwards every value to the wrapped observer (its
   * `Changed` entries stand for those forwarded calls).
   */
  method DisposableObserverForwarding<T>(liveData: LiveValue<T>) returns (o: DisposableObserver<T>)
    ensures fresh(o) && o.liveData == liveData
    ensures ConfigOf(o) == AppliedAll(DefaultConfig(), [SetOnChanged])
    ensures ConfigOf(o) == ObserverConfig(Some(DefaultDisposeWhen<T>), Some(RemoveObserver), true)
  {
    o := DisposableObserverOf(liveData, [SetOnChanged]);
  }
}
