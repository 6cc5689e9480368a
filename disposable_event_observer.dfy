/**
 * The builder of DisposableEventObserver (observer/DisposableEventObserverDsl.kt).
 * The observer class itself, and so what it does with a notification, is not
 * part of this model: only what the builder hands to its constructor is.
 */
module DisposableEventObservers {
  import opened Optional
  import opened Events
  import opened EventObservers
  import opened Disposal
  import opened LiveValues

  /**
   * What a predicate can observe of a notification: null, or the event's
   * payload and whether it has been consumed. Predicates are functions of
   * this view, so that they can be stored in the builder.
   */
  datatype EventView<T> = EventView(data: T, consumed: bool)

  function NotificationFrame<T>(n: Option<Event<T>>): set<object>
  {
    if n.Some? then {n.value} else {}
  }

  /** The view of a notification in the current state. */
  function ViewOf<T>(n: Option<Event<T>>): (v: Option<EventView<T>>)
    reads NotificationFrame(n)
    ensures v.Some? <==> n.Some?
    ensures n.Some? ==> v.value.consumed == n.value.HasBeenConsumed() && v.value.data == n.value.data
  {
    match n
    case None => None
    case Some(e) => Some(EventView(e.data, e.consumed))
  }

  /** The builder's default predicate: dispose once a non-null event has been consumed. */
  predicate DefaultEventDisposeWhen<T>(v: Option<EventView<T>>)
  {
    v.Some? && v.value.consumed
  }

  /** On the view of a notification, the default predicate is `event != null && event.hasBeenConsumed`. */
  lemma DefaultEventDisposeWhenOfView<T>(n: Option<Event<T>>)
    ensures DefaultEventDisposeWhen(ViewOf(n)) <==> n.Some? && n.value.HasBeenConsumed()
  {
  }

  /** The constructor arguments a builder hands to DisposableEventObserver. */
  datatype EventObserverConfig<!T> = EventObserverConfig(
    disposeWhen: Option<Option<EventView<T>> -> bool>,
    disposeAction: Option<DisposeAction>,
    callbacks: EventObserver)

  /** An observer whose arguments are all that is known of it. */
  class DisposableEventObserver<T> {
    const liveData: LiveValue<Event<T>>
    const config: EventObserverConfig<T>

    constructor (liveData: LiveValue<Event<T>>, config: EventObserverConfig<T>)
      ensures this.liveData == liveData && this.config == config
    {
      this.liveData := liveData;
      this.config := config;
    }
  }

  /** Consumed-event predicate, remove-self action, no callbacks, `includeConsumed` null. */
  function DefaultEventConfig<T>(): EventObserverConfig<T>
  {
    EventObserverConfig(Some(DefaultEventDisposeWhen<T>), Some(RemoveObserver), EventObserver(false, None, false))
  }

  /** One setter call (or `includeConsumed` assignment) made by a builder block. */
  datatype EventSetting<!T> =
    | SetDisposeWhen(p: Option<EventView<T>> -> bool)
    | SetDisposeAction(a: DisposeAction)
    | SetWithData
    | SetOnChanged
    | SetIncludeConsumed(flag: Option<bool>)

  datatype EventField = DisposeWhenField | DisposeActionField | WithDataField | OnChangedField | IncludeConsumedField

  function FieldOf<T>(s: EventSetting<T>): EventField
  {
    match s
    case SetDisposeWhen(_) => DisposeWhenField
    case SetDisposeAction(_) => DisposeActionField
    case SetWithData => WithDataField
    case SetOnChanged => OnChangedField
    case SetIncludeConsumed(_) => IncludeConsumedField
  }

  ghost predicate AgreeOn<T>(a: EventObserverConfig<T>, b: EventObserverConfig<T>, f: EventField)
  {
    match f
    case DisposeWhenField => a.disposeWhen == b.disposeWhen
    case DisposeActionField => a.disposeAction == b.disposeAction
    case WithDataField => a.callbacks.withData == b.callbacks.withData
    case OnChangedField => a.callbacks.onChanged == b.callbacks.onChanged
    case IncludeConsumedField => a.callbacks.includeConsumed == b.callbacks.includeConsumed
  }

  /** A setter replaces its own field and leaves the others. */
  function Applied<T>(c: EventObserverConfig<T>, s: EventSetting<T>): (r: EventObserverConfig<T>)
    ensures forall f :: f != FieldOf(s) ==> AgreeOn(r, c, f)
  {
    match s
    case SetDisposeWhen(p) => c.(disposeWhen := Some(p))
    case SetDisposeAction(a) => c.(disposeAction := Some(a))
    case SetWithData => c.(callbacks := c.callbacks.(withData := true))
    case SetOnChanged => c.(callbacks := c.callbacks.(onChanged := true))
    case SetIncludeConsumed(v) => c.(callbacks := c.callbacks.(includeConsumed := v))
  }

  function AppliedAll<T>(c: EventObserverConfig<T>, block: seq<EventSetting<T>>): EventObserverConfig<T>
    decreases |block|
  {
    if block == [] then c else Applied(AppliedAll(c, block[..|block| - 1]), block[|block| - 1])
  }

  /** The last call of each setter wins: repeating it changes nothing. */
  lemma {:induction false} LastSettingWins<T>(c: EventObserverConfig<T>, block: seq<EventSetting<T>>, i: nat)
    requires i < |block|
    requires forall j :: i < j < |block| ==> FieldOf(block[j]) != FieldOf(block[i])
    ensures Applied(AppliedAll(c, block), block[i]) == AppliedAll(c, block)
    decreases |block|
  {
    var n := |block| - 1;
    if i < n {
      LastSettingWins(c, block[..n], i);
      var before := AppliedAll(c, block[..n]);
      assert AgreeOn(Applied(before, block[n]), before, FieldOf(block[i]));
    }
  }

  /**
   * A block that never assigns `includeConsumed` leaves it null, which the
   * dispatch reads as false: an already consumed event then reaches no
   * `withData` callback.
   */
  lemma {:induction false} IncludeConsumedDefaultsToFalse<T>(block: seq<EventSetting<T>>)
    requires forall j :: 0 <= j < |block| ==> !block[j].SetIncludeConsumed?
    ensures AppliedAll(DefaultEventConfig<T>(), block).callbacks.includeConsumed == None
    ensures forall e: Event<T> :: !Delivers(AppliedAll(DefaultEventConfig<T>(), block).callbacks, Some(e), true)
    decreases |block|
  {
    if block != [] {
      IncludeConsumedDefaultsToFalse(block[..|block| - 1]);
      assert AgreeOn(AppliedAll(DefaultEventConfig<T>(), block),
                     AppliedAll(DefaultEventConfig<T>(), block[..|block| - 1]), IncludeConsumedField);
    }
  }

  /** A field no setter touched keeps its default; in particular an unset callback stays absent. */
  lemma {:induction false} UnsetFieldKeepsDefault<T>(c: EventObserverConfig<T>, block: seq<EventSetting<T>>, f: EventField)
    requires forall j :: 0 <= j < |block| ==> FieldOf(block[j]) != f
    ensures AgreeOn(AppliedAll(c, block), c, f)
    decreases |block|
  {
    if block != [] {
      UnsetFieldKeepsDefault(c, block[..|block| - 1], f);
    }
  }

  /** DisposableEventObserverBuilder: private fields the setters overwrite, and the public `includeConsumed`. */
  class DisposableEventObserverBuilder<T> {
    const liveData: LiveValue<Event<T>>
    var disposeWhen: Option<Option<EventView<T>> -> bool>
    var disposeAction: Option<DisposeAction>
    var withData: bool
    var onChanged: bool
    var includeConsumed: Option<bool>

    ghost function Config(): EventObserverConfig<T>
      reads this
    {
      EventObserverConfig(disposeWhen, disposeAction, EventObserver(withData, includeConsumed, onChanged))
    }

    constructor (liveData: LiveValue<Event<T>>)
      ensures this.liveData == liveData && Config() == DefaultEventConfig()
    {
      this.liveData := liveData;
      disposeWhen := Some(DefaultEventDisposeWhen<T>);
      disposeAction := Some(RemoveObserver);
      withData, onChanged, includeConsumed := false, false, None;
    }

    method DisposeWhen(block: Option<EventView<T>> -> bool)
      modifies this
      ensures Config() == Applied(old(Config()), SetDisposeWhen(block))
    {
      disposeWhen := Some(block);
    }

    method DisposeAction(block: DisposeAction)
      modifies this
      ensures Config() == Applied(old(Config()), SetDisposeAction(block))
    {
      disposeAction := Some(block);
    }

    method WithData()
      modifies this
      ensures Config() == Applied(old(Config()), SetWithData)
    {
      withData := true;
    }

    method OnChanged()
      modifies this
      ensures Config() == Applied(old(Config()), SetOnChanged)
    {
      onChanged := true;
    }

    method SetIncludeConsumed(v: Option<bool>)
      modifies this
      ensures Config() == Applied(old(Config()), EventSetting.SetIncludeConsumed(v))
    {
      includeConsumed := v;
    }

    /** build(): the configured fields, unchanged, on the builder's own live data. */
    method Build() returns (o: DisposableEventObserver<T>)
      ensures fresh(o) && o.liveData == liveData && o.config == Config()
    {
      o := new DisposableEventObserver(liveData,
             EventObserverConfig(disposeWhen, disposeAction, EventObserver(withData, includeConsumed, onChanged)));
    }
  }

  /** disposableEventObserver(liveData, block) */
  method DisposableEventObserverOf<T>(liveData: LiveValue<Event<T>>, block: seq<EventSetting<T>>)
    returns (o: DisposableEventObserver<T>)
    ensures fresh(o) && o.liveData == liveData && o.config == AppliedAll(DefaultEventConfig(), block)
  {
    var b := new DisposableEventObserverBuilder(liveData);
    for i := 0 to |block|
      invariant b.Config() == AppliedAll(DefaultEventConfig(), block[..i])
    {
      assert block[..i + 1][..i] == block[..i];
      match block[i]
      case SetDisposeWhen(p) => b.DisposeWhen(p);
      case SetDisposeAction(a) => b.DisposeAction(a);
      case SetWithData => b.WithData();
      case SetOnChanged => b.OnChanged();
      case SetIncludeConsumed(v) => b.SetIncludeConsumed(v);
    }
    assert block[..|block|] == block;
    o := b.Build();
  }

  /**
   * disposableEventObserver(liveData, observer): the default disposal and an
   * `onChanged` that forwards every raw event to the wrapped EventObserver;
   * the wrapper's own `withData` is unset and `includeConsumed` null.
   */
  method DisposableEventObserverForwarding<T>(liveData: LiveValue<Event<T>>) returns (o: DisposableEventObserver<T>)
    ensures fresh(o) && o.liveData == liveData
    ensures o.config == AppliedAll(DefaultEventConfig(), [SetOnChanged])
    ensures o.config.callbacks == EventObserver(false, None, true)
  {
    o := DisposableEventObserverOf(liveData, [SetOnChanged]);
  }
}
