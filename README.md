# blueprint dispatch layer, in Dafny

This project models the single-threaded dispatch layer of the blueprint Android library.

- **Resource** is the three-state outcome of an operation (success with data, error, loading with optional stale data). It has factories and a structural `equals`.
- **Event** is a payload that should be consumed once. It has a one-way `consumed` flag and `withData`.
- **ResourceObserver** turns one resource notification, possibly null, into calls to optional callbacks. There are two revisions with opposite call orders.
- **EventObserver** does the same for events, going through `Event.withData`.
- **DisposableObserver** and **DisposableResourceObserver** decorate the observers above. After dispatching a notification they run `disposeAction(liveData, this)` when `disposeWhen(value)` is true. The default action removes the observer from its live data.
- Three **builders** (the DSL files) hold the defaults and the setters; each has two factories.
- From **LiveDataExtensions.kt**: the per-element lambda of `mapResource`, the wrap-or-reuse registration of `observeOnce`, `observeResourceOnce` and `observeEventOnce` (with and without a builder block), and `compute`.

How the model represents them:

- A nullable Kotlin value is an `Option`.
- A user callback is a presence flag. Its calls are the entries of a trace that the dispatching member returns, so "which callbacks ran, with what, in which order" is a sequence.
- The dispose action is either the default remove-self action or a custom one. A custom action is recorded in the trace, and the model assumes it does not remove the observer. So the claim that a custom action leaves the observer registered holds only for actions that do not remove it.
- The live data the observers attach to is the class `LiveValues.LiveValue`. It holds:
  - the observers registered forever, compared by identity as `removeObserver` compares them;
  - the latest value.

  Registering an observer that is not yet registered delivers the latest value to it at once.
- Disposal has a specification on values (module `Disposal`):
  - `Step` describes one notification.
  - `Run` describes a series of pushes to one decorator, which is reached only while it is registered.

  The imperative members (`OnChanged` of the decorators, `DeliverAll`, the registration methods) are proved equal to these functions. The properties are then proved about the functions.
- A builder is a class with mutable fields. Its setters are methods. The block passed to a factory is the sequence of setter calls it makes (`ObserverSetting`, `ResourceSetting`, `EventSetting`), applied in a loop.

A disposable observer passed to the registration functions keeps the live data it was built for. Its default action removes it from that live data. If it was built for another live data and is registered on this one, the action runs and removes it from that other live data, but the observer stays registered here for good (`LiveDataExtensions.ObserveOnceForeignObserver`).

The model follows the code where its documentation says otherwise. The comments above both `observeResourceOnce` overloads (LiveDataExtensions.kt lines 87 and 116) say the observer is removed on the first SUCCESS. The default predicate (observer/DisposableResourceObserverDsl.kt:30-32) is "non-null and not LOADING", so an ERROR disposes too. `DisposableResourceObservers.DefaultDisposesOnFirstTerminal` states the behaviour of the code.

## Model

| member | source | states |
|---|---|---|
| Resources.StatusOf | blueprint/src/main/java/com/gianlucalimbi/blueprint/Resource.kt:72-82 | the status is SUCCESS, ERROR or LOADING exactly for the success, error or loading subclass |
| Resources.DataOf | blueprint/src/main/java/com/gianlucalimbi/blueprint/Resource.kt:72-82 | an error never carries data and a success always does |
| Resources.ErrorOf | blueprint/src/main/java/com/gianlucalimbi/blueprint/Resource.kt:72-82 | the error is present exactly when the status is ERROR |
| Resources.Success | blueprint/src/main/java/com/gianlucalimbi/blueprint/Resource.kt:28 | success(d) has status SUCCESS, data d and a null error |
| Resources.Error | blueprint/src/main/java/com/gianlucalimbi/blueprint/Resource.kt:31 | error(e) has status ERROR, null data and error e |
| Resources.Loading | blueprint/src/main/java/com/gianlucalimbi/blueprint/Resource.kt:34 | loading(d) has status LOADING, carries d and a null error; a call that omits the argument is modelled as passing None |
| Resources.Equals | blueprint/src/main/java/com/gianlucalimbi/blueprint/Resource.kt:38-52 | equals holds only for another resource with the same status, and every resource equals itself |
| Resources.EqualsIsStructural | blueprint/src/main/java/com/gianlucalimbi/blueprint/Resource.kt:38-52 | equals between two resources holds exactly when they are the same variant with equal status, data and error |
| Resources.NeverEqualsNullOrForeign | blueprint/src/main/java/com/gianlucalimbi/blueprint/Resource.kt:43-45 | a resource never equals null or a value of another class |
| Resources.DifferentStatusNeverEqual | blueprint/src/main/java/com/gianlucalimbi/blueprint/Resource.kt:43-51 | resources with different statuses are never equal |
| Resources.EqualsReflexiveSymmetric | blueprint/src/main/java/com/gianlucalimbi/blueprint/Resource.kt:38-52 | equals is reflexive and symmetric |
| Resources.FactoriesEqualIffArgumentsEqual | blueprint/src/main/java/com/gianlucalimbi/blueprint/Resource.kt:28-52 | two factory results of the same kind are equal iff their arguments are; results of different kinds never are |
| Events.Event.constructor | blueprint/src/main/java/com/gianlucalimbi/blueprint/Event.kt:24-28 | a new event holds its payload and is not consumed |
| Events.HasBeenConsumedThenWithData | blueprint/src/main/java/com/gianlucalimbi/blueprint/Event.kt:30-42 | read before withData(false), hasBeenConsumed is true exactly when that call skips the block; read after it, it is true |
| Events.Event.WithData | blueprint/src/main/java/com/gianlucalimbi/blueprint/Event.kt:36-42 | the block receives the payload exactly once when includeConsumed is set or the event was unconsumed, and not at all otherwise; afterwards the event is consumed; a refused call changes nothing |
| Events.WithDataTwice | blueprint/src/main/java/com/gianlucalimbi/blueprint/Event.kt:36-42 | a second withData(false) never runs the block again, an overriding one always does, and the flag stays set |
| ResourceObservers.RouteOf | blueprint/src/main/java/com/gianlucalimbi/blueprint/observer/ResourceObserver.kt:35-41 | success data goes to onSuccess, the error to onError, the possibly null loading data to onLoading, and nothing else |
| ResourceObservers.CatchAllFirstTrace | blueprint/src/main/java/com/gianlucalimbi/blueprint/observer/ResourceObserver.kt:32-42 | the catch-all receives the raw notification first; then exactly the routed per-state callback runs, if it was supplied and the notification is non-null; absent callbacks leave no entry |
| ResourceObservers.PerStateFirstTrace | blueprint/src/main/java/com/gianlucalimbi/blueprint/ResourceObserver.kt:12-22 | the older revision: the routed per-state callback first, then the catch-all with the raw value |
| ResourceObservers.TracesAreRouted | blueprint/src/main/java/com/gianlucalimbi/blueprint/observer/ResourceObserver.kt:32-42 | both revisions make only the raw catch-all call or the routed call, and the catch-all fires exactly once when supplied |
| ResourceObservers.NullReachesOnlyCatchAll | blueprint/src/main/java/com/gianlucalimbi/blueprint/observer/ResourceObserver.kt:33-35 | a null notification reaches only onChanged(null), in both revisions |
| ResourceObservers.RevisionsDifferOnlyInOrder | blueprint/src/main/java/com/gianlucalimbi/blueprint/ResourceObserver.kt:12-22 | the two revisions make the same calls, in opposite orders when both callbacks fire |
| ResourceObservers.DefaultsAreNoOps | blueprint/src/main/java/com/gianlucalimbi/blueprint/ResourceObserver.kt:5-9 | with the older revision's no-op defaults nothing observable happens |
| Disposal.Step | blueprint/src/main/java/com/gianlucalimbi/blueprint/observer/DisposableObserver.kt:29-35 | the callbacks' calls come first and in order; the action runs exactly when the predicate is present and true and an action is present |
| Disposal.RunWithoutDisposal | blueprint/src/main/java/com/gianlucalimbi/blueprint/observer/DisposableObserver.kt:29-35 | while the predicate never holds, every push reaches the observer and it stays registered |
| Disposal.AbsentPredicateOrActionNeverDisposes | blueprint/src/main/java/com/gianlucalimbi/blueprint/observer/DisposableObserver.kt:32-34 | an absent predicate or an absent action never disposes, whatever is pushed |
| Disposal.RunStopsAtFirstDisposal | blueprint/src/main/java/com/gianlucalimbi/blueprint/observer/DisposableObserver.kt:29-35 | with the default action, the observer receives every push up to and including the first that satisfies the predicate, the action runs exactly once, and the observer is removed |
| Disposal.CustomActionNeverDetaches | blueprint/src/main/java/com/gianlucalimbi/blueprint/observer/DisposableObserver.kt:22-35 | with a custom action the observer keeps no detached flag: it stays registered and the action runs once per satisfying push |
| Disposal.DetachedIsTerminal | blueprint/src/main/java/com/gianlucalimbi/blueprint/observer/DisposableObserver.kt:32-34 | once removed, no later push reaches the observer |
| Disposal.RunConcat | blueprint/src/main/java/com/gianlucalimbi/blueprint/observer/DisposableObserver.kt:22-35 | a run over two series of pushes is the run over the first continued over the second |
| LiveValues.LiveValue.ObserveForever | blueprint/src/main/java/com/gianlucalimbi/blueprint/LiveDataExtensions.kt:60-61 | registration appends the observer unless it is already registered |
| LiveValues.LiveValue.RemoveObserver | blueprint/src/main/java/com/gianlucalimbi/blueprint/observer/DisposableObserverDsl.kt:34-36 | removal takes every occurrence of the observer out and keeps the others in order |
| DisposableObservers.DefaultPredicateDetachesOnNonNull | blueprint/src/main/java/com/gianlucalimbi/blueprint/observer/DisposableObserverDsl.kt:30-36 | with the default predicate and the default action a notification removes the observer exactly when it is non-null; with a custom action the action still runs on non-null values but never removes it |
| DisposableObservers.DisposableObserver.constructor | blueprint/src/main/java/com/gianlucalimbi/blueprint/observer/DisposableObserver.kt:22-27 | the observer keeps its live data, predicate, action and callback as given |
| DisposableObservers.DisposableObserver.OnChanged | blueprint/src/main/java/com/gianlucalimbi/blueprint/observer/DisposableObserver.kt:29-35 | the trace is Step over the onChanged call; the observer leaves its own live data exactly when the default action runs |
| DisposableObservers.DeliverNext | blueprint/src/main/java/com/gianlucalimbi/blueprint/observer/DisposableObserver.kt:29-35 | one more push on the observer's live data extends the run by one step: a registered observer gets Step and leaves the list exactly when the default action runs, a removed one gets nothing; the live data holds the push |
| DisposableObservers.DeliverAll | blueprint/src/main/java/com/gianlucalimbi/blueprint/observer/DisposableObserver.kt:22-35 | pushes on the observer's live data produce exactly the trace and registration state of Run; the live data ends holding the last push, and its observer list is the old one, minus this observer once Run says it was removed |
| DisposableObservers.Applied | blueprint/src/main/java/com/gianlucalimbi/blueprint/observer/DisposableObserverDsl.kt:40-50 | a setter changes only its own field |
| DisposableObservers.LastSettingWins | blueprint/src/main/java/com/gianlucalimbi/blueprint/observer/DisposableObserverDsl.kt:40-50 | the last call of each setter determines its field |
| DisposableObservers.UnsetFieldKeepsDefault | blueprint/src/main/java/com/gianlucalimbi/blueprint/observer/DisposableObserverDsl.kt:30-38 | a field no setter touched keeps its default (non-null predicate, remove-self action, no onChanged) |
| DisposableObservers.DisposableObserverBuilder.constructor | blueprint/src/main/java/com/gianlucalimbi/blueprint/observer/DisposableObserverDsl.kt:26-38 | a new builder holds its live data and the default fields |
| DisposableObservers.DisposableObserverBuilder.DisposeWhen | blueprint/src/main/java/com/gianlucalimbi/blueprint/observer/DisposableObserverDsl.kt:40-42 | replaces the predicate |
| DisposableObservers.DisposableObserverBuilder.DisposeAction | blueprint/src/main/java/com/gianlucalimbi/blueprint/observer/DisposableObserverDsl.kt:44-46 | replaces the action |
| DisposableObservers.DisposableObserverBuilder.OnChanged | blueprint/src/main/java/com/gianlucalimbi/blueprint/observer/DisposableObserverDsl.kt:48-50 | sets the callback |
| DisposableObservers.DisposableObserverBuilder.Build | blueprint/src/main/java/com/gianlucalimbi/blueprint/observer/DisposableObserverDsl.kt:52-57 | a new observer with the builder's own live data and current fields |
| DisposableObservers.DisposableObserverOf | blueprint/src/main/java/com/gianlucalimbi/blueprint/observer/DisposableObserverDsl.kt:61-66 | the observer is built from the defaults with the block's setter calls applied in order |
| DisposableObservers.DisposableObserverForwarding | blueprint/src/main/java/com/gianlucalimbi/blueprint/observer/DisposableObserverDsl.kt:68-75 | wrapping an observer keeps the default predicate and action and forwards every value |
| DisposableResourceObservers.DefaultResourceDisposeWhen | blueprint/src/main/java/com/gianlucalimbi/blueprint/observer/DisposableResourceObserverDsl.kt:30-32 | the default predicate holds exactly for a non-null success or error, so an error disposes as well as a success |
| DisposableResourceObservers.DisposableResourceObserver.constructor | blueprint/src/main/java/com/gianlucalimbi/blueprint/observer/DisposableResourceObserver.kt:22-30 | the observer keeps its live data, predicate, action and callbacks as given |
| DisposableResourceObservers.DisposableResourceObserver.OnChanged | blueprint/src/main/java/com/gianlucalimbi/blueprint/observer/DisposableResourceObserver.kt:32-38 | the full catch-all-first dispatch completes, then the action runs exactly when the predicate holds; the default action removes the observer |
| DisposableResourceObservers.PushKeeping | blueprint/src/main/java/com/gianlucalimbi/blueprint/observer/DisposableResourceObserver.kt:32-38 | with the default predicate, a loading push reaching a registered observer is dispatched in full; the observer list is unchanged and the live data holds the push |
| DisposableResourceObservers.PushDisposing | blueprint/src/main/java/com/gianlucalimbi/blueprint/observer/DisposableResourceObserver.kt:32-38 | with the default predicate and action, a success or error push reaching a registered observer is dispatched in full, then the action runs; the observer list loses exactly this observer and the live data holds the push |
| DisposableResourceObservers.PushLoadingLoadingSuccess | blueprint/src/main/java/com/gianlucalimbi/blueprint/observer/DisposableResourceObserver.kt:32-38 | with the defaults, Loading(x), Loading(y), Success(z) dispatch all three and remove the observer once, after Success(z); the other observers stay in order and the live data ends holding Success(z) |
| DisposableResourceObservers.DefaultDisposesOnFirstTerminal | blueprint/src/main/java/com/gianlucalimbi/blueprint/observer/DisposableResourceObserverDsl.kt:30-36 | with the defaults, the first success or error after null and loading notifications disposes, exactly once, and later pushes do not reach the observer |
| DisposableResourceObservers.DefaultKeepsThroughLoading | blueprint/src/main/java/com/gianlucalimbi/blueprint/observer/DisposableResourceObserverDsl.kt:30-32 | null and loading notifications never dispose under the default predicate |
| DisposableResourceObservers.Applied | blueprint/src/main/java/com/gianlucalimbi/blueprint/observer/DisposableResourceObserverDsl.kt:43-65 | a setter changes only its own field |
| DisposableResourceObservers.LastSettingWins | blueprint/src/main/java/com/gianlucalimbi/blueprint/observer/DisposableResourceObserverDsl.kt:43-65 | the last call of each setter determines its field |
| DisposableResourceObservers.UnsetFieldKeepsDefault | blueprint/src/main/java/com/gianlucalimbi/blueprint/observer/DisposableResourceObserverDsl.kt:30-41 | a field no setter touched keeps its default; the four callbacks are absent unless set |
| DisposableResourceObservers.DisposableResourceObserverBuilder.constructor | blueprint/src/main/java/com/gianlucalimbi/blueprint/observer/DisposableResourceObserverDsl.kt:26-41 | a new builder holds its live data and the default fields |
| DisposableResourceObservers.DisposableResourceObserverBuilder.DisposeWhen | blueprint/src/main/java/com/gianlucalimbi/blueprint/observer/DisposableResourceObserverDsl.kt:43-45 | replaces the predicate |
| DisposableResourceObservers.DisposableResourceObserverBuilder.DisposeAction | blueprint/src/main/java/com/gianlucalimbi/blueprint/observer/DisposableResourceObserverDsl.kt:47-49 | replaces the action |
| DisposableResourceObservers.DisposableResourceObserverBuilder.OnSuccess | blueprint/src/main/java/com/gianlucalimbi/blueprint/observer/DisposableResourceObserverDsl.kt:51-53 | sets onSuccess |
| DisposableResourceObservers.DisposableResourceObserverBuilder.OnError | blueprint/src/main/java/com/gianlucalimbi/blueprint/observer/DisposableResourceObserverDsl.kt:55-57 | sets onError |
| DisposableResourceObservers.DisposableResourceObserverBuilder.OnLoading | blueprint/src/main/java/com/gianlucalimbi/blueprint/observer/DisposableResourceObserverDsl.kt:59-61 | sets onLoading |
| DisposableResourceObservers.DisposableResourceObserverBuilder.OnChanged | blueprint/src/main/java/com/gianlucalimbi/blueprint/observer/DisposableResourceObserverDsl.kt:63-65 | sets onChanged |
| DisposableResourceObservers.DisposableResourceObserverBuilder.Build | blueprint/src/main/java/com/gianlucalimbi/blueprint/observer/DisposableResourceObserverDsl.kt:67-75 | a new observer with the builder's own live data and current fields |
| DisposableResourceObservers.DisposableResourceObserverOf | blueprint/src/main/java/com/gianlucalimbi/blueprint/observer/DisposableResourceObserverDsl.kt:79-84 | the observer is built from the defaults with the block's setter calls applied in order |
| DisposableResourceObservers.DisposableResourceObserverForwarding | blueprint/src/main/java/com/gianlucalimbi/blueprint/observer/DisposableResourceObserverDsl.kt:86-93 | wrapping a ResourceObserver keeps the default disposal, leaves the per-state callbacks unset and sets onChanged |
| DisposableResourceObservers.ForwardingTraceIsRawNotifications | blueprint/src/main/java/com/gianlucalimbi/blueprint/observer/DisposableResourceObserverDsl.kt:86-93 | the wrapper's only call per notification is the forwarded raw notification |
| EventObservers.EventTrace | blueprint/src/main/java/com/gianlucalimbi/blueprint/observer/EventObserver.kt:28-32 | the catch-all receives the raw event first; withData receives the payload exactly when the event is non-null and unconsumed or includeConsumed is true |
| EventObservers.IncludeConsumed | blueprint/src/main/java/com/gianlucalimbi/blueprint/observer/EventObserver.kt:31 | a null includeConsumed is read as false, a non-null one as its value |
| EventObservers.OnChanged | blueprint/src/main/java/com/gianlucalimbi/blueprint/observer/EventObserver.kt:28-32 | the calls are EventTrace of the event's prior state, and a non-null event is consumed afterwards even without a withData callback |
| EventObservers.DeliveredAtMostOnce | blueprint/src/main/java/com/gianlucalimbi/blueprint/observer/EventObserver.kt:31 | observers without includeConsumed sharing an event deliver its data at most once, by the first one |
| EventObservers.OverrideDeliversToAll | blueprint/src/main/java/com/gianlucalimbi/blueprint/observer/EventObserver.kt:31 | with includeConsumed every observer with a callback receives the data |
| EventObservers.TraceDeliveries | blueprint/src/main/java/com/gianlucalimbi/blueprint/observer/EventObserver.kt:31 | one dispatch passes the payload to withData once when it delivers and never otherwise |
| EventObservers.DispatchToAll | blueprint/src/main/java/com/gianlucalimbi/blueprint/observer/EventObserver.kt:28-32 | handing one event to several observers in turn delivers its data exactly Deliveries times and leaves it consumed |
| DisposableEventObservers.DefaultEventDisposeWhenOfView | blueprint/src/main/java/com/gianlucalimbi/blueprint/observer/DisposableEventObserverDsl.kt:30-32 | on the view of a notification the default predicate is "non-null and hasBeenConsumed" |
| DisposableEventObservers.DisposableEventObserver.constructor | blueprint/src/main/java/com/gianlucalimbi/blueprint/observer/DisposableEventObserverDsl.kt:59-66 | the observer keeps the live data and the arguments build passes to it |
| DisposableEventObservers.Applied | blueprint/src/main/java/com/gianlucalimbi/blueprint/observer/DisposableEventObserverDsl.kt:41-57 | a setter or the includeConsumed assignment changes only its own field |
| DisposableEventObservers.LastSettingWins | blueprint/src/main/java/com/gianlucalimbi/blueprint/observer/DisposableEventObserverDsl.kt:41-57 | the last call of each setter determines its field |
| DisposableEventObservers.IncludeConsumedDefaultsToFalse | blueprint/src/main/java/com/gianlucalimbi/blueprint/observer/DisposableEventObserverDsl.kt:41 | includeConsumed stays null unless assigned, and then a consumed event reaches no withData callback |
| DisposableEventObservers.UnsetFieldKeepsDefault | blueprint/src/main/java/com/gianlucalimbi/blueprint/observer/DisposableEventObserverDsl.kt:30-41 | a field no setter touched keeps its default; withData and onChanged are absent unless set |
| DisposableEventObservers.DisposableEventObserverBuilder.constructor | blueprint/src/main/java/com/gianlucalimbi/blueprint/observer/DisposableEventObserverDsl.kt:26-41 | a new builder holds its live data and the default fields (consumed-event predicate, remove-self action) |
| DisposableEventObservers.DisposableEventObserverBuilder.DisposeWhen | blueprint/src/main/java/com/gianlucalimbi/blueprint/observer/DisposableEventObserverDsl.kt:43-45 | replaces the predicate |
| DisposableEventObservers.DisposableEventObserverBuilder.DisposeAction | blueprint/src/main/java/com/gianlucalimbi/blueprint/observer/DisposableEventObserverDsl.kt:47-49 | replaces the action |
| DisposableEventObservers.DisposableEventObserverBuilder.WithData | blueprint/src/main/java/com/gianlucalimbi/blueprint/observer/DisposableEventObserverDsl.kt:51-53 | sets withData |
| DisposableEventObservers.DisposableEventObserverBuilder.OnChanged | blueprint/src/main/java/com/gianlucalimbi/blueprint/observer/DisposableEventObserverDsl.kt:55-57 | sets onChanged |
| DisposableEventObservers.DisposableEventObserverBuilder.SetIncludeConsumed | blueprint/src/main/java/com/gianlucalimbi/blueprint/observer/DisposableEventObserverDsl.kt:41 | assigns includeConsumed |
| DisposableEventObservers.DisposableEventObserverBuilder.Build | blueprint/src/main/java/com/gianlucalimbi/blueprint/observer/DisposableEventObserverDsl.kt:59-66 | passes the configured fields unchanged with the builder's own live data |
| DisposableEventObservers.DisposableEventObserverOf | blueprint/src/main/java/com/gianlucalimbi/blueprint/observer/DisposableEventObserverDsl.kt:70-75 | the observer is built from the defaults with the block's setter calls applied in order |
| DisposableEventObservers.DisposableEventObserverForwarding | blueprint/src/main/java/com/gianlucalimbi/blueprint/observer/DisposableEventObserverDsl.kt:77-84 | wrapping an EventObserver keeps the default disposal and forwards raw events to its onChanged |
| LiveDataExtensions.MapResource | blueprint/src/main/java/com/gianlucalimbi/blueprint/LiveDataExtensions.kt:215-221 | status and error are preserved and the data, when present, is mapped by the block |
| LiveDataExtensions.BlockInvocations | blueprint/src/main/java/com/gianlucalimbi/blueprint/LiveDataExtensions.kt:217-219 | the block is invoked once exactly when the resource carries data, with that data |
| LiveDataExtensions.MappedDataComesFromInvocations | blueprint/src/main/java/com/gianlucalimbi/blueprint/LiveDataExtensions.kt:217-219 | the mapped data is the block applied to the argument it was invoked with, and is absent exactly when the block was not invoked |
| LiveDataExtensions.ErrorAndEmptyLoadingSkipBlock | blueprint/src/main/java/com/gianlucalimbi/blueprint/LiveDataExtensions.kt:218-219 | an error and a loading resource without data pass through unchanged without invoking the block |
| LiveDataExtensions.MapIdentity | blueprint/src/main/java/com/gianlucalimbi/blueprint/LiveDataExtensions.kt:215-221 | mapping with the identity gives a resource equal to the original |
| LiveDataExtensions.MapComposes | blueprint/src/main/java/com/gianlucalimbi/blueprint/LiveDataExtensions.kt:215-221 | mapping twice equals mapping once with the composition |
| LiveDataExtensions.ObserveOnce | blueprint/src/main/java/com/gianlucalimbi/blueprint/LiveDataExtensions.kt:53-65 | a DisposableObserver is registered as it is, any other observer is wrapped with the default disposal; a new registration receives the current value; an observer of this source is removed if that disposes; one built for another live data stays registered here, and the action removes it from its own live data instead; the current values do not change |
| LiveDataExtensions.ObserveOnceForeignObserver | blueprint/src/main/java/com/gianlucalimbi/blueprint/LiveDataExtensions.kt:53-65 | a default DisposableObserver built for another live data receives the replayed non-null value and runs its action; that removes it from the live data it was built for, while it stays registered on the source |
| LiveDataExtensions.ObserveOnceBuilt | blueprint/src/main/java/com/gianlucalimbi/blueprint/LiveDataExtensions.kt:78-83 | the observer built from the block is registered as it is and receives the current value; the source's list gains it unless that value disposes it, in which case the list is unchanged |
| LiveDataExtensions.ObserveOnceThenPush | blueprint/src/main/java/com/gianlucalimbi/blueprint/LiveDataExtensions.kt:53-65 | after observeOnce with a plain observer, the observer sees exactly the run over the replayed value and later pushes; the source ends holding the last push, and its list has gained the observer only if that run never removed it |
| LiveDataExtensions.ForwardedValues | blueprint/src/main/java/com/gianlucalimbi/blueprint/observer/DisposableObserverDsl.kt:68-75 | the forwarding wrapper passes every value on, once and in push order |
| LiveDataExtensions.DefaultWrapDisposesOnFirstNonNull | blueprint/src/main/java/com/gianlucalimbi/blueprint/LiveDataExtensions.kt:53-65 | with the default wrapping the observer receives every value up to the first non-null one and is then removed |
| LiveDataExtensions.ObserveResourceOnce | blueprint/src/main/java/com/gianlucalimbi/blueprint/LiveDataExtensions.kt:97-112 | a DisposableResourceObserver is registered as it is, any other ResourceObserver is wrapped with the default resource disposal; a new registration receives the current value; an observer of this source is removed if that disposes; one built for another live data stays registered here, and the action removes it from its own live data instead; the current values do not change |
| LiveDataExtensions.ObserveResourceOnceBuilt | blueprint/src/main/java/com/gianlucalimbi/blueprint/LiveDataExtensions.kt:126-131 | the observer built from the block is registered as it is and receives the current value; the source's list gains it unless that value disposes it, in which case the list is unchanged |
| LiveDataExtensions.ObserveEventOnce | blueprint/src/main/java/com/gianlucalimbi/blueprint/LiveDataExtensions.kt:145-160 | a DisposableEventObserver is registered as it is, any other EventObserver is wrapped with the default event disposal |
| LiveDataExtensions.ObserveEventOnceBuilt | blueprint/src/main/java/com/gianlucalimbi/blueprint/LiveDataExtensions.kt:174-179 | the observer built from the block is registered as it is |
| LiveDataExtensions.Compute | blueprint/src/main/java/com/gianlucalimbi/blueprint/LiveDataExtensions.kt:186-188 | registers an observer whose predicate is always true; if the source holds a value it disposes at once and the source's list is unchanged, otherwise it stays registered; the current value does not change |
| LiveDataExtensions.ComputeDisposesOnFirstNotification | blueprint/src/main/java/com/gianlucalimbi/blueprint/LiveDataExtensions.kt:186-188 | the compute observer disposes on its first notification whatever the value, null included, and makes no other call |

## Left out

- Lifecycle-scoped registration (`observe(lifecycleOwner, …)`): only the registration without an owner (`observeForever`) is modelled, because lifecycle states belong to the Android library.
- `intercept`, `interceptResource`, `map`, `liveDataOf`, `mutableLiveDataOf` and MediatorLiveDataExtensions.kt: these are thin wrappers over MediatorLiveData, Transformations and posting to the main thread. `mapResource` is modelled through its per-element lambda only.
- `Resource.hashCode` and `toString`: these depend on enum identity hashes, 32-bit arithmetic and string formatting.
- The `this === other` shortcut of `Resource.equals`: it gives the same answer as the structural comparison, so it is not modelled separately.
- The view layer, presenters, ViewModelFactory and the non-disposable builders: these are out of scope. A plain Observer, ResourceObserver or EventObserver passed to the registration functions is represented only by the fact that it is plain: the wrapper's trace records the raw notification it forwards, and what the plain observer then does with it is the dispatch modelled in ResourceObservers and EventObservers.
- Atomicity of `Event`'s AtomicBoolean: `withData` reads and then sets the flag. Only a single thread is modelled.
- What user callbacks and custom dispose actions do: each call is recorded in the trace with its argument, but a callback's own effects are not modelled. This includes re-entrant pushes and consuming events from inside a callback.
- DisposableEventObserver's class is not part of this model, so the model has no `onChanged` for it. It keeps only the arguments its builder passes.
- LiveDataExtensions.ObserveEventOnce and LiveDataExtensions.ObserveEventOnceBuilt: record the registration but not the delivery of the current event to the registered observer, because that observer's own dispatch is not part of this model. The observer list they state is the one before that delivery. If that class dispatches first and tests the predicate afterwards, as the other two decorators do, then the inherited EventObserver dispatch, which calls withData on every non-null event, has already consumed it, so the default predicate would remove the observer on every non-null replayed event; the model does not state this.
- DisposableEventObservers predicates: they receive the event's payload and consumed flag as a value (`EventView`), because a Dafny function stored in an object cannot read the heap.
- Builder blocks: a block is modelled as the sequence of setter calls it makes, because arbitrary Kotlin code inside a block is not modelled.
- The error type: it is a type parameter. The newer revision uses `Throwable` and the older one `Exception`, and nothing here depends on the difference.
- A null notification passed to the `mapResource` lambda: the `when` has no branch for it in Kotlin's typing, so the model maps non-null resources only.
- Nullable type arguments: the model assumes the type parameters are non-nullable. In Kotlin `T?` with a nullable `T` collapses to a single null, while `Option<Option<_>>` keeps two levels.
- Other observers of a live data during a push: the scenario methods follow one observer, so the calls a push makes on the other registered observers are not modelled; the contracts state that those observers stay registered, in order.
