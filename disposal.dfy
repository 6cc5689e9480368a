/**
 * What every disposable decorator does with one notification, and with a
 * series of them: run the wrapped callbacks, then, when `disposeWhen`
 * returns true, run `disposeAction`. The default action removes the
 * observer from its source, after which the source no longer reaches it.
 */
module Disposal {
  import opened Optional

  /** The default action (`liveData.removeObserver(observer)`) or any other user-supplied one. */
  datatype DisposeAction = RemoveObserver | CustomAction

  /** One entry of a decorator's trace: a wrapped callback call, or the dispose action running. */
  datatype Dispatched<C> = Callback(call: C) | DisposeActionRun

  /** `disposeWhen?.invoke(value) == true`: an absent predicate never disposes. */
  predicate ShouldDispose<X>(disposeWhen: Option<X -> bool>, v: X)
  {
    disposeWhen.Some? && disposeWhen.value(v)
  }

  /** The action runs and it is the default one, so the observer leaves its source. */
  predicate Detaches<X>(disposeWhen: Option<X -> bool>, disposeAction: Option<DisposeAction>, v: X)
  {
    ShouldDispose(disposeWhen, v) && disposeAction == Some(RemoveObserver)
  }

  /** The wrapped callbacks' calls as trace entries, in order. */
  function Wrap<C>(calls: seq<C>): (t: seq<Dispatched<C>>)
    ensures DisposeActionRun !in t
  {
    seq(|calls|, i requires 0 <= i < |calls| => Callback(calls[i]))
  }

  /**
   * One notification: the callbacks (`calls`) complete first, then the
   * dispose action runs exactly when the predicate holds and an action is set.
   */
  function Step<X, C>(calls: seq<C>, disposeWhen: Option<X -> bool>, disposeAction: Option<DisposeAction>, v: X)
    : (t: seq<Dispatched<C>>)
    ensures DisposeActionRun in t <==> ShouldDispose(disposeWhen, v) && disposeAction.Some?
    ensures |t| == |calls| + (if DisposeActionRun in t then 1 else 0)
    ensures t[..|calls|] == Wrap(calls)
  {
    var tail := if ShouldDispose(disposeWhen, v) && disposeAction.Some? then [DisposeActionRun] else [];
    assert DisposeActionRun !in Wrap(calls);
    assert (Wrap(calls) + tail)[..|calls|] == Wrap(calls);
    Wrap(calls) + tail
  }

  /** What a series of notifications did: the trace, and whether the observer is still registered. */
  datatype RunResult<C> = RunResult(trace: seq<Dispatched<C>>, attached: bool)

  /**
   * A series of pushes delivered to one decorator: each push reaches it only
   * while it is registered; the decorator keeps no flag of its own, so a
   * custom action leaves it registered and the predicate is evaluated again.
   */
  function Run<X, C>(react: X -> seq<C>, disposeWhen: Option<X -> bool>, disposeAction: Option<DisposeAction>,
                     attached: bool, pushes: seq<X>): RunResult<C>
    decreases |pushes|
  {
    if pushes == [] then RunResult([], attached)
    else
      var before := Run(react, disposeWhen, disposeAction, attached, pushes[..|pushes| - 1]);
      var v := pushes[|pushes| - 1];
      if !before.attached then before
      else RunResult(before.trace + Step(react(v), disposeWhen, disposeAction, v),
                     !Detaches(disposeWhen, disposeAction, v))
  }

  /** The callback entries of a series of notifications, with no disposal in between. */
  function Reactions<X, C>(react: X -> seq<C>, pushes: seq<X>): (t: seq<Dispatched<C>>)
    ensures DisposeActionRun !in t
    decreases |pushes|
  {
    if pushes == [] then []
    else Reactions(react, pushes[..|pushes| - 1]) + Wrap(react(pushes[|pushes| - 1]))
  }

  /** One more push: the run so far, extended by one step while the observer is registered. */
  lemma RunSnoc<X, C>(react: X -> seq<C>, disposeWhen: Option<X -> bool>, disposeAction: Option<DisposeAction>,
                      pushes: seq<X>, v: X)
    ensures !Run(react, disposeWhen, disposeAction, true, pushes).attached ==>
            Run(react, disposeWhen, disposeAction, true, pushes + [v]) == Run(react, disposeWhen, disposeAction, true, pushes)
    ensures Run(react, disposeWhen, disposeAction, true, pushes).attached ==>
            (Run(react, disposeWhen, disposeAction, true, pushes + [v])
             == RunResult(Run(react, disposeWhen, disposeAction, true, pushes).trace + Step(react(v), disposeWhen, disposeAction, v),
                          !Detaches(disposeWhen, disposeAction, v)))
  {
    assert (pushes + [v])[..|pushes|] == pushes;
  }

  lemma ReactionsSnoc<X, C>(react: X -> seq<C>, pushes: seq<X>, v: X)
    ensures Reactions(react, pushes + [v]) == Reactions(react, pushes) + Wrap(react(v))
  {
    assert (pushes + [v])[..|pushes|] == pushes;
  }

  /** While the predicate never holds, every push reaches the observer and nothing is disposed. */
  lemma {:induction false} RunWithoutDisposal<X, C>(react: X -> seq<C>, disposeWhen: Option<X -> bool>,
                                                  disposeAction: Option<DisposeAction>, pushes: seq<X>)
    requires forall j :: 0 <= j < |pushes| ==> !ShouldDispose(disposeWhen, pushes[j])
    ensures Run(react, disposeWhen, disposeAction, true, pushes) == RunResult(Reactions(react, pushes), true)
    decreases |pushes|
  {
    if pushes != [] {
      var n := |pushes| - 1;
      RunWithoutDisposal(react, disposeWhen, disposeAction, pushes[..n]);
    }
  }

  /**
   * An absent predicate or an absent action never disposes: every push
   * reaches the observer, no action runs and it stays registered.
   */
  lemma {:induction false} AbsentPredicateOrActionNeverDisposes<X, C>(react: X -> seq<C>, disposeWhen: Option<X -> bool>,
                                                                     disposeAction: Option<DisposeAction>, pushes: seq<X>)
    requires disposeWhen.None? || disposeAction.None?
    ensures Run(react, disposeWhen, disposeAction, true, pushes) == RunResult(Reactions(react, pushes), true)
    decreases |pushes|
  {
    if pushes != [] {
      var n := |pushes| - 1;
      AbsentPredicateOrActionNeverDisposes(react, disposeWhen, disposeAction, pushes[..n]);
      var v := pushes[n];
      assert Step(react(v), disposeWhen, disposeAction, v) == Wrap(react(v));
    }
  }

  /** The first push that satisfies the predicate, after none did: the default action runs and the observer leaves. */
  lemma FirstDisposingPush<X, C>(react: X -> seq<C>, disposeWhen: Option<X -> bool>, pushes: seq<X>, v: X)
    requires ShouldDispose(disposeWhen, v)
    requires forall j :: 0 <= j < |pushes| ==> !ShouldDispose(disposeWhen, pushes[j])
    ensures Run(react, disposeWhen, Some(RemoveObserver), true, pushes + [v])
         == RunResult(Reactions(react, pushes + [v]) + [DisposeActionRun], false)
  {
    RunWithoutDisposal(react, disposeWhen, Some(RemoveObserver), pushes);
    RunSnoc(react, disposeWhen, Some(RemoveObserver), pushes, v);
    ReactionsSnoc(react, pushes, v);
    assert Step(react(v), disposeWhen, Some(RemoveObserver), v) == Wrap(react(v)) + [DisposeActionRun];
  }

  /** Callback entries followed by one dispose entry hold exactly one dispose entry. */
  lemma DisposedOnce<C>(t: seq<Dispatched<C>>)
    requires DisposeActionRun !in t
    ensures multiset(t + [DisposeActionRun])[DisposeActionRun] == 1
  {
    assert multiset(t)[DisposeActionRun] == 0;
  }

  /**
   * With the default action, the observer receives every push up to and
   * including the first one that satisfies the predicate, the action runs
   * exactly once right after that push, and no later push reaches it.
   */
  lemma {:induction false} RunStopsAtFirstDisposal<X, C>(react: X -> seq<C>, disposeWhen: Option<X -> bool>,
                                                        pushes: seq<X>, k: nat)
    requires k < |pushes| && ShouldDispose(disposeWhen, pushes[k])
    requires forall j :: 0 <= j < k ==> !ShouldDispose(disposeWhen, pushes[j])
    ensures Run(react, disposeWhen, Some(RemoveObserver), true, pushes)
         == RunResult(Reactions(react, pushes[..k + 1]) + [DisposeActionRun], false)
    ensures multiset(Run(react, disposeWhen, Some(RemoveObserver), true, pushes).trace)[DisposeActionRun] == 1
    decreases |pushes|
  {
    var n := |pushes| - 1;
    if n == k {
      assert pushes[..k] + [pushes[k]] == pushes == pushes[..k + 1];
      FirstDisposingPush(react, disposeWhen, pushes[..k], pushes[k]);
    } else {
      RunStopsAtFirstDisposal(react, disposeWhen, pushes[..n], k);
      assert pushes[..n][..k + 1] == pushes[..k + 1];
      assert pushes[..n] + [pushes[n]] == pushes;
      RunSnoc(react, disposeWhen, Some(RemoveObserver), pushes[..n], pushes[n]);
    }
    DisposedOnce(Reactions(react, pushes[..k + 1]));
  }

  /** How many of the pushes satisfy the predicate. */
  function Satisfying<X>(disposeWhen: Option<X -> bool>, pushes: seq<X>): (n: nat)
    ensures n <= |pushes|
    ensures n == 0 <==> forall j :: 0 <= j < |pushes| ==> !ShouldDispose(disposeWhen, pushes[j])
    ensures n == |pushes| <==> forall j :: 0 <= j < |pushes| ==> ShouldDispose(disposeWhen, pushes[j])
    decreases |pushes|
  {
    if pushes == [] then 0
    else Satisfying(disposeWhen, pushes[..|pushes| - 1]) + (if ShouldDispose(disposeWhen, pushes[|pushes| - 1]) then 1 else 0)
  }

  /**
   * With a custom action the observer stays registered: every push reaches
   * it and the action runs once for every push that satisfies the predicate.
   */
  lemma {:induction false} CustomActionNeverDetaches<X, C>(react: X -> seq<C>, disposeWhen: Option<X -> bool>,
                                                          pushes: seq<X>)
    ensures Run(react, disposeWhen, Some(CustomAction), true, pushes).attached
    ensures multiset(Run(react, disposeWhen, Some(CustomAction), true, pushes).trace)[DisposeActionRun]
         == Satisfying(disposeWhen, pushes)
    decreases |pushes|
  {
    if pushes != [] {
      var n := |pushes| - 1;
      CustomActionNeverDetaches(react, disposeWhen, pushes[..n]);
      var v := pushes[n];
      var w := Wrap(react(v));
      assert multiset(w)[DisposeActionRun] == 0;
      assert Step(react(v), disposeWhen, Some(CustomAction), v)
          == w + (if ShouldDispose(disposeWhen, v) then [DisposeActionRun] else []);
    }
  }

  /** A detached observer is not reached again: the run no longer changes. */
  lemma {:induction false} DetachedIsTerminal<X, C>(react: X -> seq<C>, disposeWhen: Option<X -> bool>,
                                                   disposeAction: Option<DisposeAction>, pushes: seq<X>, more: seq<X>)
    requires !Run(react, disposeWhen, disposeAction, true, pushes).attached
    ensures Run(react, disposeWhen, disposeAction, true, pushes + more)
         == Run(react, disposeWhen, disposeAction, true, pushes)
    decreases |more|
  {
    if more != [] {
      var n := |more| - 1;
      DetachedIsTerminal(react, disposeWhen, disposeAction, pushes, more[..n]);
      assert (pushes + more)[..|pushes + more| - 1] == pushes + more[..n];
    } else {
      assert pushes + more == pushes;
    }
  }

  /**
   * A run over two series is the run over the first, continued over the
   * second from wherever the first left the observer: the decorator's
   * behaviour depends on nothing but whether it is still registered.
   */
  lemma {:induction false} RunConcat<X, C>(react: X -> seq<C>, disposeWhen: Option<X -> bool>,
                                          disposeAction: Option<DisposeAction>, first: seq<X>, second: seq<X>)
    requires Run(react, disposeWhen, disposeAction, true, first).attached
    ensures Run(react, disposeWhen, disposeAction, true, first + second)
         == RunResult(Run(react, disposeWhen, disposeAction, true, first).trace +
                      Run(react, disposeWhen, disposeAction, true, second).trace,
                      Run(react, disposeWhen, disposeAction, true, second).attached)
    decreases |second|
  {
    if second == [] {
      assert first + second == first;
    } else {
      var n := |second| - 1;
      var v := second[n];
      var init := second[..n];
      RunConcat(react, disposeWhen, disposeAction, first, init);
      assert init + [v] == second;
      assert (first + init) + [v] == first + second;
      RunSnoc(react, disposeWhen, disposeAction, init, v);
      RunSnoc(react, disposeWhen, disposeAction, first + init, v);
      ConcatStep(Run(react, disposeWhen, disposeAction, true, first).trace,
                 Run(react, disposeWhen, disposeAction, true, init),
                 Run(react, disposeWhen, disposeAction, true, first + init),
                 Run(react, disposeWhen, disposeAction, true, second),
                 Run(react, disposeWhen, disposeAction, true, first + second),
                 Step(react(v), disposeWhen, disposeAction, v), !Detaches(disposeWhen, disposeAction, v));
    }
  }

  /** The bookkeeping of one step of RunConcat, on the runs as plain values. */
  lemma ConcatStep<C>(head: seq<Dispatched<C>>, before: RunResult<C>, wholeBefore: RunResult<C>,
                      after: RunResult<C>, whole: RunResult<C>, step: seq<Dispatched<C>>, stays: bool)
    requires wholeBefore == RunResult(head + before.trace, before.attached)
    requires after == if !before.attached then before else RunResult(before.trace + step, stays)
    requires whole == if !wholeBefore.attached then wholeBefore else RunResult(wholeBefore.trace + step, stays)
    ensures whole == RunResult(head + after.trace, after.attached)
  {
    if before.attached {
      assert (head + before.trace) + step == head + (before.trace + step);
    }
  }
}
