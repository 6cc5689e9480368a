/**
 * The live-value source the observers are attached to, reduced to what the
 * decorators act on: the observers registered without a lifecycle scope
 * (compared by identity, as `removeObserver` does) and the latest value.
 */
module LiveValues {
  import opened Optional

  /** Whether a value was ever set, and which (possibly null) value. */
  datatype Slot<T> = NotSet | Holds(value: Option<T>)

  /** The observers with every occurrence of `o` taken out, in their order. */
  function Without(observers: seq<object>, o: object): (r: seq<object>)
    ensures o !in r
    ensures forall i :: 0 <= i < |r| ==> r[i] in observers
    ensures forall i :: 0 <= i < |observers| && observers[i] != o ==> observers[i] in r
    ensures o !in observers ==> r == observers
  {
    if observers == [] then []
    else if observers[0] == o then Without(observers[1..], o)
    else [observers[0]] + Without(observers[1..], o)
  }

  /** Registering a new observer and then removing it gives back the original list. */
  lemma {:induction false} WithoutAppended(observers: seq<object>, o: object)
    requires o !in observers
    ensures Without(observers + [o], o) == observers
  {
    if observers != [] {
      assert (observers + [o])[1..] == observers[1..] + [o];
      WithoutAppended(observers[1..], o);
    }
  }

  class LiveValue<T> {
    var observers: seq<object>
    var latest: Slot<T>

    constructor ()
      ensures observers == [] && latest == NotSet
    {
      observers := [];
      latest := NotSet;
    }

    /** observeForever: an observer already registered is not added twice. */
    method ObserveForever(o: object) returns (added: bool)
      modifies this`observers
      ensures added <==> o !in old(observers)
      ensures observers == if added then old(observers) + [o] else old(observers)
      ensures o in observers
    {
      added := o !in observers;
      if added {
        observers := observers + [o];
      }
    }

    /** removeObserver: afterwards the source no longer reaches `o`. */
    method RemoveObserver(o: object)
      modifies this`observers
      ensures observers == Without(old(observers), o)
      ensures o !in observers
    {
      observers := Without(observers, o);
    }

    /** A push: records the value and returns the observers it is delivered to, in order. */
    method Push(v: Option<T>) returns (recipients: seq<object>)
      modifies this`latest
      ensures latest == Holds(v)
      ensures recipients == observers
    {
      latest := Holds(v);
      recipients := observers;
    }
  }
}
