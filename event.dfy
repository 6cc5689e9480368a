/**
 * Event.kt: a payload that should be consumed once. The payload is fixed at
 * construction; the `consumed` flag starts false and `withData` sets it.
 */
module Events {

  /** The guard of `withData`: the block runs when consumption is overridden or nothing consumed it yet. */
  predicate Admits(consumed: bool, includeConsumed: bool)
  {
    includeConsumed || !consumed
  }

  class Event<T> {
    const data: T
    var consumed: bool

    constructor (data: T)
      ensures this.data == data && !consumed
    {
      this.data := data;
      consumed := false;
    }

    /** The `hasBeenConsumed` getter. */
    predicate HasBeenConsumed()
      reads this
    {
      consumed
    }

    /**
     * withData(includeConsumed, block): `calls` lists the arguments the block
     * was invoked with, so it is `[data]` or empty.
     */
    method WithData(includeConsumed: bool) returns (calls: seq<T>)
      modifies this
      ensures calls == if Admits(old(consumed), includeConsumed) then [data] else []
      ensures consumed
      ensures !Admits(old(consumed), includeConsumed) ==> unchanged(this)
    {
      calls := [];
      if includeConsumed || !consumed {
        consumed := true;
        calls := [data];
      }
    }
  }

  /**
   * What `hasBeenConsumed` tells a caller: read before `withData(false)`, it
   * is true exactly when that call skips the block; read after any
   * `withData` call, it is true.
   */
  method HasBeenConsumedThenWithData<T>(e: Event<T>) returns (before: bool, calls: seq<T>, after: bool)
    modifies e
    ensures before <==> calls == []
    ensures calls != [] ==> calls == [e.data]
    ensures after && e.consumed
  {
    before := e.HasBeenConsumed();
    calls := e.WithData(false);
    after := e.HasBeenConsumed();
  }

  /** A second `withData(false)` never runs the block again; an overriding one always does. */
  method WithDataTwice<T>(e: Event<T>, includeConsumed: bool) returns (first: seq<T>, second: seq<T>)
    modifies e
    ensures first == if old(e.consumed) then [] else [e.data]
    ensures second == if includeConsumed then [e.data] else []
    ensures e.consumed
  {
    first := e.WithData(false);
    second := e.WithData(includeConsumed);
  }
}
