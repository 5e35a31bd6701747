/**
 * Request coalescing for GET requests: calls in flight, keyed by URL.
 * Only the sequential path is modelled, in which the caller is always the
 * leader: it registers the key, runs the shared function and deregisters.
 */
module Coalesce {
  class Group {
    /** Keys of the calls in flight (the keys of the `m` map). */
    var inFlight: set<string>

    constructor ()
      ensures inFlight == {}
    {
      inFlight := {};
    }

    /**
     * `Do` for a key no call is running for: the key is registered while
     * `fn` runs and removed afterwards, and the caller gets what `fn` returned.
     */
    method Do<R>(key: string, fn: () -> R) returns (r: R)
      requires key !in inFlight
      modifies this
      ensures r == fn()
      ensures inFlight == old(inFlight)
    {
      inFlight := inFlight + {key};
      r := fn();
      inFlight := inFlight - {key};
    }
  }

  /** A second call for the same key after the first has returned leads again and runs `fn` again. */
  method SequentialCallsBothLead<R>(key: string, first: () -> R, second: () -> R) returns (a: R, b: R)
    ensures a == first() && b == second()
  {
    var g := new Group();
    a := g.Do(key, first);
    b := g.Do(key, second);
  }
}
