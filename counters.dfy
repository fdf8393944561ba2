/**
 * A class-wide `NEXT_ID` attribute: one shared object per Python class, so
 * every instance created anywhere takes its id from the same counter.
 */
module Counters {
  class IdCounter {
    /** The id the next instance receives. */
    var next: nat

    /** `NEXT_ID = 1` */
    constructor ()
      ensures next == 1
    {
      next := 1;
    }

    /** `self.id = C.NEXT_ID; C.NEXT_ID += 1` */
    method Take() returns (id: nat)
      modifies this
      ensures id == old(next) && next == old(next) + 1
    {
      id := next;
      next := next + 1;
    }
  }
}
