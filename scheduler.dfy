/**
  The browser's frame scheduler, `requestAnimationFrame` and
  `cancelAnimationFrame`, as an abstract bookkeeping object: the ids handed
  out so far and the ids whose callback is still pending. Frame timing and
  repaint are not modelled.
*/
module Scheduler {

  class FrameScheduler {
    /** Ids whose callback is scheduled and has neither run nor been cancelled. */
    var pending: set<nat>
    /** The last id handed out; ids are 1, 2, 3, ... and never reused. */
    var issued: nat

    ghost predicate Valid()
      reads this
    {
      forall id :: id in pending ==> 1 <= id <= issued
    }

    constructor ()
      ensures Valid() && pending == {} && issued == 0
    {
      pending, issued := {}, 0;
    }

    /** `requestAnimationFrame(callback)`: a new, non-zero id, now pending. */
    method Request() returns (id: nat)
      requires Valid()
      modifies this
      ensures Valid()
      ensures id == old(issued) + 1 && issued == id
      ensures pending == old(pending) + {id}
    {
      issued := issued + 1;
      id := issued;
      pending := pending + {id};
    }

    /** `cancelAnimationFrame(id)`: that callback will not run; any other id is unaffected. */
    method Cancel(id: nat)
      requires Valid()
      modifies this
      ensures Valid()
      ensures issued == old(issued)
      ensures pending == old(pending) - {id}
    {
      pending := pending - {id};
    }

    /** The browser runs the callback of a pending id, once: the id is no longer pending. */
    method Dispatch(id: nat)
      requires Valid() && id in pending
      modifies this
      ensures Valid()
      ensures issued == old(issued)
      ensures pending == old(pending) - {id} && id !in pending
    {
      pending := pending - {id};
    }
  }
}
