/** `UUID.randomUUID()`, modelled as a source that never hands out the same id twice. */
module Uuids {
  type Uuid = nat

  class UuidSource {
    /** The next id to hand out; every id handed out so far is smaller. */
    var next: nat
    /** The ids handed out so far. */
    ghost var issued: set<Uuid>

    ghost predicate Valid()
      reads this
    {
      forall id :: id in issued ==> id < next
    }

    constructor ()
      ensures Valid() && issued == {}
    {
      next := 0;
      issued := {};
    }

    method RandomUuid() returns (id: Uuid)
      requires Valid()
      modifies this
      ensures Valid()
      ensures id !in old(issued) && issued == old(issued) + {id}
    {
      id := next;
      next := next + 1;
      issued := issued + {id};
    }
  }
}
