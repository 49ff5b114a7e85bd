/** Entity ids: an index handed out by a generator that reuses freed indices. The
    generator's own code is not part of this model; it is described only by what
    the entity container relies on. */
module Ids {

  /** An id wraps the index of the slot it names. */
  datatype Id = Id(index: nat)

  class IdGenerator {
    /** The indices handed out and not freed since. */
    var live: set<nat>
    /** How many distinct indices were ever handed out: 0 .. count - 1. */
    var count: nat

    ghost predicate Valid()
      reads this
    {
      forall i | i in live :: i < count
    }

    constructor ()
      ensures Valid() && live == {} && count == 0
    {
      live := {};
      count := 0;
    }

    /** The number of ids in use. */
    function Len(): nat
      reads this
    {
      |live|
    }

    /** Hands out an index that is not in use: a freed one if there is any, else a
        brand-new one, the next after all handed out so far. */
    method Next() returns (id: Id)
      requires Valid()
      modifies this
      ensures Valid()
      ensures id.index !in old(live) && live == old(live) + {id.index}
      ensures id.index < old(count) ==> count == old(count)
      ensures id.index >= old(count) ==> id.index == old(count) && count == old(count) + 1
    {
      if i :| 0 <= i < count && i !in live {
        id := Id(i);
      } else {
        id := Id(count);
        count := count + 1;
      }
      live := live + {id.index};
    }

    /** Releases an index for reuse. */
    method Free(id: Id)
      requires Valid()
      modifies this`live
      ensures Valid() && live == old(live) - {id.index}
    {
      live := live - {id.index};
    }
  }
}
