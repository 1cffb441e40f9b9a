/**
 A slot per key that only one goroutine can hold: the set of hubs with a wallet creation in flight, and the
 cleanup_in_progress column. Taking a slot is one atomic test-and-set.
 */
module Slots {
  import opened Ledger

  class Slots {
    var busy: set<AppId>
    /** Who is between taking a slot and giving it up. */
    ghost var inside: set<(AppId, nat)>

    constructor ()
      ensures Valid() && busy == {}
    {
      busy, inside := {}, {};
    }

    ghost predicate Valid()
      reads this
    {
      && (forall x :: x in inside ==> x.0 in busy)
      && (forall x, y :: x in inside && y in inside && x.0 == y.0 ==> x == y)
    }

    method TryTake(key: AppId, me: nat) returns (ok: bool)
      requires Valid()
      modifies this
      ensures Valid() && (ok <==> key !in old(busy))
      ensures busy == old(busy) + {key} && inside == if ok then old(inside) + {(key, me)} else old(inside)
    {
      if key in busy {
        return false;
      }
      busy, inside := busy + {key}, inside + {(key, me)};
      ok := true;
    }

    method Release(key: AppId, me: nat)
      requires Valid() && (key, me) in inside
      modifies this
      ensures Valid() && busy == old(busy) - {key} && inside == old(inside) - {(key, me)}
    {
      busy, inside := busy - {key}, inside - {(key, me)};
    }

    /** What other goroutines do with the slots: they neither take nor give up mine. */
    method Others(me: nat)
      requires Valid()
      modifies this
      ensures Valid() && forall key :: (key, me) in inside <==> (key, me) in old(inside)
    {
    }
  }
}
