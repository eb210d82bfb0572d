/**
 * The order repository: a keyed table of order records. The store assigns
 * ids 1, 2, 3, ... to new records, and never deletes one.
 */
module OrderRepository {
  import opened OrderModel

  class OrderStore {
    var orders: map<int, Order>
    var nextId: int

    /**
     * The observable steps of the workflows that use this store, oldest first:
     * each save, and each payment request sent between saves.
     */
    ghost var trace: seq<Event>

    /** Every record sits under its own id, and every id in use is below `nextId`. */
    ghost predicate Valid()
      reads this
    {
      && 1 <= nextId
      && forall id :: id in orders ==> 1 <= id < nextId && orders[id].id == id
    }

    constructor ()
      ensures Valid()
      ensures orders == map[] && nextId == 1 && trace == []
    {
      orders := map[];
      nextId := 1;
      trace := [];
    }

    /** Saving a record that has no id yet: it is stored under a fresh id. */
    method Create(order: Order) returns (saved: Order)
      requires Valid()
      modifies this
      ensures Valid()
      ensures saved == order.(id := old(nextId))
      ensures saved.id !in old(orders)
      ensures orders == old(orders)[saved.id := saved]
      ensures nextId == old(nextId) + 1
      ensures trace == old(trace) + [Saved(saved)]
    {
      saved := order.(id := nextId);
      orders := orders[nextId := saved];
      nextId := nextId + 1;
      trace := trace + [Saved(saved)];
    }

    /** Saving a record that already has an id: it replaces the stored one. */
    method Update(order: Order)
      requires Valid()
      requires order.id in orders
      modifies this
      ensures Valid()
      ensures orders == old(orders)[order.id := order]
      ensures orders.Keys == old(orders).Keys
      ensures nextId == old(nextId)
      ensures trace == old(trace) + [Saved(order)]
    {
      orders := orders[order.id := order];
      trace := trace + [Saved(order)];
    }
  }
}
