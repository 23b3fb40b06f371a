/**
 * The two kinds of stored documents the controller works on, held in memory: a user
 * (with the cart and favourites it owns) and the ledger of all orders. A write to a
 * field followed by `save()` is a field update here.
 */
module Documents {
  import opened Domain
  import opened Orders

  class User {
    const id: UserId
    var cart: seq<Line>
    var favourites: seq<ProductId>

    constructor (id: UserId)
      ensures this.id == id && cart == [] && favourites == []
    {
      this.id := id;
      cart := [];
      favourites := [];
    }
  }

  /**
   * The `Orders` collection. `clock` is the creation time the next saved order gets;
   * each save moves it forward, so creation times increase with every order.
   */
  class OrderLedger {
    var orders: seq<Order>
    var clock: int

    /** Ids are positions in the ledger, and creation times increase along it and stay below `clock`. */
    ghost predicate Valid()
      reads this
    {
      && (forall k :: 0 <= k < |orders| ==> orders[k].id == k && orders[k].createdAt < clock)
      && Chronological(orders)
    }

    constructor (now: int)
      ensures Valid() && orders == [] && clock == now
    {
      orders := [];
      clock := now;
    }

    /** `new Orders({ ... }).save()`: stamps the order with a fresh id and the current time. */
    method Save(user: UserId, products: seq<Line>, address: string, totalAmount: int, status: string)
      returns (saved: Order)
      requires Valid()
      modifies this
      ensures Valid()
      ensures saved == Order(|old(orders)|, user, products, address, totalAmount, status, old(clock))
      ensures orders == old(orders) + [saved]
      ensures clock == old(clock) + 1
    {
      saved := Order(|orders|, user, products, address, totalAmount, status, clock);
      orders := orders + [saved];
      clock := clock + 1;
    }
  }
}
