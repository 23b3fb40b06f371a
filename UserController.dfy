/**
 * The cart, favourites and order handlers of the user controller. A handler receives the
 * user document `User.findById` returned (null when there is none), changes it and the
 * order ledger as the source does, and answers with an `Outcome`.
 */
module UserController {
  import opened Domain
  import opened Cart
  import opened Favourites
  import opened Orders
  import opened Documents

  const UserNotFound := "User not found"
  const LineNotFound := "Product not found in the user's cart"

  /**
   * `addToCart`. There is no check for a missing user: reading `user.cart` throws.
   * The first line for the product gains `quantity`; without one, `{ productId, quantity }`
   * is pushed.
   */
  method AddToCart(user: User?, productId: ProductId, quantity: int) returns (out: Outcome)
    modifies user
    ensures user == null ==> out == Thrown
    ensures user != null ==>
      && out == Done("Product added to cart successfully")
      && user.cart == Added(old(user.cart), productId, quantity)
      && user.favourites == old(user.favourites)
    ensures user != null && old(OneLinePerProduct(user.cart)) ==> OneLinePerProduct(user.cart)
    ensures user != null && quantity > 0 && old(WellFormed(user.cart)) ==> WellFormed(user.cart)
  {
    if user == null {
      return Thrown;
    }
    ghost var before := user.cart;
    var i := IndexOf(user.cart, productId);
    if i != -1 {
      user.cart := user.cart[i := Line(user.cart[i].product, user.cart[i].quantity + quantity)];
    } else {
      user.cart := user.cart + [Line(productId, quantity)];
    }
    if OneLinePerProduct(before) {
      AddedKeepsOneLinePerProduct(before, productId, quantity);
    }
    if quantity > 0 && WellFormed(before) {
      AddedKeepsWellFormed(before, productId, quantity);
    }
    out := Done("Product added to cart successfully");
  }

  /**
   * `removeFromCart`. A missing user and a product without a line are both 404s that
   * leave the cart alone. Otherwise a positive quantity is subtracted from the line,
   * which is spliced out when it drops to zero or below; any other quantity splices
   * the line out at once.
   */
  method RemoveFromCart(user: User?, productId: ProductId, quantity: Option<int>) returns (out: Outcome)
    modifies user
    ensures user == null ==> out == Rejected(404, UserNotFound)
    ensures user != null && !InCart(old(user.cart), productId) ==>
      out == Rejected(404, LineNotFound) && user.cart == old(user.cart)
    ensures user != null && InCart(old(user.cart), productId) ==>
      out == Done("Product quantity updated in cart") && user.cart == Removed(old(user.cart), productId, quantity)
    ensures user != null ==> user.favourites == old(user.favourites)
    ensures user != null && old(OneLinePerProduct(user.cart)) ==> OneLinePerProduct(user.cart)
    ensures user != null && old(WellFormed(user.cart)) ==> WellFormed(user.cart)
  {
    if user == null {
      return Rejected(404, UserNotFound);
    }
    ghost var before := user.cart;
    var i := IndexOf(user.cart, productId);
    if i != -1 {
      if Subtracts(quantity) {
        user.cart := user.cart[i := Line(user.cart[i].product, user.cart[i].quantity - quantity.value)];
        if user.cart[i].quantity <= 0 {
          user.cart := DeleteAt(user.cart, i);
        }
      } else {
        user.cart := DeleteAt(user.cart, i);
      }
      assert user.cart == Removed(before, productId, quantity);
      if OneLinePerProduct(before) {
        RemovedKeepsOneLinePerProduct(before, productId, quantity);
      }
      if WellFormed(before) {
        RemovedKeepsWellFormed(before, productId, quantity);
      }
      out := Done("Product quantity updated in cart");
    } else {
      out := Rejected(404, LineNotFound);
    }
  }

  /**
   * `placeOrder`. The payload is validated before anything is read or written; then a
   * missing user is a 404; then the order is saved with status "Payment Done", and only
   * after that is the cart emptied.
   */
  method PlaceOrder(user: User?, ledger: OrderLedger, payload: Payload) returns (out: Outcome, placed: Option<Order>)
    requires ledger.Valid()
    modifies user, ledger
    ensures ledger.Valid()
    ensures Validate(payload).Refused? ==>
      && out == Rejected(400, Validate(payload).message) && placed == None
      && ledger.orders == old(ledger.orders) && ledger.clock == old(ledger.clock)
      && (user != null ==> user.cart == old(user.cart) && user.favourites == old(user.favourites))
    ensures Validate(payload).Accepted? && user == null ==>
      && out == Rejected(404, UserNotFound) && placed == None
      && ledger.orders == old(ledger.orders) && ledger.clock == old(ledger.clock)
    ensures Validate(payload).Accepted? && user != null ==>
      var c := Validate(payload).checkout;
      && out == Done("Order placed successfully")
      && placed == Some(Order(|old(ledger.orders)|, user.id, c.products, c.address, c.totalAmount, PaymentDone, old(ledger.clock)))
      && ledger.orders == old(ledger.orders) + [placed.value]
      && ledger.clock == old(ledger.clock) + 1
      && user.cart == []
      && user.favourites == old(user.favourites)
    ensures Validate(payload).Accepted? && user != null ==>
      History(ledger.orders, user.id) == [placed.value] + History(old(ledger.orders), user.id)
  {
    var v := Validate(payload);
    if v.Refused? {
      return Rejected(400, v.message), None;
    }
    if user == null {
      return Rejected(404, UserNotFound), None;
    }
    ghost var earlier := ledger.orders;
    var saved := ledger.Save(user.id, v.checkout.products, v.checkout.address, v.checkout.totalAmount, PaymentDone);
    user.cart := [];
    HistoryAfterAppend(earlier, saved, user.id);
    out, placed := Done("Order placed successfully"), Some(saved);
  }

  /** The JSON body of a `getAllOrders` reply. */
  datatype OrdersPage = OrdersPage(orders: seq<Order>, count: int, success: bool)

  /**
   * `getAllOrders`: the caller's orders, newest first, with their count. No user lookup
   * is made, so a user without orders gets an empty page rather than an error.
   */
  method GetAllOrders(ledger: OrderLedger, userId: UserId) returns (page: OrdersPage)
    ensures page.orders == History(ledger.orders, userId)
    ensures page.count == |page.orders| && page.success
    ensures NewestFirst(page.orders)
    ensures forall o :: o in page.orders <==> o in ledger.orders && o.user == userId
  {
    var found := History(ledger.orders, userId);
    HistoryIsUsersOrdersNewestFirst(ledger.orders, userId);
    page := OrdersPage(found, |found|, true);
  }

  /** `removeFromFavorites`: every occurrence of the id is filtered out. No check for a missing user. */
  method RemoveFromFavorites(user: User?, productId: ProductId) returns (out: Outcome)
    modifies user
    ensures user == null ==> out == Thrown
    ensures user != null ==>
      && out == Done("Product removed from favorites successfully")
      && user.favourites == Without(old(user.favourites), productId)
      && user.cart == old(user.cart)
  {
    if user == null {
      return Thrown;
    }
    user.favourites := Without(user.favourites, productId);
    out := Done("Product removed from favorites successfully");
  }

  /** `addToFavorites`: the id is pushed only when the list does not include it. No check for a missing user. */
  method AddToFavorites(user: User?, productId: ProductId) returns (out: Outcome)
    modifies user
    ensures user == null ==> out == Thrown
    ensures user != null ==>
      && out == Done("Product added to favorites successfully")
      && user.favourites == WithFavourite(old(user.favourites), productId)
      && user.cart == old(user.cart)
  {
    if user == null {
      return Thrown;
    }
    if productId !in user.favourites {
      user.favourites := user.favourites + [productId];
    }
    out := Done("Product added to favorites successfully");
  }

  /** The cart walk-through: merge on add, partial removal, a 404 for a missing line, and full removal. */
  method CartWalkthrough(a: ProductId, b: ProductId, u: UserId)
    requires a != b
  {
    var user := new User(u);
    var out := AddToCart(user, a, 2);
    assert user.cart == [Line(a, 2)];
    out := AddToCart(user, a, 3);
    assert user.cart == [Line(a, 5)];
    out := RemoveFromCart(user, a, Some(2));
    assert user.cart == [Line(a, 3)];
    out := RemoveFromCart(user, b, None);
    assert out == Rejected(404, LineNotFound) && user.cart == [Line(a, 3)];
    out := RemoveFromCart(user, a, Some(10));
    assert user.cart == [];
  }

  /** A rejected checkout changes neither the cart nor the ledger. */
  method RejectedCheckoutWalkthrough(b: ProductId, u: UserId)
  {
    var user := new User(u);
    var ledger := new OrderLedger(1000);
    var out := AddToCart(user, b, 1);
    var placed;
    out, placed := PlaceOrder(user, ledger, Payload(Some([]), Some("123 Main St"), Some(1998)));
    assert out == Rejected(400, ProductsRequired) && placed == None;
    assert user.cart == [Line(b, 1)] && ledger.orders == [];
    out, placed := PlaceOrder(user, ledger, Payload(Some([Line(b, 1)]), Some("123 Main St"), Some(0)));
    assert out == Rejected(400, TotalRequired) && ledger.orders == [];
  }

  /** An accepted checkout empties the cart and its order is the whole history of a new user. */
  method CheckoutWalkthrough(b: ProductId, u: UserId)
  {
    var user := new User(u);
    var ledger := new OrderLedger(1000);
    var out := AddToCart(user, b, 1);
    var payload := Payload(Some([Line(b, 1)]), Some("123 Main St"), Some(1998));
    assert Validate(payload).Accepted?;
    var placed;
    out, placed := PlaceOrder(user, ledger, payload);
    assert user.cart == [];
    assert History([], u) == [];
    var page := GetAllOrders(ledger, u);
    assert page.orders == [placed.value];
    assert page.count == 1 && page.orders[0].products == [Line(b, 1)] && page.orders[0].status == PaymentDone;
  }
}
