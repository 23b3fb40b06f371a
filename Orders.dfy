/**
 * Orders: the checkout payload and its validation, the order record, and the order
 * history query (the orders of one user, newest first).
 */
module Orders {
  import opened Domain

  /** The only status the controller ever writes. */
  const PaymentDone := "Payment Done"

  /** An order document; `id` and `createdAt` are assigned when the ledger saves it. */
  datatype Order = Order(
    id: nat,
    user: UserId,
    products: seq<Line>,
    address: string,
    totalAmount: int,
    status: string,
    createdAt: int)

  /**
   * The body of a checkout request. `products` is None when the field is absent or not
   * an array; `address` and `totalAmount` are None when absent. The total is in cents.
   */
  datatype Payload = Payload(products: Option<seq<Line>>, address: Option<string>, totalAmount: Option<int>)

  /** A payload that passed validation. */
  datatype Checkout = Checkout(products: seq<Line>, address: string, totalAmount: int)

  datatype Validation = Accepted(checkout: Checkout) | Refused(message: string)

  const ProductsRequired := "Products array is required and cannot be empty"
  const AddressRequired := "Address is required"
  const TotalRequired := "Valid total amount is required"

  /** `products && Array.isArray(products) && products.length !== 0` */
  predicate HasProducts(p: Payload) {
    p.products.Some? && |p.products.value| > 0
  }

  /** `address` is truthy: present and not the empty string. */
  predicate HasAddress(p: Payload) {
    p.address.Some? && p.address.value != ""
  }

  /** `totalAmount && totalAmount > 0`: zero is falsy, so only a positive total passes. */
  predicate HasTotal(p: Payload) {
    p.totalAmount.Some? && p.totalAmount.value > 0
  }

  /**
   * The three guards of `placeOrder`, in the order the controller applies them. A
   * payload is accepted exactly when all three hold; otherwise the first failing
   * guard names the error.
   */
  function Validate(p: Payload): (v: Validation)
    ensures v.Accepted? <==> HasProducts(p) && HasAddress(p) && HasTotal(p)
    ensures v.Accepted? ==>
      && |v.checkout.products| > 0 && v.checkout.address != "" && v.checkout.totalAmount > 0
      && v.checkout == Checkout(p.products.value, p.address.value, p.totalAmount.value)
    ensures !HasProducts(p) ==> v == Refused(ProductsRequired)
    ensures HasProducts(p) && !HasAddress(p) ==> v == Refused(AddressRequired)
    ensures HasProducts(p) && HasAddress(p) && !HasTotal(p) ==> v == Refused(TotalRequired)
  {
    if !HasProducts(p) then Refused(ProductsRequired)
    else if !HasAddress(p) then Refused(AddressRequired)
    else if !HasTotal(p) then Refused(TotalRequired)
    else Accepted(Checkout(p.products.value, p.address.value, p.totalAmount.value))
  }

  // ---------------------------------------------------------------------------
  // Order history: `Orders.find({ user }).sort({ createdAt: -1 })`

  /** `find({ user: u })`: the orders of `u`, in ledger order. */
  function OrdersOf(orders: seq<Order>, u: UserId): (r: seq<Order>)
    ensures forall o :: o in r <==> o in orders && o.user == u
    ensures forall o :: multiset(r)[o] == if o.user == u then multiset(orders)[o] else 0
    ensures |r| <= |orders|
  {
    if orders == [] then []
    else
      var last := orders[|orders| - 1];
      var init := orders[..|orders| - 1];
      assert orders == init + [last];
      OrdersOf(init, u) + (if last.user == u then [last] else [])
  }

  predicate NewestFirst(s: seq<Order>) {
    forall i, j :: 0 <= i < j < |s| ==> s[i].createdAt >= s[j].createdAt
  }

  /** Inserts `o` into a newest-first sequence. */
  function Insert(o: Order, s: seq<Order>): (r: seq<Order>)
    requires NewestFirst(s)
    ensures NewestFirst(r)
    ensures multiset(r) == multiset(s) + multiset{o}
    ensures |r| == |s| + 1 && (r[0] == o || (s != [] && r[0] == s[0]))
  {
    if s == [] || o.createdAt >= s[0].createdAt then [o] + s
    else
      var rest := Insert(o, s[1..]);
      assert s == [s[0]] + s[1..];
      assert s[0].createdAt >= rest[0].createdAt;
      [s[0]] + rest
  }

  /** `sort({ createdAt: -1 })`, as an insertion sort. */
  function SortNewestFirst(s: seq<Order>): (r: seq<Order>)
    ensures NewestFirst(r)
    ensures multiset(r) == multiset(s)
  {
    if s == [] then []
    else
      assert s == [s[0]] + s[1..];
      Insert(s[0], SortNewestFirst(s[1..]))
  }

  /** What `getAllOrders` returns for user `u`. */
  function History(orders: seq<Order>, u: UserId): seq<Order> {
    SortNewestFirst(OrdersOf(orders, u))
  }

  /** The history holds exactly the user's orders, each as often as in the ledger, newest first. */
  lemma HistoryIsUsersOrdersNewestFirst(orders: seq<Order>, u: UserId)
    ensures var h := History(orders, u);
      && NewestFirst(h)
      && (forall o :: o in h <==> o in orders && o.user == u)
      && (forall o :: multiset(h)[o] == if o.user == u then multiset(orders)[o] else 0)
  {
    var h := History(orders, u);
    forall o ensures o in h <==> o in orders && o.user == u {
      assert o in h <==> o in multiset(h);
    }
  }

  /** A user with no orders gets an empty history, not an error. */
  lemma HistoryOfNoOrders(orders: seq<Order>, u: UserId)
    requires forall k :: 0 <= k < |orders| ==> orders[k].user != u
    ensures History(orders, u) == []
  {
    var mine := OrdersOf(orders, u);
    if mine != [] {
      assert mine[0] in orders;
    }
  }

  /** Sorting a sequence that ends with a strictly newest order puts that order first. */
  lemma {:induction false} SortAppendNewest(s: seq<Order>, o: Order)
    requires forall k :: 0 <= k < |s| ==> s[k].createdAt < o.createdAt
    ensures SortNewestFirst(s + [o]) == [o] + SortNewestFirst(s)
  {
    if s == [] {
      assert [o][1..] == [];
    } else {
      assert (s + [o])[1..] == s[1..] + [o];
      SortAppendNewest(s[1..], o);
    }
  }

  /** Filtering a ledger with one more order filters the old ledger and then that order. */
  lemma OrdersOfAppend(orders: seq<Order>, o: Order, u: UserId)
    ensures OrdersOf(orders + [o], u) == OrdersOf(orders, u) + (if o.user == u then [o] else [])
  {
    var all := orders + [o];
    assert all[..|all| - 1] == orders;
    assert all[|all| - 1] == o;
  }

  /**
   * Placing an order newer than every order in the ledger puts it at the head of its
   * user's history and leaves every other user's history as it was.
   */
  lemma HistoryAfterAppend(orders: seq<Order>, o: Order, u: UserId)
    requires forall k :: 0 <= k < |orders| ==> orders[k].createdAt < o.createdAt
    ensures History(orders + [o], u) == if o.user == u then [o] + History(orders, u) else History(orders, u)
  {
    OrdersOfAppend(orders, o, u);
    var mine := OrdersOf(orders, u);
    if o.user == u {
      forall k | 0 <= k < |mine| ensures mine[k].createdAt < o.createdAt {
        assert mine[k] in orders;
      }
      SortAppendNewest(mine, o);
    } else {
      assert OrdersOf(orders + [o], u) == mine;
    }
  }

  function Reverse<T>(s: seq<T>): (r: seq<T>)
    ensures |r| == |s|
    ensures forall k :: 0 <= k < |s| ==> r[k] == s[|s| - 1 - k]
  {
    if s == [] then [] else Reverse(s[1..]) + [s[0]]
  }

  predicate Chronological(orders: seq<Order>) {
    forall j, k :: 0 <= j < k < |orders| ==> orders[j].createdAt < orders[k].createdAt
  }

  /**
   * When the ledger records orders in creation order, the history is the user's orders
   * most recently placed first.
   */
  lemma {:induction false} HistoryReversesLedger(orders: seq<Order>, u: UserId)
    requires Chronological(orders)
    ensures History(orders, u) == Reverse(OrdersOf(orders, u))
  {
    if orders != [] {
      var init := orders[..|orders| - 1];
      ChronologicalPrefix(orders);
      HistoryReversesLedger(init, u);
      ReversedHistoryStep(init, orders[|orders| - 1], u);
      SplitLast(orders);
    }
  }

  lemma SplitLast<T>(s: seq<T>)
    requires s != []
    ensures s == s[..|s| - 1] + [s[|s| - 1]]
  {
  }

  /** One order newer than the rest keeps the history the reversed filter of the ledger. */
  lemma ReversedHistoryStep(init: seq<Order>, last: Order, u: UserId)
    requires forall k :: 0 <= k < |init| ==> init[k].createdAt < last.createdAt
    requires History(init, u) == Reverse(OrdersOf(init, u))
    ensures History(init + [last], u) == Reverse(OrdersOf(init + [last], u))
  {
    HistoryAfterAppend(init, last, u);
    OrdersOfAppend(init, last, u);
    var mine := OrdersOf(init, u);
    if last.user == u {
      ReverseAppend(mine, last);
    } else {
      assert mine + [] == mine;
    }
  }

  /** Dropping the newest order of a chronological ledger leaves a chronological ledger older than it. */
  lemma ChronologicalPrefix(orders: seq<Order>)
    requires Chronological(orders) && orders != []
    ensures var init := orders[..|orders| - 1];
      && Chronological(init)
      && forall k :: 0 <= k < |init| ==> init[k].createdAt < orders[|orders| - 1].createdAt
  {
  }

  lemma ReverseAppend<T>(s: seq<T>, x: T)
    ensures Reverse(s + [x]) == [x] + Reverse(s)
  {
    var l := Reverse(s + [x]);
    var r := [x] + Reverse(s);
    assert |l| == |r|;
    forall k | 0 <= k < |l| ensures l[k] == r[k] {
      if k > 0 {
        assert l[k] == (s + [x])[|s| - k];
      }
    }
  }
}
