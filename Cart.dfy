/**
 * The cart of one user: an ordered list of (product, quantity) lines, and the two
 * transformations the controller applies to it, merge-on-add and remove.
 */
module Cart {
  import opened Domain

  /** `cart.findIndex(item => item.product.equals(p))`: the first line for `p`, or -1. */
  function IndexOf(cart: seq<Line>, p: ProductId): (i: int)
    ensures -1 <= i < |cart|
    ensures i == -1 <==> forall k :: 0 <= k < |cart| ==> cart[k].product != p
    ensures 0 <= i ==> cart[i].product == p && forall k :: 0 <= k < i ==> cart[k].product != p
  {
    if |cart| == 0 then -1
    else if cart[0].product == p then 0
    else
      var k := IndexOf(cart[1..], p);
      if k == -1 then -1 else k + 1
  }

  predicate InCart(cart: seq<Line>, p: ProductId) {
    IndexOf(cart, p) != -1
  }

  /** The quantity of the line for `p`, 0 when the cart has none. */
  function QuantityOf(cart: seq<Line>, p: ProductId): int {
    var i := IndexOf(cart, p);
    if i == -1 then 0 else cart[i].quantity
  }

  /** The uniqueness key of a cart line is its product. */
  predicate OneLinePerProduct(cart: seq<Line>) {
    forall i, j :: 0 <= i < j < |cart| ==> cart[i].product != cart[j].product
  }

  predicate AllPositive(cart: seq<Line>) {
    forall i :: 0 <= i < |cart| ==> cart[i].quantity > 0
  }

  /** The cart invariant: one line per product, and every quantity strictly positive. */
  predicate WellFormed(cart: seq<Line>) {
    OneLinePerProduct(cart) && AllPositive(cart)
  }

  /** The cart after `addToCart(p, q)`: the existing line for `p` gains `q`, or a new line is pushed. */
  function Added(cart: seq<Line>, p: ProductId, q: int): seq<Line> {
    var i := IndexOf(cart, p);
    if i == -1 then cart + [Line(p, q)]
    else cart[i := Line(cart[i].product, cart[i].quantity + q)]
  }

  /** `s.splice(i, 1)` */
  function DeleteAt<T>(s: seq<T>, i: nat): seq<T>
    requires i < |s|
  {
    s[..i] + s[i + 1..]
  }

  /** The test `quantity && quantity > 0` on the optional quantity of a remove request. */
  predicate Subtracts(quantity: Option<int>) {
    quantity.Some? && quantity.value > 0
  }

  /**
   * The cart after `removeFromCart(p, quantity)`. A positive quantity is subtracted from
   * the first line for `p`, which is deleted when nothing positive is left; any other
   * quantity deletes that line. A cart without a line for `p` is returned as it is
   * (the controller answers 404 then).
   */
  function Removed(cart: seq<Line>, p: ProductId, quantity: Option<int>): seq<Line> {
    var i := IndexOf(cart, p);
    if i == -1 then cart
    else if Subtracts(quantity) && cart[i].quantity - quantity.value > 0 then
      cart[i := Line(cart[i].product, cart[i].quantity - quantity.value)]
    else DeleteAt(cart, i)
  }

  // ---------------------------------------------------------------------------
  // Add

  /** Two carts with the same products at the same positions find a product at the same index. */
  lemma SameProductsSameIndex(a: seq<Line>, b: seq<Line>, x: ProductId)
    requires |a| == |b|
    requires forall k :: 0 <= k < |a| ==> a[k].product == b[k].product
    ensures IndexOf(a, x) == IndexOf(b, x)
  {
  }

  /**
   * The shape of an add: when a line for `p` exists, that line's quantity changes by
   * exactly `q` and every other line is as it was; otherwise `{p, q}` is appended at the end.
   */
  lemma AddedShape(cart: seq<Line>, p: ProductId, q: int)
    ensures var r := Added(cart, p, q); var i := IndexOf(cart, p);
      if i == -1 then
        r == cart + [Line(p, q)]
      else
        && |r| == |cart|
        && r[i].product == p && r[i].quantity == cart[i].quantity + q
        && forall k :: 0 <= k < |cart| && k != i ==> r[k] == cart[k]
  {
  }

  /** Repeated adds accumulate: the quantity of `p` grows by `q`, no other product's quantity moves. */
  lemma AddedMerges(cart: seq<Line>, p: ProductId, q: int)
    ensures QuantityOf(Added(cart, p, q), p) == QuantityOf(cart, p) + q
    ensures forall x :: x != p ==> QuantityOf(Added(cart, p, q), x) == QuantityOf(cart, x)
  {
    var r := Added(cart, p, q);
    var i := IndexOf(cart, p);
    if i == -1 {
      assert r[|cart|].product == p;
      forall x | x != p ensures QuantityOf(r, x) == QuantityOf(cart, x) {
        var j := IndexOf(cart, x);
        if j != -1 {
          assert r[j] == cart[j];
        }
      }
    } else {
      forall x ensures IndexOf(r, x) == IndexOf(cart, x) {
        SameProductsSameIndex(r, cart, x);
      }
    }
  }

  /** Adding `q1` and then `q2` of the same product is adding `q1 + q2` once. */
  lemma AddedTwice(cart: seq<Line>, p: ProductId, q1: int, q2: int)
    ensures Added(Added(cart, p, q1), p, q2) == Added(cart, p, q1 + q2)
  {
    var r := Added(cart, p, q1);
    var i := IndexOf(cart, p);
    if i == -1 {
      assert r[|cart|].product == p;
      assert IndexOf(r, p) == |cart|;
    } else {
      SameProductsSameIndex(r, cart, p);
    }
  }

  /** Add merges rather than duplicating, so at most one line per product survives it. */
  lemma AddedKeepsOneLinePerProduct(cart: seq<Line>, p: ProductId, q: int)
    requires OneLinePerProduct(cart)
    ensures OneLinePerProduct(Added(cart, p, q))
  {
    var r := Added(cart, p, q);
    if IndexOf(cart, p) == -1 {
      forall i, j | 0 <= i < j < |r| ensures r[i].product != r[j].product {
        if j == |cart| {
          assert r[i] == cart[i];
        }
      }
    }
  }

  /** Adding a positive quantity keeps every quantity positive. */
  lemma AddedKeepsWellFormed(cart: seq<Line>, p: ProductId, q: int)
    requires WellFormed(cart)
    requires q > 0
    ensures WellFormed(Added(cart, p, q))
  {
    AddedKeepsOneLinePerProduct(cart, p, q);
  }

  // ---------------------------------------------------------------------------
  // Remove

  /** Deleting one line keeps at most one line per product. */
  lemma DeleteAtKeepsOneLinePerProduct(cart: seq<Line>, i: nat)
    requires i < |cart|
    requires OneLinePerProduct(cart)
    ensures OneLinePerProduct(DeleteAt(cart, i))
  {
    var r := DeleteAt(cart, i);
    forall a, b | 0 <= a < b < |r| ensures r[a].product != r[b].product {
      var a' := if a < i then a else a + 1;
      var b' := if b < i then b else b + 1;
      assert r[a] == cart[a'] && r[b] == cart[b'];
    }
  }

  /** A product of a one-line-per-product cart is gone once its line is deleted. */
  lemma DeleteAtRemovesProduct(cart: seq<Line>, p: ProductId)
    requires OneLinePerProduct(cart)
    requires InCart(cart, p)
    ensures !InCart(DeleteAt(cart, IndexOf(cart, p)), p)
  {
    var i := IndexOf(cart, p);
    var r := DeleteAt(cart, i);
    forall k | 0 <= k < |r| ensures r[k].product != p {
      if k < i {
        assert r[k] == cart[k];
      } else {
        assert r[k] == cart[k + 1];
      }
    }
  }

  /** The error path: a product without a line leaves the cart exactly as it was. */
  lemma RemovedAbsent(cart: seq<Line>, p: ProductId, quantity: Option<int>)
    requires !InCart(cart, p)
    ensures Removed(cart, p, quantity) == cart
  {
  }

  /** A missing, zero or negative quantity deletes the line for `p`, whatever its quantity. */
  lemma RemovedWholeLine(cart: seq<Line>, p: ProductId, quantity: Option<int>)
    requires OneLinePerProduct(cart)
    requires InCart(cart, p)
    requires !Subtracts(quantity)
    ensures var r := Removed(cart, p, quantity);
      !InCart(r, p) && |r| == |cart| - 1 && QuantityOf(r, p) == 0
  {
    DeleteAtRemovesProduct(cart, p);
  }

  /** Removing at least the current quantity deletes the line. */
  lemma RemovedAtLeastAll(cart: seq<Line>, p: ProductId, q: int)
    requires OneLinePerProduct(cart)
    requires InCart(cart, p)
    requires 0 < q && QuantityOf(cart, p) <= q
    ensures var r := Removed(cart, p, Some(q));
      !InCart(r, p) && |r| == |cart| - 1
  {
    DeleteAtRemovesProduct(cart, p);
  }

  /** Removing less than the current quantity leaves the line in place with the rest. */
  lemma RemovedPart(cart: seq<Line>, p: ProductId, q: int)
    requires InCart(cart, p)
    requires 0 < q < QuantityOf(cart, p)
    ensures var r := Removed(cart, p, Some(q)); var i := IndexOf(cart, p);
      && |r| == |cart|
      && IndexOf(r, p) == i
      && QuantityOf(r, p) == QuantityOf(cart, p) - q
      && forall k :: 0 <= k < |cart| && k != i ==> r[k] == cart[k]
  {
    var r := Removed(cart, p, Some(q));
    SameProductsSameIndex(r, cart, p);
  }

  /** A remove never changes the quantity of any other product. */
  lemma RemovedKeepsOthers(cart: seq<Line>, p: ProductId, quantity: Option<int>, x: ProductId)
    requires x != p
    ensures QuantityOf(Removed(cart, p, quantity), x) == QuantityOf(cart, x)
  {
    var r := Removed(cart, p, quantity);
    var i := IndexOf(cart, p);
    if i == -1 {
    } else if Subtracts(quantity) && cart[i].quantity - quantity.value > 0 {
      SameProductsSameIndex(r, cart, x);
    } else {
      var j := IndexOf(cart, x);
      if j == -1 {
        forall k | 0 <= k < |r| ensures r[k].product != x {
          if k < i { assert r[k] == cart[k]; } else { assert r[k] == cart[k + 1]; }
        }
      } else if j < i {
        assert r[j] == cart[j];
        assert IndexOf(r, x) == j;
      } else {
        assert r[j - 1] == cart[j];
        forall k | 0 <= k < j - 1 ensures r[k].product != x {
          if k < i { assert r[k] == cart[k]; } else { assert r[k] == cart[k + 1]; }
        }
        assert IndexOf(r, x) == j - 1;
      }
    }
  }

  /** Remove only decrements or splices the first matching line, so at most one line per product survives it. */
  lemma RemovedKeepsOneLinePerProduct(cart: seq<Line>, p: ProductId, quantity: Option<int>)
    requires OneLinePerProduct(cart)
    ensures OneLinePerProduct(Removed(cart, p, quantity))
  {
    var i := IndexOf(cart, p);
    if i != -1 {
      if Subtracts(quantity) && cart[i].quantity - quantity.value > 0 {
        var r := Removed(cart, p, quantity);
        assert forall k :: 0 <= k < |r| ==> r[k].product == cart[k].product;
      } else {
        DeleteAtKeepsOneLinePerProduct(cart, i);
      }
    }
  }

  /** Both branches of remove keep the cart invariant: one line per product, quantities positive. */
  lemma RemovedKeepsWellFormed(cart: seq<Line>, p: ProductId, quantity: Option<int>)
    requires WellFormed(cart)
    ensures WellFormed(Removed(cart, p, quantity))
  {
    var i := IndexOf(cart, p);
    if i != -1 {
      if Subtracts(quantity) && cart[i].quantity - quantity.value > 0 {
        var r := Removed(cart, p, quantity);
        assert forall k :: 0 <= k < |r| ==> r[k].product == cart[k].product;
      } else {
        DeleteAtKeepsOneLinePerProduct(cart, i);
        var r := DeleteAt(cart, i);
        forall k | 0 <= k < |r| ensures r[k].quantity > 0 {
          if k < i { assert r[k] == cart[k]; } else { assert r[k] == cart[k + 1]; }
        }
      }
    }
  }
}
