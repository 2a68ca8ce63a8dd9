/**
 * The order lines of one account (one open table): the `Order` record, the
 * first-match lookup that `findIndex` performs over them, and the two ways the
 * page changes them — merging a product in and removing some or all of it.
 */
module Lines {

  /** One line of an account's cart: a product code and how many of it. */
  datatype Order = Order(productId: string, quantity: int)

  /** `r` is what `findIndex` returns when looking for `productId`: the first
      line with that product, or -1 when no line has it. */
  ghost predicate IsFirstLine(orders: seq<Order>, productId: string, r: int) {
    && -1 <= r < |orders|
    && (0 <= r ==> orders[r].productId == productId)
    && forall k :: 0 <= k < |orders| && (r == -1 || k < r) ==> orders[k].productId != productId
  }

  /** The first-match condition admits exactly one answer. */
  lemma FirstLineUnique(orders: seq<Order>, productId: string, r1: int, r2: int)
    requires IsFirstLine(orders, productId, r1) && IsFirstLine(orders, productId, r2)
    ensures r1 == r2
  {
  }

  /** Index of the first line for `productId`, -1 if there is none. */
  function OrderIndex(orders: seq<Order>, productId: string): (r: int)
    ensures IsFirstLine(orders, productId, r)
  {
    if orders == [] then -1
    else if orders[0].productId == productId then 0
    else
      var r := OrderIndex(orders[1..], productId);
      if r == -1 then -1 else r + 1
  }

  /** `orders.findIndex((order) => order.productId === productId)`. */
  method FindOrder(orders: seq<Order>, productId: string) returns (i: int)
    ensures i == OrderIndex(orders, productId)
  {
    i := 0;
    while i < |orders| && orders[i].productId != productId
      invariant 0 <= i <= |orders|
      invariant forall k :: 0 <= k < i ==> orders[k].productId != productId
    {
      i := i + 1;
    }
    if i == |orders| {
      i := -1;
    }
    FirstLineUnique(orders, productId, i, OrderIndex(orders, productId));
  }

  /** The quantity the account holds of `productId`, as the cart shows it
      (the first line for the product), 0 when the cart has no such line. */
  function QuantityOf(orders: seq<Order>, productId: string): int {
    var i := OrderIndex(orders, productId);
    if i == -1 then 0 else orders[i].quantity
  }

  /** At most one line per product. */
  ghost predicate UniqueProducts(orders: seq<Order>) {
    forall j, k :: 0 <= j < k < |orders| ==> orders[j].productId != orders[k].productId
  }

  /** Every line holds at least one unit. */
  ghost predicate PositiveQuantities(orders: seq<Order>) {
    forall k :: 0 <= k < |orders| ==> orders[k].quantity >= 1
  }

  ghost predicate ValidOrders(orders: seq<Order>) {
    UniqueProducts(orders) && PositiveQuantities(orders)
  }

  /** The lines after adding `quantity` of `productId`: an existing line for
      the product grows, otherwise a new line goes at the end. */
  function AddLine(orders: seq<Order>, productId: string, quantity: int): seq<Order> {
    var i := OrderIndex(orders, productId);
    if i != -1 then orders[i := orders[i].(quantity := orders[i].quantity + quantity)]
    else orders + [Order(productId, quantity)]
  }

  /** The lines after removing `quantityToRemove` of `productId`: a line whose
      quantity would not stay above the amount is spliced out, otherwise it is
      decremented; a product without a line leaves the lines alone. */
  function RemoveLine(orders: seq<Order>, productId: string, quantityToRemove: int): seq<Order> {
    var i := OrderIndex(orders, productId);
    if i == -1 then orders
    else if quantityToRemove >= orders[i].quantity then orders[..i] + orders[i + 1..]
    else orders[i := orders[i].(quantity := orders[i].quantity - quantityToRemove)]
  }

  // ----- Adding a product -----

  /** A product that already has a line: that line grows by exactly `quantity`,
      no line is added, and every other line stays where and what it was. */
  lemma AddLineMerges(orders: seq<Order>, productId: string, quantity: int)
    requires OrderIndex(orders, productId) != -1
    ensures var r, i := AddLine(orders, productId, quantity), OrderIndex(orders, productId);
      && |r| == |orders|
      && r[i] == Order(productId, orders[i].quantity + quantity)
      && forall k :: 0 <= k < |orders| && k != i ==> r[k] == orders[k]
  {
  }

  /** A product without a line: exactly one line is appended, after the
      existing lines, which keep their order and values. */
  lemma AddLineAppends(orders: seq<Order>, productId: string, quantity: int)
    requires OrderIndex(orders, productId) == -1
    ensures AddLine(orders, productId, quantity) == orders + [Order(productId, quantity)]
  {
  }

  /** Seen as a cart, adding raises the product's quantity by exactly
      `quantity` and leaves every other product's quantity as it was. */
  lemma {:induction false} AddLineQuantity(orders: seq<Order>, productId: string, quantity: int, other: string)
    ensures QuantityOf(AddLine(orders, productId, quantity), other)
         == QuantityOf(orders, other) + (if other == productId then quantity else 0)
  {
    var r := AddLine(orders, productId, quantity);
    var i := OrderIndex(orders, productId);
    var j := OrderIndex(orders, other);
    if i != -1 {
      assert IsFirstLine(r, other, j);
      FirstLineUnique(r, other, j, OrderIndex(r, other));
    } else if other == productId {
      assert IsFirstLine(r, other, |orders|);
      FirstLineUnique(r, other, |orders|, OrderIndex(r, other));
    } else {
      assert IsFirstLine(r, other, j);
      FirstLineUnique(r, other, j, OrderIndex(r, other));
    }
  }

  /** Adding keeps at most one line per product, whatever the amount; it
      keeps every quantity positive when the amount added is at least 1. */
  lemma AddLinePreservesValid(orders: seq<Order>, productId: string, quantity: int)
    requires UniqueProducts(orders)
    ensures UniqueProducts(AddLine(orders, productId, quantity))
    ensures PositiveQuantities(orders) && quantity >= 1 ==> PositiveQuantities(AddLine(orders, productId, quantity))
  {
  }

  /** Adding `q1` and then `q2` of one product gives the same lines as adding
      `q1 + q2` at once: a single line, never two. */
  lemma AddLineMergeLaw(orders: seq<Order>, productId: string, q1: int, q2: int)
    ensures AddLine(AddLine(orders, productId, q1), productId, q2)
         == AddLine(orders, productId, q1 + q2)
  {
    var once := AddLine(orders, productId, q1);
    var i := OrderIndex(orders, productId);
    if i != -1 {
      assert IsFirstLine(once, productId, i);
      FirstLineUnique(once, productId, i, OrderIndex(once, productId));
    } else {
      assert IsFirstLine(once, productId, |orders|);
      FirstLineUnique(once, productId, |orders|, OrderIndex(once, productId));
    }
  }

  // ----- Removing a product -----

  /** Removing at least the line's quantity deletes exactly that line; the
      lines before and after it keep their relative order. */
  lemma RemoveLineDeletes(orders: seq<Order>, productId: string, quantityToRemove: int)
    requires OrderIndex(orders, productId) != -1
    requires quantityToRemove >= orders[OrderIndex(orders, productId)].quantity
    ensures var r, i := RemoveLine(orders, productId, quantityToRemove), OrderIndex(orders, productId);
      && |r| == |orders| - 1
      && r[..i] == orders[..i]
      && r[i..] == orders[i + 1..]
  {
  }

  /** Removing less than the line's quantity keeps the line in place with its
      quantity lowered by exactly that amount, so still at least 1. */
  lemma RemoveLineDecrements(orders: seq<Order>, productId: string, quantityToRemove: int)
    requires OrderIndex(orders, productId) != -1
    requires quantityToRemove < orders[OrderIndex(orders, productId)].quantity
    ensures var r, i := RemoveLine(orders, productId, quantityToRemove), OrderIndex(orders, productId);
      && |r| == |orders|
      && r[i] == Order(productId, orders[i].quantity - quantityToRemove)
      && r[i].quantity >= 1
      && forall k :: 0 <= k < |orders| && k != i ==> r[k] == orders[k]
  {
  }

  /** A product without a line: removing changes nothing. */
  lemma RemoveLineMiss(orders: seq<Order>, productId: string, quantityToRemove: int)
    requires OrderIndex(orders, productId) == -1
    ensures RemoveLine(orders, productId, quantityToRemove) == orders
  {
  }

  /** Seen as a cart (one line per product): removal follows the threshold
      rule — the product drops to 0 when at least its quantity is removed and
      otherwise loses exactly the amount — and no other product changes. */
  lemma {:induction false} RemoveLineQuantity(orders: seq<Order>, productId: string, quantityToRemove: int, other: string)
    requires UniqueProducts(orders)
    ensures QuantityOf(RemoveLine(orders, productId, quantityToRemove), other)
         == if other != productId || OrderIndex(orders, productId) == -1 then QuantityOf(orders, other)
            else if quantityToRemove >= QuantityOf(orders, productId) then 0
            else QuantityOf(orders, productId) - quantityToRemove
  {
    var r := RemoveLine(orders, productId, quantityToRemove);
    var i := OrderIndex(orders, productId);
    var j := OrderIndex(orders, other);
    if i == -1 {
    } else if quantityToRemove >= orders[i].quantity {
      var s := if j == -1 || other == productId then -1 else if j < i then j else j - 1;
      forall k | 0 <= k < |r| && (s == -1 || k < s) ensures r[k].productId != other {
        if k >= i {
          assert r[k] == orders[k + 1];
        }
      }
      assert IsFirstLine(r, other, s);
      FirstLineUnique(r, other, s, OrderIndex(r, other));
    } else {
      assert IsFirstLine(r, other, j);
      FirstLineUnique(r, other, j, OrderIndex(r, other));
    }
  }

  /** Removing keeps at most one line per product and every quantity at least
      1, whatever amount is removed. */
  lemma RemoveLinePreservesValid(orders: seq<Order>, productId: string, quantityToRemove: int)
    requires UniqueProducts(orders)
    ensures UniqueProducts(RemoveLine(orders, productId, quantityToRemove))
    ensures PositiveQuantities(orders) ==> PositiveQuantities(RemoveLine(orders, productId, quantityToRemove))
  {
  }
}
