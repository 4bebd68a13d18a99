/** Specification functions over the cart and order-item tables: whose lines are whose,
    what a cart costs, and the order items an order copies from a cart. */
module Ledger {
  import opened Models

  /** A user's cart lines, in table order (`Cart.objects.filter(user=u)`). */
  function LinesOf(cart: seq<CartLine>, u: UserId): seq<CartLine> {
    Filter(cart, (l: CartLine) => l.user == u)
  }

  /** The cart table once a user's lines are deleted. */
  function LinesNotOf(cart: seq<CartLine>, u: UserId): seq<CartLine> {
    Filter(cart, (l: CartLine) => l.user != u)
  }

  /** The items of one order (`OrderItem.objects.filter(order=o)`). */
  function ItemsOfOrder(items: seq<OrderItem>, o: OrderId): seq<OrderItem> {
    Filter(items, (it: OrderItem) => it.order == o)
  }

  /** An order's items keep every item of that order as often as the table holds it,
      and nothing else. */
  lemma ItemsOfOrderCounts(items: seq<OrderItem>, o: OrderId)
    ensures forall it :: multiset(ItemsOfOrder(items, o))[it] == if it.order == o then multiset(items)[it] else 0
  {
    FilterCounts(items, (it: OrderItem) => it.order == o);
  }

  /** The sum of the line prices, added up front to back. */
  function CartTotal(lines: seq<CartLine>): Cents {
    if lines == [] then 0 else CartTotal(lines[..|lines| - 1]) + lines[|lines| - 1].price
  }

  function ItemsTotal(items: seq<OrderItem>): Cents {
    if items == [] then 0 else ItemsTotal(items[..|items| - 1]) + items[|items| - 1].price
  }

  /** The order item that copies one cart line into order `o`. */
  function ItemFrom(o: OrderId, l: CartLine): OrderItem {
    OrderItem(o, l.menuitem, l.quantity, l.unitPrice, l.price)
  }

  /** One order item per cart line, in the same order. */
  function ItemsFor(o: OrderId, lines: seq<CartLine>): (r: seq<OrderItem>)
    ensures |r| == |lines|
    ensures forall it :: it in r ==> it.order == o
    ensures forall i :: 0 <= i < |lines| ==>
      && r[i].order == o
      && r[i].menuitem == lines[i].menuitem
      && r[i].quantity == lines[i].quantity
      && r[i].unitPrice == lines[i].unitPrice
      && r[i].price == lines[i].price
  {
    if lines == [] then [] else ItemsFor(o, lines[..|lines| - 1]) + [ItemFrom(o, lines[|lines| - 1])]
  }

  /** The copied items cost what the cart lines cost: an order's total is the sum of its
      items' prices. */
  lemma {:induction false} ItemsTotalIsCartTotal(o: OrderId, lines: seq<CartLine>)
    ensures ItemsTotal(ItemsFor(o, lines)) == CartTotal(lines)
  {
    if lines != [] {
      var n := |lines| - 1;
      var items := ItemsFor(o, lines);
      assert items[..n] == ItemsFor(o, lines[..n]);
      ItemsTotalIsCartTotal(o, lines[..n]);
    }
  }

  /** Appending a line adds its price to the cart total. */
  lemma {:induction false} CartTotalAppend(a: seq<CartLine>, b: seq<CartLine>)
    ensures CartTotal(a + b) == CartTotal(a) + CartTotal(b)
  {
    if b != [] {
      var n := |b| - 1;
      assert (a + b)[..|a + b| - 1] == a + b[..n];
      CartTotalAppend(a, b[..n]);
    } else {
      assert a + b == a;
    }
  }

  /** After one user's lines are deleted, that user has none and everybody else keeps
      exactly the lines they had. */
  lemma {:induction false} ClearedLines(cart: seq<CartLine>, u: UserId, v: UserId)
    ensures LinesOf(LinesNotOf(cart, u), v) == if u == v then [] else LinesOf(cart, v)
  {
    if cart != [] {
      var head := cart[..1];
      var rest := cart[1..];
      assert cart == head + rest;
      FilterAppend(head, rest, (l: CartLine) => l.user != u);
      ClearedLines(rest, u, v);
      FilterAppend(LinesNotOf(head, u), LinesNotOf(rest, u), (l: CartLine) => l.user == v);
      FilterAppend(head, rest, (l: CartLine) => l.user == v);
    }
  }

  /** A user's lines and everybody else's lines together are the whole cart table. */
  lemma CartSplits(cart: seq<CartLine>, u: UserId)
    ensures multiset(LinesOf(cart, u)) + multiset(LinesNotOf(cart, u)) == multiset(cart)
  {
    var mine := LinesOf(cart, u);
    var others := LinesNotOf(cart, u);
    FilterCounts(cart, (l: CartLine) => l.user == u);
    FilterCounts(cart, (l: CartLine) => l.user != u);
    assert forall l :: (multiset(mine) + multiset(others))[l] == multiset(cart)[l];
  }

  /** A new line raises its owner's cart total by its price and leaves every other
      user's lines as they were. */
  lemma AddedLineTotal(cart: seq<CartLine>, l: CartLine)
    ensures CartTotal(LinesOf(cart + [l], l.user)) == CartTotal(LinesOf(cart, l.user)) + l.price
    ensures forall v :: v != l.user ==> LinesOf(cart + [l], v) == LinesOf(cart, v)
  {
    AppendedLine(cart, l, l.user);
    CartTotalAppend(LinesOf(cart, l.user), [l]);
    forall v | v != l.user
      ensures LinesOf(cart + [l], v) == LinesOf(cart, v)
    {
      AppendedLine(cart, l, v);
    }
  }

  /** A new line for user `u` is appended to `u`'s lines and leaves other users' lines
      as they were. */
  lemma AppendedLine(cart: seq<CartLine>, l: CartLine, v: UserId)
    ensures LinesOf(cart + [l], v) == if l.user == v then LinesOf(cart, v) + [l] else LinesOf(cart, v)
  {
    FilterAppend(cart, [l], (x: CartLine) => x.user == v);
    assert [l][1..] == [];
  }

  /** Items appended for a fresh order are exactly that order's items. */
  lemma NewOrderItems(before: seq<OrderItem>, o: OrderId, lines: seq<CartLine>)
    requires forall it :: it in before ==> it.order != o
    ensures ItemsOfOrder(before + ItemsFor(o, lines), o) == ItemsFor(o, lines)
  {
    var keep := (it: OrderItem) => it.order == o;
    FilterAppend(before, ItemsFor(o, lines), keep);
    FilterKeepsNone(before, keep);
    FilterKeepsAll(ItemsFor(o, lines), keep);
  }

  /** Placing an order under a fresh id from a user's cart: the order's items are exactly
      the copies of the user's lines, they add up to the user's cart total, the user is
      left with no lines and every other user keeps theirs. */
  lemma OrderLedger(cart: seq<CartLine>, before: seq<OrderItem>, o: OrderId, u: UserId)
    requires forall it :: it in before ==> it.order != o
    ensures ItemsOfOrder(before + ItemsFor(o, LinesOf(cart, u)), o) == ItemsFor(o, LinesOf(cart, u))
    ensures ItemsTotal(ItemsOfOrder(before + ItemsFor(o, LinesOf(cart, u)), o)) == CartTotal(LinesOf(cart, u))
    ensures LinesOf(LinesNotOf(cart, u), u) == []
    ensures forall v :: v != u ==> LinesOf(LinesNotOf(cart, u), v) == LinesOf(cart, v)
  {
    NewOrderItems(before, o, LinesOf(cart, u));
    ItemsTotalIsCartTotal(o, LinesOf(cart, u));
    ClearedLines(cart, u, u);
    forall v | v != u
      ensures LinesOf(LinesNotOf(cart, u), v) == LinesOf(cart, v)
    {
      ClearedLines(cart, u, v);
    }
  }
}
