/** The tables the views change, held in one object: the catalog (read only here), the
    cart, the orders and the order items. Its methods are the state-changing handlers of
    `CartView`, `OrderView` and `SingleOrderView`; the caller is an authenticated user. */
module Store {
  import opened Models
  import opened ViewAccess
  import opened Serializers
  import opened Ledger
  import opened OrderRules

  datatype CreateOutcome = NoItemsInCart | Created(order: Order)

  /** `get_total_price` inside `OrderView.create`: adds the line prices up in a loop. */
  method TotalPrice(lines: seq<CartLine>) returns (total: Cents)
    ensures total == CartTotal(lines)
  {
    total := 0;
    var i := 0;
    while i < |lines|
      invariant 0 <= i <= |lines|
      invariant total == CartTotal(lines[..i])
    {
      assert lines[..i + 1][..i] == lines[..i];
      total := total + lines[i].price;
      i := i + 1;
    }
    assert lines[..i] == lines;
  }

  /** The order table after saving `o` over the order with the same id. */
  function Replaced(orders: seq<Order>, o: Order): seq<Order> {
    seq(|orders|, i requires 0 <= i < |orders| => if orders[i].id == o.id then o else orders[i])
  }

  class Database {
    var menu: map<MenuId, MenuItem>
    var cart: seq<CartLine>
    var orders: seq<Order>
    var orderItems: seq<OrderItem>
    var nextOrderId: OrderId

    /** Order ids are unique and below the next id to hand out; every order item belongs
        to an order id handed out already. */
    ghost predicate Valid()
      reads this
    {
      && CatalogKeyed(menu)
      && (forall i :: 0 <= i < |orders| ==> orders[i].id < nextOrderId)
      && (forall i, j :: 0 <= i < j < |orders| ==> orders[i].id != orders[j].id)
      && (forall it :: it in orderItems ==> it.order < nextOrderId)
    }

    constructor (catalog: map<MenuId, MenuItem>)
      requires CatalogKeyed(catalog)
      ensures Valid()
      ensures menu == catalog && cart == [] && orders == [] && orderItems == []
    {
      menu := catalog;
      cart := [];
      orders := [];
      orderItems := [];
      nextOrderId := 1;
    }

    /** `CartView.get_queryset`: the caller's cart lines and no one else's. */
    function CartOf(u: UserId): (r: seq<CartLine>)
      reads this
      ensures forall l :: l in r <==> l in cart && l.user == u
      ensures multiset(r) + multiset(LinesNotOf(cart, u)) == multiset(cart)
    {
      CartSplits(cart, u);
      LinesOf(cart, u)
    }

    /** `CartView.create`: validates the request with `CartSerializer` and saves the line.
        A request without `menu_id` fails that required field's own check before
        `validate` runs; an unknown menu item adds nothing; a known one appends a line priced from the
        catalog for the caller (`Ledger.AddedLineTotal` and `Ledger.AppendedLine`: the
        caller's total grows by its price, nobody else's lines change). */
    method AddCartLine(u: UserId, attrs: CartAttrs) returns (r: Validated<CartLine>)
      requires Valid()
      modifies this`cart
      ensures Valid()
      ensures r.Rejected? <==> attrs.menuId.None? || attrs.menuId.value !in menu
      ensures r.Rejected? ==> cart == old(cart)
      ensures r.Rejected? ==> r.message == if attrs.menuId.None? then FieldRequired else MenuItemNotFound
      ensures r.Accepted? ==>
        var item := menu[attrs.menuId.value];
        && r.attrs == CartLine(u, attrs.menuId.value, attrs.quantity, item.price, attrs.quantity * item.price)
        && cart == old(cart) + [r.attrs]
    {
      if attrs.menuId.None? {
        return Rejected(FieldRequired);
      }
      var checked := ValidateCartLine(attrs, menu, u);
      match checked
      case Rejected(message) =>
        r := Rejected(message);
      case Accepted(a) =>
        var line := CartLine(a.user.value, a.menuitemId.value, a.quantity, a.unitPrice.value, a.price.value);
        cart := cart + [line];
        r := Accepted(line);
    }

    /** `CartView.delete`: removes all of the caller's cart lines and only those
        (`Ledger.ClearedLines`, `Ledger.CartSplits`). It always succeeds, also on an
        empty cart. */
    method ClearCart(u: UserId)
      requires Valid()
      modifies this`cart
      ensures Valid()
      ensures cart == LinesNotOf(old(cart), u)
    {
      cart := LinesNotOf(cart, u);
    }

    /** `OrderView.create`. With no cart lines it answers "no items in cart" and changes
        nothing. Otherwise it totals the caller's lines, saves an order through
        `OrderSerializer` on POST (so the payload's date, crew, status, user and total
        are ignored: the order is dated today, undelivered and unassigned), copies each
        cart line into an order item under the fresh order id, and deletes the caller's
        cart lines. `Ledger.OrderLedger` shows that the new order's items are exactly
        the copied lines and add up to its total. */
    method CreateOrder(u: UserId, payload: OrderData, today: Date) returns (r: CreateOutcome)
      requires Valid()
      modifies this`cart, this`orders, this`orderItems, this`nextOrderId
      ensures Valid()
      ensures LinesOf(old(cart), u) == [] ==>
        && r == NoItemsInCart
        && cart == old(cart) && orders == old(orders) && orderItems == old(orderItems)
        && nextOrderId == old(nextOrderId)
      ensures LinesOf(old(cart), u) != [] ==>
        var lines := LinesOf(old(cart), u);
        && r.Created?
        && r.order == Order(old(nextOrderId), u, None, false, CartTotal(lines), today)
        && (forall o :: o in old(orders) ==> o.id != r.order.id)
        && (forall it :: it in old(orderItems) ==> it.order != r.order.id)
        && orders == old(orders) + [r.order]
        && orderItems == old(orderItems) + ItemsFor(r.order.id, lines)
        && cart == LinesNotOf(old(cart), u)
    {
      if |LinesOf(cart, u)| == 0 {
        return NoItemsInCart;
      }
      var lines := LinesOf(cart, u);
      var total := TotalPrice(lines);
      var attrs := CreationData(payload, today);
      var order := InsertOrder(u, attrs.deliveryCrew.value, attrs.status.value, total, attrs.date.value);
      SaveOrderItems(order.id, lines);
      ClearCart(u);
      r := Created(order);
    }

    /** Saving a new order row under the next id. */
    method InsertOrder(u: UserId, crew: Option<UserId>, status: bool, total: Cents, date: Date) returns (order: Order)
      requires Valid()
      modifies this`orders, this`nextOrderId
      ensures Valid()
      ensures order == Order(old(nextOrderId), u, crew, status, total, date)
      ensures forall o :: o in old(orders) ==> o.id != order.id
      ensures forall it :: it in orderItems ==> it.order != order.id
      ensures orders == old(orders) + [order] && nextOrderId == old(nextOrderId) + 1
    {
      order := Order(nextOrderId, u, crew, status, total, date);
      orders := orders + [order];
      nextOrderId := nextOrderId + 1;
    }

    /** The second loop of `OrderView.create`: saves one order item per cart line. */
    method SaveOrderItems(o: OrderId, lines: seq<CartLine>)
      requires Valid() && o < nextOrderId
      modifies this`orderItems
      ensures Valid()
      ensures orderItems == old(orderItems) + ItemsFor(o, lines)
    {
      var i := 0;
      while i < |lines|
        invariant 0 <= i <= |lines|
        invariant orderItems == old(orderItems) + ItemsFor(o, lines[..i])
        invariant Valid()
      {
        assert lines[..i + 1][..i] == lines[..i];
        orderItems := orderItems + [ItemFrom(o, lines[i])];
        i := i + 1;
      }
      assert lines[..i] == lines;
    }

    /** A PATCH on one order: `SingleOrderView.get_permissions` checked first, then
        `partial_update`; the order table changes only when the answer is success. */
    method PatchOrder(user: Option<Principal>, id: OrderId, d: OrderData) returns (r: Outcome<Order>)
      requires Valid() && WellFormed(d)
      modifies this
      ensures Valid()
      ensures r == HandlePatch(user, old(orders), id, d)
      ensures r.Ok? ==> orders == Replaced(old(orders), r.value)
      ensures !r.Ok? ==> orders == old(orders)
      ensures menu == old(menu) && cart == old(cart) && orderItems == old(orderItems)
      ensures nextOrderId == old(nextOrderId)
    {
      var perms := SingleOrderPermissions(PATCH);
      if !Admits(perms, user) {
        return Forbidden;
      }
      r := PartialUpdate(user.value, orders, id, d);
      if r.Ok? {
        orders := Replaced(orders, r.value);
      }
    }

    /** A PUT on one order: the permission check, then the corrected `update`
        (`OrderRules.Update`) without the crew flag. */
    method ReplaceOrder(user: Option<Principal>, id: OrderId, d: OrderData) returns (r: Outcome<Order>)
      requires Valid()
      modifies this
      ensures Valid()
      ensures r == HandlePut(user, old(orders), id, d)
      ensures r.Ok? ==> orders == Replaced(old(orders), r.value)
      ensures !r.Ok? ==> orders == old(orders)
      ensures menu == old(menu) && cart == old(cart) && orderItems == old(orderItems)
      ensures nextOrderId == old(nextOrderId)
    {
      var perms := SingleOrderPermissions(PUT);
      if !Admits(perms, user) {
        return Forbidden;
      }
      r := Update(user.value, None, orders, id, d);
      if r.Ok? {
        orders := Replaced(orders, r.value);
      }
    }
  }
}
