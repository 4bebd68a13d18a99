/** The decisions of the order views: which orders a caller may list, who may read an
    order's items, and who may change which fields of an order. Each is a function of the
    caller, the order table and the request; the store applies the result. */
module OrderRules {
  import opened Models
  import opened Permissions
  import opened ViewAccess
  import opened Serializers
  import opened Ledger

  /** The first order with id `id` (ids are unique in the store). */
  function FindOrder(orders: seq<Order>, id: OrderId): (r: Option<Order>)
    ensures r.Some? ==> r.value in orders && r.value.id == id
    ensures r.None? <==> forall o :: o in orders ==> o.id != id
  {
    if orders == [] then None
    else if orders[0].id == id then Some(orders[0])
    else FindOrder(orders[1..], id)
  }

  function OrdersOf(orders: seq<Order>, u: UserId): seq<Order> {
    Filter(orders, (o: Order) => o.user == u)
  }

  function OrdersAssignedTo(orders: seq<Order>, u: UserId): seq<Order> {
    Filter(orders, (o: Order) => o.deliveryCrew == Some(u))
  }

  /** `OrderView.get_queryset` as written: a caller in no group (superuser or not) sees its
      own orders; a caller in some group who is a superuser or a manager sees every order;
      otherwise a delivery-crew member sees the orders assigned to it; anybody else gets
      no queryset at all. */
  function ListOrdersAsWritten(p: Principal, orders: seq<Order>): (r: Option<seq<Order>>)
    ensures p.groups == {} ==> r.Some? && forall o :: o in r.value <==> o in orders && o.user == p.id
    ensures p.groups != {} && (p.isSuperuser || Manager in p.groups) ==> r == Some(orders)
    ensures p.groups != {} && !p.isSuperuser && Manager !in p.groups && DeliveryCrew in p.groups ==>
              r.Some? && forall o :: o in r.value <==> o in orders && o.deliveryCrew == Some(p.id)
    ensures r.None? <==> p.groups != {} && !p.isSuperuser && Manager !in p.groups && DeliveryCrew !in p.groups
  {
    if |p.groups| == 0 then Some(OrdersOf(orders, p.id))
    else if p.isSuperuser || Manager in p.groups then Some(orders)
    else if DeliveryCrew in p.groups then Some(OrdersAssignedTo(orders, p.id))
    else None
  }

  /** `OrderView.get_queryset` with the missing last case filled in: a caller in groups
      that carry no role sees its own orders, as a caller in no group does. */
  function ListOrders(p: Principal, orders: seq<Order>): (r: seq<Order>)
    ensures ListOrdersAsWritten(p, orders).Some? ==> r == ListOrdersAsWritten(p, orders).value
    ensures !p.isSuperuser && Manager !in p.groups && DeliveryCrew !in p.groups ==>
              forall o :: o in r <==> o in orders && o.user == p.id
  {
    match ListOrdersAsWritten(p, orders)
    case Some(visible) => visible
    case None => OrdersOf(orders, p.id)
  }

  /** A caller whose only group carries no role gets no queryset from the source. */
  lemma RolelessGroupGetsNoQueryset(orders: seq<Order>)
    ensures var waiter := Principal(7, {OtherGroup("Waiter")}, false);
      && ListOrdersAsWritten(waiter, orders).None?
      && ListOrders(waiter, orders) == OrdersOf(orders, 7)
  {
  }

  /** A GET on the order list: the permission check (logged in), then the corrected
      listing `ListOrders` (the source's `get_queryset` has no answer for a caller whose
      groups carry no role; see `ListOrdersAsWritten`). */
  function HandleList(user: Option<Principal>, orders: seq<Order>): (r: Outcome<seq<Order>>)
    ensures r.Ok? || r.Forbidden?
    ensures r.Forbidden? <==> user.None?
    ensures user.Some? ==> r == Ok(ListOrders(user.value, orders))
    ensures r.Ok? ==> forall o :: o in r.value ==> o in orders
  {
    if !Admits(LoggedInPermissions(), user) then Forbidden else Ok(ListOrders(user.value, orders))
  }

  /** The listing always shows an order to its owner when the owner holds no role, to
      every manager, and to the delivery crew it is assigned to; it hides it from any
      other caller without a role. */
  lemma OrderVisibility(orders: seq<Order>, o: Order, viewer: Principal)
    requires o in orders
    ensures viewer.groups == {} ==> (o in ListOrders(viewer, orders) <==> o.user == viewer.id)
    ensures Manager in viewer.groups ==> o in ListOrders(viewer, orders)
    ensures DeliveryCrew in viewer.groups && o.deliveryCrew == Some(viewer.id) ==> o in ListOrders(viewer, orders)
  {
  }

  /** `SingleOrderView.get`: an unknown order is not found; the caller must own the order
      or be in the "Manager" group (being a superuser is not enough); the answer is the
      order's items. */
  function OrderDetail(p: Principal, orders: seq<Order>, items: seq<OrderItem>, id: OrderId): (r: Outcome<seq<OrderItem>>)
    ensures r.Ok? || r.Forbidden? || r.NotFound?
    ensures r.NotFound? <==> forall o :: o in orders ==> o.id != id
    ensures r.Forbidden? <==> FindOrder(orders, id).Some? && FindOrder(orders, id).value.user != p.id && Manager !in p.groups
    ensures r.Ok? ==> forall it :: it in r.value <==> it in items && it.order == id
    ensures r.Ok? ==> r.value == ItemsOfOrder(items, id)
    ensures r.Ok? ==> forall it :: multiset(r.value)[it] == if it.order == id then multiset(items)[it] else 0
  {
    match FindOrder(orders, id)
    case None => NotFound
    case Some(o) =>
      if o.user != p.id && Manager !in p.groups then Forbidden
      else ItemsOfOrderCounts(items, id); Ok(ItemsOfOrder(items, id))
  }

  /** Reading back an order placed under a fresh id: its owner, or a "Manager" member,
      gets exactly the copies of the cart lines it was placed from, and they add up to
      the user's cart total. */
  lemma PlacedOrderDetail(p: Principal, orders: seq<Order>, cart: seq<CartLine>, before: seq<OrderItem>, id: OrderId, u: UserId)
    requires forall it :: it in before ==> it.order != id
    requires FindOrder(orders, id).Some?
    requires FindOrder(orders, id).value.user == p.id || Manager in p.groups
    ensures OrderDetail(p, orders, before + ItemsFor(id, LinesOf(cart, u)), id) == Ok(ItemsFor(id, LinesOf(cart, u)))
    ensures ItemsTotal(ItemsFor(id, LinesOf(cart, u))) == CartTotal(LinesOf(cart, u))
  {
    OrderLedger(cart, before, id, u);
  }

  /** Saving validated data over an order: each column present in the data is replaced,
      the others and the id keep their values. */
  function Apply(o: Order, d: OrderData): (r: Order)
    ensures r.id == o.id
    ensures r.user == (if d.user.Some? then d.user.value else o.user)
    ensures r.deliveryCrew == (if d.deliveryCrew.Some? then d.deliveryCrew.value else o.deliveryCrew)
    ensures r.status == (if d.status.Some? then d.status.value else o.status)
    ensures r.total == (if d.total.Some? then d.total.value else o.total)
    ensures r.date == (if d.date.Some? then d.date.value else o.date)
    ensures Keys(d) <= {StatusField} ==> r == o.(status := if d.status.Some? then d.status.value else o.status)
  {
    Order(o.id,
          if d.user.Some? then d.user.value else o.user,
          if d.deliveryCrew.Some? then d.deliveryCrew.value else o.deliveryCrew,
          if d.status.Some? then d.status.value else o.status,
          if d.total.Some? then d.total.value else o.total,
          if d.date.Some? then d.date.value else o.date)
  }

  /** The framework's update once it is allowed to proceed: an unknown order is not
      found, a known one gets the data applied. For methods other than POST the order
      serializer's validation leaves the data as it is. */
  function Save(orders: seq<Order>, id: OrderId, d: OrderData): (r: Outcome<Order>)
    ensures r.Ok? || r.NotFound?
    ensures r.NotFound? <==> forall o :: o in orders ==> o.id != id
    ensures r.Ok? ==> r.value == Apply(FindOrder(orders, id).value, d) && r.value.id == id
  {
    match FindOrder(orders, id)
    case None => NotFound
    case Some(o) => Ok(Apply(o, d))
  }

  /** `SingleOrderView.update` as written. `crewFlag` is the first positional argument,
      `None` when there is none (a request routed by the URL passes `pk` by keyword, so
      there never is one). A caller outside the "Manager" group without the flag makes
      the handler index an empty tuple. */
  function UpdateAsWritten(p: Principal, crewFlag: Option<bool>, orders: seq<Order>, id: OrderId, d: OrderData): (r: Outcome<Order>)
    ensures Manager in p.groups || crewFlag == Some(true) ==> r == Save(orders, id, d)
    ensures r.ServerError? <==> Manager !in p.groups && crewFlag.None?
    ensures r.Forbidden? <==> Manager !in p.groups && crewFlag == Some(false)
  {
    if Manager in p.groups then Save(orders, id, d)
    else if crewFlag.None? then ServerError
    else if crewFlag.value == true then Save(orders, id, d)
    else Forbidden
  }

  /** A superuser outside the "Manager" group passes the permission check of PUT and
      then crashes in `update`. */
  lemma SuperuserReplaceCrashes(orders: seq<Order>, id: OrderId, d: OrderData)
    ensures var admin := Principal(1, {}, true);
      && SingleOrderAdmits(PUT, Some(admin))
      && UpdateAsWritten(admin, None, orders, id, d) == ServerError
  {
  }

  /** `SingleOrderView.update` with a missing flag read as "not the delivery crew": a
      caller in the "Manager" group, or the delivery-crew path, proceeds to save; anybody
      else is forbidden. It never fails with a server error. */
  function Update(p: Principal, crewFlag: Option<bool>, orders: seq<Order>, id: OrderId, d: OrderData): (r: Outcome<Order>)
    ensures !r.ServerError?
    ensures r.Ok? ==> r.value.id == id
    ensures Manager in p.groups || crewFlag == Some(true) ==> r == Save(orders, id, d)
    ensures r.Forbidden? <==> Manager !in p.groups && crewFlag != Some(true)
    ensures !UpdateAsWritten(p, crewFlag, orders, id, d).ServerError? ==> r == UpdateAsWritten(p, crewFlag, orders, id, d)
  {
    if Manager in p.groups || crewFlag == Some(true) then Save(orders, id, d)
    else Forbidden
  }

  /** `SingleOrderView.partial_update`. An unknown order is not found before any role is
      looked at. The delivery crew assigned to the order may send `status` and nothing
      else; this is checked before the manager case, so a manager who is also the
      assigned crew is held to it. A "Manager" group member may change any fields;
      anybody else is forbidden. */
  function PartialUpdate(p: Principal, orders: seq<Order>, id: OrderId, d: OrderData): (r: Outcome<Order>)
    requires WellFormed(d)
    ensures !r.ServerError?
    ensures r.Ok? ==> r.value.id == id
    ensures r.NotFound? <==> forall o :: o in orders ==> o.id != id
    ensures FindOrder(orders, id).Some? ==>
      var o := FindOrder(orders, id).value;
      if DeliveryCrew in p.groups && o.deliveryCrew == Some(p.id) then
        && (r.Ok? <==> Keys(d) == {StatusField})
        && (!r.Ok? ==> r.BadRequest?)
        && (r.Ok? ==> r.value == o.(status := d.status.value))
      else if Manager in p.groups then r == Ok(Apply(o, d))
      else r.Forbidden?
  {
    match FindOrder(orders, id)
    case None => NotFound
    case Some(o) =>
      if DeliveryCrew in p.groups && o.deliveryCrew == Some(p.id) then
        if Keys(d) - {StatusField} != {} then BadRequest
        else if StatusField !in Keys(d) then BadRequest
        else Update(p, Some(true), orders, id, d)
      else if Manager in p.groups then Update(p, None, orders, id, d)
      else Forbidden
  }

  /** A GET on one order: the permission check, then `get`. */
  function HandleGet(user: Option<Principal>, orders: seq<Order>, items: seq<OrderItem>, id: OrderId): (r: Outcome<seq<OrderItem>>)
    ensures user.None? ==> r.Forbidden?
    ensures user.Some? ==> r == OrderDetail(user.value, orders, items, id)
    ensures r.Ok? ==> user.Some? && FindOrder(orders, id).Some?
                      && (FindOrder(orders, id).value.user == user.value.id || Manager in user.value.groups)
  {
    if !SingleOrderAdmits(GET, user) then Forbidden else OrderDetail(user.value, orders, items, id)
  }

  /** A PATCH on one order: the permission check (an employee), then `partial_update`. */
  function HandlePatch(user: Option<Principal>, orders: seq<Order>, id: OrderId, d: OrderData): (r: Outcome<Order>)
    requires WellFormed(d)
    ensures !IsEmployee(user) ==> r.Forbidden?
    ensures IsEmployee(user) ==> r == PartialUpdate(user.value, orders, id, d)
    ensures r.Ok? ==> r.value.id == id
    ensures r.Ok? ==> user.Some? && FindOrder(orders, id).Some?
    ensures r.Ok? ==>
      var o := FindOrder(orders, id).value;
      || (DeliveryCrew in user.value.groups && o.deliveryCrew == Some(user.value.id) && Keys(d) == {StatusField})
      || Manager in user.value.groups
  {
    if !SingleOrderAdmits(PATCH, user) then Forbidden else PartialUpdate(user.value, orders, id, d)
  }

  /** The delivery crew assigned to an order gets through PATCH exactly when it sends
      `status` and nothing else, and then only the status changes. */
  lemma CrewMaySetStatusOnly(p: Principal, orders: seq<Order>, id: OrderId, d: OrderData)
    requires WellFormed(d)
    requires DeliveryCrew in p.groups
    requires FindOrder(orders, id).Some? && FindOrder(orders, id).value.deliveryCrew == Some(p.id)
    ensures d.status.Some? && d == OrderData(None, None, d.status, None, None, {}) ==>
              HandlePatch(Some(p), orders, id, d) == Ok(FindOrder(orders, id).value.(status := d.status.value))
    ensures d != OrderData(None, None, d.status, None, None, {}) || d.status.None? ==>
              HandlePatch(Some(p), orders, id, d) == BadRequest
  {
    if d.status.Some? && d == OrderData(None, None, d.status, None, None, {}) {
      assert Keys(d) == {StatusField} by {
        assert forall f :: f in Keys(d) <==> f == StatusField;
      }
    }
  }

  /** A PUT on one order: the permission check (a manager or superuser), then the
      corrected `Update` without the crew flag. Only a "Manager" group member gets
      through; everybody else, the order's owner included, is forbidden whether or not
      the order exists. As written, a superuser outside "Manager" passes the check and
      then crashes instead (`SuperuserReplaceCrashes`). */
  function HandlePut(user: Option<Principal>, orders: seq<Order>, id: OrderId, d: OrderData): (r: Outcome<Order>)
    ensures user.None? || Manager !in user.value.groups ==> r.Forbidden?
    ensures r.Ok? ==> r.value.id == id
    ensures user.Some? && Manager in user.value.groups ==> r == Save(orders, id, d)
  {
    if !SingleOrderAdmits(PUT, user) then Forbidden else Update(user.value, None, orders, id, d)
  }
}
