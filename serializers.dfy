/** The validation steps of the cart and order serializers. A serializer's `attrs`
    dictionary becomes a record with one optional entry per key; a method returns the
    dictionary as the source leaves it. */
module Serializers {
  import opened Models

  /** `attrs` of a cart-line request: the write-only `menu_id`, the quantity, and the keys
      that validation fills in. */
  datatype CartAttrs = CartAttrs(
    menuId: Option<int>,
    quantity: int,
    user: Option<UserId>,
    price: Option<Cents>,
    unitPrice: Option<Cents>,
    menuitemId: Option<MenuId>)

  datatype Validated<T> = Accepted(attrs: T) | Rejected(message: string)

  const MenuItemNotFound: string := "Menu item not found"

  /** The message of a required field's own check, which runs before `validate`. */
  const FieldRequired: string := "This field is required."

  /** `CartSerializer.validate`: looks the menu item up (an unknown or missing `menu_id` is a
      validation error), prices the line at quantity times the item's current price,
      stamps the requesting user, and replaces `menu_id` by `menuitem_id`. */
  method ValidateCartLine(attrs: CartAttrs, menu: map<MenuId, MenuItem>, requester: UserId)
    returns (r: Validated<CartAttrs>)
    requires CatalogKeyed(menu)
    ensures r.Rejected? <==> attrs.menuId.None? || attrs.menuId.value !in menu
    ensures r.Rejected? ==> r.message == MenuItemNotFound
    ensures r.Accepted? ==>
      var item := menu[attrs.menuId.value];
      && r.attrs.price == Some(attrs.quantity * item.price)
      && r.attrs.unitPrice == Some(item.price)
      && r.attrs.menuitemId == attrs.menuId
      && r.attrs.user == Some(requester)
      && r.attrs.quantity == attrs.quantity
      && r.attrs.menuId.None?
  {
    if attrs.menuId.None? || attrs.menuId.value !in menu {
      return Rejected(MenuItemNotFound);
    }
    var item := menu[attrs.menuId.value];
    assert item.id == attrs.menuId.value;
    var a := attrs;
    a := a.(price := Some(a.quantity * item.price));
    a := a.(user := Some(requester));
    a := a.(unitPrice := Some(item.price));
    a := a.(menuitemId := Some(item.id));
    a := a.(menuId := None);
    r := Accepted(a);
  }

  /** The keys of an order request. `OtherField` names a key that is not one of the
      order's writable columns (`id`, `orderitem` or an unknown key). */
  datatype Field = UserField | DeliveryCrewField | StatusField | TotalField | DateField | OtherField(name: string)

  /** An order request's data or validated `attrs`: each column is present or absent;
      `deliveryCrew` may be present with the value null. */
  datatype OrderData = OrderData(
    user: Option<UserId>,
    deliveryCrew: Option<Option<UserId>>,
    status: Option<bool>,
    total: Option<Cents>,
    date: Option<Date>,
    others: set<string>)

  /** Whether the data carries key `f`. */
  predicate Present(d: OrderData, f: Field) {
    match f
    case UserField => d.user.Some?
    case DeliveryCrewField => d.deliveryCrew.Some?
    case StatusField => d.status.Some?
    case TotalField => d.total.Some?
    case DateField => d.date.Some?
    case OtherField(n) => n in d.others
  }

  /** The order's column names as request keys; they never appear among `others`. */
  const ColumnNames: set<string> := {"user", "delivery_crew", "status", "total", "date"}

  /** The request data is well formed when every column key is read into its own entry. */
  predicate WellFormed(d: OrderData) {
    forall n :: n in d.others ==> n !in ColumnNames
  }

  function Keys(d: OrderData): (r: set<Field>)
    ensures forall f :: f in r <==> Present(d, f)
    ensures r <= {StatusField} ==> d == OrderData(None, None, d.status, None, None, {})
  {
    var others := set n | n in d.others :: OtherField(n);
    assert forall n :: n in d.others ==> OtherField(n) in others;
    (if d.user.Some? then {UserField} else {})
    + (if d.deliveryCrew.Some? then {DeliveryCrewField} else {})
    + (if d.status.Some? then {StatusField} else {})
    + (if d.total.Some? then {TotalField} else {})
    + (if d.date.Some? then {DateField} else {})
    + others
  }

  /** The columns that `OrderSerializer` treats as read-only on a POST. */
  const CreationReadOnly: set<Field> := {DateField, DeliveryCrewField, StatusField, UserField, TotalField}

  /** `OrderSerializer.get_extra_kwargs`: on POST the inherited options are updated so that
      date, delivery crew, status, user and total are read-only; any other method keeps
      the inherited options. An entry maps a field to its `read_only` flag. */
  method ExtraKwargs(m: HttpMethod, inherited: map<Field, bool>) returns (r: map<Field, bool>)
    ensures m == POST ==> forall f :: f in CreationReadOnly ==> f in r && r[f]
    ensures m == POST ==> forall f :: f !in CreationReadOnly ==>
              (f in r <==> f in inherited) && (f in r ==> r[f] == inherited[f])
    ensures m != POST ==> r == inherited
  {
    r := inherited;
    if m == POST {
      r := r + map[DateField := true, DeliveryCrewField := true, StatusField := true,
                   UserField := true, TotalField := true];
    }
  }

  function ReadOnly(kwargs: map<Field, bool>): set<Field> {
    set f | f in kwargs && kwargs[f]
  }

  /** What the serializer keeps of the request data (`to_internal_value`): only its
      declared writable columns. Read-only columns are dropped, and so are `id`,
      `orderitem` and any unknown key. */
  function Writable(d: OrderData, readOnly: set<Field>): (r: OrderData)
    ensures forall f :: f in Keys(r) <==> f in Keys(d) && f !in readOnly && !f.OtherField?
    ensures UserField !in readOnly ==> r.user == d.user
    ensures DeliveryCrewField !in readOnly ==> r.deliveryCrew == d.deliveryCrew
    ensures StatusField !in readOnly ==> r.status == d.status
    ensures TotalField !in readOnly ==> r.total == d.total
    ensures DateField !in readOnly ==> r.date == d.date
    ensures r.others == {} && WellFormed(r)
  {
    OrderData(
      if UserField in readOnly then None else d.user,
      if DeliveryCrewField in readOnly then None else d.deliveryCrew,
      if StatusField in readOnly then None else d.status,
      if TotalField in readOnly then None else d.total,
      if DateField in readOnly then None else d.date,
      {})
  }

  /** `OrderSerializer.validate`: on POST the date becomes today, the status false and the
      delivery crew null whatever the request said; any other method keeps `attrs`. */
  method ValidateOrder(m: HttpMethod, attrs: OrderData, today: Date) returns (r: OrderData)
    ensures m == POST ==> r.date == Some(today) && r.status == Some(false) && r.deliveryCrew == Some(None)
    ensures m == POST ==> r.user == attrs.user && r.total == attrs.total && r.others == attrs.others
    ensures m != POST ==> r == attrs
  {
    r := attrs;
    if m == POST {
      r := r.(date := Some(today));
      r := r.(status := Some(false));
      r := r.(deliveryCrew := Some(None));
    }
  }

  /** What `OrderSerializer` makes of the data of a POST: the read-only columns are dropped
      from the request and validation then fills in today's date, status false and no
      delivery crew. Nothing the request sends for these columns, nor for user or total,
      survives. */
  method CreationData(payload: OrderData, today: Date) returns (attrs: OrderData)
    ensures attrs.date == Some(today) && attrs.status == Some(false) && attrs.deliveryCrew == Some(None)
    ensures attrs.user.None? && attrs.total.None? && attrs.others == {}
  {
    var kwargs := ExtraKwargs(POST, map[]);
    assert CreationReadOnly <= ReadOnly(kwargs);
    attrs := ValidateOrder(POST, Writable(payload, ReadOnly(kwargs)), today);
  }
}
