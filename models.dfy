/** Entities of the LittleLemon API as the views and serializers use them.
    The database rows become plain values; a table becomes a `seq` of rows. */
module Models {

  type UserId = int
  type MenuId = int
  type OrderId = int

  /** Prices are decimals with two places, kept here as whole cents. */
  type Cents = int

  /** The calendar date an order is placed on (the server's clock is a parameter). */
  datatype Date = Date(year: int, month: int, day: int)

  datatype Option<T> = None | Some(value: T)

  datatype HttpMethod = GET | POST | PUT | PATCH | DELETE | HEAD | OPTIONS

  /** A Django auth group. Only "Manager" and "Delivery crew" carry meaning; any
      other group a user is in is kept by name. A group is read from its name with
      `GroupNamed`, so `OtherGroup` never carries one of the two role names. */
  datatype Group = Manager | DeliveryCrew | OtherGroup(name: string)

  const RoleNames: set<string> := {"Manager", "Delivery crew"}

  /** The group a name denotes, as `groups.filter(name=...)` matches it. */
  function GroupNamed(name: string): (g: Group)
    ensures g == Manager <==> name == "Manager"
    ensures g == DeliveryCrew <==> name == "Delivery crew"
    ensures g.OtherGroup? ==> g.name == name && name !in RoleNames
  {
    if name == "Manager" then Manager
    else if name == "Delivery crew" then DeliveryCrew
    else OtherGroup(name)
  }

  /** A set of groups read from names: no role group appears under another name. */
  predicate CanonicalGroups(groups: set<Group>) {
    forall g :: g in groups && g.OtherGroup? ==> g.name !in RoleNames
  }

  /** Reading every name through `GroupNamed` gives canonical groups, and a user is in
      the "Manager" group exactly when one of the names is "Manager". */
  lemma NamedGroupsCanonical(names: set<string>)
    ensures CanonicalGroups(set n | n in names :: GroupNamed(n))
    ensures Manager in (set n | n in names :: GroupNamed(n)) <==> "Manager" in names
    ensures DeliveryCrew in (set n | n in names :: GroupNamed(n)) <==> "Delivery crew" in names
  {
  }

  /** The authenticated caller of a request: its user id, its groups and its superuser flag. */
  datatype Principal = Principal(id: UserId, groups: set<Group>, isSuperuser: bool)

  datatype MenuItem = MenuItem(id: MenuId, title: string, price: Cents, category: int, featured: bool)

  /** The menu table keyed by item id, as `MenuItem.objects.get(id=...)` looks it up. */
  predicate CatalogKeyed(menu: map<MenuId, MenuItem>) {
    forall k :: k in menu ==> menu[k].id == k
  }

  /** A row of the cart table: one pending menu item of one user. */
  datatype CartLine = CartLine(user: UserId, menuitem: MenuId, quantity: int, unitPrice: Cents, price: Cents)

  /** `status` is the source's boolean: false while placed, true once delivered. */
  datatype Order = Order(id: OrderId, user: UserId, deliveryCrew: Option<UserId>, status: bool, total: Cents, date: Date)

  datatype OrderItem = OrderItem(order: OrderId, menuitem: MenuId, quantity: int, unitPrice: Cents, price: Cents)

  /** What a request handler answers, reduced to its kind. `ServerError` is an uncaught
      exception in the handler. */
  datatype Outcome<T> = Ok(value: T) | BadRequest | Forbidden | NotFound | ServerError

  /** The elements of `s` that `keep` accepts, in their order in `s` (a queryset `filter`). */
  function Filter<T(!new)>(s: seq<T>, keep: T -> bool): (r: seq<T>)
    ensures |r| <= |s|
    ensures forall x :: x in r <==> x in s && keep(x)
  {
    if s == [] then [] else (if keep(s[0]) then [s[0]] else []) + Filter(s[1..], keep)
  }

  /** Filtering keeps every accepted element as often as it occurs and drops the rest. */
  lemma {:induction false} FilterCounts<T(!new)>(s: seq<T>, keep: T -> bool)
    ensures forall x :: multiset(Filter(s, keep))[x] == if keep(x) then multiset(s)[x] else 0
  {
    if s != [] {
      assert s == [s[0]] + s[1..];
      FilterCounts(s[1..], keep);
    }
  }

  /** Filtering a concatenation filters each part. */
  lemma {:induction false} FilterAppend<T(!new)>(a: seq<T>, b: seq<T>, keep: T -> bool)
    ensures Filter(a + b, keep) == Filter(a, keep) + Filter(b, keep)
  {
    if a == [] {
      assert a + b == b;
    } else {
      var head := if keep(a[0]) then [a[0]] else [];
      assert (a + b)[0] == a[0];
      assert (a + b)[1..] == a[1..] + b;
      FilterAppend(a[1..], b, keep);
      calc {
        Filter(a + b, keep);
        head + Filter(a[1..] + b, keep);
        head + (Filter(a[1..], keep) + Filter(b, keep));
        (head + Filter(a[1..], keep)) + Filter(b, keep);
        Filter(a, keep) + Filter(b, keep);
      }
    }
  }

  /** A filter that accepts every element returns the sequence unchanged. */
  lemma {:induction false} FilterKeepsAll<T(!new)>(s: seq<T>, keep: T -> bool)
    requires forall x :: x in s ==> keep(x)
    ensures Filter(s, keep) == s
  {
    if s != [] {
      assert s == [s[0]] + s[1..];
      FilterKeepsAll(s[1..], keep);
    }
  }

  /** A filter that accepts no element returns the empty sequence. */
  lemma {:induction false} FilterKeepsNone<T(!new)>(s: seq<T>, keep: T -> bool)
    requires forall x :: x in s ==> !keep(x)
    ensures Filter(s, keep) == []
  {
    if s != [] {
      assert s == [s[0]] + s[1..];
      FilterKeepsNone(s[1..], keep);
    }
  }
}
