# LittleLemon API — a Dafny model of its access rules and order lifecycle

The LittleLemon API is a Django REST Framework service for a restaurant. It has a menu, a
cart for each user, orders built from a cart, and two staff roles. The roles are Django
auth groups: "Manager" and "Delivery crew". This project models the part of the service
that decides things:

- **Roles** (`permissions.dfy`, module `Permissions`). The two permission classes
  `IsManager` and `IsEmployee` are predicates over the request's user. The user is
  `None` when nobody is logged in.
- **Per-view permission lists** (`access.dfy`, module `ViewAccess`). Each view's
  `get_permissions` becomes the list of permission classes it returns. The framework
  admits a request only when every class in the list admits it (`Admits`). Each list is
  proved equivalent to a plain rule on the method and the caller.
  `SingleOrderView.get_permissions` appends to a list, so it is a method.
- **Serializer validation** (`serializers.dfy`, module `Serializers`):
  - `CartSerializer.validate` looks up and prices a cart line.
  - `OrderSerializer.get_extra_kwargs` makes five order columns read-only on POST.
  - `OrderSerializer.validate` forces the date, status and crew on POST.
  - `CreationData` composes the three steps. It shows that nothing the client sends for
    those columns survives.
- **Order decisions** (`order_rules.dfy`, module `OrderRules`). These are pure functions
  of the caller, the order table and the request data:
  - `OrderView.get_queryset` (the listing).
  - `SingleOrderView.get` (the detail).
  - `update` and `partial_update`.
  - The combination of each with its permission check.
- **Table arithmetic** (`ledger.dfy`, module `Ledger`). Specification functions say whose
  cart lines are whose, what a cart costs, and which order items an order copies.
  Lemmas connect them: the order total equals the sum of its items' prices, and clearing
  one user's cart leaves every other user's cart unchanged.
- **The store** (`store.dfy`, module `Store`). A `Database` class holds the cart, order
  and order-item tables and the next order id. Its methods are the state-changing
  handlers: adding a cart line, clearing a cart, placing an order, PATCH and PUT on an
  order. Each is proved against the functions above. The loops of `OrderView.create`,
  totalling the cart and copying lines into order items, are `while` loops with
  invariants.
- **Group administration** (`groups.dfy`, module `GroupAdmin`). A `UserDirectory` class
  holds the user accounts and their groups. `post` and `delete` of `GroupsManagerView`
  and `GroupsDeliveryCrewView` are one pair of methods that takes the group as a
  parameter. Adding a member who is already in the group, or removing a non-member, is a
  no-op that succeeds.
- **Common data** (`models.dfy`, module `Models`). Entities are datatypes and tables are
  sequences. A queryset `filter` is the generic `Filter`, with lemmas about counts,
  concatenation and the all-kept and none-kept cases.

Prices are `DecimalField`s with two decimal places in the source. Here they are whole
cents (`int`).

Where the code and the documented design of the service differ, the model follows the code:

- Being a superuser is not the same as being in "Manager". `SingleOrderView.get` and
  `update` look only at the "Manager" group. The permission classes accept a superuser.
- A superuser in no group lists only their own orders (`views.py:195-196` is tested
  before the superuser case).
- Placing an order with an empty cart answers the message "no items in cart" with a
  success status (`NoItemsInCart`), not an error.
- An order's status stays the source's boolean: false while placed, true once delivered.
- Placing an order is not atomic in the source. The model runs its steps in sequence and
  makes no claim about failure halfway through.

The model also makes choices where the code shown leaves things open:

- Adding the same menu item to the cart twice appends a second line in the model. The
  table definitions are not part of this model, so the model does not capture whether a
  uniqueness constraint on (user, menu item) would reject the second save.
- The menu table is keyed by item id (`CatalogKeyed`), as `MenuItem.objects.get(id=...)`
  looks items up.
- Order request data is well formed (`WellFormed`): a column key such as `status` is read
  into its own entry and never counts as an unknown key.
- Groups are read from their names with `GroupNamed`, so `OtherGroup` never carries the
  name "Manager" or "Delivery crew" (`CanonicalGroups`).

## Model

| member | source | states |
|---|---|---|
| Models.NamedGroupsCanonical | LittleLemon/LittleLemonAPI/permissions.py:6-15 | groups read from names never carry a role name under `OtherGroup`; a user is in "Manager" (or "Delivery crew") exactly when one of the names is that name |
| Permissions.IsManager | LittleLemon/LittleLemonAPI/permissions.py:5-7 | holds only with a logged-in user; every manager is also an employee; a user in no group who is not a superuser is not a manager |
| Permissions.IsEmployee | LittleLemon/LittleLemonAPI/permissions.py:12-15 | holds only with a logged-in user; every "Delivery crew" member is an employee; a user in no group who is not a superuser is not one |
| Permissions.CrewIsEmployeeNotManager | LittleLemon/LittleLemonAPI/permissions.py:5-15 | a delivery-crew member who is neither manager nor superuser passes `IsEmployee` and fails `IsManager` |
| ViewAccess.AdmitsAppend | LittleLemon/LittleLemonAPI/views.py:140-146 | a concatenated permission list admits exactly when both parts admit |
| ViewAccess.CategoryPermissions | LittleLemon/LittleLemonAPI/views.py:23-28 | the categories view admits a caller iff the method is GET or the caller is logged in |
| ViewAccess.MenuItemPermissions | LittleLemon/LittleLemonAPI/views.py:38-55 | the menu-item views admit a caller iff the method is GET or the caller is a manager or superuser |
| ViewAccess.StaffAdminPermissions | LittleLemon/LittleLemonAPI/views.py:59-61 | the group-administration views admit a caller iff `IsManager` holds |
| ViewAccess.LoggedInPermissions | LittleLemon/LittleLemonAPI/views.py:121-123 | the cart and order-list views admit a caller iff someone is logged in |
| ViewAccess.SingleOrderPermissions | LittleLemon/LittleLemonAPI/views.py:140-146 | the list starts with `IsAuthenticated`, contains `IsEmployee` iff the method is not GET and `IsManager` iff it is PUT or DELETE; it admits exactly as `SingleOrderAdmits` says |
| Serializers.ValidateCartLine | LittleLemon/LittleLemonAPI/serializers.py:35-46 | rejected with "Menu item not found" iff `menu_id` is missing or unknown; otherwise price = quantity × item price, unit price = item price, the requester as user, `menuitem_id` equal to the requested `menu_id`, and `menu_id` dropped |
| Serializers.ExtraKwargs | LittleLemon/LittleLemonAPI/serializers.py:82-95 | on POST date, delivery crew, status, user and total become read-only and every other inherited option is kept; other methods keep the inherited options unchanged |
| Serializers.ValidateOrder | LittleLemon/LittleLemonAPI/serializers.py:64-76 | on POST the date is today, the status false and the crew null, with the other entries kept; other methods leave `attrs` unchanged |
| Serializers.Writable | LittleLemon/LittleLemonAPI/serializers.py:82-95 | the serializer keeps exactly the request's declared columns that are not read-only, each with the request's value; `id`, `orderitem` and unknown keys are dropped |
| Serializers.CreationData | LittleLemon/LittleLemonAPI/serializers.py:64-95 | the data saved on POST is dated today, undelivered and unassigned, and carries no user, total or other key from the client |
| Ledger.ItemsFor | LittleLemon/LittleLemonAPI/views.py:228-238 | one order item per cart line, in order, each in the given order and copying menu item, quantity, unit price and price |
| Ledger.ItemsTotalIsCartTotal | LittleLemon/LittleLemonAPI/views.py:204-238 | the copied items' prices add up to the cart total the order was given |
| Ledger.CartTotalAppend | LittleLemon/LittleLemonAPI/views.py:204-209 | the total of two runs of lines is the sum of their totals |
| Ledger.ClearedLines | LittleLemon/LittleLemonAPI/views.py:131-132 | after deleting user u's lines, u has none and every other user has exactly the lines they had |
| Ledger.CartSplits | LittleLemon/LittleLemonAPI/views.py:128-132 | a user's lines and everybody else's lines together are the whole cart table, as multisets |
| Ledger.AppendedLine | LittleLemon/LittleLemonAPI/views.py:119-126 | a new line is appended to its owner's lines and changes nobody else's |
| Ledger.NewOrderItems | LittleLemon/LittleLemonAPI/views.py:228-238 | items appended for a fresh order id are exactly that order's items |
| Ledger.ItemsOfOrderCounts | LittleLemon/LittleLemonAPI/views.py:175 | an order's items hold every item of that order as many times as the table does, and no other item |
| Ledger.OrderLedger | LittleLemon/LittleLemonAPI/views.py:211-240 | after an order is placed under a fresh id, its items are exactly the copies of the user's lines and add up to the user's cart total; the user has no lines left and every other user keeps theirs |
| Ledger.AddedLineTotal | LittleLemon/LittleLemonAPI/views.py:119-126 | a new cart line raises its owner's cart total by its price and leaves every other user's lines unchanged |
| OrderRules.FindOrder | LittleLemon/LittleLemonAPI/views.py:155 | finds an order with the id when there is one, and reports none iff no order has it |
| OrderRules.ListOrdersAsWritten | LittleLemon/LittleLemonAPI/views.py:193-200 | no groups: own orders; superuser or "Manager" (with some group): all orders; otherwise "Delivery crew": the orders assigned to the caller; no queryset iff in groups with no role |
| OrderRules.RolelessGroupGetsNoQueryset | LittleLemon/LittleLemonAPI/views.py:193-200 | a caller whose only group has no role gets no queryset as written, and its own orders once corrected |
| OrderRules.ListOrders | LittleLemon/LittleLemonAPI/views.py:193-200 | agrees with the source wherever the source returns a queryset; a caller without role or superuser flag sees exactly their own orders |
| OrderRules.OrderVisibility | LittleLemon/LittleLemonAPI/views.py:193-200 | an owner without groups sees exactly their own orders, a manager sees every order, the assigned crew sees its orders |
| OrderRules.HandleList | LittleLemon/LittleLemonAPI/views.py:189-200 | forbidden iff nobody is logged in; otherwise exactly the corrected listing `ListOrders` (as written, a caller in role-less groups gets no queryset: `ListOrdersAsWritten`) |
| OrderRules.OrderDetail | LittleLemon/LittleLemonAPI/views.py:169-177 | not found iff no order has the id; forbidden iff the caller is neither the owner nor in "Manager"; otherwise exactly the order's items in table order, each as many times as the table holds it |
| OrderRules.PlacedOrderDetail | LittleLemon/LittleLemonAPI/views.py:169-177 | reading back an order placed under a fresh id gives its owner or a "Manager" member exactly the copied cart lines, which add up to the cart total |
| OrderRules.HandleGet | LittleLemon/LittleLemonAPI/views.py:140-177 | forbidden with nobody logged in; otherwise the detail; success only for the owner or a "Manager" member |
| OrderRules.Apply | LittleLemon/LittleLemonAPI/views.py:150 | a save replaces each column present in the data, keeps the rest and the id; status-only data changes only the status |
| OrderRules.Save | LittleLemon/LittleLemonAPI/views.py:150 | not found iff no order has the id; otherwise the found order with the data applied |
| OrderRules.UpdateAsWritten | LittleLemon/LittleLemonAPI/views.py:148-152 | a "Manager" member or the crew flag saves; a server error iff the caller is outside "Manager" and there is no positional argument; forbidden iff the flag is false |
| OrderRules.SuperuserReplaceCrashes | LittleLemon/LittleLemonAPI/views.py:140-152 | a superuser in no group passes the PUT permission check and then gets a server error from `update` |
| OrderRules.Update | LittleLemon/LittleLemonAPI/views.py:148-152 | never a server error; forbidden iff outside "Manager" without the crew flag; identical to the source wherever the source does not crash |
| OrderRules.PartialUpdate | LittleLemon/LittleLemonAPI/views.py:154-167 | not found first; the assigned crew succeeds iff the data holds `status` and nothing else, else bad request, and only the status changes; a "Manager" member gets the data applied; anybody else is forbidden |
| OrderRules.HandlePatch | LittleLemon/LittleLemonAPI/views.py:140-167 | a non-employee is forbidden; an employee gets exactly `PartialUpdate`'s answer; success only for the assigned crew sending status alone, or for a "Manager" member |
| OrderRules.CrewMaySetStatusOnly | LittleLemon/LittleLemonAPI/views.py:154-162 | the crew assigned to an order succeeds with a PATCH of `status` alone, which changes only the status, and gets a bad request for any other data |
| OrderRules.HandlePut | LittleLemon/LittleLemonAPI/views.py:140-152 | the permission check followed by the corrected `Update`: anybody outside "Manager" is forbidden, the order's owner and superusers included; a "Manager" member gets the save (as written, a superuser outside "Manager" gets a server error: `SuperuserReplaceCrashes`) |
| Store.TotalPrice | LittleLemon/LittleLemonAPI/views.py:204-209 | the loop's sum equals the cart total of the lines |
| Store.Database.CartOf | LittleLemon/LittleLemonAPI/views.py:128-129 | exactly the caller's lines; with the other users' lines it makes up the table |
| Store.Database.AddCartLine | LittleLemon/LittleLemonAPI/views.py:119-126 | rejected (and the cart unchanged) iff `menu_id` is missing or unknown, with the required field's own message when it is missing (serializers.py:31) and "Menu item not found" when it is unknown; otherwise the line for the caller and the requested menu item, priced at quantity × catalog price, is appended and nothing else changes |
| Store.Database.ClearCart | LittleLemon/LittleLemonAPI/views.py:131-133 | the cart becomes the table without the caller's lines, and no other table changes |
| Store.Database.CreateOrder | LittleLemon/LittleLemonAPI/views.py:202-242 | an empty cart changes nothing; otherwise one new order with an id no order or item uses yet, the caller, no crew, status false, today's date and the caller's cart total; one order item per cart line is appended and the caller's lines are deleted (`Ledger.OrderLedger` gives the consequences) |
| Store.Database.InsertOrder | LittleLemon/LittleLemonAPI/views.py:225-226 | the new order gets the next id, unused by any existing order or order item, and is appended |
| Store.Database.SaveOrderItems | LittleLemon/LittleLemonAPI/views.py:228-238 | the loop appends exactly `ItemsFor` of the lines |
| Store.Database.PatchOrder | LittleLemon/LittleLemonAPI/views.py:140-167 | answers as `HandlePatch`; the order is replaced only on success and no other table changes |
| Store.Database.ReplaceOrder | LittleLemon/LittleLemonAPI/views.py:140-152 | answers as `HandlePut`, which uses the corrected `Update`; the order is replaced only on success and no other table changes |
| GroupAdmin.UserDirectory.Members | LittleLemon/LittleLemonAPI/views.py:73-76 | the ids of the accounts whose groups contain g, and no other ids |
| GroupAdmin.UserDirectory.AddMember | LittleLemon/LittleLemonAPI/views.py:63-71 | denied iff `IsManager` fails for the calling account as the directory holds it; not found iff no user has the name; otherwise the user is in the group afterwards, already-member iff they were before (then nothing changes), and no other account changes |
| GroupAdmin.UserDirectory.RemoveMember | LittleLemon/LittleLemonAPI/views.py:78-86 | denied iff `IsManager` fails for the calling account as the directory holds it; not found iff the id is unknown; not-member iff the user is outside the group (nothing changes); otherwise the user leaves the group and no other account changes |

`AddMember` and `RemoveMember` model both `GroupsManagerView` (`views.py:63-86`) and
`GroupsDeliveryCrewView` (`views.py:94-117`). The group is a parameter.

## Left out

- HTTP status codes and response messages are reduced to outcome kinds (`Outcome`, `MembershipOutcome`, `CreateOutcome`). Both a missing login (401) and a denied permission (403) are `Forbidden`.
- Throttling, search, ordering and pagination are framework behaviour and are not modelled. Throttling can refuse any request with 429 whatever the caller's role, and the search and ordering filters act on the listing's queryset (see the second Findings row).
- Field-level serializer validation is not modelled: types, required fields on a full PUT, and the `max_digits=6` bound on prices.
- The "something failed" branch of `OrderView.create` (`views.py:244-246`) is not modelled. On POST every order column the client could send is read-only, so only malformed framework input reaches that branch.
- The menu and category handlers (list, create, retrieve, update, destroy) are left to the framework. Only their permission rules are modelled. `CategorySerializer`'s slug uses `slugify`, which is not part of this model.
- The body of `SingleOrderView.destroy` is the framework's. Only its permission rule (PUT and DELETE need `IsManager`) is modelled.
- The group views' `get` is reduced to `UserDirectory.Members`: the ids of the members, not the `UserSerilializer` fields (username, email).
- A request without a "username" key raises `KeyError` in the group views' `post`, and a missing "Manager" or "Delivery crew" group row raises in `Group.objects.get`. The model assumes both groups exist and that the name is given.
- `timezone.now()` is the parameter `today`. The database, its transactions and concurrent requests are not modelled. Rows are sequences, and ids of cart lines and order items are not kept.
- The `print` calls of the source are diagnostic output.

## Findings

| source | as written | input that shows it | evidently intended | confidence | as-written member | corrected member |
|---|---|---|---|---|---|---|
| LittleLemon/LittleLemonAPI/views.py:148-152 | `update` reads `args[0]` whenever the caller is not in "Manager"; the URL passes `pk` by keyword, so a PUT has no positional argument and the handler raises `IndexError` (a 500) | a superuser in no group sends PUT: `IsManager` admits them, then `update` crashes | a caller outside "Manager" without the crew flag is forbidden | high (not executed) | OrderRules.UpdateAsWritten (shown by OrderRules.SuperuserReplaceCrashes) | OrderRules.Update |
| LittleLemon/LittleLemonAPI/views.py:193-200 | `get_queryset` falls through and returns `None` for a caller in some group that is neither "Manager" nor "Delivery crew" and not a superuser; the list view then answers `[]` or a 500, depending on the pagination and filter-backend settings, which are not part of this model, and on the query parameters | a user whose only group is "Waiter" lists orders | such a caller sees their own orders, as a caller without groups does | medium (not executed) | OrderRules.ListOrdersAsWritten (shown by OrderRules.RolelessGroupGetsNoQueryset) | OrderRules.ListOrders |
