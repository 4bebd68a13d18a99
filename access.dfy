/** The `get_permissions` of each view: the list of permission classes a request must pass
    before its handler runs. A request is admitted when every class in the list holds. */
module ViewAccess {
  import opened Models
  import opened Permissions

  datatype PermissionClass = IsAuthenticatedClass | IsManagerClass | IsEmployeeClass

  function HasPermission(c: PermissionClass, user: Option<Principal>): bool {
    match c
    case IsAuthenticatedClass => user.Some?
    case IsManagerClass => IsManager(user)
    case IsEmployeeClass => IsEmployee(user)
  }

  /** Every permission class in the list holds for the user, checked front to back as
      the framework's permission check does. */
  predicate Admits(perms: seq<PermissionClass>, user: Option<Principal>) {
    perms == [] || (HasPermission(perms[0], user) && Admits(perms[1..], user))
  }

  /** Appending permission classes to a list admits exactly the users both parts admit. */
  lemma {:induction false} AdmitsAppend(a: seq<PermissionClass>, b: seq<PermissionClass>, user: Option<Principal>)
    ensures Admits(a + b, user) <==> Admits(a, user) && Admits(b, user)
  {
    if a != [] {
      assert (a + b)[1..] == a[1..] + b;
      AdmitsAppend(a[1..], b, user);
    } else {
      assert a + b == b;
    }
  }

  lemma AdmitsPair(a: PermissionClass, b: PermissionClass)
    ensures forall user :: Admits([a, b], user) <==> HasPermission(a, user) && HasPermission(b, user)
  {
    forall user ensures Admits([a, b], user) <==> HasPermission(a, user) && HasPermission(b, user) {
      assert [a, b] == [a] + [b];
      AdmitsAppend([a], [b], user);
    }
  }

  /** `CategoriesView`: reads are open to anyone, writes need a logged-in user. */
  function CategoryPermissions(m: HttpMethod): (r: seq<PermissionClass>)
    ensures forall user :: Admits(r, user) <==> m == GET || user.Some?
  {
    if m != GET then [IsAuthenticatedClass] else []
  }

  /** `MenuItemsView` and `SingleMenuItemView`: reads are open to anyone, writes need a
      manager or superuser. */
  function MenuItemPermissions(m: HttpMethod): (r: seq<PermissionClass>)
    ensures forall user :: Admits(r, user) <==> m == GET || IsManager(user)
  {
    AdmitsPair(IsAuthenticatedClass, IsManagerClass);
    if m != GET then [IsAuthenticatedClass, IsManagerClass] else []
  }

  /** `GroupsManagerView` and `GroupsDeliveryCrewView`: every method needs a manager or
      superuser. */
  function StaffAdminPermissions(): (r: seq<PermissionClass>)
    ensures forall user :: Admits(r, user) <==> IsManager(user)
  {
    AdmitsPair(IsAuthenticatedClass, IsManagerClass);
    [IsAuthenticatedClass, IsManagerClass]
  }

  /** `CartView` and `OrderView`: every method needs a logged-in user. */
  function LoggedInPermissions(): (r: seq<PermissionClass>)
    ensures forall user :: Admits(r, user) <==> user.Some?
  {
    [IsAuthenticatedClass]
  }

  /** Who may call each method on a single order: anyone logged in may read it; a
      manager or superuser may replace or delete it; any other method needs an employee. */
  predicate SingleOrderAdmits(m: HttpMethod, user: Option<Principal>) {
    match m
    case GET => user.Some?
    case PUT => IsManager(user)
    case DELETE => IsManager(user)
    case _ => IsEmployee(user)
  }

  /** `SingleOrderView.get_permissions`: starts from `IsAuthenticated` and appends
      `IsEmployee` for every method but GET and `IsManager` for DELETE and PUT. */
  method SingleOrderPermissions(m: HttpMethod) returns (perms: seq<PermissionClass>)
    ensures |perms| > 0 && perms[0] == IsAuthenticatedClass
    ensures IsEmployeeClass in perms <==> m != GET
    ensures IsManagerClass in perms <==> m == DELETE || m == PUT
    ensures forall user :: Admits(perms, user) <==> SingleOrderAdmits(m, user)
  {
    perms := [IsAuthenticatedClass];
    if m != GET {
      perms := perms + [IsEmployeeClass];
    }
    if m == DELETE || m == PUT {
      perms := perms + [IsManagerClass];
    }
    forall user ensures Admits(perms, user) <==> SingleOrderAdmits(m, user) {
      if m != GET {
        AdmitsAppend([IsAuthenticatedClass], [IsEmployeeClass], user);
        if m == DELETE || m == PUT {
          AdmitsAppend([IsAuthenticatedClass] + [IsEmployeeClass], [IsManagerClass], user);
        }
      }
    }
  }
}
