/** The two role checks of the API (`IsManager` and `IsEmployee`). The request's user is
    `None` when nobody is logged in. */
module Permissions {
  import opened Models

  /** `IsManager.has_permission`: a user is present and is in the "Manager" group or is a
      superuser. */
  function IsManager(user: Option<Principal>): (r: bool)
    ensures r ==> user.Some?
    ensures r ==> IsEmployee(user)
    ensures user.Some? && user.value.groups == {} && !user.value.isSuperuser ==> !r
  {
    user.Some? && (Manager in user.value.groups || user.value.isSuperuser)
  }

  /** `IsEmployee.has_permission`: a user is present and is in "Manager", is a superuser,
      or is in "Delivery crew". */
  function IsEmployee(user: Option<Principal>): (r: bool)
    ensures r ==> user.Some?
    ensures user.Some? && DeliveryCrew in user.value.groups ==> r
    ensures user.Some? && user.value.groups == {} && !user.value.isSuperuser ==> !r
  {
    user.Some? && (Manager in user.value.groups || user.value.isSuperuser || DeliveryCrew in user.value.groups)
  }

  /** A delivery-crew member who is neither a manager nor a superuser is an employee but
      not a manager. */
  lemma CrewIsEmployeeNotManager(p: Principal)
    requires DeliveryCrew in p.groups && Manager !in p.groups && !p.isSuperuser
    ensures IsEmployee(Some(p)) && !IsManager(Some(p))
  {
  }
}
