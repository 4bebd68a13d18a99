/** The user table and its group memberships, as `GroupsManagerView` and
    `GroupsDeliveryCrewView` change them. Both views do the same thing for their own group,
    so one pair of methods takes the group as a parameter. */
module GroupAdmin {
  import opened Models
  import opened ViewAccess

  datatype Account = Account(username: string, groups: set<Group>, isSuperuser: bool)

  datatype MembershipOutcome = Denied | UserNotFound | AlreadyMember | Added | NotMember | Removed

  /** The account `id` with its groups changed to `groups`. */
  function WithGroups(accounts: map<UserId, Account>, id: UserId, groups: set<Group>): map<UserId, Account>
    requires id in accounts
  {
    accounts[id := accounts[id].(groups := groups)]
  }

  class UserDirectory {
    var accounts: map<UserId, Account>

    /** User names are unique. */
    ghost predicate Valid()
      reads this
    {
      forall i, j :: i in accounts && j in accounts && accounts[i].username == accounts[j].username ==> i == j
    }

    constructor (initial: map<UserId, Account>)
      requires forall i, j :: i in initial && j in initial && initial[i].username == initial[j].username ==> i == j
      ensures Valid() && accounts == initial
    {
      accounts := initial;
    }

    /** The members of a group (what the views' `get` lists). */
    function Members(g: Group): (r: set<UserId>)
      reads this
      ensures r <= accounts.Keys
      ensures forall id :: id in accounts ==> (id in r <==> g in accounts[id].groups)
    {
      set id | id in accounts && g in accounts[id].groups
    }

    /** The caller as the permission classes see it. */
    function PrincipalOf(id: UserId): (p: Principal)
      reads this
      requires id in accounts
      ensures p.id == id && p.groups == accounts[id].groups && p.isSuperuser == accounts[id].isSuperuser
    {
      Principal(id, accounts[id].groups, accounts[id].isSuperuser)
    }

    /** The request's user as the permission classes see it: nobody, or the account
        `caller` of this directory. */
    function Requester(caller: Option<UserId>): Option<Principal>
      reads this
      requires caller.Some? ==> caller.value in accounts
    {
      if caller.None? then None else Some(PrincipalOf(caller.value))
    }

    /** `post`: a manager or superuser adds the user called `username` to group `g`. An
        unknown name is not found; a user already in the group is left as it is; otherwise
        the user joins. No other account changes. */
    method AddMember(caller: Option<UserId>, g: Group, username: string) returns (r: MembershipOutcome)
      requires Valid()
      requires caller.Some? ==> caller.value in accounts
      modifies this
      ensures Valid()
      ensures accounts.Keys == old(accounts).Keys
      ensures r == Denied <==> !Admits(StaffAdminPermissions(), old(Requester(caller)))
      ensures r == UserNotFound <==>
        Admits(StaffAdminPermissions(), old(Requester(caller))) && forall id :: id in old(accounts) ==> old(accounts)[id].username != username
      ensures r == Added || r == AlreadyMember || r == Denied || r == UserNotFound
      ensures r == AlreadyMember || r == Added ==>
        exists id :: id in old(accounts) && old(accounts)[id].username == username
          && (r == AlreadyMember <==> g in old(accounts)[id].groups)
          && accounts == WithGroups(old(accounts), id, old(accounts)[id].groups + {g})
          && Members(g) == old(Members(g)) + {id}
      ensures r != Added ==> accounts == old(accounts)
    {
      if !Admits(StaffAdminPermissions(), Requester(caller)) {
        return Denied;
      }
      if forall id :: id in accounts ==> accounts[id].username != username {
        return UserNotFound;
      }
      var id :| id in accounts && accounts[id].username == username;
      if g in accounts[id].groups {
        assert accounts[id].groups + {g} == accounts[id].groups;
        assert accounts[id].(groups := accounts[id].groups) == accounts[id];
        assert accounts == WithGroups(accounts, id, accounts[id].groups + {g});
        return AlreadyMember;
      }
      accounts := WithGroups(accounts, id, accounts[id].groups + {g});
      r := Added;
    }

    /** `delete`: a manager or superuser removes the user with id `id` from group `g`. An
        unknown id is not found; a user outside the group is left as it is; otherwise the
        user leaves. No other account changes. */
    method RemoveMember(caller: Option<UserId>, g: Group, id: UserId) returns (r: MembershipOutcome)
      requires Valid()
      requires caller.Some? ==> caller.value in accounts
      modifies this
      ensures Valid()
      ensures accounts.Keys == old(accounts).Keys
      ensures r == Denied <==> !Admits(StaffAdminPermissions(), old(Requester(caller)))
      ensures r == UserNotFound <==> Admits(StaffAdminPermissions(), old(Requester(caller))) && id !in old(accounts)
      ensures r == NotMember <==>
        Admits(StaffAdminPermissions(), old(Requester(caller))) && id in old(accounts) && g !in old(accounts)[id].groups
      ensures r == Removed <==>
        Admits(StaffAdminPermissions(), old(Requester(caller))) && id in old(accounts) && g in old(accounts)[id].groups
      ensures r == Removed ==>
        && accounts == WithGroups(old(accounts), id, old(accounts)[id].groups - {g})
        && Members(g) == old(Members(g)) - {id}
      ensures r != Removed ==> accounts == old(accounts)
    {
      if !Admits(StaffAdminPermissions(), Requester(caller)) {
        return Denied;
      }
      if id !in accounts {
        return UserNotFound;
      }
      if g !in accounts[id].groups {
        return NotMember;
      }
      accounts := WithGroups(accounts, id, accounts[id].groups - {g});
      r := Removed;
    }
  }
}
