// The object permissions of the IAM API: who may create, change or delete
// users, groups and memberships, judged from the request's user and the
// roles held through visible memberships.
module IamPermissions {
  import opened Common
  import opened Permissions
  import opened IamRows

  /** The requester holds one of `roles` in `group` through a visible membership; anonymous requests hold none. */
  predicate RequesterHasRole(ms: map<Id, Membership>, users: map<Id, User>, groups: map<Id, Group>,
                             u: RequestUser, group: Id, roles: set<Role>)
  {
    u.Person? && HasRole(ms, users, groups, u.pk, group, roles)
  }

  /** The roles that may add, change or remove a membership holding `target`: managers handle members, only owners handle the rest. */
  function RolesToManage(target: Role): (r: set<Role>)
    ensures Owner in r
    ensures Manager in r <==> target == Member
  {
    if target == Member then {Manager, Owner} else {Owner}
  }

  // ----- users -----

  /** `UserObjectPermission.has_permission`. */
  predicate UserHasPermission(u: RequestUser, m: HttpMethod)
  {
    Authenticated(u) && (m == POST ==> Staff(u) || Superuser(u))
  }

  /** `UserObjectPermission.has_object_permission` for the user row `obj`. */
  predicate UserObjectAllowed(u: RequestUser, m: HttpMethod, obj: Id)
  {
    Safe(m) || Staff(u) || Superuser(u) || Pk(u) == Some(obj)
  }

  /**
   * Reading is open to every authenticated caller; creating needs the staff
   * or superuser flag; an ordinary user may change or delete only their own
   * row.
   */
  lemma UserAccessRules(u: RequestUser, m: HttpMethod, obj: Id)
    ensures !Authenticated(u) ==> !UserHasPermission(u, m)
    ensures UserHasPermission(u, POST) <==> u.Person? && (u.isStaff || u.isSuperuser)
    ensures Authenticated(u) && m != POST ==> UserHasPermission(u, m)
    ensures u.Person? && !u.isStaff && !u.isSuperuser && !Safe(m) ==> (UserObjectAllowed(u, m, obj) <==> obj == u.pk)
  {
  }

  // ----- groups -----

  /** `GroupObjectPermission.has_permission`: the same rule as for users. */
  predicate GroupHasPermission(u: RequestUser, m: HttpMethod)
  {
    Authenticated(u) && (m == POST ==> Staff(u) || Superuser(u))
  }

  /** `GroupObjectPermission.has_object_permission` for the group `group`. */
  predicate GroupObjectAllowed(ms: map<Id, Membership>, users: map<Id, User>, groups: map<Id, Group>,
                               u: RequestUser, m: HttpMethod, group: Id)
  {
    if Superuser(u) then true
    else if m == DELETE then RequesterHasRole(ms, users, groups, u, group, {Owner})
    else if m == PUT || m == PATCH then RequesterHasRole(ms, users, groups, u, group, {Manager, Owner})
    else true
  }

  /**
   * Outside the superuser, deleting a group takes its owner and changing it
   * a manager or owner; a manager who is not an owner may change the group
   * but not delete it, and every other method is let through.
   */
  lemma GroupAccessRules(ms: map<Id, Membership>, users: map<Id, User>, groups: map<Id, Group>,
                         u: RequestUser, m: HttpMethod, group: Id)
    ensures !Superuser(u) ==>
      (GroupObjectAllowed(ms, users, groups, u, DELETE, group) <==> RequesterHasRole(ms, users, groups, u, group, {Owner}))
    ensures RequesterHasRole(ms, users, groups, u, group, {Manager}) ==> GroupObjectAllowed(ms, users, groups, u, PATCH, group)
    ensures !Superuser(u) && RequesterHasRole(ms, users, groups, u, group, {Manager}) &&
            !RequesterHasRole(ms, users, groups, u, group, {Owner}) ==>
      GroupObjectAllowed(ms, users, groups, u, PUT, group) && !GroupObjectAllowed(ms, users, groups, u, DELETE, group)
    ensures m != DELETE && m != PUT && m != PATCH ==> GroupObjectAllowed(ms, users, groups, u, m, group)
  {
    if RequesterHasRole(ms, users, groups, u, group, {Manager}) {
      var k :| k in ms && VisibleMembership(ms, users, groups, k) && ms[k].user == u.pk && ms[k].group == group && ms[k].role in {Manager};
      assert ms[k].role in {Manager, Owner};
    }
  }

  /**
   * A role counts only through a membership that is itself live and whose
   * user and group are live: a soft-deleted membership, or one of a
   * retired user, grants nothing.
   */
  lemma RetiredMembershipsGrantNothing(ms: map<Id, Membership>, users: map<Id, User>, groups: map<Id, Group>,
                                       u: RequestUser, group: Id, roles: set<Role>)
    requires u.Person? && (u.pk !in users || users[u.pk].deletedAt.Some?)
    ensures !RequesterHasRole(ms, users, groups, u, group, roles)
  {
  }

  // ----- memberships -----

  /** `MembershipObjectPermission.has_permission`. */
  predicate MembershipHasPermission(u: RequestUser)
  {
    Authenticated(u)
  }

  /** `MembershipObjectPermission.has_object_permission` for the membership row `k`. */
  predicate MembershipObjectAllowed(ms: map<Id, Membership>, users: map<Id, User>, groups: map<Id, Group>,
                                    u: RequestUser, m: HttpMethod, k: Id)
    requires k in ms
  {
    Safe(m) || Superuser(u) || Pk(u) == Some(ms[k].user) ||
    RequesterHasRole(ms, users, groups, u, ms[k].group, RolesToManage(ms[k].role))
  }

  /**
   * Anyone may leave a group or change their own membership; a group's
   * owner may act on every membership of it, a manager only on the plain
   * members' ones.
   */
  lemma MembershipAccessRules(ms: map<Id, Membership>, users: map<Id, User>, groups: map<Id, Group>,
                              u: RequestUser, m: HttpMethod, k: Id)
    requires k in ms
    ensures u.Person? && u.pk == ms[k].user ==> MembershipObjectAllowed(ms, users, groups, u, m, k)
    ensures RequesterHasRole(ms, users, groups, u, ms[k].group, {Owner}) ==> MembershipObjectAllowed(ms, users, groups, u, m, k)
    ensures !Safe(m) && !Superuser(u) && Pk(u) != Some(ms[k].user) && ms[k].role != Member ==>
      (MembershipObjectAllowed(ms, users, groups, u, m, k) <==> RequesterHasRole(ms, users, groups, u, ms[k].group, {Owner}))
  {
    if RequesterHasRole(ms, users, groups, u, ms[k].group, {Owner}) {
      var j :| j in ms && VisibleMembership(ms, users, groups, j) && ms[j].user == u.pk && ms[j].group == ms[k].group && ms[j].role in {Owner};
      assert ms[j].role in RolesToManage(ms[k].role);
    }
  }
}
