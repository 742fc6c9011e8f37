// Rows of the IAM app (users, groups, memberships) and the filters applied by
// their default managers, which hide soft-deleted rows.
module IamRows {
  import opened Common

  /** A stored password: a hash of some raw text, or the unusable marker. Hashing itself is not modelled. */
  datatype Password = Unusable | HashOf(raw: string)

  datatype User = User(
    username: string,
    uid: Option<nat>,
    firstName: string,
    lastName: string,
    email: string,
    isActive: bool,
    isStaff: bool,
    isSuperuser: bool,
    homeDirectory: string,
    shell: string,
    isLdapUser: bool,
    password: Password,
    deletedAt: Option<Time>)

  datatype Group = Group(name: string, displayName: string, gid: Option<nat>, isLdapGroup: bool, deletedAt: Option<Time>)

  datatype Role = Member | Manager | Owner

  datatype Membership = Membership(group: Id, user: Id, role: Role, deletedAt: Option<Time>)

  const DEFAULT_GROUP_NAME: string := "alpacon"
  const DEFAULT_SHELL: string := "/bin/bash"

  /** Automatic uids and gids start right above this floor. */
  const ID_FLOOR: nat := 1999

  /** What `User.objects` shows. */
  predicate VisibleUser(users: map<Id, User>, k: Id)
  {
    k in users && users[k].deletedAt.None?
  }

  /** What `Group.objects` shows. */
  predicate VisibleGroup(groups: map<Id, Group>, k: Id)
  {
    k in groups && groups[k].deletedAt.None?
  }

  /** What `Membership.objects` shows: live rows whose user and group are both live. */
  predicate VisibleMembership(ms: map<Id, Membership>, users: map<Id, User>, groups: map<Id, Group>, k: Id)
  {
    k in ms && ms[k].deletedAt.None? && VisibleUser(users, ms[k].user) && VisibleGroup(groups, ms[k].group)
  }

  /** The visible memberships of `group` with role `role`. */
  function MembersWithRole(ms: map<Id, Membership>, users: map<Id, User>, groups: map<Id, Group>, group: Id, role: Role): (r: set<Id>)
    ensures forall k :: k in r <==> VisibleMembership(ms, users, groups, k) && ms[k].group == group && ms[k].role == role
  {
    set k | k in ms && VisibleMembership(ms, users, groups, k) && ms[k].group == group && ms[k].role == role
  }

  /** The visible users with the superuser flag. */
  function Superusers(users: map<Id, User>): (r: set<Id>)
    ensures forall k :: k in r <==> VisibleUser(users, k) && users[k].isSuperuser
  {
    set k | k in users && VisibleUser(users, k) && users[k].isSuperuser
  }

  /** The role `user` holds in `group` through a visible membership, if any. */
  predicate HasRole(ms: map<Id, Membership>, users: map<Id, User>, groups: map<Id, Group>, user: Id, group: Id, roles: set<Role>)
  {
    exists k :: k in ms && VisibleMembership(ms, users, groups, k) && ms[k].user == user && ms[k].group == group && ms[k].role in roles
  }

  /** The database's unique constraint on uid (absent uids never clash). */
  predicate UidsUnique(users: map<Id, User>)
  {
    forall a, b :: a in users && b in users && a != b && users[a].uid.Some? ==> users[a].uid != users[b].uid
  }

  predicate GidsUnique(groups: map<Id, Group>)
  {
    forall a, b :: a in groups && b in groups && a != b && groups[a].gid.Some? ==> groups[a].gid != groups[b].gid
  }

  /** The database's unique constraint on (user, group) of memberships. */
  predicate MembershipsUnique(ms: map<Id, Membership>)
  {
    forall a, b :: a in ms && b in ms && a != b ==> ms[a].user != ms[b].user || ms[a].group != ms[b].group
  }

  /** A set with more than one element holds one besides any given element. */
  lemma OtherElement<T>(s: set<T>, a: T)
    requires a in s && |s| > 1
    ensures exists b :: b in s && b != a
  {
    var rest := s - {a};
    assert |rest| == |s| - 1;
    var b :| b in rest;
  }
}
