// The group and membership endpoints of the IAM API: the creator of a group
// becomes its owner, the default group can be neither deleted nor have its
// memberships created or removed, and no change through these endpoints
// leaves a group that had an owner without one.
module IamGroups {
  import opened Common
  import opened Permissions
  import opened IamRows
  import opened ProcRows
  import opened Store
  import opened IamValidation
  import opened IamAccounts
  import opened IamPermissions
  import opened IamUsers

  const GROUP_NAME_MAX_LENGTH: nat := 128
  const DISPLAY_NAME_MAX_LENGTH: nat := 128
  const GROUP_NAME_TAKEN: string := "group with this name already exists."
  const INVALID_SLUG: string := "Enter a valid \"slug\" consisting of letters, numbers, underscores or hyphens."
  const DEFAULT_GROUP_KEPT: string := "Default group \"alpacon\" cannot be removed."
  const NOT_UNIQUE_MEMBERSHIP: string := "The fields user, group must make a unique set."
  const NEEDS_HIGHER_PRIVILEGE: string := "Requires higher privilege."
  const NEEDS_GROUP_OWNER: string := "Requires group owner."
  const SOLE_OWNER: string := "This user is the only owner of the group. Add another owner to proceed."

  /** The owners of `group` as the membership manager shows them. */
  function Owners(ms: map<Id, Membership>, users: map<Id, User>, groups: map<Id, Group>, group: Id): set<Id>
  {
    MembersWithRole(ms, users, groups, group, Owner)
  }

  // ----- group create -----

  predicate IsSlugChar(c: char)
  {
    'a' <= c <= 'z' || 'A' <= c <= 'Z' || '0' <= c <= '9' || c == '_' || c == '-'
  }

  /** DRF's slug pattern `^[-a-zA-Z0-9_]+$`, whose `$` also accepts one final newline. */
  predicate MatchesSlugPattern(s: string)
  {
    var body := if |s| >= 2 && s[|s| - 1] == '\n' then s[..|s| - 1] else s;
    |body| >= 1 && forall i :: 0 <= i < |body| ==> IsSlugChar(body[i])
  }

  /** A visible group already holds the name (the `UniqueValidator` over `Group.objects`). */
  predicate GroupNameTaken(groups: map<Id, Group>, name: string)
  {
    exists k :: k in groups && VisibleGroup(groups, k) && groups[k].name == name
  }

  /** The name field of `GroupSerializer`: not blank, unique, at most 128 characters, a slug, then `validate_name`. */
  function GroupNameField(groups: map<Id, Group>, systemUsers: map<Id, SystemUser>, systemGroups: map<Id, SystemGroup>,
                          value: string): (r: Result<string, Failure>)
    ensures r.Ok? <==>
      value != "" && !GroupNameTaken(groups, value) && |value| <= GROUP_NAME_MAX_LENGTH && MatchesSlugPattern(value) &&
      ValidateGroupName(value, systemUsers, systemGroups).Ok?
    ensures r.Ok? ==> r.value == value
  {
    if value == "" then Err(ValidationError(FIELD_BLANK))
    else if GroupNameTaken(groups, value) then Err(ValidationError(GROUP_NAME_TAKEN))
    else if |value| > GROUP_NAME_MAX_LENGTH then Err(ValidationError(TooLong(GROUP_NAME_MAX_LENGTH)))
    else if !MatchesSlugPattern(value) then Err(ValidationError(INVALID_SLUG))
    else ValidateGroupName(value, systemUsers, systemGroups)
  }

  /** Every name `validate_name` accepts is also a slug, so the slug check never decides alone. */
  lemma {:induction false} AcceptedGroupNamesAreSlugs(value: string, systemUsers: map<Id, SystemUser>, systemGroups: map<Id, SystemGroup>)
    requires ValidateGroupName(value, systemUsers, systemGroups).Ok?
    ensures MatchesSlugPattern(value)
  {
    GroupNamesFollowUsernameRules(value, systemUsers, systemGroups);
    AcceptedNamesAreUnixSafe(value, systemUsers, systemGroups);
    var body := if |value| >= 2 && value[|value| - 1] == '\n' then value[..|value| - 1] else value;
    forall i | 0 <= i < |body| ensures IsSlugChar(body[i]) {
      assert body[i] == value[i];
    }
  }

  /** The display-name field: required text of at most 128 characters. */
  function DisplayNameField(value: string): (r: Result<string, Failure>)
    ensures r.Ok? <==> value != "" && |value| <= DISPLAY_NAME_MAX_LENGTH
    ensures r.Ok? ==> r.value == value
  {
    if value == "" then Err(ValidationError(FIELD_BLANK))
    else if |value| > DISPLAY_NAME_MAX_LENGTH then Err(ValidationError(TooLong(DISPLAY_NAME_MAX_LENGTH)))
    else Ok(value)
  }

  datatype NewGroup = NewGroup(name: string, displayName: string)

  /** Everything `POST /groups/` checks before saving: the permission class, then the name and display-name fields. */
  function GroupAdmission(t: IamTables, systemUsers: map<Id, SystemUser>, systemGroups: map<Id, SystemGroup>,
                          who: Option<Id>, f: NewGroup): (r: Result<Group, Failure>)
    requires who.Some? ==> VisibleUser(t.users, who.value)
    ensures r.Ok? ==> who.Some? && (t.users[who.value].isStaff || t.users[who.value].isSuperuser)
    ensures r.Ok? ==> r.value == Group(f.name, f.displayName, None, false, None)
  {
    var u := Requester(t.users, who);
    if !GroupHasPermission(u, POST) then Err(Refused(u))
    else match GroupNameField(t.groups, systemUsers, systemGroups, f.name)
      case Err(e) => Err(e)
      case Ok(_) =>
        match DisplayNameField(f.displayName)
        case Err(e) => Err(e)
        case Ok(_) => Ok(Group(f.name, f.displayName, None, false, None))
  }

  /** `POST /groups/`: the checks, `Group.save`, then an owner membership for the requester. */
  function GroupCreated(t: IamTables, systemUsers: map<Id, SystemUser>, systemGroups: map<Id, SystemGroup>,
                        who: Option<Id>, f: NewGroup, groupKey: Id, membershipKey: Id): Result<IamTables, Failure>
    requires who.Some? ==> VisibleUser(t.users, who.value)
  {
    match GroupAdmission(t, systemUsers, systemGroups, who, f)
    case Err(e) => Err(e)
    case Ok(row) =>
      match GroupSaved(t.groups, groupKey, row)
      case Err(e) => Err(e)
      case Ok(groups) => Ok(t.(groups := groups, memberships := t.memberships[membershipKey := Membership(groupKey, who.value, Owner, None)]))
  }

  /** Every membership refers to a stored group (the foreign key). */
  predicate GroupsExist(t: IamTables)
  {
    forall k :: k in t.memberships ==> t.memberships[k].group in t.groups
  }

  /**
   * A new group has exactly one owner, its creator, who holds the staff or
   * superuser flag; the group is visible under the requested name.
   */
  lemma {:induction false} CreatorOwnsNewGroup(t: IamTables, systemUsers: map<Id, SystemUser>, systemGroups: map<Id, SystemGroup>,
                                               who: Option<Id>, f: NewGroup, groupKey: Id, membershipKey: Id)
    requires who.Some? ==> VisibleUser(t.users, who.value)
    requires GroupsExist(t) && groupKey !in t.groups && membershipKey !in t.memberships
    requires GroupCreated(t, systemUsers, systemGroups, who, f, groupKey, membershipKey).Ok?
    ensures var after := GroupCreated(t, systemUsers, systemGroups, who, f, groupKey, membershipKey).value;
      who.Some? && (t.users[who.value].isStaff || t.users[who.value].isSuperuser) &&
      VisibleGroup(after.groups, groupKey) && after.groups[groupKey].name == f.name &&
      Owners(after.memberships, after.users, after.groups, groupKey) == {membershipKey} &&
      after.memberships[membershipKey].user == who.value
  {
    var row := GroupAdmission(t, systemUsers, systemGroups, who, f).value;
    var after := GroupCreated(t, systemUsers, systemGroups, who, f, groupKey, membershipKey).value;
    assert after.groups == GroupSaved(t.groups, groupKey, row).value;
    var owners := Owners(after.memberships, after.users, after.groups, groupKey);
    forall k | k in t.memberships ensures k !in owners {
      assert t.memberships[k].group in t.groups;
    }
    assert membershipKey in owners;
  }

  /** `POST /groups/`. */
  method CreateGroup(db: Db, who: Option<Id>, f: NewGroup, groupKey: Id, membershipKey: Id) returns (r: Result<Id, Failure>)
    requires who.Some? ==> VisibleUser(db.users, who.value)
    modifies db`groups, db`memberships
    ensures var s := GroupCreated(IamTables(db.users, old(db.groups), old(db.memberships)), db.systemUsers, db.systemGroups,
                                  who, f, groupKey, membershipKey);
      (r.Ok? <==> s.Ok?) && (r.Ok? ==> r.value == groupKey) &&
      (s.Ok? ==> db.groups == s.value.groups && db.memberships == s.value.memberships) &&
      (s.Err? ==> r.error == s.error && db.groups == old(db.groups) && db.memberships == old(db.memberships))
  {
    var admitted := GroupAdmission(IamTables(db.users, db.groups, db.memberships), db.systemUsers, db.systemGroups, who, f);
    if admitted.Err? {
      return Err(admitted.error);
    }
    var saved := SaveGroup(db, groupKey, admitted.value);
    if saved.Err? {
      return Err(saved.error);
    }
    db.memberships := db.memberships[membershipKey := Membership(groupKey, who.value, Owner, None)];
    r := Ok(groupKey);
  }

  // ----- group update and delete -----

  /**
   * `PUT`/`PATCH /groups/<id>/` with the display name (name and gid are
   * read-only): the permission classes, the display-name field, `Group.save`.
   */
  function GroupUpdate(t: IamTables, who: Option<Id>, k: Id, displayName: Option<string>, partial: bool): (r: Result<map<Id, Group>, Failure>)
    requires who.Some? ==> VisibleUser(t.users, who.value)
    ensures r.Ok? ==>
      VisibleGroup(t.groups, k) &&
      (Superuser(Requester(t.users, who)) || RequesterHasRole(t.memberships, t.users, t.groups, Requester(t.users, who), k, {Manager, Owner}))
  {
    var u := Requester(t.users, who);
    var m := if partial then PATCH else PUT;
    if !GroupHasPermission(u, m) then Err(Refused(u))
    else if !VisibleGroup(t.groups, k) then Err(DoesNotExist)
    else if !GroupObjectAllowed(t.memberships, t.users, t.groups, u, m, k) then Err(Refused(u))
    else if displayName.None? && !partial then Err(ValidationError(FIELD_REQUIRED))
    else
      var checked := if displayName.Some? then DisplayNameField(displayName.value) else Ok("");
      if checked.Err? then Err(checked.error)
      else GroupSaved(t.groups, k, t.groups[k].(displayName := Or(displayName, t.groups[k].displayName)))
  }

  /** `PUT`/`PATCH /groups/<id>/`. */
  method UpdateGroup(db: Db, who: Option<Id>, k: Id, displayName: Option<string>, partial: bool) returns (r: Result<(), Failure>)
    requires who.Some? ==> VisibleUser(db.users, who.value)
    modifies db`groups
    ensures var s := GroupUpdate(IamTables(db.users, old(db.groups), db.memberships), who, k, displayName, partial);
      (r.Ok? <==> s.Ok?) && (s.Ok? ==> db.groups == s.value) && (s.Err? ==> r.error == s.error && db.groups == old(db.groups))
  {
    var s := GroupUpdate(IamTables(db.users, db.groups, db.memberships), who, k, displayName, partial);
    if s.Err? {
      return Err(s.error);
    }
    db.groups := s.value;
    r := Ok(());
  }

  /**
   * `DELETE /groups/<id>/` up to `Group.delete`: the permission classes,
   * then `perform_destroy`'s refusal for the default group.
   */
  function GroupRemoval(t: IamTables, who: Option<Id>, k: Id): (r: Result<Id, Failure>)
    requires who.Some? ==> VisibleUser(t.users, who.value)
    ensures r.Ok? ==> r.value == k && VisibleGroup(t.groups, k) && t.groups[k].name != DEFAULT_GROUP_NAME
  {
    var u := Requester(t.users, who);
    if !GroupHasPermission(u, DELETE) then Err(Refused(u))
    else if !VisibleGroup(t.groups, k) then Err(DoesNotExist)
    else if !GroupObjectAllowed(t.memberships, t.users, t.groups, u, DELETE, k) then Err(Refused(u))
    else if t.groups[k].name == DEFAULT_GROUP_NAME then Err(ValidationError(DEFAULT_GROUP_KEPT))
    else Ok(k)
  }

  /**
   * Only a superuser or an owner of the group gets to delete it, and the
   * view refuses the default group itself, so `Group.delete`'s own
   * exception is never reached from the API.
   */
  lemma GroupRemovalRules(t: IamTables, who: Option<Id>, k: Id)
    requires who.Some? ==> VisibleUser(t.users, who.value)
    ensures VisibleGroup(t.groups, k) && t.groups[k].name == DEFAULT_GROUP_NAME ==> GroupRemoval(t, who, k).Err?
    ensures GroupRemoval(t, who, k).Ok? ==>
      (Superuser(Requester(t.users, who)) || RequesterHasRole(t.memberships, t.users, t.groups, Requester(t.users, who), k, {Owner}))
  {
  }

  /** `DELETE /groups/<id>/`: the checks, then `Group.delete` with the servers holding the group in `accounts`. */
  method DestroyGroup(db: Db, who: Option<Id>, k: Id, accounts: seq<Id>, suffix: string, now: Time) returns (r: Result<(), Failure>)
    requires who.Some? ==> VisibleUser(db.users, who.value)
    requires db.ValidCommands() && |suffix| == RANDOM_SUFFIX_LENGTH
    requires ListsGroupAccounts(db.systemGroups, k, accounts)
    requires forall j :: j in db.systemGroups ==> db.systemGroups[j].server in db.servers
    modifies db`commands, db`outbox, db`nextCommand, db`memberships, db`groups
    ensures var g := GroupRemoval(IamTables(db.users, old(db.groups), old(db.memberships)), who, k);
      (g.Err? ==> r == Err(g.error) && db.groups == old(db.groups) && db.memberships == old(db.memberships) &&
                  db.commands == old(db.commands)) &&
      (g.Ok? && r.Ok? ==>
        db.groups == old(db.groups)[k := RetiredGroup(old(db.groups[k]), suffix, now)] &&
        db.memberships == WithoutGroupMemberships(old(db.memberships), db.users, old(db.groups), k)) &&
      (g.Ok? && r.Err? ==> r.error == ValidationError(INVALID_SERVER) && db.groups == old(db.groups) && db.memberships == old(db.memberships))
  {
    var g := GroupRemoval(IamTables(db.users, db.groups, db.memberships), who, k);
    if g.Err? {
      return Err(g.error);
    }
    ghost var blocks;
    r, blocks := DeleteGroup(db, k, accounts, suffix, now);
  }

  // ----- membership create -----

  datatype NewMembership = NewMembership(group: Id, user: Id, role: Option<Role>)

  /** Some visible membership already pairs the user with the group (the serializer's `UniqueTogetherValidator`). */
  predicate AlreadyMember(t: IamTables, user: Id, group: Id)
  {
    exists k :: k in t.memberships && VisibleMembership(t.memberships, t.users, t.groups, k) &&
      t.memberships[k].user == user && t.memberships[k].group == group
  }

  /** Any row at all pairs them: the database's unique constraint. */
  predicate PairStored(ms: map<Id, Membership>, user: Id, group: Id)
  {
    exists k :: k in ms && ms[k].user == user && ms[k].group == group
  }

  /**
   * `POST /memberships/`: the permission class; the group and user fields
   * (visible rows; never the default group); the unique pair; then
   * `perform_create`: outside the superuser, adding a member takes a
   * manager or owner of the group, any other role an owner.
   */
  function MembershipCreated(t: IamTables, who: Option<Id>, f: NewMembership, key: Id): (r: Result<map<Id, Membership>, Failure>)
    requires who.Some? ==> VisibleUser(t.users, who.value)
  {
    var u := Requester(t.users, who);
    var role := Or(f.role, Member);
    if !MembershipHasPermission(u) then Err(Refused(u))
    else if !VisibleGroup(t.groups, f.group) then Err(ValidationError(InvalidPk(f.group)))
    else if ValidateMembershipGroup(t.groups[f.group]).Err? then Err(ValidateMembershipGroup(t.groups[f.group]).error)
    else if !VisibleUser(t.users, f.user) then Err(ValidationError(InvalidPk(f.user)))
    else if AlreadyMember(t, f.user, f.group) then Err(ValidationError(NOT_UNIQUE_MEMBERSHIP))
    else if !Superuser(u) && !RequesterHasRole(t.memberships, t.users, t.groups, u, f.group, RolesToManage(role)) then
      Err(PermissionDenied(NEEDS_HIGHER_PRIVILEGE))
    else if PairStored(t.memberships, f.user, f.group) then Err(IntegrityError("membership_unique"))
    else Ok(t.memberships[key := Membership(f.group, f.user, role, None)])
  }

  /**
   * A created membership joins a visible user to a visible group other than
   * the default one, with the requested role (member by default); outside
   * the superuser the requester could manage that role in the group; and
   * the (user, group) pairs stay unique.
   */
  lemma {:induction false} CreatedMembershipRules(t: IamTables, who: Option<Id>, f: NewMembership, key: Id)
    requires who.Some? ==> VisibleUser(t.users, who.value)
    requires key !in t.memberships && MembershipsUnique(t.memberships)
    requires MembershipCreated(t, who, f, key).Ok?
    ensures var after := MembershipCreated(t, who, f, key).value;
      var u := Requester(t.users, who);
      after == t.memberships[key := Membership(f.group, f.user, Or(f.role, Member), None)] &&
      VisibleMembership(after, t.users, t.groups, key) && t.groups[f.group].name != DEFAULT_GROUP_NAME &&
      (!Superuser(u) ==> RequesterHasRole(t.memberships, t.users, t.groups, u, f.group, RolesToManage(Or(f.role, Member)))) &&
      MembershipsUnique(after)
  {
    var after := MembershipCreated(t, who, f, key).value;
    assert !PairStored(t.memberships, f.user, f.group);
    forall a, b | a in after && b in after && a != b
      ensures after[a].user != after[b].user || after[a].group != after[b].group
    {
      if a != key && b != key {
        assert after[a] == t.memberships[a] && after[b] == t.memberships[b];
      }
    }
  }

  /** `POST /memberships/`. */
  method CreateMembership(db: Db, who: Option<Id>, f: NewMembership, key: Id) returns (r: Result<Id, Failure>)
    requires who.Some? ==> VisibleUser(db.users, who.value)
    modifies db`memberships
    ensures var s := MembershipCreated(IamTables(db.users, db.groups, old(db.memberships)), who, f, key);
      (r.Ok? <==> s.Ok?) && (r.Ok? ==> r.value == key) && (s.Ok? ==> db.memberships == s.value) &&
      (s.Err? ==> r.error == s.error && db.memberships == old(db.memberships))
  {
    var s := MembershipCreated(IamTables(db.users, db.groups, db.memberships), who, f, key);
    if s.Err? {
      return Err(s.error);
    }
    db.memberships := s.value;
    r := Ok(key);
  }

  // ----- membership update -----

  /**
   * The checks `PUT`/`PATCH /memberships/<id>/` makes before looking at the
   * role: the permission class and object lookup, then `perform_update`'s
   * rule that outside the superuser only an owner of the group changes
   * roles.
   */
  function MembershipUpdateAccess(t: IamTables, who: Option<Id>, k: Id, partial: bool): (r: Result<(), Failure>)
    requires who.Some? ==> VisibleUser(t.users, who.value)
    ensures r.Ok? ==> VisibleMembership(t.memberships, t.users, t.groups, k)
    ensures r.Ok? && !Superuser(Requester(t.users, who)) ==>
      RequesterHasRole(t.memberships, t.users, t.groups, Requester(t.users, who), t.memberships[k].group, {Owner})
  {
    var u := Requester(t.users, who);
    var m := if partial then PATCH else PUT;
    if !MembershipHasPermission(u) then Err(Refused(u))
    else if !VisibleMembership(t.memberships, t.users, t.groups, k) then Err(DoesNotExist)
    else if !MembershipObjectAllowed(t.memberships, t.users, t.groups, u, m, k) then Err(Refused(u))
    else if !Superuser(u) && !RequesterHasRole(t.memberships, t.users, t.groups, u, t.memberships[k].group, {Owner}) then
      Err(PermissionDenied(NEEDS_GROUP_OWNER))
    else Ok(())
  }

  /**
   * `perform_update` as written: for an owner's membership it reads
   * `validated_data['role']`, which is absent when the client sent no
   * role, so the request fails with `KeyError`.
   */
  function MembershipUpdateAsWritten(t: IamTables, who: Option<Id>, k: Id, role: Option<Role>, partial: bool): Result<map<Id, Membership>, Failure>
    requires who.Some? ==> VisibleUser(t.users, who.value)
  {
    var access := MembershipUpdateAccess(t, who, k, partial);
    if access.Err? then Err(access.error)
    else
      var ms := t.memberships;
      if ms[k].role == Owner && role.None? then Err(KeyError("role"))
      else if ms[k].role == Owner && role.value != Owner && |Owners(ms, t.users, t.groups, ms[k].group)| <= 1 then
        Err(ValidationError(SOLE_OWNER))
      else Ok(ms[k := ms[k].(role := Or(role, ms[k].role))])
  }

  /** A superuser's `PATCH {}` on an owner's membership raises instead of leaving it unchanged. */
  lemma OwnerPatchWithoutRoleRaises(t: IamTables, who: Option<Id>, k: Id)
    requires who.Some? && VisibleUser(t.users, who.value) && t.users[who.value].isSuperuser
    requires VisibleMembership(t.memberships, t.users, t.groups, k) && t.memberships[k].role == Owner
    ensures MembershipUpdateAsWritten(t, who, k, None, true) == Err(KeyError("role"))
  {
  }

  /**
   * `perform_update` as intended: an absent role keeps the current one;
   * demoting the group's sole owner is refused; the role is then saved.
   */
  function MembershipUpdate(t: IamTables, who: Option<Id>, k: Id, role: Option<Role>, partial: bool): (r: Result<map<Id, Membership>, Failure>)
    requires who.Some? ==> VisibleUser(t.users, who.value)
    ensures role.None? && MembershipUpdateAccess(t, who, k, partial).Ok? ==> r == Ok(t.memberships)
  {
    var access := MembershipUpdateAccess(t, who, k, partial);
    if access.Err? then Err(access.error)
    else
      var ms := t.memberships;
      var newRole := Or(role, ms[k].role);
      assert role.None? ==> ms[k := ms[k].(role := newRole)] == ms;
      if ms[k].role == Owner && newRole != Owner && |Owners(ms, t.users, t.groups, ms[k].group)| <= 1 then
        Err(ValidationError(SOLE_OWNER))
      else Ok(ms[k := ms[k].(role := newRole)])
  }

  /** The two agree on every request that names a role, and on every request about a non-owner's membership. */
  lemma UpdateAgreesWhenRoleGiven(t: IamTables, who: Option<Id>, k: Id, role: Option<Role>, partial: bool)
    requires who.Some? ==> VisibleUser(t.users, who.value)
    requires role.Some? || (k in t.memberships && t.memberships[k].role != Owner)
    ensures MembershipUpdate(t, who, k, role, partial) == MembershipUpdateAsWritten(t, who, k, role, partial)
  {
  }

  /**
   * Only owners (and superusers) change roles: a manager who owns nothing
   * passes the object permission for a member's membership but is refused.
   */
  lemma ManagersCannotChangeRoles(t: IamTables, who: Option<Id>, k: Id, role: Option<Role>, partial: bool)
    requires who.Some? && VisibleUser(t.users, who.value) && !t.users[who.value].isSuperuser
    requires VisibleMembership(t.memberships, t.users, t.groups, k) && t.memberships[k].role == Member
    requires HasRole(t.memberships, t.users, t.groups, who.value, t.memberships[k].group, {Manager})
    requires !HasRole(t.memberships, t.users, t.groups, who.value, t.memberships[k].group, {Owner})
    ensures MembershipObjectAllowed(t.memberships, t.users, t.groups, Requester(t.users, who), PATCH, k)
    ensures MembershipUpdate(t, who, k, role, partial) == Err(PermissionDenied(NEEDS_GROUP_OWNER))
  {
    var g := t.memberships[k].group;
    var j :| j in t.memberships && VisibleMembership(t.memberships, t.users, t.groups, j) &&
             t.memberships[j].user == who.value && t.memberships[j].group == g && t.memberships[j].role in {Manager};
    assert t.memberships[j].role in RolesToManage(Member);
  }

  /**
   * The group field being read-only on update, `validate_group` never runs:
   * a superuser may change roles in the default group.
   */
  lemma DefaultGroupRolesCanChange(t: IamTables, who: Option<Id>, k: Id)
    requires who.Some? && VisibleUser(t.users, who.value) && t.users[who.value].isSuperuser
    requires VisibleMembership(t.memberships, t.users, t.groups, k) && t.memberships[k].role == Member
    requires t.groups[t.memberships[k].group].name == DEFAULT_GROUP_NAME
    ensures MembershipUpdate(t, who, k, Some(Manager), true) == Ok(t.memberships[k := t.memberships[k].(role := Manager)])
  {
  }

  /** A role change never leaves a group that had an owner without one. */
  lemma {:induction false} UpdateKeepsOwners(t: IamTables, who: Option<Id>, k: Id, role: Option<Role>, partial: bool, g: Id)
    requires who.Some? ==> VisibleUser(t.users, who.value)
    requires MembershipUpdate(t, who, k, role, partial).Ok? && Owners(t.memberships, t.users, t.groups, g) != {}
    ensures Owners(MembershipUpdate(t, who, k, role, partial).value, t.users, t.groups, g) != {}
  {
    var ms := t.memberships;
    var after := MembershipUpdate(t, who, k, role, partial).value;
    var owners := Owners(ms, t.users, t.groups, g);
    var o :| o in owners;
    if o == k && after[k].role != Owner {
      OtherElement(owners, o);
      var o2 :| o2 in owners && o2 != o;
      assert o2 in Owners(after, t.users, t.groups, g);
    } else {
      assert o in Owners(after, t.users, t.groups, g);
    }
  }

  /** `PUT`/`PATCH /memberships/<id>/`, with the role handling as intended. */
  method UpdateMembership(db: Db, who: Option<Id>, k: Id, role: Option<Role>, partial: bool) returns (r: Result<(), Failure>)
    requires who.Some? ==> VisibleUser(db.users, who.value)
    modifies db`memberships
    ensures var s := MembershipUpdate(IamTables(db.users, db.groups, old(db.memberships)), who, k, role, partial);
      (r.Ok? <==> s.Ok?) && (s.Ok? ==> db.memberships == s.value) &&
      (s.Err? ==> r.error == s.error && db.memberships == old(db.memberships))
  {
    var s := MembershipUpdate(IamTables(db.users, db.groups, db.memberships), who, k, role, partial);
    if s.Err? {
      return Err(s.error);
    }
    db.memberships := s.value;
    r := Ok(());
  }

  // ----- membership delete -----

  /** `perform_destroy`'s own privilege check: outside the superuser, removing someone else takes the role that manages theirs. */
  predicate MayRemove(t: IamTables, u: RequestUser, k: Id)
    requires k in t.memberships
  {
    Superuser(u) || (u.Person? && t.memberships[k].user == u.pk) ||
    RequesterHasRole(t.memberships, t.users, t.groups, u, t.memberships[k].group, RolesToManage(t.memberships[k].role))
  }

  /**
   * `DELETE /memberships/<id>/`: the permission classes and lookup, the
   * privilege check, the default group's memberships being fixed, and the
   * sole owner staying; then the row is removed.
   */
  function MembershipRemoval(t: IamTables, who: Option<Id>, k: Id): (r: Result<map<Id, Membership>, Failure>)
    requires who.Some? ==> VisibleUser(t.users, who.value)
  {
    var u := Requester(t.users, who);
    var ms := t.memberships;
    if !MembershipHasPermission(u) then Err(Refused(u))
    else if !VisibleMembership(ms, t.users, t.groups, k) then Err(DoesNotExist)
    else if !MembershipObjectAllowed(ms, t.users, t.groups, u, DELETE, k) then Err(Refused(u))
    else if !MayRemove(t, u, k) then Err(PermissionDenied(NEEDS_HIGHER_PRIVILEGE))
    else if t.groups[ms[k].group].name == DEFAULT_GROUP_NAME then Err(ValidationError(DEFAULT_GROUP_FIXED))
    else if ms[k].role == Owner && |Owners(ms, t.users, t.groups, ms[k].group)| <= 1 then Err(ValidationError(SOLE_OWNER))
    else Ok(ms - {k})
  }

  /**
   * The object permission for `DELETE` and `perform_destroy`'s privilege
   * check accept exactly the same requesters, so the latter never refuses.
   */
  lemma RemovalPrivilegeIsTheObjectPermission(t: IamTables, u: RequestUser, k: Id)
    requires k in t.memberships
    ensures MembershipObjectAllowed(t.memberships, t.users, t.groups, u, DELETE, k) <==> MayRemove(t, u, k)
  {
  }

  /**
   * Removing a membership never touches the default group, never removes
   * a group's only owner (not even at their own request), and removes
   * exactly the one row.
   */
  lemma RemovalRules(t: IamTables, who: Option<Id>, k: Id)
    requires who.Some? ==> VisibleUser(t.users, who.value)
    ensures (VisibleMembership(t.memberships, t.users, t.groups, k) && t.memberships[k].role == Owner &&
             Owners(t.memberships, t.users, t.groups, t.memberships[k].group) == {k}) ==>
      MembershipRemoval(t, who, k).Err?
    ensures MembershipRemoval(t, who, k).Ok? ==>
      VisibleMembership(t.memberships, t.users, t.groups, k) &&
      t.groups[t.memberships[k].group].name != DEFAULT_GROUP_NAME &&
      MembershipRemoval(t, who, k).value == t.memberships - {k}
  {
  }

  /** Removing a membership never leaves a group that had an owner without one. */
  lemma {:induction false} RemovalKeepsGroupOwners(t: IamTables, who: Option<Id>, k: Id, g: Id)
    requires who.Some? ==> VisibleUser(t.users, who.value)
    requires MembershipRemoval(t, who, k).Ok? && Owners(t.memberships, t.users, t.groups, g) != {}
    ensures Owners(MembershipRemoval(t, who, k).value, t.users, t.groups, g) != {}
  {
    var ms := t.memberships;
    var after := MembershipRemoval(t, who, k).value;
    var owners := Owners(ms, t.users, t.groups, g);
    var o :| o in owners;
    if o == k {
      OtherElement(owners, o);
      var o2 :| o2 in owners && o2 != o;
      assert o2 in Owners(after, t.users, t.groups, g);
    } else {
      assert o in Owners(after, t.users, t.groups, g);
    }
  }

  /** `DELETE /memberships/<id>/`. */
  method DestroyMembership(db: Db, who: Option<Id>, k: Id) returns (r: Result<(), Failure>)
    requires who.Some? ==> VisibleUser(db.users, who.value)
    modifies db`memberships
    ensures var s := MembershipRemoval(IamTables(db.users, db.groups, old(db.memberships)), who, k);
      (r.Ok? <==> s.Ok?) && (s.Ok? ==> db.memberships == s.value) &&
      (s.Err? ==> r.error == s.error && db.memberships == old(db.memberships))
  {
    var s := MembershipRemoval(IamTables(db.users, db.groups, db.memberships), who, k);
    if s.Err? {
      return Err(s.error);
    }
    db.memberships := s.value;
    r := Ok(());
  }
}
