// The user endpoints of the IAM API: creating a user (who then joins the
// default group), updating one (directly, or through the `-` alias for the
// requester), and deleting one, with the guards that keep a superuser in
// the system and an owner in every group.
module IamUsers {
  import opened Common
  import opened Permissions
  import opened IamRows
  import opened ProcRows
  import opened TokenRows
  import opened Store
  import opened IamValidation
  import opened IamAccounts
  import opened IamPermissions

  const NOT_AUTHENTICATED: string := "Authentication credentials were not provided."
  const NOT_PERMITTED: string := "You do not have permission to perform this action."
  const FIELD_REQUIRED: string := "This field is required."
  const USERNAME_TAKEN: string := "A user with that username already exists."
  const INVALID_USERNAME: string :=
    "Enter a valid username. This value may contain only letters, numbers, and @/./+/-/_ characters."
  const USERNAME_MAX_LENGTH: nat := 150
  const PASSWORD_MAX_LENGTH: nat := 128
  const STAFF_NEEDS_SUPERUSER: string := "Requires superuser to assign staff or superuser privilege."
  const LAST_SUPERUSER: string := "There should be at least a superuser in the system."
  const DELETE_STAFF_NEEDS_SUPERUSER: string := "Requires superuser to delete staff or above."
  const DEFAULT_GROUP_DISPLAY_NAME: string := "Alpacon users"


  /** `'This user cannot be deleted as the only owner of the group "%(group)s".'` */
  function SoleOwnerMessage(displayName: string): string
  {
    "This user cannot be deleted as the only owner of the group \"" + displayName + "\"."
  }

  /** The three IAM tables the user, group and membership endpoints change. */
  datatype IamTables = IamTables(users: map<Id, User>, groups: map<Id, Group>, memberships: map<Id, Membership>)

  /**
   * `request.user` for the IAM endpoints, whose session and API-token
   * authentication yield either nobody or a stored user (never an agent).
   */
  function Requester(users: map<Id, User>, who: Option<Id>): (u: RequestUser)
    requires who.Some? ==> who.value in users
    ensures u.Anonymous? <==> who.None?
    ensures u.Person? ==> u.pk == who.value && u.isStaff == users[u.pk].isStaff && u.isSuperuser == users[u.pk].isSuperuser
  {
    if who.None? then Anonymous else Person(who.value, users[who.value].isStaff, users[who.value].isSuperuser)
  }

  /** DRF's answer when a permission class refuses: 401 for nobody, 403 otherwise. */
  function Refused(u: RequestUser): Failure
  {
    if Authenticated(u) then PermissionDenied(NOT_PERMITTED) else PermissionDenied(NOT_AUTHENTICATED)
  }

  /** A serializer's absent boolean takes the given default. */
  function Flag(b: Option<bool>, default: bool): bool
  {
    if b.Some? then b.value else default
  }

  /** `validated_data.get('is_staff', False) or validated_data.get('is_superuser', False)`. */
  predicate AssignsPrivilege(isStaff: Option<bool>, isSuperuser: Option<bool>)
  {
    Flag(isStaff, false) || Flag(isSuperuser, false)
  }

  // ----- create -----

  /** The fields a client may send to create a user. */
  datatype NewUser = NewUser(
    username: string,
    password: Option<string>,
    firstName: string,
    lastName: string,
    email: string,
    isActive: Option<bool>,
    isStaff: Option<bool>,
    isSuperuser: Option<bool>,
    shell: Option<string>)

  /** A visible user already holds the name (the `UniqueValidator` over `User.objects`). */
  predicate UsernameTaken(users: map<Id, User>, name: string)
  {
    exists k :: k in users && VisibleUser(users, k) && users[k].username == name
  }

  /** A character of `[\w.@+-]`, with `\w` restricted to ASCII. */
  predicate UsernameChar(c: char)
  {
    ('a' <= c <= 'z') || ('A' <= c <= 'Z') || ('0' <= c <= '9') || c in "_.@+-"
  }

  /**
   * Django's `UnicodeUsernameValidator` on `AbstractUser.username`,
   * `^[\w.@+-]+\Z`: `\Z` matches only at the very end, so unlike `$` it
   * lets no final line break through.
   */
  predicate UnicodeUsername(value: string)
  {
    value != [] && forall i :: 0 <= i < |value| ==> UsernameChar(value[i])
  }

  /**
   * The username field of `UserSerializer`: its length, the uniqueness
   * checker, the model field's `UnicodeUsernameValidator`, then `validate_username`.
   */
  function UsernameField(users: map<Id, User>, systemUsers: map<Id, SystemUser>, systemGroups: map<Id, SystemGroup>,
                         value: string): (r: Result<string, Failure>)
    ensures r.Ok? <==>
      |value| <= USERNAME_MAX_LENGTH && !UsernameTaken(users, value) && UnicodeUsername(value) &&
      ValidateUsername(value, systemUsers, systemGroups).Ok?
    ensures r.Ok? ==> r.value == value && '\n' !in value
    ensures |value| > USERNAME_MAX_LENGTH ==> r == Err(ValidationError(TooLong(USERNAME_MAX_LENGTH)))
    ensures |value| <= USERNAME_MAX_LENGTH && UsernameTaken(users, value) ==> r == Err(ValidationError(USERNAME_TAKEN))
    ensures |value| <= USERNAME_MAX_LENGTH && !UsernameTaken(users, value) && !UnicodeUsername(value) ==>
      r == Err(ValidationError(INVALID_USERNAME))
  {
    if |value| > USERNAME_MAX_LENGTH then Err(ValidationError(TooLong(USERNAME_MAX_LENGTH)))
    else if UsernameTaken(users, value) then Err(ValidationError(USERNAME_TAKEN))
    else if !UnicodeUsername(value) then Err(ValidationError(INVALID_USERNAME))
    else ValidateUsername(value, systemUsers, systemGroups)
  }

  /** The password field on create: required and not blank, at most 128 characters, then `validate_password`. */
  function NewPasswordField(value: Option<string>, check: string -> Option<string>): (r: Result<string, Failure>)
    ensures value.None? ==> r == Err(ValidationError(FIELD_REQUIRED))
    ensures value == Some("") ==> r == Err(ValidationError(FIELD_BLANK))
    ensures r.Ok? <==> value.Some? && value.value != "" && |value.value| <= PASSWORD_MAX_LENGTH && check(value.value).None?
    ensures r.Ok? ==> r.value == value.value
  {
    match value
    case None => Err(ValidationError(FIELD_REQUIRED))
    case Some(p) =>
      if p == "" then Err(ValidationError(FIELD_BLANK))
      else if |p| > PASSWORD_MAX_LENGTH then Err(ValidationError(TooLong(PASSWORD_MAX_LENGTH)))
      else match ValidatePassword(p, check)
        case Err(e) => Err(e)
        case Ok(_) => Ok(p)
  }

  /** The row `create_user` builds before saving: flags default to off (active on), the password is hashed. */
  function NewUserRow(f: NewUser, password: string): User
  {
    User(f.username, None, f.firstName, f.lastName, f.email, Flag(f.isActive, true), Flag(f.isStaff, false),
         Flag(f.isSuperuser, false), "", if f.shell.Some? then f.shell.value else DEFAULT_SHELL, false,
         HashOf(password), None)
  }

  /**
   * Everything `POST /users/` checks before the row is saved, in order: the
   * permission class, the username and password fields, then
   * `perform_create`'s rule that only a superuser hands out the staff or
   * superuser flag.
   */
  function UserAdmission(users: map<Id, User>, systemUsers: map<Id, SystemUser>, systemGroups: map<Id, SystemGroup>,
                         who: Option<Id>, f: NewUser, check: string -> Option<string>): (r: Result<User, Failure>)
    requires who.Some? ==> who.value in users
  {
    var u := Requester(users, who);
    if !UserHasPermission(u, POST) then Err(Refused(u))
    else match UsernameField(users, systemUsers, systemGroups, f.username)
      case Err(e) => Err(e)
      case Ok(_) =>
        match NewPasswordField(f.password, check)
        case Err(e) => Err(e)
        case Ok(p) =>
          if AssignsPrivilege(f.isStaff, f.isSuperuser) && !Superuser(u) then Err(PermissionDenied(STAFF_NEEDS_SUPERUSER))
          else Ok(NewUserRow(f, p))
  }

  /** The result of `Group.get_default()`: the visible group named `alpacon`, if there is one. */
  predicate DefaultGroupIs(groups: map<Id, Group>, d: Option<Id>)
  {
    (d.Some? ==> VisibleGroup(groups, d.value) && groups[d.value].name == DEFAULT_GROUP_NAME) &&
    (d.None? ==> forall k :: k in groups && VisibleGroup(groups, k) ==> groups[k].name != DEFAULT_GROUP_NAME)
  }

  const DEFAULT_GROUP_ROW: Group := Group(DEFAULT_GROUP_NAME, DEFAULT_GROUP_DISPLAY_NAME, None, false, None)

  /**
   * The `post_save` handler for a new user: the user joins the default
   * group as a member, the group being created first when it is missing.
   */
  function JoinedDefaultGroup(t: IamTables, user: Id, d: Option<Id>, groupKey: Id, membershipKey: Id): Result<IamTables, Failure>
  {
    if d.Some? then Ok(t.(memberships := t.memberships[membershipKey := Membership(d.value, user, Member, None)]))
    else match GroupSaved(t.groups, groupKey, DEFAULT_GROUP_ROW)
      case Err(e) => Err(e)
      case Ok(groups) => Ok(t.(groups := groups, memberships := t.memberships[membershipKey := Membership(groupKey, user, Member, None)]))
  }

  /** The fresh keys a create draws (UUIDs in the system). */
  datatype NewKeys = NewKeys(user: Id, membership: Id, group: Id)

  predicate FreshKeys(t: IamTables, keys: NewKeys)
  {
    keys.user !in t.users && keys.membership !in t.memberships && keys.group !in t.groups
  }

  /** `POST /users/` on the IAM tables: admission, `User.save`, then the default-group membership. */
  function UserCreated(t: IamTables, systemUsers: map<Id, SystemUser>, systemGroups: map<Id, SystemGroup>,
                       who: Option<Id>, f: NewUser, check: string -> Option<string>, keys: NewKeys, d: Option<Id>): Result<IamTables, Failure>
    requires who.Some? ==> who.value in t.users
  {
    match UserAdmission(t.users, systemUsers, systemGroups, who, f, check)
    case Err(e) => Err(e)
    case Ok(row) =>
      match UserSaved(t.users, keys.user, row)
      case Err(e) => Err(e)
      case Ok(users) => JoinedDefaultGroup(t.(users := users), keys.user, d, keys.group, keys.membership)
  }

  /**
   * A created user was asked for by staff or a superuser; only a superuser
   * creates a staff or superuser account. The new user is visible under the
   * requested name with the hashed password, holds a uid no other row
   * holds, and is a plain member of the default group.
   */
  lemma {:induction false} CreatedUserRules(t: IamTables, systemUsers: map<Id, SystemUser>, systemGroups: map<Id, SystemGroup>,
                                            who: Option<Id>, f: NewUser, check: string -> Option<string>, keys: NewKeys, d: Option<Id>)
    requires who.Some? ==> VisibleUser(t.users, who.value)
    requires FreshKeys(t, keys) && DefaultGroupIs(t.groups, d) && RetiredHoldNoUid(t.users)
    requires UserCreated(t, systemUsers, systemGroups, who, f, check, keys, d).Ok?
    ensures var u := Requester(t.users, who);
      var after := UserCreated(t, systemUsers, systemGroups, who, f, check, keys, d).value;
      var row := after.users[keys.user];
      Staff(u) || Superuser(u)
    ensures var u := Requester(t.users, who);
      var row := UserCreated(t, systemUsers, systemGroups, who, f, check, keys, d).value.users[keys.user];
      (row.isStaff || row.isSuperuser) ==> Superuser(u)
    ensures var after := UserCreated(t, systemUsers, systemGroups, who, f, check, keys, d).value;
      var row := after.users[keys.user];
      VisibleUser(after.users, keys.user) && row.username == f.username && f.password.Some? &&
      row.password == HashOf(f.password.value) && ValidateUsername(f.username, systemUsers, systemGroups).Ok? &&
      row.uid.Some? && (forall k :: k in t.users ==> t.users[k].uid != row.uid)
    ensures var after := UserCreated(t, systemUsers, systemGroups, who, f, check, keys, d).value;
      keys.membership in after.memberships && after.memberships[keys.membership].user == keys.user &&
      after.memberships[keys.membership].role == Member &&
      after.groups[after.memberships[keys.membership].group].name == DEFAULT_GROUP_NAME
  {
    var row := UserAdmission(t.users, systemUsers, systemGroups, who, f, check).value;
    AllocatedUidIsFree(t.users, keys.user, row);
    assert UsernameField(t.users, systemUsers, systemGroups, f.username).Ok?;
    assert NewPasswordField(f.password, check).Ok?;
  }

  /** `POST /users/`. */
  method CreateUser(db: Db, who: Option<Id>, f: NewUser, check: string -> Option<string>, keys: NewKeys, d: Option<Id>)
    returns (r: Result<Id, Failure>)
    requires who.Some? ==> who.value in db.users
    modifies db`users, db`groups, db`memberships
    ensures var s := UserCreated(IamTables(old(db.users), old(db.groups), old(db.memberships)),
                                 db.systemUsers, db.systemGroups, who, f, check, keys, d);
      (r.Ok? <==> s.Ok?) && (r.Ok? ==> r.value == keys.user) &&
      (s.Ok? ==> IamTables(db.users, db.groups, db.memberships) == s.value) &&
      (s.Err? ==> r.error == s.error)
    ensures r.Err? ==> db.groups == old(db.groups) && db.memberships == old(db.memberships)
  {
    var admitted := UserAdmission(db.users, db.systemUsers, db.systemGroups, who, f, check);
    if admitted.Err? {
      return Err(admitted.error);
    }
    var saved := SaveUser(db, keys.user, admitted.value);
    if saved.Err? {
      return Err(saved.error);
    }
    ghost var t := IamTables(db.users, db.groups, db.memberships);
    var joined := JoinDefaultGroup(db, keys.user, d, keys.group, keys.membership);
    assert JoinedDefaultGroup(t, keys.user, d, keys.group, keys.membership).Ok? == joined;
    r := if joined then Ok(keys.user) else Err(IntegrityError("group_unique"));
  }

  /** The `post_save` handler on the database. */
  method JoinDefaultGroup(db: Db, user: Id, d: Option<Id>, groupKey: Id, membershipKey: Id) returns (ok: bool)
    modifies db`groups, db`memberships
    ensures var s := JoinedDefaultGroup(IamTables(db.users, old(db.groups), old(db.memberships)), user, d, groupKey, membershipKey);
      (ok <==> s.Ok?) && (s.Ok? ==> IamTables(db.users, db.groups, db.memberships) == s.value) &&
      (s.Err? ==> s.error == IntegrityError("group_unique") && db.groups == old(db.groups) && db.memberships == old(db.memberships))
  {
    var group := if d.Some? then d.value else groupKey;
    if d.None? {
      var g := SaveGroup(db, groupKey, DEFAULT_GROUP_ROW);
      if g.Err? {
        return false;
      }
    }
    db.memberships := db.memberships[membershipKey := Membership(group, user, Member, None)];
    ok := true;
  }

  // ----- update -----

  /** The user a detail URL names: `-` for the requester, or a key. */
  datatype UserRef = Me | UserKey(key: Id)

  /** The user the URL designates; the alias names nobody for an anonymous request. */
  function Designated(who: Option<Id>, target: UserRef): Option<Id>
  {
    if target.Me? then who else Some(target.key)
  }

  /** The fields a client may send to update a user; an absent field keeps its value. */
  datatype UserPatch = UserPatch(
    firstName: Option<string>,
    lastName: Option<string>,
    email: Option<string>,
    isActive: Option<bool>,
    isStaff: Option<bool>,
    isSuperuser: Option<bool>,
    shell: Option<string>,
    password: Option<string>)

  function Or<T>(x: Option<T>, default: T): T
  {
    if x.Some? then x.value else default
  }

  /**
   * `UserSerializer.update` with the validated patch: a new password is set
   * only when the full serializer took it and it is not empty; username,
   * uid and home directory are read-only.
   */
  function Patched(u: User, p: UserPatch, full: bool): User
  {
    u.(firstName := Or(p.firstName, u.firstName), lastName := Or(p.lastName, u.lastName), email := Or(p.email, u.email),
       isActive := Or(p.isActive, u.isActive), isStaff := Or(p.isStaff, u.isStaff),
       isSuperuser := Or(p.isSuperuser, u.isSuperuser), shell := Or(p.shell, u.shell),
       password := if full && p.password.Some? && p.password.value != "" then HashOf(p.password.value) else u.password)
  }

  /**
   * The password field of `UserUpdateSerializer`: blank is allowed (and
   * then ignored), but the field is required on a full `PUT`.
   */
  function UpdatePasswordField(value: Option<string>, partial: bool, check: string -> Option<string>): (r: Result<(), Failure>)
    ensures value.None? ==> (r.Ok? <==> partial)
    ensures value == Some("") ==> r.Ok?
    ensures value.Some? && value.value != "" ==> (r.Ok? <==> |value.value| <= PASSWORD_MAX_LENGTH && check(value.value).None?)
  {
    match value
    case None => if partial then Ok(()) else Err(ValidationError(FIELD_REQUIRED))
    case Some(pw) =>
      if |pw| > PASSWORD_MAX_LENGTH then Err(ValidationError(TooLong(PASSWORD_MAX_LENGTH)))
      else match ValidatePassword(pw, check)
        case Err(e) => Err(e)
        case Ok(_) => Ok(())
  }

  /**
   * Everything `PUT`/`PATCH /users/<id>/` checks before saving: the
   * permission class, the object lookup (the `-` alias bypasses the object
   * permission), the password field when the full serializer is used (only
   * staff naming a user by key get it), then `perform_update`'s two guards.
   * Yields the user to save and whether the full serializer applied.
   */
  function UpdateAdmission(users: map<Id, User>, who: Option<Id>, target: UserRef, p: UserPatch, partial: bool,
                           check: string -> Option<string>): (r: Result<(Id, bool), Failure>)
    requires who.Some? ==> VisibleUser(users, who.value)
    ensures var u := Requester(users, who);
      r.Ok? ==>
        who.Some? && Designated(who, target) == Some(r.value.0) && VisibleUser(users, r.value.0) &&
        r.value.1 == (target.UserKey? && (Staff(u) || Superuser(u))) &&
        (target.UserKey? ==> UserObjectAllowed(u, if partial then PATCH else PUT, r.value.0))
    ensures var u := Requester(users, who);
      r.Ok? && r.value.1 ==> UpdatePasswordField(p.password, partial, check).Ok?
    ensures var u := Requester(users, who);
      r.Ok? && !Superuser(u) ==> !AssignsPrivilege(p.isStaff, p.isSuperuser)
    ensures r.Ok? && users[r.value.0].isSuperuser && !Or(p.isSuperuser, users[r.value.0].isSuperuser) ==>
      |Superusers(users)| > 1
    ensures who.None? ==> r == Err(PermissionDenied(NOT_AUTHENTICATED))
  {
    var u := Requester(users, who);
    var m := if partial then PATCH else PUT;
    if !UserHasPermission(u, m) then Err(Refused(u))
    else
      var key := Designated(who, target).value;
      if target.UserKey? && !VisibleUser(users, key) then Err(DoesNotExist)
      else if target.UserKey? && !UserObjectAllowed(u, m, key) then Err(Refused(u))
      else
        var full := target.UserKey? && (Staff(u) || Superuser(u));
        var checked := if full then UpdatePasswordField(p.password, partial, check) else Ok(());
        if checked.Err? then Err(checked.error)
        else if AssignsPrivilege(p.isStaff, p.isSuperuser) && !Superuser(u) then Err(PermissionDenied(STAFF_NEEDS_SUPERUSER))
        else if users[key].isSuperuser && !Or(p.isSuperuser, users[key].isSuperuser) && |Superusers(users)| <= 1 then
          Err(ValidationError(LAST_SUPERUSER))
        else Ok((key, full))
  }

  /** `PUT`/`PATCH /users/<id>/` on the user table: the checks, then `User.save` of the patched row. */
  function UserUpdate(users: map<Id, User>, who: Option<Id>, target: UserRef, p: UserPatch, partial: bool,
                      check: string -> Option<string>): Result<map<Id, User>, Failure>
    requires who.Some? ==> VisibleUser(users, who.value)
  {
    match UpdateAdmission(users, who, target, p, partial, check)
    case Err(e) => Err(e)
    case Ok((key, full)) => UserSaved(users, key, Patched(users[key], p, full))
  }

  /**
   * An update never takes the last superuser's flag away: a system with a
   * visible superuser keeps one.
   */
  lemma {:induction false} UpdateKeepsASuperuser(users: map<Id, User>, who: Option<Id>, target: UserRef, p: UserPatch, partial: bool,
                                                 check: string -> Option<string>)
    requires who.Some? ==> VisibleUser(users, who.value)
    requires UserUpdate(users, who, target, p, partial, check).Ok? && Superusers(users) != {}
    ensures Superusers(UserUpdate(users, who, target, p, partial, check).value) != {}
  {
    var (key, full) := UpdateAdmission(users, who, target, p, partial, check).value;
    var after := UserSaved(users, key, Patched(users[key], p, full)).value;
    var s :| s in Superusers(users);
    if s == key && !after[key].isSuperuser {
      OtherElement(Superusers(users), key);
      var o :| o in Superusers(users) && o != key;
      assert o in Superusers(after);
    } else {
      assert s in Superusers(after);
    }
  }

  /**
   * A requester without the superuser flag can neither grant the
   * superuser flag nor make a non-superuser staff; username and uid never
   * change, and the saved row keeps `is_superuser ==> is_staff`.
   */
  lemma {:induction false} UpdatePrivilegeRules(users: map<Id, User>, who: Option<Id>, target: UserRef, p: UserPatch, partial: bool,
                                                check: string -> Option<string>)
    requires who.Some? ==> VisibleUser(users, who.value)
    requires UserUpdate(users, who, target, p, partial, check).Ok?
    ensures var key := Designated(who, target).value;
      var after := UserUpdate(users, who, target, p, partial, check).value;
      !Superuser(Requester(users, who)) ==>
        (after[key].isSuperuser ==> users[key].isSuperuser) &&
        (after[key].isStaff ==> users[key].isStaff || users[key].isSuperuser)
    ensures var key := Designated(who, target).value;
      var after := UserUpdate(users, who, target, p, partial, check).value;
      after[key].username == users[key].username && (!MissingId(users[key].uid) ==> after[key].uid == users[key].uid) &&
      (after[key].isSuperuser ==> after[key].isStaff) && (forall k :: k in users && k != key ==> after[k] == users[k])
  {
    var (key, full) := UpdateAdmission(users, who, target, p, partial, check).value;
    assert UserUpdate(users, who, target, p, partial, check) == UserSaved(users, key, Patched(users[key], p, full));
  }

  /**
   * The password changes only when staff or a superuser names the user by
   * key and sends a non-empty one: a self-service update, through the alias
   * or by an ordinary user, leaves it as it was, as does an empty password.
   */
  lemma {:induction false} UpdatePasswordRules(users: map<Id, User>, who: Option<Id>, target: UserRef, p: UserPatch, partial: bool,
                                               check: string -> Option<string>)
    requires who.Some? ==> VisibleUser(users, who.value)
    requires UserUpdate(users, who, target, p, partial, check).Ok?
    ensures var key := Designated(who, target).value;
      var after := UserUpdate(users, who, target, p, partial, check).value;
      var u := Requester(users, who);
      (target.Me? || !(Staff(u) || Superuser(u)) || p.password.None? || p.password == Some("") ==>
        after[key].password == users[key].password) &&
      (target.UserKey? && (Staff(u) || Superuser(u)) && p.password.Some? && p.password.value != "" ==>
        after[key].password == HashOf(p.password.value) && check(p.password.value).None?)
  {
    var (key, full) := UpdateAdmission(users, who, target, p, partial, check).value;
    assert UserUpdate(users, who, target, p, partial, check) == UserSaved(users, key, Patched(users[key], p, full));
  }

  // ----- delete -----

  /** `owned` enumerates, in query order, the visible owner memberships of `user`. */
  predicate ListsOwnedGroups(ms: map<Id, Membership>, users: map<Id, User>, groups: map<Id, Group>, user: Id, owned: seq<Id>)
  {
    (forall i :: 0 <= i < |owned| ==>
       owned[i] in ms && VisibleMembership(ms, users, groups, owned[i]) && ms[owned[i]].user == user && ms[owned[i]].role == Owner) &&
    (forall k :: k in ms && VisibleMembership(ms, users, groups, k) && ms[k].user == user && ms[k].role == Owner ==> k in owned)
  }

  /** The first of the user's owner memberships whose group has no other owner. */
  function FirstSoleOwnership(ms: map<Id, Membership>, users: map<Id, User>, groups: map<Id, Group>, owned: seq<Id>): (r: Option<nat>)
    requires forall i :: 0 <= i < |owned| ==> owned[i] in ms
    ensures r.Some? ==> r.value < |owned| && |MembersWithRole(ms, users, groups, ms[owned[r.value]].group, Owner)| <= 1
    ensures r.None? ==> forall i :: 0 <= i < |owned| ==> |MembersWithRole(ms, users, groups, ms[owned[i]].group, Owner)| > 1
    decreases |owned|
  {
    if owned == [] then None
    else if |MembersWithRole(ms, users, groups, ms[owned[0]].group, Owner)| <= 1 then Some(0)
    else match FirstSoleOwnership(ms, users, groups, owned[1..])
      case None => None
      case Some(i) => Some(i + 1)
  }

  /**
   * `DELETE /users/<id>/` up to the point where `User.delete` runs: the
   * permission class and lookup, then `perform_destroy`'s three guards —
   * only a superuser deletes other staff, the sole owner of a group stays,
   * and so does the last superuser. Yields the user to delete.
   */
  function UserRemoval(t: IamTables, who: Option<Id>, target: UserRef, owned: seq<Id>): (r: Result<Id, Failure>)
    requires who.Some? ==> VisibleUser(t.users, who.value)
    requires forall i :: 0 <= i < |owned| ==> owned[i] in t.memberships && t.memberships[owned[i]].group in t.groups
    ensures r.Ok? ==> Designated(who, target) == Some(r.value) && VisibleUser(t.users, r.value)
    ensures r.Ok? ==> FirstSoleOwnership(t.memberships, t.users, t.groups, owned).None?
    ensures r.Ok? && t.users[r.value].isSuperuser ==> |Superusers(t.users)| > 1
    ensures who.None? ==> r == Err(PermissionDenied(NOT_AUTHENTICATED))
  {
    var u := Requester(t.users, who);
    if !UserHasPermission(u, DELETE) then Err(Refused(u))
    else
      var key := Designated(who, target).value;
      if target.UserKey? && !VisibleUser(t.users, key) then Err(DoesNotExist)
      else if target.UserKey? && !UserObjectAllowed(u, DELETE, key) then Err(Refused(u))
      else if key != u.pk && (t.users[key].isStaff || t.users[key].isSuperuser) && !Superuser(u) then
        Err(PermissionDenied(DELETE_STAFF_NEEDS_SUPERUSER))
      else match FirstSoleOwnership(t.memberships, t.users, t.groups, owned)
        case Some(i) => Err(ValidationError(SoleOwnerMessage(t.groups[t.memberships[owned[i]].group].displayName)))
        case None =>
          if t.users[key].isSuperuser && |Superusers(t.users)| <= 1 then Err(ValidationError(LAST_SUPERUSER))
          else Ok(key)
  }

  /**
   * Outside the superuser, a user deletes only themselves or (as staff)
   * someone without the staff and superuser flags.
   */
  lemma RemovalPrivilegeRules(t: IamTables, who: Option<Id>, target: UserRef, owned: seq<Id>)
    requires who.Some? ==> VisibleUser(t.users, who.value)
    requires forall i :: 0 <= i < |owned| ==> owned[i] in t.memberships && t.memberships[owned[i]].group in t.groups
    requires UserRemoval(t, who, target, owned).Ok?
    ensures var key := UserRemoval(t, who, target, owned).value;
      var u := Requester(t.users, who);
      u.Person? && Designated(who, target) == Some(key) && VisibleUser(t.users, key) &&
      (!Superuser(u) && key != u.pk ==> u.isStaff && !t.users[key].isStaff && !t.users[key].isSuperuser)
  {
  }

  /** Deleting a user never removes the last superuser. */
  lemma {:induction false} RemovalKeepsASuperuser(t: IamTables, who: Option<Id>, target: UserRef, owned: seq<Id>,
                                                  suffix: string, now: Time)
    requires who.Some? ==> VisibleUser(t.users, who.value)
    requires forall i :: 0 <= i < |owned| ==> owned[i] in t.memberships && t.memberships[owned[i]].group in t.groups
    requires UserRemoval(t, who, target, owned).Ok? && Superusers(t.users) != {}
    ensures var key := UserRemoval(t, who, target, owned).value;
      Superusers(t.users[key := RetiredUser(t.users[key], suffix, now)]) != {}
  {
    var key := UserRemoval(t, who, target, owned).value;
    var after := t.users[key := RetiredUser(t.users[key], suffix, now)];
    var s :| s in Superusers(t.users);
    if s == key {
      OtherElement(Superusers(t.users), key);
      var o :| o in Superusers(t.users) && o != key;
      assert o in Superusers(after);
    } else {
      assert s in Superusers(after);
    }
  }

  /**
   * Deleting a user leaves every group that had an owner with one: the
   * user owned no group alone, and (user, group) being unique, the other
   * owner is another user, whose membership stays.
   */
  lemma {:induction false} RemovalKeepsOwners(t: IamTables, who: Option<Id>, target: UserRef, owned: seq<Id>,
                                              suffix: string, now: Time, g: Id)
    requires who.Some? ==> VisibleUser(t.users, who.value) && MembershipsUnique(t.memberships)
    requires forall i :: 0 <= i < |owned| ==> owned[i] in t.memberships && t.memberships[owned[i]].group in t.groups
    requires UserRemoval(t, who, target, owned).Ok?
    requires ListsOwnedGroups(t.memberships, t.users, t.groups, UserRemoval(t, who, target, owned).value, owned)
    requires MembersWithRole(t.memberships, t.users, t.groups, g, Owner) != {}
    ensures var key := UserRemoval(t, who, target, owned).value;
      MembersWithRole(WithoutUserMemberships(t.memberships, t.users, t.groups, key),
                      t.users[key := RetiredUser(t.users[key], suffix, now)], t.groups, g, Owner) != {}
  {
    var key := UserRemoval(t, who, target, owned).value;
    var ms, users := t.memberships, t.users;
    var ms', users' := WithoutUserMemberships(ms, users, t.groups, key), users[key := RetiredUser(users[key], suffix, now)];
    var owners := MembersWithRole(ms, users, t.groups, g, Owner);
    var o :| o in owners;
    var keep := o;
    if ms[o].user == key {
      var i :| 0 <= i < |owned| && owned[i] == o;
      assert FirstSoleOwnership(ms, users, t.groups, owned).None?;
      OtherElement(owners, o);
      var o2 :| o2 in owners && o2 != o;
      keep := o2;
    }
    assert ms[keep].user != key;
    assert keep in ms';
    assert keep in MembersWithRole(ms', users', t.groups, g, Owner);
  }

  /**
   * `DELETE /users/<id>/`: the guards, then `User.delete`, which asks each
   * server holding the user's accounts to remove them before it retires
   * the row; `accounts` and `owned` are the results of the two queries.
   */
  method DestroyUser(db: Db, who: Option<Id>, target: UserRef, owned: seq<Id>, accounts: seq<Id>, suffix: string, now: Time)
    returns (r: Result<(), Failure>)
    requires who.Some? ==> VisibleUser(db.users, who.value)
    requires forall i :: 0 <= i < |owned| ==> owned[i] in db.memberships && db.memberships[owned[i]].group in db.groups
    requires db.ValidCommands() && |suffix| == RANDOM_SUFFIX_LENGTH
    requires Designated(who, target).Some? ==> ListsUserAccounts(db.systemUsers, Designated(who, target).value, accounts)
    requires forall k :: k in db.systemUsers ==> db.systemUsers[k].server in db.servers
    modifies db`commands, db`outbox, db`nextCommand, db`memberships, db`apiTokens, db`users
    ensures var g := UserRemoval(IamTables(old(db.users), db.groups, old(db.memberships)), who, target, owned);
      (g.Err? ==> r == Err(g.error) && db.users == old(db.users) && db.memberships == old(db.memberships) &&
                  db.apiTokens == old(db.apiTokens) && db.commands == old(db.commands)) &&
      (g.Ok? && r.Ok? ==>
        db.users == old(db.users)[g.value := RetiredUser(old(db.users[g.value]), suffix, now)] &&
        db.memberships == WithoutUserMemberships(old(db.memberships), old(db.users), db.groups, g.value) &&
        db.apiTokens == WithoutUserTokens(old(db.apiTokens), g.value)) &&
      (g.Ok? && r.Err? ==>
        r.error == ValidationError(INVALID_SERVER) && db.users == old(db.users) && db.memberships == old(db.memberships))
  {
    var g := UserRemoval(IamTables(db.users, db.groups, db.memberships), who, target, owned);
    if g.Err? {
      return Err(g.error);
    }
    ghost var blocks;
    r, blocks := DeleteUser(db, g.value, accounts, suffix, now);
  }
}
