// Field validation of the IAM serializers: the UNIX-safe name pattern shared
// by usernames and group names, the list of reserved names, the check
// against accounts already present on servers, password validation and the
// rule that the default group's memberships are fixed.
module IamValidation {
  import opened Common
  import opened IamRows
  import opened ProcRows

  const INVALID_USERNAME: string :=
    "Enter a valid username for UNIX environment. This value may contain only lowercase letters, numbers, and -/_ characters."
  const DISALLOWED_USERNAME: string := "Please use another username as it is disallowed."
  const USERNAME_IN_USE: string := "Please use another username as it is in use."
  const INVALID_GROUPNAME: string :=
    "Enter a valid groupname for UNIX environment. This value may contain only lowercase letters, numbers, and -/_ characters."
  const DISALLOWED_GROUPNAME: string := "Please use another name as it is disallowed."
  const GROUPNAME_IN_USE: string := "Please use another name as it is in use."
  const DEFAULT_GROUP_FIXED: string := "Memberships for default group \"alpacon\" cannot be changed."

  /** Names reserved for the system's own accounts and common distribution users. */
  const DISALLOWED_USERNAMES: seq<string> := [
    "alpacon", "alpamon", "alpaca",
    "root", "admin", "adm", "sys", "bin", "daemon", "sync", "www-data", "mail",
    "nobody", "nogroup", "syslog", "backup", "news", "games", "lp", "man", "irc",
    "ubuntu", "centos", "ec2-user"]

  predicate IsLower(c: char)
  {
    'a' <= c <= 'z'
  }

  /** The characters allowed after the first: `[a-z0-9_-]`. */
  predicate IsNameChar(c: char)
  {
    IsLower(c) || '0' <= c <= '9' || c == '_' || c == '-'
  }

  /** `[a-z][a-z0-9_-]*` covering all of `s`. */
  predicate NameBody(s: string)
  {
    |s| >= 1 && IsLower(s[0]) && forall i :: 1 <= i < |s| ==> IsNameChar(s[i])
  }

  /**
   * `username_regex.match(s)` for `^[a-z][a-z0-9_-]*$`: Python's `$` also
   * matches just before a single final newline.
   */
  predicate MatchesNamePattern(s: string)
  {
    NameBody(s) || (|s| >= 2 && s[|s| - 1] == '\n' && NameBody(s[..|s| - 1]))
  }

  /** Some account or group on any server already carries the name. */
  predicate NameOnServers(systemUsers: map<Id, SystemUser>, systemGroups: map<Id, SystemGroup>, name: string)
  {
    (exists k :: k in systemUsers && systemUsers[k].username == name) ||
    (exists k :: k in systemGroups && systemGroups[k].groupname == name)
  }

  /**
   * `UserSerializer.validate_username`: the pattern, then the reserved list,
   * then the names already used by server accounts and groups.
   */
  function ValidateUsername(value: string, systemUsers: map<Id, SystemUser>, systemGroups: map<Id, SystemGroup>): (r: Result<string, Failure>)
    ensures r.Ok? ==> r.value == value
    ensures !MatchesNamePattern(value) ==> r == Err(ValidationError(INVALID_USERNAME))
    ensures MatchesNamePattern(value) && value in DISALLOWED_USERNAMES ==> r == Err(ValidationError(DISALLOWED_USERNAME))
    ensures MatchesNamePattern(value) && value !in DISALLOWED_USERNAMES && NameOnServers(systemUsers, systemGroups, value) ==>
      r == Err(ValidationError(USERNAME_IN_USE))
  {
    if !MatchesNamePattern(value) then Err(ValidationError(INVALID_USERNAME))
    else if value in DISALLOWED_USERNAMES then Err(ValidationError(DISALLOWED_USERNAME))
    else if NameOnServers(systemUsers, systemGroups, value) then Err(ValidationError(USERNAME_IN_USE))
    else Ok(value)
  }

  /** `GroupSerializer.validate_name`: the same three rules, with group wording. */
  function ValidateGroupName(value: string, systemUsers: map<Id, SystemUser>, systemGroups: map<Id, SystemGroup>): (r: Result<string, Failure>)
    ensures r.Ok? ==> r.value == value
    ensures !MatchesNamePattern(value) ==> r == Err(ValidationError(INVALID_GROUPNAME))
    ensures MatchesNamePattern(value) && value in DISALLOWED_USERNAMES ==> r == Err(ValidationError(DISALLOWED_GROUPNAME))
    ensures MatchesNamePattern(value) && value !in DISALLOWED_USERNAMES && NameOnServers(systemUsers, systemGroups, value) ==>
      r == Err(ValidationError(GROUPNAME_IN_USE))
  {
    if !MatchesNamePattern(value) then Err(ValidationError(INVALID_GROUPNAME))
    else if value in DISALLOWED_USERNAMES then Err(ValidationError(DISALLOWED_GROUPNAME))
    else if NameOnServers(systemUsers, systemGroups, value) then Err(ValidationError(GROUPNAME_IN_USE))
    else Ok(value)
  }

  /** Group names and usernames are accepted under exactly the same conditions. */
  lemma GroupNamesFollowUsernameRules(value: string, systemUsers: map<Id, SystemUser>, systemGroups: map<Id, SystemGroup>)
    ensures ValidateGroupName(value, systemUsers, systemGroups).Ok? <==> ValidateUsername(value, systemUsers, systemGroups).Ok?
  {
  }

  /**
   * An accepted name starts with a lowercase letter and is otherwise made of
   * lowercase letters, digits, `_` and `-`, except for one possible final
   * newline: no uppercase letter, space, `.` or `/` ever gets through.
   */
  lemma {:induction false} AcceptedNamesAreUnixSafe(value: string, systemUsers: map<Id, SystemUser>, systemGroups: map<Id, SystemGroup>)
    requires ValidateUsername(value, systemUsers, systemGroups).Ok?
    ensures |value| >= 1 && IsLower(value[0])
    ensures forall i :: 0 <= i < |value| ==> IsNameChar(value[i]) || (i == |value| - 1 && value[i] == '\n')
    ensures value !in DISALLOWED_USERNAMES && !NameOnServers(systemUsers, systemGroups, value)
  {
    if !NameBody(value) {
      var body := value[..|value| - 1];
      assert NameBody(body);
      forall i | 0 <= i < |value| ensures IsNameChar(value[i]) || (i == |value| - 1 && value[i] == '\n') {
        if i < |value| - 1 {
          assert value[i] == body[i];
          assert i == 0 ==> IsLower(body[0]);
        }
      }
      assert value[0] == body[0];
    }
  }

  /**
   * `^` and `$` without `re.MULTILINE`: exactly one trailing newline is
   * tolerated, and a name the pattern accepts is accepted with it too.
   */
  lemma {:induction false} TrailingNewlineIsTolerated(name: string)
    requires NameBody(name)
    ensures MatchesNamePattern(name + "\n")
    ensures !MatchesNamePattern(name + "\n\n")
  {
    var s := name + "\n";
    assert s[..|s| - 1] == name;
    var t := name + "\n\n";
    assert t[..|t| - 1] == s;
    assert !NameBody(t) by {
      assert t[|t| - 1] == '\n';
    }
    assert !NameBody(s) by {
      assert s[|s| - 1] == '\n';
    }
  }

  /** Test vectors: an uppercase initial fails the pattern, `root` is reserved, and a fresh lowercase name passes. */
  lemma UsernameExamples(systemUsers: map<Id, SystemUser>, systemGroups: map<Id, SystemGroup>)
    requires !NameOnServers(systemUsers, systemGroups, "alice")
    ensures ValidateUsername("Alice", systemUsers, systemGroups) == Err(ValidationError(INVALID_USERNAME))
    ensures ValidateUsername("1alice", systemUsers, systemGroups) == Err(ValidationError(INVALID_USERNAME))
    ensures ValidateUsername("root", systemUsers, systemGroups) == Err(ValidationError(DISALLOWED_USERNAME))
    ensures ValidateUsername("alice", systemUsers, systemGroups) == Ok("alice")
  {
    assert !NameBody("Alice") && !NameBody("1alice");
    assert "Alice"[|"Alice"| - 1] != '\n' && "1alice"[|"1alice"| - 1] != '\n';
    assert NameBody("root") && "root" in DISALLOWED_USERNAMES;
    assert NameBody("alice");
    assert "alice" !in DISALLOWED_USERNAMES;
  }

  /**
   * `validate_password`: an empty password validates to `None`; any other
   * is passed to the configured validators (`check` yields their message
   * when they refuse it) and kept as given.
   */
  function ValidatePassword(value: string, check: string -> Option<string>): (r: Result<Option<string>, Failure>)
    ensures value == "" ==> r == Ok(None)
    ensures value != "" && check(value).None? ==> r == Ok(Some(value))
    ensures value != "" && check(value).Some? ==> r == Err(ValidationError(check(value).value))
  {
    if value == "" then Ok(None)
    else match check(value)
      case None => Ok(Some(value))
      case Some(message) => Err(ValidationError(message))
  }

  /** An empty password is never handed to the validators, whatever they would say. */
  lemma EmptyPasswordSkipsValidators(check: string -> Option<string>, other: string -> Option<string>)
    ensures ValidatePassword("", check) == ValidatePassword("", other) == Ok(None)
  {
  }

  /** `MembershipSerializer.validate_group`: the default group's memberships cannot be created through the API. */
  function ValidateMembershipGroup(g: Group): (r: Result<Group, Failure>)
    ensures r.Ok? <==> g.name != DEFAULT_GROUP_NAME
    ensures r.Ok? ==> r.value == g
    ensures r.Err? ==> r.error == ValidationError(DEFAULT_GROUP_FIXED)
  {
    if g.name == DEFAULT_GROUP_NAME then Err(ValidationError(DEFAULT_GROUP_FIXED)) else Ok(g)
  }
}
