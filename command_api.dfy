// The REST endpoints of the events app: what each viewer may list, the
// agent's progress reports on a command (acknowledge, result, handled),
// command creation with its account and ACL checks and immediate delivery,
// cancellation before delivery, and event reports with repeat counting.
module CommandApi {
  import opened Common
  import opened Sessions
  import opened Commands
  import opened ServerRows
  import opened TokenRows
  import opened Store
  import Dispatch
  import Security
  import Tasks

  /** How a request fails: the object is not in the viewer's listing (404), or validation refused it (400). */
  datatype ApiError = NotFound | Invalid(messages: seq<string>)

  const ALREADY_ACKED: string := "Command has been already acknowledged."
  const ALREADY_HANDLED: string := "Command has been already handled."
  const NOTHING_TO_SET: string := "You should set at lease one of `result`, `acked_at`, and `handled_at`."
  const PERMISSION_DENIED: string := "Permission denied"
  const NOT_COMMISSIONED: string := "Requested server is not commissioned yet. Please finish the installation steps first."
  const NOT_CONNECTED: string := "Requested server is not connected. Please check the server status first."
  const NO_ACCOUNT: string := "Username or groupname is not registered or you do not have permission."
  const CANNOT_CANCEL: string := "Command cannot be cancelled as it has already been sent to the server."
  const SERVER_NOT_IDENTIFIED: string := "Server not identified."

  // ----- visibility -----

  /**
   * Who is asking: the agent of server `server` (an authenticated API
   * client), a staff member or superuser, or any other user, who sees the
   * servers `servers` shared with one of their groups.
   */
  datatype Viewer = Agent(server: Id) | Staff | Member(servers: set<Id>)

  /** The commands hidden from people: internal probes nobody requested, and every internal `resizepty`. */
  predicate Hidden(c: Command)
  {
    c.shell == Internal && (((c.line == "ping" || c.line == "debug") && c.requestedBy.None?) || c.line == "resizepty")
  }

  /** `get_queryset`: the commands `viewer` may list and fetch. */
  function Visible(cmds: map<Id, Command>, viewer: Viewer): (r: set<Id>)
    ensures r <= cmds.Keys
    ensures viewer.Agent? ==> forall k :: k in cmds ==> (k in r <==> cmds[k].server == viewer.server)
    ensures viewer.Staff? ==> forall k :: k in cmds ==> (k in r <==> !Hidden(cmds[k]))
    ensures viewer.Member? ==> forall k :: k in cmds ==> (k in r <==> cmds[k].server in viewer.servers && !Hidden(cmds[k]))
  {
    match viewer
    case Agent(s) => set k | k in cmds && cmds[k].server == s
    case Staff => set k | k in cmds && !Hidden(cmds[k])
    case Member(ss) => set k | k in cmds && cmds[k].server in ss && !Hidden(cmds[k])
  }

  /** Every command the weekly clean-up deletes was already hidden from people. */
  lemma PurgedProbesWereHidden(c: Command, now: Time)
    requires Tasks.IsOldProbe(c, now)
    ensures Hidden(c)
  {
  }

  /** A probe that a person requested is listed like any other command. */
  lemma RequestedProbesAreShown(cmds: map<Id, Command>, k: Id)
    requires k in cmds && cmds[k].requestedBy.Some? && cmds[k].line != "resizepty"
    ensures k in Visible(cmds, Staff)
  {
  }

  // ----- progress reports from the agent -----

  /**
   * The writable fields an update request carries; a present field is
   * `Some`. The times supplied for `acked_at` and `handled_at` are kept
   * only so that the model can show they are ignored.
   */
  datatype UpdateRequest = UpdateRequest(success: Option<Option<bool>>, result: Option<Option<string>>,
                                         ackedAt: Option<Option<Time>>, handledAt: Option<Option<Time>>)

  /** The validated changes: present fields, with both timestamps taken from the server's clock. */
  datatype Changes = Changes(success: Option<Option<bool>>, result: Option<Option<string>>,
                             ackedAt: Option<Time>, handledAt: Option<Time>)

  /** The per-field messages `validate_acked_at` and `validate_handled_at` raise, in field order. */
  function TimestampErrors(c: Command, req: UpdateRequest): (r: seq<string>)
    ensures ALREADY_ACKED in r <==> req.ackedAt.Some? && c.ackedAt.Some?
    ensures ALREADY_HANDLED in r <==> req.handledAt.Some? && c.handledAt.Some?
    ensures r == [] <==> !(req.ackedAt.Some? && c.ackedAt.Some?) && !(req.handledAt.Some? && c.handledAt.Some?)
  {
    (if req.ackedAt.Some? && c.ackedAt.Some? then [ALREADY_ACKED] else []) +
    (if req.handledAt.Some? && c.handledAt.Some? then [ALREADY_HANDLED] else [])
  }

  /**
   * `CommandUpdateSerializer` validation. A report that handles the command
   * keeps every field; an acknowledgement keeps only `acked_at`; a bare
   * result keeps only `result` and is refused once the command is handled;
   * anything else is refused.
   */
  function Validated(c: Command, req: UpdateRequest, now: Time): (r: Result<Changes, ApiError>)
    ensures r.Err? ==> r.error.Invalid? && r.error.messages != []
    ensures r.Ok? <==>
      TimestampErrors(c, req) == [] && (req.handledAt.Some? || req.ackedAt.Some? || (req.result.Some? && c.handledAt.None?))
    ensures r.Ok? && req.handledAt.Some? ==>
      r.value == Changes(req.success, req.result, if req.ackedAt.Some? then Some(now) else None, Some(now))
    ensures r.Ok? && req.handledAt.None? && req.ackedAt.Some? ==> r.value == Changes(None, None, Some(now), None)
    ensures r.Ok? && req.handledAt.None? && req.ackedAt.None? ==> r.value == Changes(None, req.result, None, None)
  {
    var errors := TimestampErrors(c, req);
    if errors != [] then Err(Invalid(errors))
    else if req.handledAt.Some? then
      Ok(Changes(req.success, req.result, if req.ackedAt.Some? then Some(now) else None, Some(now)))
    else if req.ackedAt.Some? then Ok(Changes(None, None, Some(now), None))
    else if req.result.Some? then
      if c.handledAt.Some? then Err(Invalid([ALREADY_HANDLED])) else Ok(Changes(None, req.result, None, None))
    else Err(Invalid([NOTHING_TO_SET]))
  }

  /** The row after the validated changes are saved onto it. */
  function Applied(c: Command, ch: Changes): (r: Command)
    ensures r.success == (if ch.success.Some? then ch.success.value else c.success)
    ensures r.result == (if ch.result.Some? then ch.result.value else c.result)
    ensures r.ackedAt == (if ch.ackedAt.Some? then ch.ackedAt else c.ackedAt)
    ensures r.handledAt == (if ch.handledAt.Some? then ch.handledAt else c.handledAt)
    ensures r == c.(success := r.success, result := r.result, ackedAt := r.ackedAt, handledAt := r.handledAt)
  {
    c.(success := if ch.success.Some? then ch.success.value else c.success,
       result := if ch.result.Some? then ch.result.value else c.result,
       ackedAt := if ch.ackedAt.Some? then ch.ackedAt else c.ackedAt,
       handledAt := if ch.handledAt.Some? then ch.handledAt else c.handledAt)
  }

  /** `PUT`/`PATCH` on a command: fetch it through the viewer's listing, validate, save. */
  function Updated(cmds: map<Id, Command>, viewer: Viewer, k: Id, req: UpdateRequest, now: Time): (r: Result<map<Id, Command>, ApiError>)
    ensures k !in Visible(cmds, viewer) ==> r == Err(NotFound)
    ensures k in Visible(cmds, viewer) ==> (r.Ok? <==> Validated(cmds[k], req, now).Ok?)
    ensures r.Ok? ==> r.value == cmds[k := Applied(cmds[k], Validated(cmds[k], req, now).value)]
  {
    if k !in Visible(cmds, viewer) then Err(NotFound)
    else
      match Validated(cmds[k], req, now)
      case Err(e) => Err(e)
      case Ok(ch) => Ok(cmds[k := Applied(cmds[k], ch)])
  }

  /** A command is acknowledged once: a second acknowledgement is refused and changes nothing. */
  lemma {:induction false} SecondAckIsRefused(cmds: map<Id, Command>, viewer: Viewer, k: Id, req: UpdateRequest, now: Time)
    requires k in cmds && cmds[k].ackedAt.Some? && req.ackedAt.Some?
    ensures Updated(cmds, viewer, k, req, now).Err?
    ensures k in Visible(cmds, viewer) ==> ALREADY_ACKED in Updated(cmds, viewer, k, req, now).error.messages
  {
    assert ALREADY_ACKED in TimestampErrors(cmds[k], req);
  }

  /**
   * An acknowledgement of an unacknowledged command stamps the server's
   * clock, whatever time was supplied, and drops every other field sent with it.
   */
  lemma {:induction false} AckStampsServerTime(cmds: map<Id, Command>, viewer: Viewer, k: Id, req: UpdateRequest, now: Time)
    requires k in Visible(cmds, viewer) && cmds[k].ackedAt.None? && req.ackedAt.Some? && req.handledAt.None?
    ensures Updated(cmds, viewer, k, req, now) == Ok(cmds[k := cmds[k].(ackedAt := Some(now))])
  {
    var ch := Validated(cmds[k], req, now).value;
    assert Applied(cmds[k], ch) == cmds[k].(ackedAt := Some(now));
  }

  /**
   * Completing a command over HTTP writes only that row: unlike `fin`, the
   * commands waiting for it are not cancelled on failure and stay as they were.
   */
  lemma {:induction false} HttpCompletionSkipsCascade(cmds: map<Id, Command>, viewer: Viewer, k: Id, req: UpdateRequest, now: Time)
    requires Updated(cmds, viewer, k, req, now).Ok? && cmds[k].handledAt.None? && req.handledAt.Some?
    ensures var r := Updated(cmds, viewer, k, req, now).value;
      r[k].handledAt == Some(now) && r.Keys == cmds.Keys &&
      (forall j :: j in RunBefore(cmds, k) && j != k ==> r[j] == cmds[j])
  {
  }

  /** `CommandViewSet.update`: the row is rewritten as `Updated` says, or nothing changes. */
  method Update(db: Db, viewer: Viewer, k: Id, req: UpdateRequest, now: Time) returns (r: Result<(), ApiError>)
    modifies db`commands
    ensures r.Ok? <==> Updated(old(db.commands), viewer, k, req, now).Ok?
    ensures r.Err? ==> r.error == Updated(old(db.commands), viewer, k, req, now).error && db.commands == old(db.commands)
    ensures r.Ok? ==> db.commands == Updated(old(db.commands), viewer, k, req, now).value
  {
    match Updated(db.commands, viewer, k, req, now)
    case Err(e) =>
      r := Err(e);
    case Ok(cmds) =>
      db.commands := cmds;
      r := Ok(());
  }

  // ----- creation -----

  /** How the request was authenticated: with an API token, or otherwise (session or API client). */
  datatype Credential = TokenAuth(token: ApiToken) | OtherAuth

  /** The user making the request. */
  datatype Requester = Requester(user: Id, username: string)

  /** The fields of a create request; `scheduledAt` is `None` when left out or null. */
  datatype CreateRequest = CreateRequest(server: Id, shell: Shell, line: string, data: Option<string>,
                                         username: Option<string>, groupname: Option<string>,
                                         scheduledAt: Option<Time>, runAfter: seq<Id>)

  /** `validate_line` consults the ACL only for API tokens issued through the API. */
  predicate AclApplies(auth: Credential)
  {
    auth.TokenAuth? && auth.token.source == Api
  }

  /** The first of `ks` that is not a key of `cmds`, which is the one the dependency field reports. */
  function FirstMissing(ks: seq<Id>, cmds: map<Id, Command>): (r: Option<nat>)
    ensures r.None? <==> forall i :: 0 <= i < |ks| ==> ks[i] in cmds
    ensures r.Some? ==> r.value < |ks| && ks[r.value] !in cmds && forall i :: 0 <= i < r.value ==> ks[i] in cmds
  {
    if ks == [] then None
    else if ks[0] !in cmds then Some(0)
    else match FirstMissing(ks[1..], cmds)
      case None => None
      case Some(j) => Some(j + 1)
  }

  /** The `max_length` of `Command.line`, and of `username` and `groupname`. */
  const LINE_MAX_LENGTH: nat := 512
  const ACCOUNT_NAME_MAX_LENGTH: nat := 128

  /**
   * The messages of the `line` field: the field's own checks (not blank, at
   * most 512 characters) come first, and only a line that passes them
   * reaches `validate_line` and the ACL.
   */
  function LineErrors(acls: map<Id, Acl>, line: string, auth: Credential): (r: seq<string>)
    ensures r == [] <==> line != "" && |line| <= LINE_MAX_LENGTH && (AclApplies(auth) ==> Security.Allowed(acls, auth.token.id, line))
    ensures line == "" ==> r == [FIELD_BLANK]
    ensures line != "" && |line| > LINE_MAX_LENGTH ==> r == [TooLong(LINE_MAX_LENGTH)]
    ensures r != [] && line != "" && |line| <= LINE_MAX_LENGTH ==> r == [PERMISSION_DENIED]
  {
    if line == "" then [FIELD_BLANK]
    else if |line| > LINE_MAX_LENGTH then [TooLong(LINE_MAX_LENGTH)]
    else if AclApplies(auth) && !Security.Allowed(acls, auth.token.id, line) then [PERMISSION_DENIED]
    else []
  }

  /** The message of an optional account-name field (`blank=True`, at most 128 characters). */
  function NameErrors(name: Option<string>): (r: seq<string>)
    ensures r == [] <==> name.None? || |name.value| <= ACCOUNT_NAME_MAX_LENGTH
    ensures r != [] ==> r == [TooLong(ACCOUNT_NAME_MAX_LENGTH)]
  {
    if name.Some? && |name.value| > ACCOUNT_NAME_MAX_LENGTH then [TooLong(ACCOUNT_NAME_MAX_LENGTH)] else []
  }

  /** The per-field messages of a create request, in the order of `Meta.fields`: line, username, groupname, server, dependencies. */
  function CreateFieldErrors(servers: map<Id, Server>, cmds: map<Id, Command>, acls: map<Id, Acl>,
                             req: CreateRequest, auth: Credential): (r: seq<string>)
    ensures PERMISSION_DENIED in r <==>
      req.line != "" && |req.line| <= LINE_MAX_LENGTH && AclApplies(auth) && !Security.Allowed(acls, auth.token.id, req.line)
    ensures r == [] <==>
      req.line != "" && |req.line| <= LINE_MAX_LENGTH && (AclApplies(auth) ==> Security.Allowed(acls, auth.token.id, req.line)) &&
      (req.username.None? || |req.username.value| <= ACCOUNT_NAME_MAX_LENGTH) &&
      (req.groupname.None? || |req.groupname.value| <= ACCOUNT_NAME_MAX_LENGTH) &&
      req.server in servers && forall i :: 0 <= i < |req.runAfter| ==> req.runAfter[i] in cmds
    ensures req.line == "" ==> r != [] && r[0] == FIELD_BLANK
    ensures req.line != "" && |req.line| > LINE_MAX_LENGTH ==> r != [] && r[0] == TooLong(LINE_MAX_LENGTH)
  {
    var others := NameErrors(req.username) + NameErrors(req.groupname) +
      (if req.server !in servers then [InvalidPk(req.server)] else []) +
      (match FirstMissing(req.runAfter, cmds)
       case None => []
       case Some(i) => [InvalidPk(req.runAfter[i])]);
    assert PERMISSION_DENIED !in others by {
      NotAPermissionMessage();
    }
    LineErrors(acls, req.line, auth) + others
  }

  /** No message of the other fields reads "Permission denied". */
  lemma NotAPermissionMessage()
    ensures PERMISSION_DENIED != TooLong(ACCOUNT_NAME_MAX_LENGTH)
    ensures forall k :: PERMISSION_DENIED != InvalidPk(k)
  {
    assert PERMISSION_DENIED[0] != TooLong(ACCOUNT_NAME_MAX_LENGTH)[0];
    forall k ensures PERMISSION_DENIED != InvalidPk(k) {
      assert PERMISSION_DENIED[1] != InvalidPk(k)[1];
    }
  }

  /** Python's `x or default` on an optional string. */
  function OrElse(x: Option<string>, default: string): (r: string)
    ensures NonEmpty(x) ==> r == x.value
    ensures !NonEmpty(x) ==> r == default
  {
    if x.Some? && x.value != "" then x.value else default
  }

  /**
   * `WebshValidationSerializer.validate`: the account a command runs as.
   * The server must be commissioned and connected; the username defaults to
   * the requester's, the group to the user's own group when the user is a
   * system user of the server and to "alpacon" otherwise; only system users
   * and the requester's own name are accepted, and the pair must pass the
   * server's access check. `isSystemUser` and `hasAccess` stand for the
   * server's `is_systemuser` and `has_access(requester, ...)`.
   */
  function Account(server: Server, connected: bool, requester: Requester, username: Option<string>, groupname: Option<string>,
                   isSystemUser: string -> bool, hasAccess: (string, string) -> bool): (r: Result<(string, string), ApiError>)
    ensures r.Ok? <==>
      server.commissioned && connected &&
      (isSystemUser(OrElse(username, requester.username)) || OrElse(username, requester.username) == requester.username) &&
      hasAccess(OrElse(username, requester.username),
                OrElse(groupname, if isSystemUser(OrElse(username, requester.username)) then OrElse(username, requester.username) else DEFAULT_GROUPNAME))
    ensures !server.commissioned ==> r == Err(Invalid([NOT_COMMISSIONED]))
    ensures server.commissioned && !connected ==> r == Err(Invalid([NOT_CONNECTED]))
    ensures r.Ok? ==> r.value.0 == OrElse(username, requester.username)
    ensures r.Ok? && NonEmpty(groupname) ==> r.value.1 == groupname.value
    ensures r.Ok? && !NonEmpty(groupname) ==> r.value.1 == if isSystemUser(r.value.0) then r.value.0 else DEFAULT_GROUPNAME
  {
    var user := OrElse(username, requester.username);
    if !server.commissioned then Err(Invalid([NOT_COMMISSIONED]))
    else if !connected then Err(Invalid([NOT_CONNECTED]))
    else
      var group := OrElse(groupname, if isSystemUser(user) then user else DEFAULT_GROUPNAME);
      if !isSystemUser(user) && user != requester.username then Err(Invalid([NO_ACCOUNT]))
      else if !hasAccess(user, group) then Err(Invalid([NO_ACCOUNT]))
      else Ok((user, group))
  }

  /** The row a valid create request saves: requested by the requester, due now when no time was given. */
  function Drafted(servers: map<Id, Server>, sessions: map<Id, Session>, cmds: map<Id, Command>, acls: map<Id, Acl>,
                   req: CreateRequest, requester: Requester, auth: Credential,
                   isSystemUser: string -> bool, hasAccess: (string, string) -> bool, now: Time): (r: Result<Command, ApiError>)
    ensures r.Err? ==> r.error.Invalid?
    ensures CreateFieldErrors(servers, cmds, acls, req, auth) != [] ==> r == Err(Invalid(CreateFieldErrors(servers, cmds, acls, req, auth)))
    ensures r.Ok? ==> req.server in servers && servers[req.server].commissioned && IsConnected(sessions, req.server)
    ensures r.Ok? ==> 0 < |r.value.line| <= LINE_MAX_LENGTH
    ensures r.Ok? ==>
      r.value.server == req.server && r.value.shell == req.shell && r.value.line == req.line &&
      r.value.requestedBy == Some(requester.user) && r.value.deliveredAt.None? && r.value.handledAt.None? &&
      r.value.scheduledAt == Some(if req.scheduledAt.Some? then req.scheduledAt.value else now) &&
      (r.value.data.Some? <==> req.data.Some?) && (req.data.Some? ==> r.value.data.value == Text(req.data.value)) &&
      (forall d :: d in r.value.runAfter <==> exists i :: 0 <= i < |req.runAfter| && req.runAfter[i] == d)
  {
    var errors := CreateFieldErrors(servers, cmds, acls, req, auth);
    if errors != [] then Err(Invalid(errors))
    else
      match Account(servers[req.server], IsConnected(sessions, req.server), requester, req.username, req.groupname, isSystemUser, hasAccess)
      case Err(e) => Err(e)
      case Ok(account) =>
        var data := if req.data.Some? then Some(Text(req.data.value)) else None;
        var due := if req.scheduledAt.Some? then req.scheduledAt.value else now;
        Ok(Command(req.server, req.shell, req.line, data, None, None, Some(due), None, None, None,
                   Some(requester.user), account.0, account.1, set i | 0 <= i < |req.runAfter| :: req.runAfter[i]))
  }

  /** The ACL decides nothing unless the request came with an API-sourced token. */
  lemma AclOnlyForApiTokens(servers: map<Id, Server>, sessions: map<Id, Session>, cmds: map<Id, Command>,
                            acls1: map<Id, Acl>, acls2: map<Id, Acl>, req: CreateRequest, requester: Requester, auth: Credential,
                            isSystemUser: string -> bool, hasAccess: (string, string) -> bool, now: Time)
    requires !AclApplies(auth)
    ensures Drafted(servers, sessions, cmds, acls1, req, requester, auth, isSystemUser, hasAccess, now) ==
            Drafted(servers, sessions, cmds, acls2, req, requester, auth, isSystemUser, hasAccess, now)
  {
  }

  /** A line that passes the field's own checks but that no ACL row of an API-sourced token admits is refused. */
  lemma UnlistedLineIsRefused(servers: map<Id, Server>, sessions: map<Id, Session>, cmds: map<Id, Command>,
                              acls: map<Id, Acl>, req: CreateRequest, requester: Requester, auth: Credential,
                              isSystemUser: string -> bool, hasAccess: (string, string) -> bool, now: Time)
    requires req.line != "" && |req.line| <= LINE_MAX_LENGTH
    requires AclApplies(auth) && !Security.Allowed(acls, auth.token.id, req.line)
    ensures var r := Drafted(servers, sessions, cmds, acls, req, requester, auth, isSystemUser, hasAccess, now);
      r.Err? && PERMISSION_DENIED in r.error.messages
  {
  }

  /**
   * A blank line, or one over 512 characters, is refused by the field
   * itself, whatever the ACL says: its message comes first, and the ACL is
   * never consulted.
   */
  lemma BadLinesAreRefused(servers: map<Id, Server>, sessions: map<Id, Session>, cmds: map<Id, Command>,
                           acls: map<Id, Acl>, req: CreateRequest, requester: Requester, auth: Credential,
                           isSystemUser: string -> bool, hasAccess: (string, string) -> bool, now: Time)
    requires req.line == "" || |req.line| > LINE_MAX_LENGTH
    ensures var r := Drafted(servers, sessions, cmds, acls, req, requester, auth, isSystemUser, hasAccess, now);
      r.Err? && r.error.messages != [] && PERMISSION_DENIED !in r.error.messages &&
      r.error.messages[0] == if req.line == "" then FIELD_BLANK else TooLong(LINE_MAX_LENGTH)
  {
  }

  /**
   * Creation delivers a due command even while one of its dependencies is
   * unhandled, which the sweep never does: the saved row is blocked.
   */
  lemma {:induction false} CreateIgnoresDependencies(servers: map<Id, Server>, sessions: map<Id, Session>, cmds: map<Id, Command>,
                                                     acls: map<Id, Acl>, req: CreateRequest, requester: Requester, auth: Credential,
                                                     isSystemUser: string -> bool, hasAccess: (string, string) -> bool,
                                                     now: Time, id: Id, i: nat)
    requires Drafted(servers, sessions, cmds, acls, req, requester, auth, isSystemUser, hasAccess, now).Ok?
    requires id !in cmds && i < |req.runAfter| && cmds[req.runAfter[i]].handledAt.None?
    ensures var row := Drafted(servers, sessions, cmds, acls, req, requester, auth, isSystemUser, hasAccess, now).value;
      Dispatch.Blocked(cmds[id := row], id) && Dispatch.Blocked(cmds[id := row.(deliveredAt := Some(now))], id)
  {
    var row := Drafted(servers, sessions, cmds, acls, req, requester, auth, isSystemUser, hasAccess, now).value;
    var d := req.runAfter[i];
    assert d in row.runAfter && d in cmds && d != id;
    assert cmds[id := row][d] == cmds[d];
    assert cmds[id := row.(deliveredAt := Some(now))][d] == cmds[d];
  }

  /**
   * `CommandViewSet.create`: validate, save with a fresh key, and deliver at
   * once (recording `delivered_at`) when the command is due; the server is
   * connected whenever validation passes.
   */
  method Create(db: Db, req: CreateRequest, requester: Requester, auth: Credential,
                isSystemUser: string -> bool, hasAccess: (string, string) -> bool, now: Time) returns (r: Result<Id, ApiError>)
    requires db.ValidCommands()
    modifies db`commands, db`outbox, db`nextCommand
    ensures db.ValidCommands()
    ensures var d := Drafted(old(db.servers), db.sessions, old(db.commands), db.acls, req, requester, auth, isSystemUser, hasAccess, now);
      (r.Err? <==> d.Err?) && (r.Err? ==> r.error == d.error && unchanged(db`commands, db`outbox, db`nextCommand))
    ensures r.Ok? ==> r.value == old(db.nextCommand) && db.nextCommand == r.value + 1 && r.value !in old(db.commands)
    ensures r.Ok? ==>
      var row := Drafted(old(db.servers), db.sessions, old(db.commands), db.acls, req, requester, auth, isSystemUser, hasAccess, now).value;
      if row.scheduledAt.value <= now then
        db.commands == old(db.commands)[r.value := row.(deliveredAt := Some(now))] &&
        old(db.outbox) <= db.outbox &&
        PushedToEach(db.outbox[|old(db.outbox)|..], db.sessions, OpenSessionsOf(db.sessions, req.server), Request(r.value, row))
      else
        db.commands == old(db.commands)[r.value := row] && db.outbox == old(db.outbox)
  {
    var d := Drafted(db.servers, db.sessions, db.commands, db.acls, req, requester, auth, isSystemUser, hasAccess, now);
    if d.Err? {
      return Err(d.error);
    }
    var row := d.value;
    var id := db.SaveCommand(row);
    if row.scheduledAt.value <= now && IsConnected(db.sessions, row.server) {
      Dispatch.Execute(db, id, true, now);
    }
    r := Ok(id);
  }

  // ----- cancellation -----

  /**
   * `DELETE` on a command: refused once it has been delivered; otherwise the
   * row goes, and so do the dependency links to and from it.
   */
  function Destroyed(cmds: map<Id, Command>, viewer: Viewer, k: Id): (r: Result<map<Id, Command>, ApiError>)
    ensures k !in Visible(cmds, viewer) ==> r == Err(NotFound)
    ensures k in Visible(cmds, viewer) ==> (r.Err? <==> cmds[k].deliveredAt.Some?)
    ensures r.Err? && k in Visible(cmds, viewer) ==> r.error == Invalid([CANNOT_CANCEL])
    ensures r.Ok? ==>
      r.value.Keys == cmds.Keys - {k} &&
      forall j :: j in r.value ==> r.value[j] == cmds[j].(runAfter := cmds[j].runAfter - {k})
  {
    if k !in Visible(cmds, viewer) then Err(NotFound)
    else if cmds[k].deliveredAt.Some? then Err(Invalid([CANNOT_CANCEL]))
    else Ok(map j | j in cmds && j != k :: cmds[j].(runAfter := cmds[j].runAfter - {k}))
  }

  /** Cancelling the last unhandled dependency of a command lets the next sweep deliver it. */
  lemma {:induction false} CancelUnblocksDependents(cmds: map<Id, Command>, viewer: Viewer, k: Id, j: Id)
    requires Destroyed(cmds, viewer, k).Ok? && j in cmds && j != k
    requires forall d :: d in cmds[j].runAfter && d in cmds && cmds[d].handledAt.None? ==> d == k
    ensures j in Destroyed(cmds, viewer, k).value && !Dispatch.Blocked(Destroyed(cmds, viewer, k).value, j)
  {
    var r := Destroyed(cmds, viewer, k).value;
    assert r[j].runAfter == cmds[j].runAfter - {k};
    forall d | d in r[j].runAfter && d in r ensures r[d].handledAt.Some? {
      assert r[d].handledAt == cmds[d].handledAt;
    }
  }

  /** `CommandViewSet.destroy`: the table becomes `Destroyed`'s, or nothing changes. */
  method Destroy(db: Db, viewer: Viewer, k: Id) returns (r: Result<(), ApiError>)
    modifies db`commands
    ensures r.Ok? <==> Destroyed(old(db.commands), viewer, k).Ok?
    ensures r.Err? ==> r.error == Destroyed(old(db.commands), viewer, k).error && db.commands == old(db.commands)
    ensures r.Ok? ==> db.commands == Destroyed(old(db.commands), viewer, k).value
  {
    match Destroyed(db.commands, viewer, k)
    case Err(e) =>
      r := Err(e);
    case Ok(cmds) =>
      db.commands := cmds;
      r := Ok(());
  }

  // ----- event reports -----

  /** The events a repeated report may be folded into: same server, record and reporter, updated in the last ten minutes. */
  function RecentRepeats(events: map<Id, Event>, server: Id, record: string, reporter: string, now: Time): (r: set<Id>)
    ensures forall k :: k in r <==>
      k in events && events[k].server == server && events[k].record == record &&
      events[k].reporter == reporter && events[k].updatedAt > now - REPEAT_WINDOW
  {
    set k | k in events && events[k].server == server && events[k].record == record &&
      events[k].reporter == reporter && events[k].updatedAt > now - REPEAT_WINDOW
  }

  /** `k` is a most recently updated event of `among` (what `.latest()` returns). */
  predicate IsLatest(events: map<Id, Event>, among: set<Id>, k: Id)
  {
    k in among && k in events && forall j :: j in among && j in events ==> events[j].updatedAt <= events[k].updatedAt
  }

  /** Every non-empty set of events has a latest one. */
  lemma {:induction false} LatestExists(events: map<Id, Event>, among: set<Id>)
    requires among != {} && among <= events.Keys
    ensures exists k :: IsLatest(events, among, k)
    decreases |among|
  {
    var k :| k in among;
    if among == {k} {
      assert IsLatest(events, among, k);
    } else {
      var rest := among - {k};
      LatestExists(events, rest);
      var j :| IsLatest(events, rest, j);
      if events[j].updatedAt <= events[k].updatedAt {
        assert IsLatest(events, among, k);
      } else {
        assert IsLatest(events, among, j);
      }
    }
  }

  /** The event table after a repeat is folded into event `k`: its count goes up by one and it is touched now. */
  function Counted(events: map<Id, Event>, k: Id, now: Time): (r: map<Id, Event>)
    requires k in events
    ensures r.Keys == events.Keys && r[k].count == events[k].count + 1 && r[k].updatedAt == now
    ensures r[k] == events[k].(count := r[k].count, updatedAt := now)
    ensures forall j :: j in events && j != k ==> r[j] == events[j]
  {
    events[k := events[k].(count := events[k].count + 1, updatedAt := now)]
  }

  /**
   * A repeat folded into the latest recent match keeps that event the latest
   * recent match for as long as the repeat window lasts, so later repeats
   * keep folding into the same event.
   */
  lemma FoldedEventStaysLatest(events: map<Id, Event>, server: Id, record: string, reporter: string, k: Id, now: Time, later: Time)
    requires IsLatest(events, RecentRepeats(events, server, record, reporter, now), k)
    requires forall j :: j in events ==> events[j].updatedAt <= now
    requires now <= later < now + REPEAT_WINDOW
    ensures var after := Counted(events, k, now);
      IsLatest(after, RecentRepeats(after, server, record, reporter, later), k) && after[k].count == events[k].count + 1
  {
  }

  /**
   * `EventViewSet.create` by the agent of server `client`: a repeated report
   * with a recent match raises that event's count and does nothing else;
   * any other report is saved as a new event with count 1 and then handled.
   */
  method ReportEvent(db: Db, client: Option<Id>, record: string, reporter: string, description: Option<string>,
                     data: Option<Json>, repeated: bool, now: Time) returns (r: Result<Id, ApiError>)
    requires db.ValidEvents()
    modifies db`events, db`nextEvent, db`servers, db`installers
    ensures db.ValidEvents()
    ensures client.None? ==> r == Err(Invalid([SERVER_NOT_IDENTIFIED]))
    ensures client.Some? && client.value !in old(db.servers) ==> r == Err(NotFound)
    ensures r.Err? ==> unchanged(db`events, db`nextEvent, db`servers, db`installers)
    ensures client.Some? && client.value in old(db.servers) ==> r.Ok?
    ensures r.Ok? && repeated && RecentRepeats(old(db.events), client.value, record, reporter, now) != {} ==>
      IsLatest(old(db.events), RecentRepeats(old(db.events), client.value, record, reporter, now), r.value) &&
      db.events == Counted(old(db.events), r.value, now) &&
      unchanged(db`nextEvent, db`servers, db`installers)
    ensures r.Ok? && !(repeated && RecentRepeats(old(db.events), client.value, record, reporter, now) != {}) ==>
      r.value == old(db.nextEvent) && r.value !in old(db.events) &&
      db.events == old(db.events)[r.value := Event(client.value, 1, record, reporter, description, data, now, now)] &&
      db.servers == Dispatch.ServersAfterEvent(old(db.servers), client.value, EffectOf(reporter, record), now) &&
      db.installers == if EffectOf(reporter, record) == MarkStarted
                       then Dispatch.InstallersWithout(old(db.installers), client.value) else old(db.installers)
  {
    if client.None? {
      return Err(Invalid([SERVER_NOT_IDENTIFIED]));
    }
    var server := client.value;
    if server !in db.servers {
      return Err(NotFound);
    }
    var repeats := RecentRepeats(db.events, server, record, reporter, now);
    if repeated && repeats != {} {
      LatestExists(db.events, repeats);
      var k :| IsLatest(db.events, repeats, k);
      db.events := Counted(db.events, k, now);
      return Ok(k);
    }
    var id := db.SaveEvent(Event(server, 1, record, reporter, description, data, now, now));
    Dispatch.HandleEvent(db, server, reporter, record, now);
    r := Ok(id);
  }
}
