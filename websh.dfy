// The web terminal: sessions a user opens on a server, the channels that
// join them (the owner's, those shared by password, the agent's pty end),
// and the files sent to or fetched from a server on a user's behalf.
module Websh {
  import opened Common
  import opened IamRows
  import opened ServerRows
  import opened Sessions
  import opened Commands
  import opened WebshRows
  import opened Store
  import ServerOps
  import CommandApi
  import Proc
  import SemVer
  import ProcRows

  // ----- channel tokens and passwords -----

  /**
   * `Channel.save`: a channel without a token gets `token`, made now and
   * expiring one share timeout later; a channel that has one keeps it, with
   * its times. `token` stands for `get_random_string(CHANNEL_TOKEN_LENGTH)`.
   */
  function WithToken(c: Channel, token: string, now: Time): (r: Channel)
    ensures r.token.Some?
    ensures c.token.Some? ==> r == c
    ensures c.token.None? ==>
      r.token == Some(token) && r.tokenCreatedAt == Some(now) && r.tokenExpiredAt == Some(now + SHARE_TIMEOUT)
    ensures r.(token := c.token, tokenCreatedAt := c.tokenCreatedAt, tokenExpiredAt := c.tokenExpiredAt) == c
  {
    if c.token.Some? then c
    else c.(token := Some(token), tokenCreatedAt := Some(now), tokenExpiredAt := Some(now + SHARE_TIMEOUT))
  }

  /** `UserChannel.save`: a password is drawn only for a channel that has none, then the channel's own save runs. */
  function UserChannelSaved(c: Channel, token: string, password: string, now: Time): (r: Channel)
    ensures r.password == if c.password.Some? then c.password else Some(password)
    ensures r.token.Some? && (c.token.Some? ==> r.token == c.token && r.tokenExpiredAt == c.tokenExpiredAt)
    ensures r.session == c.session && r.user == c.user && r.isMaster == c.isMaster && r.readOnly == c.readOnly
  {
    WithToken(if c.password.Some? then c else c.(password := Some(password)), token, now)
  }

  const EXPIRY_UNSET: string := "'>' not supported between instances of 'NoneType' and 'datetime.datetime'"

  /** `is_token_valid`: the token expires strictly after now; a channel never saved has no expiry to compare. */
  function TokenValid(c: Channel, now: Time): (r: Result<bool, Failure>)
    ensures c.tokenExpiredAt.None? <==> r == Err(TypeError(EXPIRY_UNSET))
    ensures r.Ok? ==> (r.value <==> now < c.tokenExpiredAt.value)
  {
    if c.tokenExpiredAt.None? then Err(TypeError(EXPIRY_UNSET)) else Ok(c.tokenExpiredAt.value > now)
  }

  /** `is_password_valid`: exact equality with the stored password; a channel without one accepts nothing. */
  function PasswordValid(c: Channel, password: string): (r: bool)
  {
    c.password == Some(password)
  }

  /** Saving a channel again keeps its token, its times and its password. */
  lemma SavingAgainKeepsTheSecrets(c: Channel, token1: string, password1: string, now1: Time,
                                   token2: string, password2: string, now2: Time)
    ensures var once := UserChannelSaved(c, token1, password1, now1);
      UserChannelSaved(once, token2, password2, now2) == once
  {
  }

  /**
   * A token made at `now` is valid exactly before one share timeout has
   * passed: at the instant of expiry it is already invalid.
   */
  lemma NewTokenLastsTheShareTimeout(c: Channel, token: string, now: Time, t: Time)
    requires c.token.None?
    ensures TokenValid(WithToken(c, token, now), t) == Ok(t < now + SHARE_TIMEOUT)
    ensures TokenValid(WithToken(c, token, now), now + SHARE_TIMEOUT) == Ok(false)
  {
  }

  /** A drawn password is the only one the channel accepts. */
  lemma OnlyTheDrawnPasswordIsValid(c: Channel, token: string, password: string, now: Time, guess: string)
    requires c.password.None?
    ensures PasswordValid(UserChannelSaved(c, token, password, now), guess) <==> guess == password
  {
  }

  // ----- websocket URLs -----

  /** `'%s' % token`: the token's text, or `None` for a channel never saved. */
  function TokenText(token: Option<string>): string
  {
    if token.Some? then token.value else "None"
  }

  /** `get_user_ws_url`: `<root>ws/websh/<channel>/<token>/`. */
  function UserWsUrl(root: string, channel: Id, token: Option<string>): (r: string)
    ensures root + "ws/websh/" <= r
  {
    root + "ws/websh/" + DecimalText(channel) + "/" + TokenText(token) + "/"
  }

  /** `get_server_ws_url`: `<root>ws/websh/pty/<channel>/<token>/`. */
  function ServerWsUrl(root: string, channel: Id, token: Option<string>): (r: string)
    ensures root + "ws/websh/pty/" <= r
  {
    root + "ws/websh/pty/" + DecimalText(channel) + "/" + TokenText(token) + "/"
  }

  /** The address handed to a browser: `wss://` or `ws://`, the request's host, the user URL. */
  function BrowserUrl(secure: bool, host: string, root: string, channel: Id, token: Option<string>): string
  {
    (if secure then "wss://" else "ws://") + host + UserWsUrl(root, channel, token)
  }

  /** Two texts without `/`, each followed by `/` and more, are equal when the wholes are, and so are the rests. */
  lemma {:induction false} SplitAtSlash(a1: string, b1: string, a2: string, b2: string)
    requires '/' !in a1 && '/' !in a2
    requires a1 + "/" + b1 == a2 + "/" + b2
    ensures a1 == a2 && b1 == b2
    decreases |a1|
  {
    var s1, s2 := a1 + "/" + b1, a2 + "/" + b2;
    assert s1[0] == if a1 == [] then '/' else a1[0];
    assert s2[0] == if a2 == [] then '/' else a2[0];
    assert a1 != [] ==> a1[0] in a1;
    assert a2 != [] ==> a2[0] in a2;
    if a1 == [] && a2 == [] {
      assert b1 == s1[1..] && b2 == s2[1..];
    } else if a1 == [] || a2 == [] {
      assert false;
    } else {
      assert s1[0] == a1[0] && s2[0] == a2[0];
      assert s1[1..] == a1[1..] + "/" + b1;
      assert s2[1..] == a2[1..] + "/" + b2;
      assert forall i :: 0 <= i < |a1[1..]| ==> a1[1..][i] == a1[i + 1];
      assert forall i :: 0 <= i < |a2[1..]| ==> a2[1..][i] == a2[i + 1];
      SplitAtSlash(a1[1..], b1, a2[1..], b2);
      assert a1 == [a1[0]] + a1[1..] && a2 == [a2[0]] + a2[1..];
    }
  }

  lemma CancelHead(head: string, x: string, y: string)
    requires head + x == head + y
    ensures x == y
  {
    assert x == (head + x)[|head|..];
    assert y == (head + y)[|head|..];
  }

  lemma DecimalTextIsInjective(m: nat, n: nat)
    requires DecimalText(m) == DecimalText(n)
    ensures m == n
  {
    SemVer.ValueOfDecimalText(m);
    SemVer.ValueOfDecimalText(n);
  }

  /** The user URL, regrouped as a head and the part that names the channel. */
  lemma UserUrlParts(root: string, c: Id, token: Option<string>)
    ensures UserWsUrl(root, c, token) == (root + "ws/websh/") + (DecimalText(c) + "/" + (TokenText(token) + "/"))
  {
  }

  /** A user URL names one channel and one token: two equal URLs under one root are for the same channel and token. */
  lemma UserUrlsNameTheirChannel(root: string, c1: Id, t1: Option<string>, c2: Id, t2: Option<string>)
    requires UserWsUrl(root, c1, t1) == UserWsUrl(root, c2, t2)
    ensures c1 == c2 && TokenText(t1) == TokenText(t2)
  {
    var d1, d2 := DecimalText(c1), DecimalText(c2);
    UserUrlParts(root, c1, t1);
    UserUrlParts(root, c2, t2);
    CancelHead(root + "ws/websh/", d1 + "/" + (TokenText(t1) + "/"), d2 + "/" + (TokenText(t2) + "/"));
    assert '/' !in d1 && '/' !in d2;
    SplitAtSlash(d1, TokenText(t1) + "/", d2, TokenText(t2) + "/");
    DecimalTextIsInjective(c1, c2);
    assert TokenText(t1) == (TokenText(t1) + "/")[..|TokenText(t1)|];
    assert TokenText(t2) == (TokenText(t2) + "/")[..|TokenText(t2)|];
  }

  /** A user URL is never a pty URL: after `ws/websh/` one has a digit where the other has `pty/`. */
  lemma UserUrlsAreNotPtyUrls(root: string, c1: Id, t1: Option<string>, c2: Id, t2: Option<string>)
    ensures UserWsUrl(root, c1, t1) != ServerWsUrl(root, c2, t2)
  {
    var i := |root| + 9;
    assert UserWsUrl(root, c1, t1)[i] == DecimalText(c1)[0];
    assert ServerWsUrl(root, c2, t2)[i] == 'p';
  }

  // ----- files -----

  /**
   * `AbstractFile.save`: an empty name becomes the stored content's name,
   * and a file without an expiry expires one day from now.
   */
  function FileSaved(f: FileRow, now: Time): (r: FileRow)
    ensures r.name == if f.name == "" then f.contentName else f.name
    ensures r.expiresAt == if f.expiresAt.None? then Some(now + FILE_LIFETIME) else f.expiresAt
    ensures r.(name := f.name, expiresAt := f.expiresAt) == f
  {
    f.(name := if f.name == "" then f.contentName else f.name,
       expiresAt := if f.expiresAt.None? then Some(now + FILE_LIFETIME) else f.expiresAt)
  }

  /** Saving a file twice changes nothing the first save did not. */
  lemma SavingAFileAgainChangesNothing(f: FileRow, now1: Time, now2: Time)
    ensures FileSaved(FileSaved(f, now1), now2) == FileSaved(f, now1)
  {
  }

  /** `os.path.basename` (and `os.path.split(p)[1]`): the text after the last `/`. */
  function Basename(p: string): (r: string)
    ensures |r| <= |p| && r == p[|p| - |r|..]
    ensures '/' !in r
    ensures |r| < |p| ==> p[|p| - |r| - 1] == '/'
  {
    if p == [] || p[|p| - 1] == '/' then [] else Basename(p[..|p| - 1]) + [p[|p| - 1]]
  }

  /** `os.path.join(a, b)` on POSIX: an absolute `b` replaces `a`; otherwise one `/` separates them. */
  function Join(a: string, b: string): (r: string)
    ensures |b| <= |r| && r[|r| - |b|..] == b
  {
    if b != [] && b[0] == '/' then b
    else if a == [] || a[|a| - 1] == '/' then a + b
    else a + "/" + b
  }

  /** A name without `/` after a directory (or nothing) is the basename. */
  lemma BasenameAfterDirectory(dir: string, name: string)
    requires '/' !in name
    requires dir == [] || dir[|dir| - 1] == '/'
    ensures Basename(dir + name) == name
  {
    var p, r := dir + name, Basename(dir + name);
    assert p[|dir|..] == name;
  }

  /** Joining a plain name to any directory ends the path in that name. */
  lemma JoinedNameIsTheBasename(dir: string, name: string)
    requires name != [] && '/' !in name
    ensures Basename(Join(dir, name)) == name
  {
    assert name[0] in name;
    if dir == [] || dir[|dir| - 1] == '/' {
      BasenameAfterDirectory(dir, name);
    } else {
      assert Join(dir, name) == (dir + "/") + name;
      BasenameAfterDirectory(dir + "/", name);
    }
  }

  /** `/home` starts at index `i` of `s`. */
  predicate HomeAt(s: string, i: int)
  {
    0 <= i && i + 5 <= |s| && s[i..i + 5] == "/home"
  }

  /** No occurrence of `/home` anywhere in `s`. */
  predicate NoHome(s: string)
  {
    forall i :: 0 <= i < |s| ==> !HomeAt(s, i)
  }

  lemma NoHomeInTheRest(s: string)
    requires s != [] && NoHome(s)
    ensures NoHome(s[1..])
  {
    forall i | 0 <= i < |s[1..]|
      ensures !HomeAt(s[1..], i)
    {
      if i + 5 <= |s[1..]| {
        assert s[1..][i..i + 5] == s[i + 1..i + 6];
      }
      assert !HomeAt(s, i + 1);
    }
  }

  /** `s.replace('/home', '/Users')`: every occurrence found scanning left to right is replaced. */
  function UsersForHome(s: string): (r: string)
    ensures NoHome(s) ==> r == s
    decreases |s|
  {
    if |s| >= 5 && s[..5] == "/home" then
      assert HomeAt(s, 0);
      "/Users" + UsersForHome(s[5..])
    else if s == [] then []
    else
      if NoHome(s) then
        NoHomeInTheRest(s);
        assert s == [s[0]] + s[1..];
        [s[0]] + UsersForHome(s[1..])
      else [s[0]] + UsersForHome(s[1..])
  }

  /** A home under `/home` moves under `/Users`, the rest of the path kept. */
  lemma HomeMovesToUsers(rest: string)
    requires NoHome(rest)
    ensures UsersForHome("/home" + rest) == "/Users" + rest
  {
    var s := "/home" + rest;
    assert s[..5] == "/home" && s[5..] == rest;
  }

  const PLATFORMS_WITH_SYSTEM_HOMES: seq<string> := ["debian", "rhel"]

  lemma DarwinHasNoSystemHomes()
    ensures "darwin" !in PLATFORMS_WITH_SYSTEM_HOMES
  {
    assert "darwin"[1] != "debian"[1] && |"darwin"| != |"rhel"|;
  }

  /**
   * Where `upload` sends a file. A path that names a file is used as it
   * is; a directory path gets the file's name appended. With no path, the
   * file goes to the target account's home: the system user's home on
   * debian and rhel, the user's home moved from `/home` to `/Users` on
   * darwin, and the bare name elsewhere. Only the no-path case reads the
   * platform, which fails when the server has reported no OS version.
   * `systemHome` stands for `systemuser_home_directory(username)`.
   */
  function UploadPath(path: string, name: string, platform: Option<string>, systemHome: string, userHome: string)
    : (r: Result<string, Failure>)
    ensures Basename(path) != "" ==> r == Ok(path)
    ensures path != "" && Basename(path) == "" ==> r == Ok(Join(path, name))
    ensures path == "" ==> (r.Err? <==> platform.None?) && (r.Err? ==> r.error == DoesNotExist)
    ensures path == "" && platform.Some? && platform.value in PLATFORMS_WITH_SYSTEM_HOMES ==> r == Ok(Join(systemHome, name))
    ensures path == "" && platform == Some("darwin") ==> r == Ok(Join(UsersForHome(userHome), name))
    ensures path == "" && platform.Some? && platform.value !in PLATFORMS_WITH_SYSTEM_HOMES && platform != Some("darwin") ==>
      r == Ok(name)
  {
    DarwinHasNoSystemHomes();
    if Basename(path) != "" then Ok(path)
    else if path != "" then
      assert path[|path| - 1] == '/';
      Ok(Join(path, name))
    else if platform.None? then Err(DoesNotExist)
    else if platform.value in PLATFORMS_WITH_SYSTEM_HOMES then Ok(Join(systemHome, name))
    else if platform.value == "darwin" then Ok(Join(UsersForHome(userHome), name))
    else Ok(name)
  }

  /**
   * Whatever the branch, an upload of a plain name lands in a file of that
   * name, unless the path itself names the file.
   */
  lemma UploadLandsOnItsName(path: string, name: string, platform: Option<string>, systemHome: string, userHome: string)
    requires name != [] && '/' !in name
    requires UploadPath(path, name, platform, systemHome, userHome).Ok?
    ensures Basename(UploadPath(path, name, platform, systemHome, userHome).value) ==
            if Basename(path) != "" then Basename(path) else name
  {
    var r := UploadPath(path, name, platform, systemHome, userHome).value;
    if Basename(path) == "" {
      if path != "" {
        assert path[|path| - 1] == '/';
        BasenameAfterDirectory(path, name);
      } else if platform.value in PLATFORMS_WITH_SYSTEM_HOMES {
        JoinedNameIsTheBasename(systemHome, name);
      } else if platform.value == "darwin" {
        JoinedNameIsTheBasename(UsersForHome(userHome), name);
      } else {
        BasenameAfterDirectory([], name);
        assert [] + name == name;
      }
    }
  }

  /**
   * `DownloadedFileSerializer.create`: the name is the path's basename; the
   * account stays at the model defaults (no user name, the `alpacon`
   * group); then the file is saved.
   */
  function NewDownloadedFile(path: string, server: Id, user: Id, contentName: string, now: Time): (r: FileRow)
    ensures Basename(path) != "" ==> r.name == Basename(path)
    ensures r.path == path && r.server == server && r.user == user && r.command.None?
    ensures r.username == "" && r.groupname == DEFAULT_GROUP_NAME
    ensures r.expiresAt == Some(now + FILE_LIFETIME)
  {
    FileSaved(FileRow(Basename(path), path, contentName, server, user, "", DEFAULT_GROUP_NAME, None, None), now)
  }

  // ----- the terminal account -----

  /**
   * `WebshValidationSerializer.validate`: the defaults (the requester's
   * name for a missing or empty username, `''` for the group) apply first;
   * without a server nothing else is checked, and with one the account
   * checks of `CommandApi.Account` apply.
   */
  function TerminalAccount(server: Option<Id>, servers: map<Id, Server>, sessions: map<Id, Session>,
                           requester: CommandApi.Requester, username: Option<string>, groupname: Option<string>,
                           isSystemUser: string -> bool, hasAccess: (string, string) -> bool)
    : (r: Result<(string, string), CommandApi.ApiError>)
    requires server.Some? ==> server.value in servers
    ensures server.None? ==> r == Ok((CommandApi.OrElse(username, requester.username), CommandApi.OrElse(groupname, "")))
    ensures server.Some? ==> r == CommandApi.Account(servers[server.value], IsConnected(sessions, server.value),
                                                     requester, username, groupname, isSystemUser, hasAccess)
  {
    if server.None? then Ok((CommandApi.OrElse(username, requester.username), CommandApi.OrElse(groupname, "")))
    else CommandApi.Account(servers[server.value], IsConnected(sessions, server.value), requester, username, groupname,
                            isSystemUser, hasAccess)
  }

  /** The account is the requester's own name unless a non-empty one was given, on every path. */
  lemma AccountDefaultsToTheRequester(server: Option<Id>, servers: map<Id, Server>, sessions: map<Id, Session>,
                                      requester: CommandApi.Requester, username: Option<string>, groupname: Option<string>,
                                      isSystemUser: string -> bool, hasAccess: (string, string) -> bool)
    requires server.Some? ==> server.value in servers
    requires TerminalAccount(server, servers, sessions, requester, username, groupname, isSystemUser, hasAccess).Ok?
    ensures var account := TerminalAccount(server, servers, sessions, requester, username, groupname, isSystemUser, hasAccess).value;
      account.0 == (if NonEmpty(username) then username.value else requester.username) &&
      (NonEmpty(groupname) ==> account.1 == groupname.value)
  {
  }

  const ROOT_ONLY_FOR_STAFF: string := "Only superuser or staff can access this server as root."

  /** `validate_root`: asking for root is refused unless the requester is staff or a superuser. */
  function ValidRoot(root: bool, requester: User): (r: Result<bool, Failure>)
    ensures r.Err? <==> root && !requester.isStaff && !requester.isSuperuser
    ensures r.Err? ==> r.error == ValidationError(ROOT_ONLY_FOR_STAFF)
    ensures r.Ok? ==> r.value == root
  {
    if root && !(requester.isStaff || requester.isSuperuser) then Err(ValidationError(ROOT_ONLY_FOR_STAFF)) else Ok(root)
  }

  // ----- sessions and their channels -----

  /** A user channel as `UserChannel.objects.create` starts it, before `save`. */
  function NewUserChannel(session: Id, isMaster: bool, readOnly: bool): Channel
  {
    Channel(Some(session), None, None, None, None, None, isMaster, readOnly)
  }

  /** Every channel that belongs to a session belongs to one in the table. */
  predicate ChannelsBelongToSessions(channels: map<Id, Channel>, sessions: map<Id, TermSession>)
  {
    forall c :: c in channels && channels[c].session.Some? ==> channels[c].session.value in sessions
  }

  /** Every channel with an expiry has a token: `save` sets the two together. */
  predicate Tokened(channels: map<Id, Channel>)
  {
    forall c :: c in channels && channels[c].tokenExpiredAt.Some? ==> channels[c].token.Some?
  }

  /** The user channels of session `k`. */
  function ChannelsOf(channels: map<Id, Channel>, k: Id): set<Id>
  {
    set c | c in channels && channels[c].session == Some(k)
  }

  /** A session made with its first channel has that channel only, the master writable one. */
  lemma NewSessionHasOneMasterChannel(channels: map<Id, Channel>, sessions: map<Id, TermSession>, k: Id, ck: Id,
                                      token: string, password: string, now: Time)
    requires k !in sessions && ck !in channels && ChannelsBelongToSessions(channels, sessions)
    ensures var after := channels[ck := UserChannelSaved(NewUserChannel(k, true, false), token, password, now)];
      ChannelsOf(after, k) == {ck} && after[ck].isMaster && !after[ck].readOnly && after[ck].user.None? &&
      after[ck].token == Some(token) && after[ck].password == Some(password)
  {
    var after := channels[ck := UserChannelSaved(NewUserChannel(k, true, false), token, password, now)];
    assert forall c | c in channels :: channels[c].session != Some(k);
  }

  /**
   * `SessionCreateSerializer.create`: the session row, then its first user
   * channel, the master writable one, saved with a fresh token and
   * password; the answer carries that channel's browser URL. `token` and
   * `password` stand for the random strings the two saves draw.
   */
  method CreateSession(db: Db, k: Id, ck: Id, row: TermSession, token: string, password: string,
                       secure: bool, host: string, root: string, now: Time) returns (url: string)
    requires k !in db.termSessions && ck !in db.userChannels
    requires ChannelsBelongToSessions(db.userChannels, db.termSessions)
    modifies db`termSessions, db`userChannels
    ensures db.termSessions == old(db.termSessions)[k := row]
    ensures db.userChannels == old(db.userChannels)[ck := UserChannelSaved(NewUserChannel(k, true, false), token, password, now)]
    ensures ChannelsBelongToSessions(db.userChannels, db.termSessions)
    ensures ChannelsOf(db.userChannels, k) == {ck} && db.userChannels[ck].isMaster && !db.userChannels[ck].readOnly
    ensures url == BrowserUrl(secure, host, root, ck, Some(token))
  {
    NewSessionHasOneMasterChannel(db.userChannels, db.termSessions, k, ck, token, password, now);
    db.termSessions := db.termSessions[k := row];
    var channel := UserChannelSaved(NewUserChannel(k, true, false), token, password, now);
    db.userChannels := db.userChannels[ck := channel];
    url := BrowserUrl(secure, host, root, ck, channel.token);
  }

  /** `get_shared_url`: the front end's join page for the session. */
  function SharedUrl(reactUrl: string, k: Id): string
  {
    reactUrl + "/websh/join?session=" + DecimalText(k)
  }

  /**
   * The `share` action: a further user channel of the session, never the
   * master, read-only as asked; the answer is the join page, the channel's
   * password and when its token expires.
   */
  method Share(db: Db, k: Id, ck: Id, readOnly: bool, token: string, password: string, reactUrl: string, now: Time)
    returns (sharedUrl: string, pw: string, expiration: Time)
    requires k in db.termSessions && ck !in db.userChannels
    modifies db`userChannels
    ensures db.userChannels == old(db.userChannels)[ck := UserChannelSaved(NewUserChannel(k, false, readOnly), token, password, now)]
    ensures sharedUrl == SharedUrl(reactUrl, k) && pw == password && expiration == now + SHARE_TIMEOUT
  {
    var channel := UserChannelSaved(NewUserChannel(k, false, readOnly), token, password, now);
    db.userChannels := db.userChannels[ck := channel];
    sharedUrl, pw, expiration := SharedUrl(reactUrl, k), channel.password.value, channel.tokenExpiredAt.value;
  }

  /** The filter of `SessionJoinSerializer.validate`: this session, this password, a token expiring after now. */
  predicate Admits(c: Channel, k: Id, password: string, now: Time)
  {
    c.session == Some(k) && c.password == Some(password) && c.tokenExpiredAt.Some? && c.tokenExpiredAt.value > now
  }

  /** The channels a join with `password` may go through. */
  function Joinable(channels: map<Id, Channel>, k: Id, password: string, now: Time): set<Id>
  {
    set c | c in channels && Admits(channels[c], k, password, now)
  }

  /** The join filter is the channel's own checks: its password is valid and its token too. */
  lemma AdmittedMeansBothChecksPass(channels: map<Id, Channel>, k: Id, password: string, now: Time, c: Id)
    requires c in channels
    ensures c in Joinable(channels, k, password, now) <==>
      channels[c].session == Some(k) && PasswordValid(channels[c], password) && TokenValid(channels[c], now) == Ok(true)
  {
  }

  /**
   * A channel shared at `t0` is, when no other channel of the session takes
   * the same password, the one a join with that password goes through for
   * one share timeout, and no channel admits it afterwards.
   */
  lemma SharedChannelAdmitsUntilExpiry(channels: map<Id, Channel>, k: Id, ck: Id, readOnly: bool, token: string,
                                       password: string, t0: Time, t: Time)
    requires ck !in channels && Joinable(channels, k, password, t) == {}
    ensures var after := channels[ck := UserChannelSaved(NewUserChannel(k, false, readOnly), token, password, t0)];
      Joinable(after, k, password, t) == if t < t0 + SHARE_TIMEOUT then {ck} else {}
  {
    var after := channels[ck := UserChannelSaved(NewUserChannel(k, false, readOnly), token, password, t0)];
    forall c | c in channels
      ensures !Admits(channels[c], k, password, t)
    {
      assert c !in Joinable(channels, k, password, t);
    }
    if t < t0 + SHARE_TIMEOUT {
      assert ck in Joinable(after, k, password, t);
    }
  }

  /** What a successful join answers. */
  datatype Joined = Joined(websocketUrl: string, server: string, readOnly: bool, rows: nat, cols: nat)

  const BLANK: string := "This field may not be blank."
  const NO_MATCH: string := "Password does not match or session has expired."
  const UNKNOWN_ERROR: string := "Unkown error"

  /** A join through channel `c`: the answer, and the joiner recorded on the channel when authenticated. */
  predicate JoinedThrough(before: map<Id, Channel>, after: map<Id, Channel>, c: Id, r: Result<Joined, Failure>,
                          session: TermSession, serverName: string, joiner: Option<Id>, secure: bool, host: string, root: string)
  {
    c in before &&
    r == Ok(Joined(BrowserUrl(secure, host, root, c, before[c].token), serverName, before[c].readOnly, session.rows, session.cols)) &&
    after == if joiner.Some? then before[c := before[c].(user := joiner)] else before
  }

  lemma OneMember(s: set<Id>, c: Id)
    requires |s| == 1 && c in s
    ensures s == {c}
  {
    assert |s - {c}| == |s| - |{c}| == 0;
    assert s == (s - {c}) + {c};
  }

  /**
   * `SessionJoinSerializer.validate`: a blank password is refused first;
   * then the join needs exactly one channel of the session that admits
   * the password. None is "does not match or expired", several an unknown
   * error. Through the one, an authenticated joiner is recorded on the
   * channel and an anonymous one is not.
   */
  method JoinSession(db: Db, k: Id, password: string, joiner: Option<Id>, secure: bool, host: string, root: string, now: Time)
    returns (r: Result<Joined, Failure>)
    requires k in db.termSessions && db.termSessions[k].server in db.servers
    modifies db`userChannels
    ensures password == "" ==> r == Err(ValidationError(BLANK)) && db.userChannels == old(db.userChannels)
    ensures var j := Joinable(old(db.userChannels), k, password, now);
      password != "" && |j| == 0 ==> r == Err(ValidationError(NO_MATCH)) && db.userChannels == old(db.userChannels)
    ensures var j := Joinable(old(db.userChannels), k, password, now);
      password != "" && |j| > 1 ==> r == Err(ValidationError(UNKNOWN_ERROR)) && db.userChannels == old(db.userChannels)
    ensures var j := Joinable(old(db.userChannels), k, password, now);
      password != "" && |j| == 1 ==>
        exists c :: j == {c} && JoinedThrough(old(db.userChannels), db.userChannels, c, r, db.termSessions[k],
                                              db.servers[db.termSessions[k].server].name, joiner, secure, host, root)
  {
    if password == "" {
      return Err(ValidationError(BLANK));
    }
    var matches := set c | c in db.userChannels && Admits(db.userChannels[c], k, password, now);
    if |matches| == 0 {
      return Err(ValidationError(NO_MATCH));
    }
    if |matches| > 1 {
      return Err(ValidationError(UNKNOWN_ERROR));
    }
    var c :| c in matches;
    OneMember(matches, c);
    var channel := db.userChannels[c];
    ghost var before := db.userChannels;
    if joiner.Some? {
      db.userChannels := db.userChannels[c := channel.(user := joiner)];
    }
    var session := db.termSessions[k];
    r := Ok(Joined(BrowserUrl(secure, host, root, c, channel.token), db.servers[session.server].name, channel.readOnly,
                   session.rows, session.cols));
    assert JoinedThrough(before, db.userChannels, c, r, session, db.servers[session.server].name, joiner, secure, host, root);
  }

  const CLOSED: string := "Closed sessions cannot be updated."

  /** The `data` of a `resizepty` command. */
  function ResizeData(k: Id, rows: nat, cols: nat): Json
  {
    JObject([("session_id", JStr(DecimalText(k))), ("rows", JInt(rows)), ("cols", JInt(cols))])
  }

  /**
   * A session update: refused for a closed session; otherwise the new size
   * is saved, then `resize_terminal` issues `resizepty` with it, requested
   * by the session's user. On a disabled or deleted server the size stays
   * saved and the command is refused.
   */
  method UpdateSession(db: Db, k: Id, rows: nat, cols: nat, now: Time) returns (r: Result<Id, Failure>)
    requires db.ValidCommands() && k in db.termSessions && db.termSessions[k].server in db.servers
    modifies db`termSessions, db`commands, db`outbox, db`nextCommand
    ensures db.ValidCommands()
    ensures old(db.termSessions[k]).closedAt.Some? ==>
      r == Err(ValidationError(CLOSED)) && db.termSessions == old(db.termSessions) &&
      db.commands == old(db.commands) && db.nextCommand == old(db.nextCommand)
    ensures var s := old(db.termSessions[k]);
      s.closedAt.None? ==>
        db.termSessions == old(db.termSessions)[k := s.(rows := rows, cols := cols)] &&
        (db.commands, db.nextCommand, r) ==
          ServerOps.Issued(db, s.server, "resizepty", Internal, Some(ResizeData(k, rows, cols)), s.user, [], now,
                           (old(db.commands), old(db.nextCommand)))
    ensures old(db.outbox) <= db.outbox && old(db.nextCommand) <= db.nextCommand &&
      ServerOps.PushedOnCreation(db.outbox[|old(db.outbox)|..], db.sessions, db.commands, old(db.nextCommand), db.nextCommand)
  {
    var s := db.termSessions[k];
    if s.closedAt.Some? {
      ServerOps.NothingPushed(db.sessions, db.commands, db.nextCommand);
      return Err(ValidationError(CLOSED));
    }
    db.termSessions := db.termSessions[k := s.(rows := rows, cols := cols)];
    r := ServerOps.Execute(db, s.server, "resizepty", Internal, Some(ResizeData(k, rows, cols)), s.user, [], now);
    ServerOps.PushedByExecute(db.outbox[|old(db.outbox)|..], db.sessions, old(db.commands), db.commands, old(db.nextCommand),
                              db.nextCommand, s.server, Internal, "resizepty", Some(ResizeData(k, rows, cols)), s.user, [], now);
  }

  // ----- preparing the account, opening the terminal, moving files -----

  /** `prepare_user` as the terminal and file code calls it: only for the user's own account, with no dependencies. */
  ghost function PreparedFor(db: Db, server: Id, user: Id, own: bool, group: Id, memberships: seq<Id>, now: Time,
                             start: (map<Id, Command>, nat)): (map<Id, Command>, nat, Result<seq<Id>, Failure>)
    reads db`servers, db`sessions, db`memberships, db`groups, db`users, db`systemUsers, db`systemGroups
    requires server in db.servers && user in db.users && group in db.groups
    requires ServerOps.Listed(db.memberships, db.groups, memberships)
  {
    if !own then (start.0, start.1, Ok([]))
    else
      var p := ServerOps.Preparation(db, server, user, group, memberships, [], now, start);
      (p.0, p.1, if p.2.Err? then Err(p.2.error) else Ok(if p.2.value.Some? then p.2.value.value else []))
  }

  method PrepareOwnAccount(db: Db, server: Id, user: Id, own: bool, group: Id, memberships: seq<Id>, now: Time)
    returns (r: Result<seq<Id>, Failure>)
    requires db.ValidCommands() && server in db.servers && user in db.users && group in db.groups
    requires ServerOps.MembershipRows(db.memberships, db.users, db.groups, user, memberships)
    modifies db`commands, db`outbox, db`nextCommand
    ensures db.ValidCommands() && ServerOps.Listed(db.memberships, db.groups, memberships)
    ensures (db.commands, db.nextCommand, r) ==
            PreparedFor(db, server, user, own, group, memberships, now, (old(db.commands), old(db.nextCommand)))
    ensures old(db.outbox) <= db.outbox && old(db.nextCommand) <= db.nextCommand &&
      ServerOps.PushedOnCreation(db.outbox[|old(db.outbox)|..], db.sessions, db.commands, old(db.nextCommand), db.nextCommand)
  {
    assert ServerOps.Listed(db.memberships, db.groups, memberships);
    if !own {
      ServerOps.NothingPushed(db.sessions, db.commands, db.nextCommand);
      return Ok([]);
    }
    var p := ServerOps.PrepareUser(db, server, user, group, memberships, [], now);
    if p.Err? {
      return Err(p.error);
    }
    r := Ok(if p.value.Some? then p.value.value else []);
  }

  const NO_USERNAME: string := "'NoneType' object has no attribute 'username'"

  /** The `data` of an `openpty` command. */
  function OpenData(k: Id, url: string, s: TermSession, home: string): Json
  {
    JObject([("session_id", JStr(DecimalText(k))), ("url", JStr(url)), ("rows", JInt(s.rows)), ("cols", JInt(s.cols)),
             ("username", JStr(s.username)), ("groupname", JStr(s.groupname)), ("home_directory", JStr(home))])
  }

  /**
   * What `open_terminal` leaves for a session with a user: the account is
   * prepared when the session runs as the user's own name; reading the
   * platform fails when the server reported no OS version; then `openpty`
   * is issued after the dependencies, pointing the agent at the pty URL,
   * with the user's home on darwin and the system user's home elsewhere.
   */
  ghost function Opened(db: Db, k: Id, pty: Id, group: Id, memberships: seq<Id>, systemHome: string -> string,
                        root: string, now: Time, start: (map<Id, Command>, nat)): (map<Id, Command>, nat, Result<Id, Failure>)
    reads db`servers, db`sessions, db`memberships, db`groups, db`users, db`systemUsers, db`systemGroups
    reads db`termSessions, db`ptyChannels
    requires k in db.termSessions && pty in db.ptyChannels && db.termSessions[k].server in db.servers && group in db.groups
    requires db.termSessions[k].user.Some? && db.termSessions[k].user.value in db.users
    requires ServerOps.Listed(db.memberships, db.groups, memberships)
  {
    var s := db.termSessions[k];
    var u := s.user.value;
    var p := PreparedFor(db, s.server, u, db.users[u].username == s.username, group, memberships, now, start);
    if p.2.Err? then (p.0, p.1, Err(p.2.error))
    else OpenptyIssued(db, k, pty, p.2.value, systemHome, root, now, (p.0, p.1))
  }

  /** The second half of `open_terminal`: the platform is read, then `openpty` issued after `deps`. */
  ghost function OpenptyIssued(db: Db, k: Id, pty: Id, deps: seq<Id>, systemHome: string -> string,
                               root: string, now: Time, start: (map<Id, Command>, nat)): (map<Id, Command>, nat, Result<Id, Failure>)
    reads db`servers, db`sessions, db`users, db`termSessions, db`ptyChannels
    requires k in db.termSessions && pty in db.ptyChannels && db.termSessions[k].server in db.servers
    requires db.termSessions[k].user.Some? && db.termSessions[k].user.value in db.users
  {
    var s := db.termSessions[k];
    var platform := db.servers[s.server].osPlatform;
    if platform.None? then (start.0, start.1, Err(DoesNotExist))
    else
      var home := if platform.value == "darwin" then db.users[s.user.value].homeDirectory else systemHome(s.username);
      var url := ServerWsUrl(root, pty, db.ptyChannels[pty].token);
      ServerOps.Issued(db, s.server, "openpty", Internal, Some(OpenData(k, url, s, home)), s.user, deps, now, start)
  }

  method IssueOpenpty(db: Db, k: Id, pty: Id, deps: seq<Id>, systemHome: string -> string, root: string, now: Time,
                      ghost o0: seq<Push>, ghost base: nat)
    returns (r: Result<Id, Failure>)
    requires db.ValidCommands() && k in db.termSessions && pty in db.ptyChannels && db.termSessions[k].server in db.servers
    requires db.termSessions[k].user.Some? && db.termSessions[k].user.value in db.users
    requires o0 <= db.outbox && base <= db.nextCommand &&
      ServerOps.PushedOnCreation(db.outbox[|o0|..], db.sessions, db.commands, base, db.nextCommand)
    modifies db`commands, db`outbox, db`nextCommand
    ensures db.ValidCommands()
    ensures (db.commands, db.nextCommand, r) ==
            OpenptyIssued(db, k, pty, deps, systemHome, root, now, (old(db.commands), old(db.nextCommand)))
    ensures old(db.outbox) <= db.outbox && old(db.nextCommand) <= db.nextCommand
    ensures o0 <= db.outbox && base <= db.nextCommand &&
      ServerOps.PushedOnCreation(db.outbox[|o0|..], db.sessions, db.commands, base, db.nextCommand)
  {
    var s := db.termSessions[k];
    var platform := db.servers[s.server].osPlatform;
    if platform.None? {
      return Err(DoesNotExist);
    }
    var home := if platform.value == "darwin" then db.users[s.user.value].homeDirectory else systemHome(s.username);
    var url := ServerWsUrl(root, pty, db.ptyChannels[pty].token);
    r := Issue(db, s.server, "openpty", OpenData(k, url, s, home), s.user, deps, now, o0, base);
  }

  /**
   * `Session.open_terminal(pty_channel)`. A session whose user was deleted
   * has none, and reading its name fails. `systemHome` stands for the
   * server's `systemuser_home_directory`.
   */
  method OpenTerminal(db: Db, k: Id, pty: Id, group: Id, memberships: seq<Id>, systemHome: string -> string,
                      root: string, now: Time) returns (r: Result<Id, Failure>)
    requires db.ValidCommands() && k in db.termSessions && pty in db.ptyChannels
    requires db.termSessions[k].server in db.servers && group in db.groups
    requires db.termSessions[k].user.Some? ==>
      db.termSessions[k].user.value in db.users &&
      ServerOps.MembershipRows(db.memberships, db.users, db.groups, db.termSessions[k].user.value, memberships)
    modifies db`commands, db`outbox, db`nextCommand
    ensures db.ValidCommands()
    ensures db.termSessions[k].user.None? ==>
      r == Err(AttributeError(NO_USERNAME)) && db.commands == old(db.commands) && db.nextCommand == old(db.nextCommand)
    ensures db.termSessions[k].user.Some? ==>
      ServerOps.Listed(db.memberships, db.groups, memberships) &&
      (db.commands, db.nextCommand, r) == Opened(db, k, pty, group, memberships, systemHome, root, now,
                                                 (old(db.commands), old(db.nextCommand)))
    ensures old(db.outbox) <= db.outbox && old(db.nextCommand) <= db.nextCommand &&
      ServerOps.PushedOnCreation(db.outbox[|old(db.outbox)|..], db.sessions, db.commands, old(db.nextCommand), db.nextCommand)
  {
    var s := db.termSessions[k];
    if s.user.None? {
      ServerOps.NothingPushed(db.sessions, db.commands, db.nextCommand);
      return Err(AttributeError(NO_USERNAME));
    }
    var u := s.user.value;
    ghost var start := (db.commands, db.nextCommand);
    var deps := PrepareOwnAccount(db, s.server, u, db.users[u].username == s.username, group, memberships, now);
    ghost var p := PreparedFor(db, s.server, u, db.users[u].username == s.username, group, memberships, now, start);
    assert (db.commands, db.nextCommand, deps) == p;
    if deps.Err? {
      return Err(deps.error);
    }
    r := IssueOpenpty(db, k, pty, deps.value, systemHome, root, now, old(db.outbox), old(db.nextCommand));
    assert (db.commands, db.nextCommand, r) == OpenptyIssued(db, k, pty, p.2.value, systemHome, root, now, (p.0, p.1));
    assert PreparedFor(db, s.server, u, db.users[u].username == s.username, group, memberships, now, start) == p;
  }

  /**
   * The command that opens a terminal waits for exactly the commands issued
   * before it in the same call: the account's `addgroup`s and `adduser`.
   */
  lemma TerminalWaitsForTheAccount(db: Db, k: Id, pty: Id, group: Id, memberships: seq<Id>, systemHome: string -> string,
                                   root: string, now: Time, start: (map<Id, Command>, nat))
    requires k in db.termSessions && pty in db.ptyChannels && db.termSessions[k].server in db.servers && group in db.groups
    requires db.termSessions[k].user.Some? && db.termSessions[k].user.value in db.users
    requires ServerOps.Listed(db.memberships, db.groups, memberships)
    requires Opened(db, k, pty, group, memberships, systemHome, root, now, start).2.Ok?
    ensures var o := Opened(db, k, pty, group, memberships, systemHome, root, now, start);
      o.2.value in o.0 && o.0[o.2.value].line == "openpty" && o.2.value == o.1 - 1 &&
      forall d :: d in o.0[o.2.value].runAfter <==> start.1 <= d < o.2.value
  {
    var s := db.termSessions[k];
    var u := s.user.value;
    var p := PreparedFor(db, s.server, u, db.users[u].username == s.username, group, memberships, now, start);
    DependenciesAreFresh(db, s.server, u, db.users[u].username == s.username, group, memberships, now, start);
    var platform := db.servers[s.server].osPlatform;
    var home := if platform.value == "darwin" then db.users[u].homeDirectory else systemHome(s.username);
    var url := ServerWsUrl(root, pty, db.ptyChannels[pty].token);
    ServerOps.CreatedRow(s.server, Internal, "openpty", Some(OpenData(k, url, s, home)), s.user, p.2.value,
                         IsConnected(db.sessions, s.server), now);
  }

  /** The dependencies an own-account preparation hands back are exactly the keys it used. */
  lemma DependenciesAreFresh(db: Db, server: Id, user: Id, own: bool, group: Id, memberships: seq<Id>, now: Time,
                             start: (map<Id, Command>, nat))
    requires server in db.servers && user in db.users && group in db.groups
    requires ServerOps.Listed(db.memberships, db.groups, memberships)
    requires PreparedFor(db, server, user, own, group, memberships, now, start).2.Ok?
    ensures var p := PreparedFor(db, server, user, own, group, memberships, now, start);
      start.1 <= p.1 && forall d :: d in p.2.value <==> start.1 <= d < p.1
  {
    var platform := db.servers[server].osPlatform;
    if own && platform.Some? && platform.value != "darwin" && Usable(db.servers[server]) {
      var hasUser := ServerOps.HasUser(db.systemUsers, server, user);
      var connected := IsConnected(db.sessions, server);
      var rows := ServerOps.GroupRows(server, user, connected, now);
      var userRows := ServerOps.UserRows(server, user, db.users[user], db.groups[group],
                                         ServerOps.Gids(db.memberships, db.groups, memberships, |memberships|), connected, now);
      PreparedKeysAreFresh(db.memberships, db.groups, db.systemGroups, server, hasUser, rows, userRows, memberships,
                           start.0, start.1);
    }
  }

  /** `prepare_user` from an empty dependency list hands back exactly the keys it used. */
  lemma PreparedKeysAreFresh(ms: map<Id, Membership>, groups: map<Id, Group>, systemGroups: map<Id, ProcRows.SystemGroup>, server: Id,
                             hasUser: bool, row: Group -> Command, userRow: seq<Id> -> Command, memberships: seq<Id>,
                             cmds: map<Id, Command>, next: nat)
    requires ServerOps.Listed(ms, groups, memberships)
    ensures var q := ServerOps.Prepared(ms, groups, systemGroups, server, hasUser, row, userRow, memberships,
                                        ServerOps.Prep(cmds, next, []));
      next <= q.next && forall d :: d in q.deps <==> next <= d < q.next
  {
    ServerOps.PreparedShape(ms, groups, systemGroups, server, hasUser, row, userRow, memberships, ServerOps.Prep(cmds, next, []));
    var q := ServerOps.Prepared(ms, groups, systemGroups, server, hasUser, row, userRow, memberships, ServerOps.Prep(cmds, next, []));
    var n: nat := q.next - next;
    assert [] + ServerOps.Fresh(next, n) == ServerOps.Fresh(next, n);
    forall d
      ensures d in q.deps <==> next <= d < q.next
    {
      if d >= 0 {
        ServerOps.AddUserWaitsForAll([], next, n, d);
      }
    }
  }

  /** `execute` for an internal command, seen through the command table only. */
  method Issue(db: Db, server: Id, line: string, data: Json, requestedBy: Option<Id>, deps: seq<Id>, now: Time,
               ghost o0: seq<Push>, ghost base: nat)
    returns (r: Result<Id, Failure>)
    requires db.ValidCommands() && server in db.servers
    requires o0 <= db.outbox && base <= db.nextCommand &&
      ServerOps.PushedOnCreation(db.outbox[|o0|..], db.sessions, db.commands, base, db.nextCommand)
    modifies db`commands, db`outbox, db`nextCommand
    ensures db.ValidCommands()
    ensures (db.commands, db.nextCommand, r) ==
            ServerOps.Issued(db, server, line, Internal, Some(data), requestedBy, deps, now, (old(db.commands), old(db.nextCommand)))
    ensures old(db.outbox) <= db.outbox && old(db.nextCommand) <= db.nextCommand
    ensures o0 <= db.outbox && base <= db.nextCommand &&
      ServerOps.PushedOnCreation(db.outbox[|o0|..], db.sessions, db.commands, base, db.nextCommand)
  {
    r := ServerOps.Execute(db, server, line, Internal, Some(data), requestedBy, deps, now);
    ServerOps.PushedByExecute(db.outbox[|old(db.outbox)|..], db.sessions, old(db.commands), db.commands, old(db.nextCommand),
                              db.nextCommand, server, Internal, line, Some(data), requestedBy, deps, now);
    ServerOps.PushedInTurn(o0, old(db.outbox), db.outbox, db.sessions, old(db.commands), db.commands, base, old(db.nextCommand),
                           db.nextCommand);
  }

  /** `get_download_url` of an uploaded file: where the agent fetches its content. */
  function DownloadUrl(prefix: string, f: Id): string
  {
    prefix + "/api/websh/uploads/" + DecimalText(f) + "/download/"
  }

  /** `get_upload_url` of a downloaded file: where the agent sends its content. */
  function UploadUrl(prefix: string, f: Id): string
  {
    prefix + "/api/websh/downloads/" + DecimalText(f) + "/upload/"
  }

  /** The `data` of a file transfer command: the URL to use and the account to act as. */
  function TransferData(url: string, row: FileRow): Json
  {
    JObject([("type", JStr("url")), ("content", JStr(url)), ("username", JStr(row.username)), ("groupname", JStr(row.groupname))])
  }

  /** Quoted the way `'download "%s"' % path` quotes. */
  function Quoted(verb: string, path: string): string
  {
    verb + " \"" + path + "\""
  }

  /**
   * The preconditions shared by the file operations: the file's server and
   * user exist, the default group exists, and `memberships` lists the user's
   * memberships.
   */
  predicate FileReady(db: Db, row: FileRow, group: Id, memberships: seq<Id>)
    reads db`servers, db`users, db`groups, db`memberships
  {
    row.server in db.servers && row.user in db.users && group in db.groups &&
    ServerOps.MembershipRows(db.memberships, db.users, db.groups, row.user, memberships)
  }

  /** Where an uploaded file goes on the server (see `UploadPath`). */
  ghost function UploadTarget(db: Db, row: FileRow, systemHome: string -> string): Result<string, Failure>
    reads db`servers, db`users
    requires row.server in db.servers && row.user in db.users
  {
    UploadPath(row.path, row.name, db.servers[row.server].osPlatform, systemHome(row.username), db.users[row.user].homeDirectory)
  }

  const EXECUTE_KWARG: string := "Server.execute() got an unexpected keyword argument 'username'"

  /**
   * What `UploadedFile.upload` leaves as written: the target path, then the
   * own account prepared, then the call to `execute`, which takes no
   * `username` or `groupname` argument and so always fails.
   */
  ghost function UploadAttempt(db: Db, row: FileRow, group: Id, memberships: seq<Id>, systemHome: string -> string, now: Time,
                               start: (map<Id, Command>, nat)): (map<Id, Command>, nat, Result<Id, Failure>)
    reads db`servers, db`sessions, db`memberships, db`groups, db`users, db`systemUsers, db`systemGroups
    requires FileReady(db, row, group, memberships)
  {
    var path := UploadTarget(db, row, systemHome);
    if path.Err? then (start.0, start.1, Err(path.error))
    else
      var p := PreparedFor(db, row.server, row.user, db.users[row.user].username == row.username, group, memberships, now, start);
      if p.2.Err? then (p.0, p.1, Err(p.2.error))
      else (p.0, p.1, Err(TypeError(EXECUTE_KWARG)))
  }

  /** `UploadedFile.upload()` as written: the file row is never saved with a command. */
  method Upload(db: Db, f: Id, group: Id, memberships: seq<Id>, systemHome: string -> string, now: Time)
    returns (r: Result<Id, Failure>)
    requires db.ValidCommands() && f in db.uploadedFiles && FileReady(db, db.uploadedFiles[f], group, memberships)
    modifies db`commands, db`outbox, db`nextCommand
    ensures db.ValidCommands()
    ensures (db.commands, db.nextCommand, r) ==
            UploadAttempt(db, old(db.uploadedFiles[f]), group, memberships, systemHome, now, (old(db.commands), old(db.nextCommand)))
    ensures old(db.outbox) <= db.outbox && old(db.nextCommand) <= db.nextCommand &&
      ServerOps.PushedOnCreation(db.outbox[|old(db.outbox)|..], db.sessions, db.commands, old(db.nextCommand), db.nextCommand)
  {
    var row := db.uploadedFiles[f];
    var path := UploadPath(row.path, row.name, db.servers[row.server].osPlatform, systemHome(row.username),
                           db.users[row.user].homeDirectory);
    if path.Err? {
      ServerOps.NothingPushed(db.sessions, db.commands, db.nextCommand);
      return Err(path.error);
    }
    var deps := PrepareOwnAccount(db, row.server, row.user, db.users[row.user].username == row.username, group, memberships, now);
    if deps.Err? {
      return Err(deps.error);
    }
    r := Err(TypeError(EXECUTE_KWARG));
  }

  /** As written, no upload issues its `download` command: every call fails. */
  lemma NoUploadIsSent(db: Db, row: FileRow, group: Id, memberships: seq<Id>, systemHome: string -> string, now: Time,
                       start: (map<Id, Command>, nat))
    requires FileReady(db, row, group, memberships)
    ensures UploadAttempt(db, row, group, memberships, systemHome, now, start).2.Err?
  {
  }

  /**
   * What `upload` is evidently meant to leave: as `download` does, `execute`
   * is called without the account arguments (the account is in `data`), and
   * issues `download "<path>"` after the dependencies.
   */
  ghost function UploadIssued(db: Db, f: Id, row: FileRow, group: Id, memberships: seq<Id>, systemHome: string -> string, prefix: string,
                              now: Time, start: (map<Id, Command>, nat)): (map<Id, Command>, nat, Result<Id, Failure>)
    reads db`servers, db`sessions, db`memberships, db`groups, db`users, db`systemUsers, db`systemGroups
    requires FileReady(db, row, group, memberships)
  {
    var path := UploadTarget(db, row, systemHome);
    if path.Err? then (start.0, start.1, Err(path.error))
    else
      var p := PreparedFor(db, row.server, row.user, db.users[row.user].username == row.username, group, memberships, now, start);
      if p.2.Err? then (p.0, p.1, Err(p.2.error))
      else ServerOps.Issued(db, row.server, Quoted("download", path.value), Internal,
                            Some(TransferData(DownloadUrl(prefix, f), row)), Some(row.user), p.2.value, now, (p.0, p.1))
  }

  /** The command half of the corrected `upload()` for the file row `row` stored under `f`. */
  method IssueUpload(db: Db, f: Id, row: FileRow, group: Id, memberships: seq<Id>, systemHome: string -> string,
                     prefix: string, now: Time) returns (r: Result<Id, Failure>)
    requires db.ValidCommands() && FileReady(db, row, group, memberships)
    modifies db`commands, db`outbox, db`nextCommand
    ensures db.ValidCommands()
    ensures (db.commands, db.nextCommand, r) ==
            UploadIssued(db, f, row, group, memberships, systemHome, prefix, now, (old(db.commands), old(db.nextCommand)))
    ensures old(db.outbox) <= db.outbox && old(db.nextCommand) <= db.nextCommand &&
      ServerOps.PushedOnCreation(db.outbox[|old(db.outbox)|..], db.sessions, db.commands, old(db.nextCommand), db.nextCommand)
  {
    var path := UploadPath(row.path, row.name, db.servers[row.server].osPlatform, systemHome(row.username),
                           db.users[row.user].homeDirectory);
    if path.Err? {
      ServerOps.NothingPushed(db.sessions, db.commands, db.nextCommand);
      return Err(path.error);
    }
    ghost var start := (db.commands, db.nextCommand);
    var own := db.users[row.user].username == row.username;
    var deps := PrepareOwnAccount(db, row.server, row.user, own, group, memberships, now);
    ghost var p := PreparedFor(db, row.server, row.user, own, group, memberships, now, start);
    assert (db.commands, db.nextCommand, deps) == p;
    if deps.Err? {
      return Err(deps.error);
    }
    r := Issue(db, row.server, Quoted("download", path.value), TransferData(DownloadUrl(prefix, f), row), Some(row.user),
               deps.value, now, old(db.outbox), old(db.nextCommand));
    assert UploadTarget(db, row, systemHome) == path;
    assert PreparedFor(db, row.server, row.user, own, group, memberships, now, start) == p;
  }

  /** `upload()` corrected: the command is issued, recorded on the file and the file saved. */
  method UploadAsIntended(db: Db, f: Id, group: Id, memberships: seq<Id>, systemHome: string -> string, prefix: string, now: Time)
    returns (r: Result<Id, Failure>)
    requires db.ValidCommands() && f in db.uploadedFiles && FileReady(db, db.uploadedFiles[f], group, memberships)
    modifies db`commands, db`outbox, db`nextCommand, db`uploadedFiles
    ensures db.ValidCommands()
    ensures (db.commands, db.nextCommand, r) ==
            UploadIssued(db, f, old(db.uploadedFiles[f]), group, memberships, systemHome, prefix, now, (old(db.commands), old(db.nextCommand)))
    ensures old(db.outbox) <= db.outbox && old(db.nextCommand) <= db.nextCommand &&
      ServerOps.PushedOnCreation(db.outbox[|old(db.outbox)|..], db.sessions, db.commands, old(db.nextCommand), db.nextCommand)
    ensures db.uploadedFiles ==
            if r.Ok? then old(db.uploadedFiles)[f := FileSaved(old(db.uploadedFiles[f]).(command := Some(r.value)), now)]
            else old(db.uploadedFiles)
  {
    var row := db.uploadedFiles[f];
    r := IssueUpload(db, f, row, group, memberships, systemHome, prefix, now);
    if r.Ok? {
      db.uploadedFiles := db.uploadedFiles[f := FileSaved(row.(command := Some(r.value)), now)];
    }
  }

  /**
   * What `DownloadedFile.download` leaves: the own account prepared, then
   * `upload "<path>"` issued after the dependencies, with the URL the agent
   * sends the content to.
   */
  ghost function Transferred(db: Db, f: Id, row: FileRow, group: Id, memberships: seq<Id>, prefix: string, now: Time,
                             start: (map<Id, Command>, nat)): (map<Id, Command>, nat, Result<Id, Failure>)
    reads db`servers, db`sessions, db`memberships, db`groups, db`users, db`systemUsers, db`systemGroups
    requires FileReady(db, row, group, memberships)
  {
    var p := PreparedFor(db, row.server, row.user, db.users[row.user].username == row.username, group, memberships, now, start);
    if p.2.Err? then (p.0, p.1, Err(p.2.error))
    else ServerOps.Issued(db, row.server, Quoted("upload", row.path), Internal,
                          Some(TransferData(UploadUrl(prefix, f), row)), Some(row.user), p.2.value, now, (p.0, p.1))
  }

  /** The command half of `download()` for the file row `row` stored under `f`. */
  method IssueDownload(db: Db, f: Id, row: FileRow, group: Id, memberships: seq<Id>, prefix: string, now: Time)
    returns (r: Result<Id, Failure>)
    requires db.ValidCommands() && FileReady(db, row, group, memberships)
    modifies db`commands, db`outbox, db`nextCommand
    ensures db.ValidCommands()
    ensures (db.commands, db.nextCommand, r) ==
            Transferred(db, f, row, group, memberships, prefix, now, (old(db.commands), old(db.nextCommand)))
    ensures old(db.outbox) <= db.outbox && old(db.nextCommand) <= db.nextCommand &&
      ServerOps.PushedOnCreation(db.outbox[|old(db.outbox)|..], db.sessions, db.commands, old(db.nextCommand), db.nextCommand)
  {
    ghost var start := (db.commands, db.nextCommand);
    var own := db.users[row.user].username == row.username;
    var deps := PrepareOwnAccount(db, row.server, row.user, own, group, memberships, now);
    ghost var p := PreparedFor(db, row.server, row.user, own, group, memberships, now, start);
    assert (db.commands, db.nextCommand, deps) == p;
    if deps.Err? {
      return Err(deps.error);
    }
    r := Issue(db, row.server, Quoted("upload", row.path), TransferData(UploadUrl(prefix, f), row), Some(row.user),
               deps.value, now, old(db.outbox), old(db.nextCommand));
  }

  /** `DownloadedFile.download()`: the command is issued, recorded on the file and the file saved. */
  method Download(db: Db, f: Id, group: Id, memberships: seq<Id>, prefix: string, now: Time) returns (r: Result<Id, Failure>)
    requires db.ValidCommands() && f in db.downloadedFiles && FileReady(db, db.downloadedFiles[f], group, memberships)
    modifies db`commands, db`outbox, db`nextCommand, db`downloadedFiles
    ensures db.ValidCommands()
    ensures (db.commands, db.nextCommand, r) ==
            Transferred(db, f, old(db.downloadedFiles[f]), group, memberships, prefix, now, (old(db.commands), old(db.nextCommand)))
    ensures old(db.outbox) <= db.outbox && old(db.nextCommand) <= db.nextCommand &&
      ServerOps.PushedOnCreation(db.outbox[|old(db.outbox)|..], db.sessions, db.commands, old(db.nextCommand), db.nextCommand)
    ensures db.downloadedFiles ==
            if r.Ok? then old(db.downloadedFiles)[f := FileSaved(old(db.downloadedFiles[f]).(command := Some(r.value)), now)]
            else old(db.downloadedFiles)
  {
    var row := db.downloadedFiles[f];
    r := IssueDownload(db, f, row, group, memberships, prefix, now);
    if r.Ok? {
      db.downloadedFiles := db.downloadedFiles[f := FileSaved(row.(command := Some(r.value)), now)];
    }
  }

  /**
   * A command issued after an own-account preparation is stored under the
   * next key, with its line, JSON data and requester, and waits for exactly
   * the commands the preparation issued.
   */
  lemma IssuedAfterPreparation(db: Db, server: Id, user: Id, own: bool, group: Id, memberships: seq<Id>, line: string,
                               data: Json, requestedBy: Option<Id>, now: Time, start: (map<Id, Command>, nat))
    requires server in db.servers && user in db.users && group in db.groups
    requires ServerOps.Listed(db.memberships, db.groups, memberships)
    requires PreparedFor(db, server, user, own, group, memberships, now, start).2.Ok? && Usable(db.servers[server])
    requires !data.JStr?
    ensures var p := PreparedFor(db, server, user, own, group, memberships, now, start);
      var o := ServerOps.Issued(db, server, line, Internal, Some(data), requestedBy, p.2.value, now, (p.0, p.1));
      o.2 == Ok(p.1) && p.1 in o.0 && o.1 == p.1 + 1 &&
      o.0[p.1].line == line && o.0[p.1].data == Some(Dumped(data)) && o.0[p.1].requestedBy == requestedBy &&
      forall d :: d in o.0[p.1].runAfter <==> start.1 <= d < p.1
  {
    var p := PreparedFor(db, server, user, own, group, memberships, now, start);
    DependenciesAreFresh(db, server, user, own, group, memberships, now, start);
    ServerOps.CreatedRow(server, Internal, line, Some(data), requestedBy, p.2.value, IsConnected(db.sessions, server), now);
  }

  /**
   * A download that succeeds stores `upload "<path>"` with the file's upload
   * URL and account, requested by its user, waiting for exactly the account
   * commands issued before it.
   */
  lemma DownloadWaitsForTheAccount(db: Db, f: Id, row: FileRow, group: Id, memberships: seq<Id>, prefix: string, now: Time,
                                   start: (map<Id, Command>, nat))
    requires FileReady(db, row, group, memberships)
    requires Transferred(db, f, row, group, memberships, prefix, now, start).2.Ok?
    ensures var o := Transferred(db, f, row, group, memberships, prefix, now, start);
      var c := o.2.value;
      c in o.0 && o.1 == c + 1 && o.0[c].line == Quoted("upload", row.path) &&
      o.0[c].data == Some(Dumped(TransferData(UploadUrl(prefix, f), row))) && o.0[c].requestedBy == Some(row.user) &&
      forall d :: d in o.0[c].runAfter <==> start.1 <= d < c
  {
    assert ServerOps.Listed(db.memberships, db.groups, memberships);
    IssuedAfterPreparation(db, row.server, row.user, db.users[row.user].username == row.username, group, memberships,
                           Quoted("upload", row.path), TransferData(UploadUrl(prefix, f), row), Some(row.user), now, start);
  }

  /**
   * A corrected upload that succeeds stores `download "<target>"` with the
   * file's download URL and account, waiting for exactly the account
   * commands issued before it.
   */
  lemma UploadWaitsForTheAccount(db: Db, f: Id, row: FileRow, group: Id, memberships: seq<Id>, systemHome: string -> string, prefix: string,
                                 now: Time, start: (map<Id, Command>, nat))
    requires FileReady(db, row, group, memberships)
    requires UploadIssued(db, f, row, group, memberships, systemHome, prefix, now, start).2.Ok?
    ensures var o := UploadIssued(db, f, row, group, memberships, systemHome, prefix, now, start);
      var c := o.2.value;
      UploadTarget(db, row, systemHome).Ok? && c in o.0 && o.1 == c + 1 &&
      o.0[c].line == Quoted("download", UploadTarget(db, row, systemHome).value) &&
      o.0[c].data == Some(Dumped(TransferData(DownloadUrl(prefix, f), row))) && o.0[c].requestedBy == Some(row.user) &&
      forall d :: d in o.0[c].runAfter <==> start.1 <= d < c
  {
    assert ServerOps.Listed(db.memberships, db.groups, memberships);
    var path := UploadTarget(db, row, systemHome);
    IssuedAfterPreparation(db, row.server, row.user, db.users[row.user].username == row.username, group, memberships,
                           Quoted("download", path.value), TransferData(DownloadUrl(prefix, f), row), Some(row.user), now, start);
  }
}
