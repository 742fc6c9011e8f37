// What a server does to itself: issuing a command (`Server.execute`) and the
// named actions and account commands built on it, preparing a user's account
// before a terminal or file transfer, and the health summary computed from
// connectivity, commissioning, the current response delay and clock drift.
module ServerOps {
  import opened Common
  import opened Sessions
  import opened Commands
  import opened ServerRows
  import opened IamRows
  import opened ProcRows
  import opened Store
  import Dispatch

  // ----- issuing a command -----

  /** How `execute` stores `data`: a string as given, any other value through `json.dumps`. */
  function StoredData(data: Option<Json>): Option<Payload>
  {
    if data.None? then None
    else if data.value.JStr? then Some(Text(data.value.s))
    else Some(Dumped(data.value))
  }

  /** The members of a `run_after` list. */
  function Members(ids: seq<Id>): set<Id>
  {
    set i | 0 <= i < |ids| :: ids[i]
  }

  /**
   * The row `execute` saves: scheduled now; with dependencies it waits for
   * them, otherwise it is delivered at once when the server is connected.
   */
  function Created(server: Id, shell: Shell, line: string, data: Option<Json>, requestedBy: Option<Id>,
                   runAfter: seq<Id>, connected: bool, now: Time): Command
  {
    var base := NewCommand(server, shell, line, StoredData(data), requestedBy).(scheduledAt := Some(now));
    if |runAfter| > 0 then base.(runAfter := Members(runAfter))
    else if connected then base.(deliveredAt := Some(now))
    else base
  }

  /**
   * What the created row is, whichever branch `execute` takes: scheduled
   * now, never acknowledged or handled, data stored unchanged when it is a
   * string and JSON-encoded otherwise; a command with dependencies waits for
   * exactly them and is never delivered by the call, and one without is
   * delivered exactly when the server is connected.
   */
  lemma CreatedRow(server: Id, shell: Shell, line: string, data: Option<Json>, requestedBy: Option<Id>,
                   runAfter: seq<Id>, connected: bool, now: Time)
    ensures var c := Created(server, shell, line, data, requestedBy, runAfter, connected, now);
      c.server == server && c.shell == shell && c.line == line && c.requestedBy == requestedBy &&
      c.scheduledAt == Some(now) && c.ackedAt.None? && c.handledAt.None? && c.success.None? &&
      (data.None? ==> c.data.None?) &&
      (data.Some? && data.value.JStr? ==> c.data == Some(Text(data.value.s))) &&
      (data.Some? && !data.value.JStr? ==> c.data == Some(Dumped(data.value))) &&
      (forall d :: d in c.runAfter <==> d in runAfter) &&
      (c.deliveredAt.Some? <==> |runAfter| == 0 && connected) &&
      (c.deliveredAt.Some? ==> c.deliveredAt == Some(now))
  {
    var c := Created(server, shell, line, data, requestedBy, runAfter, connected, now);
    forall d ensures d in c.runAfter <==> d in runAfter {
      if d in runAfter {
        var i :| 0 <= i < |runAfter| && runAfter[i] == d;
        assert runAfter[i] in Members(runAfter);
      }
    }
  }

  /**
   * A command queued for a disconnected server, without dependencies, shows
   * as 'Scheduled' at the instant it is made and as 'Queued' afterwards; it
   * is then a candidate of every later sweep while the server stays usable.
   */
  lemma {:induction false} QueuedCommandIsSweptLater(servers: map<Id, Server>, cmds: map<Id, Command>, id: Id, server: Id,
                                                      shell: Shell, line: string, data: Option<Json>, requestedBy: Option<Id>,
                                                      now: Time, later: Time)
    requires server in servers && Usable(servers[server]) && later > now
    ensures var c := Created(server, shell, line, data, requestedBy, [], false, now);
      Status(c, now).text == Scheduled && Status(c, later).text == Queued &&
      Dispatch.Candidate(servers, cmds[id := c], id, later, None) &&
      Dispatch.Candidate(servers, cmds[id := c], id, later, Some(server)) &&
      !Dispatch.Blocked(cmds[id := c], id)
  {
    var c := Created(server, shell, line, data, requestedBy, [], false, now);
    assert c.runAfter == {};
  }

  // ----- the pushes of the commands a call issues -----

  /** The commands saved under keys `from` up to `to` that were delivered as they were saved. */
  function SentOnCreation(cmds: map<Id, Command>, from: nat, to: nat): set<Id>
  {
    set k | k in cmds && from <= k < to && cmds[k].deliveredAt.Some?
  }

  /**
   * `pushes` are what `execute` sent for the commands saved under keys
   * `from` up to `to`: the request of each one delivered at once, to each
   * open session of its server, and nothing else.
   */
  predicate PushedOnCreation(pushes: seq<Push>, sessions: map<Id, Session>, cmds: map<Id, Command>, from: nat, to: nat)
  {
    Dispatch.RequestsPushed(pushes, sessions, cmds, SentOnCreation(cmds, from, to))
  }

  /**
   * `block` is what `execute` pushed for `c` saved under `k`: its request to
   * each open session of its server when it was delivered at once, and
   * nothing otherwise.
   */
  predicate PushedFor(block: seq<Push>, sessions: map<Id, Session>, k: Id, c: Command)
  {
    if c.deliveredAt.Some? then PushedToEach(block, sessions, OpenSessionsOf(sessions, c.server), Request(k, c)) else block == []
  }

  /** What `execute` of a command without dependencies pushed, in the terms of `PushedFor`. */
  lemma PushedForCreated(block: seq<Push>, sessions: map<Id, Session>, k: Id, server: Id, shell: Shell, line: string,
                         data: Option<Json>, requestedBy: Option<Id>, now: Time)
    requires IsConnected(sessions, server) ==>
      PushedToEach(block, sessions, OpenSessionsOf(sessions, server),
                   Request(k, Created(server, shell, line, data, requestedBy, [], IsConnected(sessions, server), now)))
    requires !IsConnected(sessions, server) ==> block == []
    ensures PushedFor(block, sessions, k, Created(server, shell, line, data, requestedBy, [], IsConnected(sessions, server), now))
  {
    CreatedRow(server, shell, line, data, requestedBy, [], IsConnected(sessions, server), now);
  }

  /** `cmds` and `cmds'` hold the same keys, with the same rows, from `from` up to `to`. */
  predicate SameBetween(cmds: map<Id, Command>, cmds': map<Id, Command>, from: nat, to: nat)
  {
    (forall k :: k in cmds && from <= k < to ==> k in cmds' && cmds'[k] == cmds[k]) &&
    (forall k :: k in cmds' && from <= k < to ==> k in cmds)
  }

  /**
   * Two calls in a row, the second leaving the rows of the first alone: the
   * outbox grew from `o0` to `o1` with the pushes for the keys `a` up to
   * `b`, then to `o2` with those for `b` up to `c`; so it grew from `o0` to
   * `o2` with the pushes for `a` up to `c`.
   */
  lemma {:induction false} PushedInTurn(o0: seq<Push>, o1: seq<Push>, o2: seq<Push>, sessions: map<Id, Session>,
                                        cmds: map<Id, Command>, cmds': map<Id, Command>, a: nat, b: nat, c: nat)
    requires o0 <= o1 <= o2 && a <= b <= c && SameBetween(cmds, cmds', a, b)
    requires PushedOnCreation(o1[|o0|..], sessions, cmds, a, b) && PushedOnCreation(o2[|o1|..], sessions, cmds', b, c)
    ensures PushedOnCreation(o2[|o0|..], sessions, cmds', a, c)
  {
    var early := SentOnCreation(cmds, a, b);
    assert early == SentOnCreation(cmds', a, b);
    assert SentOnCreation(cmds', a, c) == early + SentOnCreation(cmds', b, c);
    Appended(o0, o1, o2);
    Dispatch.RequestsPushedElsewhere(o1[|o0|..], sessions, cmds, cmds', early);
    Dispatch.RequestsPushedUnion(o1[|o0|..], o2[|o1|..], sessions, cmds', early, SentOnCreation(cmds', b, c));
  }

  /** The outbox after three points in time: what was appended after the first is the two later parts in turn. */
  lemma Appended<T>(o0: seq<T>, o1: seq<T>, o2: seq<T>)
    requires o0 <= o1 <= o2
    ensures o2[|o0|..] == o1[|o0|..] + o2[|o1|..]
  {
  }

  /**
   * `Server.execute`: refused with "Invalid server." when the server is
   * disabled or deleted; otherwise saves `Created(...)` under a fresh key
   * and, when it has no dependencies and the server is connected, pushes
   * its request to every open session of the server.
   */
  method Execute(db: Db, server: Id, line: string, shell: Shell, data: Option<Json>, requestedBy: Option<Id>,
                 runAfter: seq<Id>, now: Time) returns (r: Result<Id, Failure>)
    requires db.ValidCommands() && server in db.servers
    modifies db`commands, db`outbox, db`nextCommand
    ensures db.ValidCommands() && old(db.outbox) <= db.outbox
    ensures !Usable(db.servers[server]) ==>
      r == Err(ValidationError("Invalid server.")) &&
      db.commands == old(db.commands) && db.outbox == old(db.outbox) && db.nextCommand == old(db.nextCommand)
    ensures Usable(db.servers[server]) ==>
      r == Ok(old(db.nextCommand)) && old(db.nextCommand) !in old(db.commands) && db.nextCommand == old(db.nextCommand) + 1 &&
      db.commands == old(db.commands)[r.value := Created(server, shell, line, data, requestedBy, runAfter,
                                                         IsConnected(db.sessions, server), now)]
    ensures Usable(db.servers[server]) && |runAfter| == 0 && IsConnected(db.sessions, server) ==>
      PushedToEach(db.outbox[|old(db.outbox)|..], db.sessions, OpenSessionsOf(db.sessions, server),
                   Request(r.value, db.commands[r.value]))
    ensures !(|runAfter| == 0 && IsConnected(db.sessions, server)) ==> db.outbox == old(db.outbox)
  {
    if !Usable(db.servers[server]) {
      return Err(ValidationError("Invalid server."));
    }
    var connected := IsConnected(db.sessions, server);
    var id := db.SaveCommand(Created(server, shell, line, data, requestedBy, runAfter, connected, now));
    if |runAfter| == 0 && connected {
      Dispatch.Execute(db, id, false, now);
    }
    r := Ok(id);
  }

  /** What one `execute` pushed, in the terms of `PushedOnCreation` (see `Execute`). */
  lemma PushedByExecute(block: seq<Push>, sessions: map<Id, Session>, cmds: map<Id, Command>, cmds': map<Id, Command>,
                        n: nat, n': nat, server: Id, shell: Shell, line: string, data: Option<Json>, requestedBy: Option<Id>,
                        runAfter: seq<Id>, now: Time)
    requires n' == n || (n' == n + 1 && cmds' == cmds[n := Created(server, shell, line, data, requestedBy, runAfter,
                                                                   IsConnected(sessions, server), now)])
    requires n' == n ==> block == []
    requires n' == n + 1 && |runAfter| == 0 && IsConnected(sessions, server) ==>
      PushedToEach(block, sessions, OpenSessionsOf(sessions, server), Request(n, cmds'[n]))
    requires !(|runAfter| == 0 && IsConnected(sessions, server)) ==> block == []
    ensures PushedOnCreation(block, sessions, cmds', n, n')
  {
    if n' == n {
      NothingPushed(sessions, cmds', n);
    } else {
      CreatedRow(server, shell, line, data, requestedBy, runAfter, IsConnected(sessions, server), now);
      PushedForOne(block, sessions, cmds', n);
    }
  }

  lemma NothingPushed(sessions: map<Id, Session>, cmds: map<Id, Command>, n: nat)
    ensures PushedOnCreation([], sessions, cmds, n, n)
  {
    assert SentOnCreation(cmds, n, n) == {};
  }

  /** What `execute` pushes for the one command it saves under `id`: its request when it was delivered, nothing otherwise. */
  lemma PushedForOne(block: seq<Push>, sessions: map<Id, Session>, cmds: map<Id, Command>, id: Id)
    requires id in cmds
    requires cmds[id].deliveredAt.Some? ==>
      PushedToEach(block, sessions, OpenSessionsOf(sessions, cmds[id].server), Request(id, cmds[id]))
    requires cmds[id].deliveredAt.None? ==> block == []
    ensures PushedOnCreation(block, sessions, cmds, id, id + 1)
  {
    if cmds[id].deliveredAt.Some? {
      assert SentOnCreation(cmds, id, id + 1) == {id};
      Dispatch.RequestsPushedOneMore([], block, sessions, cmds, {}, id);
      assert [] + block == block;
    } else {
      assert SentOnCreation(cmds, id, id + 1) == {};
    }
  }

  /**
   * What `execute` leaves, from the command table and next free key
   * `start`: refused on a disabled or deleted server, otherwise the row
   * `Created(...)` saved under the next key, which it returns (see `Execute`).
   */
  ghost function Issued(db: Db, server: Id, line: string, shell: Shell, data: Option<Json>, requestedBy: Option<Id>,
                        runAfter: seq<Id>, now: Time, start: (map<Id, Command>, nat)): (map<Id, Command>, nat, Result<Id, Failure>)
    reads db`servers, db`sessions
    requires server in db.servers
  {
    if !Usable(db.servers[server]) then (start.0, start.1, Err(ValidationError("Invalid server.")))
    else (start.0[start.1 := Created(server, shell, line, data, requestedBy, runAfter, IsConnected(db.sessions, server), now)],
          start.1 + 1, Ok(start.1))
  }

  // ----- named actions -----

  /** The agent actions a server offers, each one internal command line. */
  datatype Action =
    | UpdateInformation | UpgradeSystem | RebootSystem | ShutdownSystem | UpgradeAgent | RestartAgent | ShutdownAgent

  function ActionLine(a: Action): string
  {
    match a
    case UpdateInformation => "commit"
    case UpgradeSystem => "update"
    case RebootSystem => "reboot"
    case ShutdownSystem => "shutdown"
    case UpgradeAgent => "upgrade"
    case RestartAgent => "restart"
    case ShutdownAgent => "quit"
  }

  /** Different actions send different command lines, so the agent can tell them apart. */
  lemma ActionLinesAreDistinct(a: Action, b: Action)
    ensures ActionLine(a) == ActionLine(b) <==> a == b
  {
  }

  /** Each action: the internal command for its line, without data or dependencies. */
  method Act(db: Db, server: Id, a: Action, requestedBy: Option<Id>, now: Time) returns (r: Result<Id, Failure>)
    requires db.ValidCommands() && server in db.servers
    modifies db`commands, db`outbox, db`nextCommand
    ensures db.ValidCommands() && old(db.outbox) <= db.outbox
    ensures !Usable(db.servers[server]) ==> r == Err(ValidationError("Invalid server.")) && db.commands == old(db.commands)
    ensures Usable(db.servers[server]) ==>
      r == Ok(old(db.nextCommand)) &&
      db.commands == old(db.commands)[r.value := Created(server, Internal, ActionLine(a), None, requestedBy, [],
                                                         IsConnected(db.sessions, server), now)]
    ensures !IsConnected(db.sessions, server) ==> db.outbox == old(db.outbox)
    ensures PushedOnCreation(db.outbox[|old(db.outbox)|..], db.sessions, db.commands, old(db.nextCommand), db.nextCommand)
  {
    r := Execute(db, server, ActionLine(a), Internal, None, requestedBy, [], now);
    PushedByExecute(db.outbox[|old(db.outbox)|..], db.sessions, old(db.commands), db.commands, old(db.nextCommand), db.nextCommand,
                    server, Internal, ActionLine(a), None, requestedBy, [], now);
  }

  // ----- account commands -----

  predicate IsSpace(c: char)
  {
    c == ' ' || c == '\t' || c == '\n' || c == '\r' || c == '\U{000B}' || c == '\U{000C}'
  }

  /** `str.strip()` over ASCII whitespace. */
  function Strip(s: string): (r: string)
    ensures |r| <= |s|
    ensures r != [] ==> !IsSpace(r[0]) && !IsSpace(r[|r| - 1])
    decreases |s|
  {
    if s != [] && IsSpace(s[0]) then Strip(s[1..])
    else if s != [] && IsSpace(s[|s| - 1]) then Strip(s[..|s| - 1])
    else s
  }

  /** `get_full_name()`: first and last name joined by a space, stripped. */
  function FullName(u: User): string
  {
    Strip(u.firstName + " " + u.lastName)
  }

  function OptNat(n: Option<nat>): Json
  {
    if n.Some? then JInt(n.value) else JNull
  }

  /** The data of `adduser`: the account, its primary group, its groups and an `(alpacon)` comment naming the IAM user. */
  function AddUserData(id: Id, u: User, gid: Option<nat>, groupname: string, gids: seq<Option<nat>>): Json
  {
    JObject([("username", JStr(u.username)), ("uid", OptNat(u.uid)), ("gid", OptNat(gid)),
             ("groups", JList(seq(|gids|, i requires 0 <= i < |gids| => OptNat(gids[i])))),
             ("comment", JStr(FullName(u) + ",,,,(alpacon)" + DecimalText(id))),
             ("home_directory", JStr(u.homeDirectory)), ("shell", JStr(u.shell)), ("groupname", JStr(groupname))])
  }

  function AddGroupData(g: Group): Json
  {
    JObject([("groupname", JStr(g.name)), ("gid", OptNat(g.gid))])
  }

  /** The command line and data of each account command. */
  datatype AccountCommand =
    | AddUserCmd(id: Id, u: User, gid: Option<nat>, groupname: string, gids: seq<Option<nat>>)
    | AddGroupCmd(g: Group)
    | DelUserCmd(u: User)
    | DelGroupCmd(g: Group)

  function AccountLine(a: AccountCommand): string
  {
    match a
    case AddUserCmd(_, u, _, _, _) => "adduser " + u.username
    case AddGroupCmd(g) => "addgroup " + g.name
    case DelUserCmd(u) => "deluser " + u.username
    case DelGroupCmd(g) => "delgroup " + g.name
  }

  function AccountData(a: AccountCommand): Json
  {
    match a
    case AddUserCmd(id, u, gid, groupname, gids) => AddUserData(id, u, gid, groupname, gids)
    case AddGroupCmd(g) => AddGroupData(g)
    case DelUserCmd(u) => JObject([("username", JStr(u.username))])
    case DelGroupCmd(g) => JObject([("groupname", JStr(g.name))])
  }

  /**
   * Account commands carry their data JSON-encoded, their line names the
   * account, and an `adduser` comment ends with `(alpacon)` and the IAM id.
   */
  lemma AccountCommandShape(a: AccountCommand, server: Id, requestedBy: Option<Id>, runAfter: seq<Id>, connected: bool, now: Time)
    ensures var c := Created(server, Internal, AccountLine(a), Some(AccountData(a)), requestedBy, runAfter, connected, now);
      c.data == Some(Dumped(AccountData(a))) && Truthy(c.data.value) && c.shell == Internal
    ensures a.AddUserCmd? ==>
      AccountLine(a) == "adduser " + a.u.username &&
      AccountData(a).fields[4] == ("comment", JStr(FullName(a.u) + ",,,,(alpacon)" + DecimalText(a.id)))
    ensures a.AddUserCmd? ==> AccountData(a).fields[3].1.items == seq(|a.gids|, i requires 0 <= i < |a.gids| => OptNat(a.gids[i]))
    ensures a.AddGroupCmd? ==> AccountLine(a) == "addgroup " + a.g.name && AccountData(a).fields[1] == ("gid", OptNat(a.g.gid))
  {
  }

  /** `add_user`, `add_group`, `del_user`, `del_group`: `execute` with the account command's line and data. */
  method Account(db: Db, server: Id, a: AccountCommand, requestedBy: Option<Id>, runAfter: seq<Id>, now: Time)
    returns (r: Result<Id, Failure>)
    requires db.ValidCommands() && server in db.servers
    modifies db`commands, db`outbox, db`nextCommand
    ensures db.ValidCommands() && old(db.outbox) <= db.outbox
    ensures !Usable(db.servers[server]) ==>
      r == Err(ValidationError("Invalid server.")) && db.commands == old(db.commands) && db.nextCommand == old(db.nextCommand)
    ensures Usable(db.servers[server]) ==>
      r == Ok(old(db.nextCommand)) && db.nextCommand == old(db.nextCommand) + 1 &&
      db.commands == old(db.commands)[r.value := Created(server, Internal, AccountLine(a), Some(AccountData(a)), requestedBy,
                                                         runAfter, IsConnected(db.sessions, server), now)]
    ensures !(|runAfter| == 0 && IsConnected(db.sessions, server)) ==> db.outbox == old(db.outbox)
    ensures PushedOnCreation(db.outbox[|old(db.outbox)|..], db.sessions, db.commands, old(db.nextCommand), db.nextCommand)
  {
    r := Execute(db, server, AccountLine(a), Internal, Some(AccountData(a)), requestedBy, runAfter, now);
    PushedByExecute(db.outbox[|old(db.outbox)|..], db.sessions, old(db.commands), db.commands, old(db.nextCommand), db.nextCommand,
                    server, Internal, AccountLine(a), Some(AccountData(a)), requestedBy, runAfter, now);
  }

  /** `has_user`: some system account on the server is linked to the IAM user. */
  predicate HasUser(systemUsers: map<Id, SystemUser>, server: Id, user: Id)
  {
    exists k :: k in systemUsers && systemUsers[k].server == server && systemUsers[k].iamUser == Some(user)
  }

  /** `has_group`: some system group on the server is linked to the IAM group. */
  predicate HasGroup(systemGroups: map<Id, SystemGroup>, server: Id, group: Id)
  {
    exists k :: k in systemGroups && systemGroups[k].server == server && systemGroups[k].iamGroup == Some(group)
  }

  // ----- preparing a user's account -----

  /** `memberships` lists user's memberships (the rows `membership_set` returns, in their order), each with its group. */
  predicate MembershipRows(ms: map<Id, Membership>, users: map<Id, User>, groups: map<Id, Group>, user: Id, memberships: seq<Id>)
  {
    (forall i :: 0 <= i < |memberships| ==>
       VisibleMembership(ms, users, groups, memberships[i]) && ms[memberships[i]].user == user) &&
    (forall i, j :: 0 <= i < j < |memberships| ==> memberships[i] != memberships[j]) &&
    (forall k :: k in ms && VisibleMembership(ms, users, groups, k) && ms[k].user == user ==> k in memberships)
  }

  /** Each listed membership is a row whose group is a row. */
  predicate Listed(ms: map<Id, Membership>, groups: map<Id, Group>, memberships: seq<Id>)
  {
    forall i :: 0 <= i < |memberships| ==> memberships[i] in ms && ms[memberships[i]].group in groups
  }

  /** The gids of the groups of the first `n` memberships, in order. */
  function Gids(ms: map<Id, Membership>, groups: map<Id, Group>, memberships: seq<Id>, n: nat): (r: seq<Option<nat>>)
    requires n <= |memberships| && Listed(ms, groups, memberships)
    ensures |r| == n
    ensures forall i :: 0 <= i < n ==> r[i] == groups[ms[memberships[i]].group].gid
  {
    if n == 0 then [] else Gids(ms, groups, memberships, n - 1) + [groups[ms[memberships[n - 1]].group].gid]
  }

  /** The groups of the first `n` memberships that the server has no system group for, in order. */
  function MissingGroups(ms: map<Id, Membership>, groups: map<Id, Group>, systemGroups: map<Id, SystemGroup>, server: Id,
                         memberships: seq<Id>, n: nat): (r: seq<Id>)
    requires n <= |memberships| && Listed(ms, groups, memberships)
    ensures |r| <= n
    ensures forall i :: 0 <= i < |r| ==> r[i] in groups && !HasGroup(systemGroups, server, r[i])
  {
    if n == 0 then []
    else
      var last := ms[memberships[n - 1]].group;
      MissingGroups(ms, groups, systemGroups, server, memberships, n - 1) + (if HasGroup(systemGroups, server, last) then [] else [last])
  }

  /**
   * The missing groups are exactly the groups of the memberships the server
   * has no system group for.
   */
  lemma {:induction false} MissingGroupsExact(ms: map<Id, Membership>, groups: map<Id, Group>, systemGroups: map<Id, SystemGroup>,
                                              server: Id, memberships: seq<Id>, n: nat, g: Id)
    requires n <= |memberships| && Listed(ms, groups, memberships)
    ensures g in MissingGroups(ms, groups, systemGroups, server, memberships, n) <==>
      !HasGroup(systemGroups, server, g) && exists i :: 0 <= i < n && ms[memberships[i]].group == g
  {
    if n > 0 {
      MissingGroupsExact(ms, groups, systemGroups, server, memberships, n - 1, g);
      var m0 := MissingGroups(ms, groups, systemGroups, server, memberships, n - 1);
      var last := ms[memberships[n - 1]].group;
      assert MissingGroups(ms, groups, systemGroups, server, memberships, n) == m0 + (if HasGroup(systemGroups, server, last) then [] else [last]);
      if !HasGroup(systemGroups, server, g) && exists i :: 0 <= i < n && ms[memberships[i]].group == g {
        var i :| 0 <= i < n && ms[memberships[i]].group == g;
        if i == n - 1 {
          assert g == last;
        }
      }
    }
  }

  /** `n` consecutive fresh keys from `base`. */
  function Fresh(base: nat, n: nat): (r: seq<Id>)
    ensures |r| == n && forall i :: 0 <= i < n ==> r[i] == base + i
  {
    if n == 0 then [] else Fresh(base, n - 1) + [base + n - 1]
  }

  /** The `addgroup` row `prepare_user` issues for group `g`, requested by the user. */
  function AddGroupRow(server: Id, g: Group, user: Id, connected: bool, now: Time): (r: Command)
    ensures r.server == server && r.shell == Internal && r.line == "addgroup " + g.name
    ensures r.requestedBy == Some(user) && r.runAfter == {} && r.data == Some(Dumped(AddGroupData(g)))
  {
    Created(server, Internal, AccountLine(AddGroupCmd(g)), Some(AccountData(AddGroupCmd(g))), Some(user), [], connected, now)
  }

  /** The `adduser` row `prepare_user` issues, in group `g`, with the groups `gids`, run after `after`. */
  function AddUserRow(server: Id, user: Id, u: User, g: Group, gids: seq<Option<nat>>, after: seq<Id>, connected: bool, now: Time): (r: Command)
    ensures r.server == server && r.shell == Internal && r.line == "adduser " + u.username && r.requestedBy == Some(user)
    ensures r.data == Some(Dumped(AddUserData(user, u, g.gid, g.name, gids)))
    ensures forall d :: d in r.runAfter <==> d in after
    ensures r.deliveredAt.Some? <==> |after| == 0 && connected
  {
    var a := AddUserCmd(user, u, g.gid, g.name, gids);
    CreatedRow(server, Internal, AccountLine(a), Some(AccountData(a)), Some(user), after, connected, now);
    Created(server, Internal, AccountLine(a), Some(AccountData(a)), Some(user), after, connected, now)
  }

  /** While `prepare_user` runs: the command table, the next free key and the dependency list. */
  datatype Prep = Prep(cmds: map<Id, Command>, next: nat, deps: seq<Id>)

  /** The `addgroup` rows of one call, by group. */
  function GroupRows(server: Id, user: Id, connected: bool, now: Time): Group -> Command
  {
    g => AddGroupRow(server, g, user, connected, now)
  }

  /** One membership's turn: unless the server has the group, its row under the next key, appended to the dependencies. */
  function GroupStep(p: Prep, g: Group, has: bool, row: Group -> Command): Prep
  {
    if has then p else Prep(p.cmds[p.next := row(g)], p.next + 1, p.deps + [p.next])
  }

  /** The state after the turns of the first `n` memberships, in order, from `start`. */
  function Grouped(ms: map<Id, Membership>, groups: map<Id, Group>, systemGroups: map<Id, SystemGroup>, server: Id,
                   row: Group -> Command, memberships: seq<Id>, n: nat, start: Prep): Prep
    requires n <= |memberships| && Listed(ms, groups, memberships)
  {
    if n == 0 then start
    else
      var g := ms[memberships[n - 1]].group;
      GroupStep(Grouped(ms, groups, systemGroups, server, row, memberships, n - 1, start), groups[g], HasGroup(systemGroups, server, g), row)
  }

  /** The `adduser` row of one call, by its dependency list. */
  function UserRows(server: Id, user: Id, u: User, g: Group, gids: seq<Option<nat>>, connected: bool, now: Time): seq<Id> -> Command
  {
    after => AddUserRow(server, user, u, g, gids, after, connected, now)
  }

  /**
   * The state after `prepare_user` on a usable server: the group turns, then,
   * unless the server has the user, the user's row under the next key, run
   * after the whole dependency list.
   */
  function Prepared(ms: map<Id, Membership>, groups: map<Id, Group>, systemGroups: map<Id, SystemGroup>, server: Id,
                    hasUser: bool, row: Group -> Command, userRow: seq<Id> -> Command, memberships: seq<Id>, start: Prep): Prep
    requires Listed(ms, groups, memberships)
  {
    UserStep(Grouped(ms, groups, systemGroups, server, row, memberships, |memberships|, start), hasUser, userRow)
  }

  /** The user's turn: nothing when the server has the user, else the `adduser` row under the next key. */
  function UserStep(p: Prep, has: bool, userRow: seq<Id> -> Command): Prep
  {
    if has then p else Prep(p.cmds[p.next := userRow(p.deps)], p.next + 1, p.deps + [p.next])
  }

  /** `prepare_user` has a command to issue: the server lacks a group of the memberships, or the user. */
  predicate NeedsCommand(ms: map<Id, Membership>, systemUsers: map<Id, SystemUser>, systemGroups: map<Id, SystemGroup>,
                         server: Id, user: Id, memberships: seq<Id>)
    requires forall i :: 0 <= i < |memberships| ==> memberships[i] in ms
  {
    (exists i :: 0 <= i < |memberships| && !HasGroup(systemGroups, server, ms[memberships[i]].group)) ||
    !HasUser(systemUsers, server, user)
  }

  lemma AppendAssoc<T>(a: seq<T>, b: seq<T>, c: seq<T>)
    ensures (a + b) + c == a + (b + c)
  {
  }

  /**
   * The group turns issue one row per missing group, in order, under
   * consecutive fresh keys appended to the dependencies, and change no
   * existing row.
   */
  lemma {:induction false} GroupedShape(ms: map<Id, Membership>, groups: map<Id, Group>, systemGroups: map<Id, SystemGroup>,
                                        server: Id, row: Group -> Command, memberships: seq<Id>, n: nat, start: Prep)
    requires n <= |memberships| && Listed(ms, groups, memberships)
    ensures var p := Grouped(ms, groups, systemGroups, server, row, memberships, n, start);
      var missing := MissingGroups(ms, groups, systemGroups, server, memberships, n);
      p.next == start.next + |missing| && p.deps == start.deps + Fresh(start.next, |missing|) &&
      (forall k :: k in p.cmds <==> k in start.cmds || start.next <= k < p.next) &&
      (forall k :: k in start.cmds && k < start.next ==> p.cmds[k] == start.cmds[k]) &&
      (forall i :: 0 <= i < |missing| ==> p.cmds[start.next + i] == row(groups[missing[i]]))
  {
    if n > 0 {
      GroupedShape(ms, groups, systemGroups, server, row, memberships, n - 1, start);
      var g := ms[memberships[n - 1]].group;
      var q := Grouped(ms, groups, systemGroups, server, row, memberships, n - 1, start);
      var p := Grouped(ms, groups, systemGroups, server, row, memberships, n, start);
      var m0 := MissingGroups(ms, groups, systemGroups, server, memberships, n - 1);
      var missing := MissingGroups(ms, groups, systemGroups, server, memberships, n);
      if HasGroup(systemGroups, server, g) {
        assert p == q;
        assert missing == m0 + [] == m0;
      } else {
        assert p == Prep(q.cmds[q.next := row(groups[g])], q.next + 1, q.deps + [q.next]);
        assert missing == m0 + [g];
        AppendAssoc(start.deps, Fresh(start.next, |m0|), [start.next + |m0|]);
        assert Fresh(start.next, |missing|) == Fresh(start.next, |m0|) + [start.next + |m0|];
        forall i | 0 <= i < |missing| ensures p.cmds[start.next + i] == row(groups[missing[i]]) {
          if i < |m0| {
            assert missing[i] == m0[i];
          } else {
            assert missing[i] == g && start.next + i == q.next;
          }
        }
      }
    }
  }

  /**
   * What `prepare_user` issues on a usable server: the `addgroup` commands
   * of `GroupedShape`, then, exactly when the server lacks the user, one
   * `adduser` that waits for the initial dependencies and every `addgroup`
   * just issued; all new keys are appended to the dependency list.
   */
  lemma {:induction false} PreparedShape(ms: map<Id, Membership>, groups: map<Id, Group>, systemGroups: map<Id, SystemGroup>,
                                         server: Id, hasUser: bool, row: Group -> Command, userRow: seq<Id> -> Command,
                                         memberships: seq<Id>, start: Prep)
    requires Listed(ms, groups, memberships)
    ensures var p := Prepared(ms, groups, systemGroups, server, hasUser, row, userRow, memberships, start);
      var missing := MissingGroups(ms, groups, systemGroups, server, memberships, |memberships|);
      var n := |missing| + (if hasUser then 0 else 1);
      p.next == start.next + n && p.deps == start.deps + Fresh(start.next, n) &&
      (forall k :: k in p.cmds <==> k in start.cmds || start.next <= k < p.next) &&
      (forall k :: k in start.cmds && k < start.next ==> p.cmds[k] == start.cmds[k]) &&
      (forall i :: 0 <= i < |missing| ==> p.cmds[start.next + i] == row(groups[missing[i]])) &&
      (!hasUser ==> p.cmds[start.next + |missing|] == userRow(start.deps + Fresh(start.next, |missing|)))
  {
    var missing := MissingGroups(ms, groups, systemGroups, server, memberships, |memberships|);
    GroupedShape(ms, groups, systemGroups, server, row, memberships, |memberships|, start);
    UserStepShape(Grouped(ms, groups, systemGroups, server, row, memberships, |memberships|, start), hasUser, userRow, start, |missing|);
  }

  /** The user's turn keeps the shape of the group turns and adds, when it issues, one key after them. */
  lemma UserStepShape(q: Prep, has: bool, userRow: seq<Id> -> Command, start: Prep, m: nat)
    requires q.next == start.next + m && q.deps == start.deps + Fresh(start.next, m)
    requires forall k :: k in q.cmds <==> k in start.cmds || start.next <= k < q.next
    requires forall k :: k in start.cmds && k < start.next ==> q.cmds[k] == start.cmds[k]
    ensures var p := UserStep(q, has, userRow);
      var n := m + (if has then 0 else 1);
      p.next == start.next + n && p.deps == start.deps + Fresh(start.next, n) &&
      (forall k :: k in p.cmds <==> k in start.cmds || start.next <= k < p.next) &&
      (forall k :: k in start.cmds && k < start.next ==> p.cmds[k] == start.cmds[k]) &&
      (forall k :: k in q.cmds && k < q.next ==> p.cmds[k] == q.cmds[k]) &&
      (!has ==> p.cmds[start.next + m] == userRow(start.deps + Fresh(start.next, m)))
  {
    if !has {
      AppendAssoc(start.deps, Fresh(start.next, m), [start.next + m]);
      assert Fresh(start.next, m + 1) == Fresh(start.next, m) + [start.next + m];
    }
  }

  /** The `adduser` of `prepare_user` waits for every dependency handed in and every `addgroup` it issued. */
  lemma AddUserWaitsForAll(deps: seq<Id>, base: nat, n: nat, d: Id)
    ensures d in deps + Fresh(base, n) <==> d in deps || base <= d < base + n
  {
    if base <= d < base + n {
      assert (deps + Fresh(base, n))[|deps| + (d - base)] == d;
    }
  }

  /**
   * What `prepare_user` leaves, from the command table and next free key
   * `start`: the new table, the new next free key and its result (see
   * `PrepareUser`).
   */
  ghost function Preparation(db: Db, server: Id, user: Id, group: Id, memberships: seq<Id>, deps: seq<Id>, now: Time,
                             start: (map<Id, Command>, nat)): (map<Id, Command>, nat, Result<Option<seq<Id>>, Failure>)
    reads db`servers, db`sessions, db`memberships, db`groups, db`users, db`systemUsers, db`systemGroups
    requires server in db.servers && user in db.users && group in db.groups && Listed(db.memberships, db.groups, memberships)
  {
    var platform := db.servers[server].osPlatform;
    if platform.None? then (start.0, start.1, Err(DoesNotExist))
    else if platform == Some("darwin") then (start.0, start.1, Ok(None))
    else Provisioned(db, server, user, group, memberships, deps, now, start)
  }

  /** What `prepare_user` leaves once the platform is known and is not darwin (see `Provision`). */
  ghost function Provisioned(db: Db, server: Id, user: Id, group: Id, memberships: seq<Id>, deps: seq<Id>, now: Time,
                             start: (map<Id, Command>, nat)): (map<Id, Command>, nat, Result<Option<seq<Id>>, Failure>)
    reads db`servers, db`sessions, db`memberships, db`groups, db`users, db`systemUsers, db`systemGroups
    requires server in db.servers && user in db.users && group in db.groups && Listed(db.memberships, db.groups, memberships)
  {
    if Usable(db.servers[server]) then
      var p := Prepared(db.memberships, db.groups, db.systemGroups, server, HasUser(db.systemUsers, server, user),
                        GroupRows(server, user, IsConnected(db.sessions, server), now),
                        UserRows(server, user, db.users[user], db.groups[group], Gids(db.memberships, db.groups, memberships, |memberships|),
                                 IsConnected(db.sessions, server), now),
                        memberships, Prep(start.0, start.1, deps));
      (p.cmds, p.next, Ok(Some(p.deps)))
    else
      (start.0, start.1,
       if NeedsCommand(db.memberships, db.systemUsers, db.systemGroups, server, user, memberships)
       then Err(ValidationError("Invalid server.")) else Ok(Some(deps)))
  }

  /**
   * `prepare_user(user, group, deps)`. Reading the platform fails when the
   * server has reported no OS version; on darwin nothing is done and `None`
   * is returned. Otherwise each membership's group gid is collected and an
   * `addgroup` issued when the server lacks the group; then, when the server
   * lacks the user, an `adduser` is issued that runs after the dependency
   * list. Every issued key is appended to `deps`, which is returned. On a
   * disabled or deleted server the first command to issue fails.
   */
  method PrepareUser(db: Db, server: Id, user: Id, group: Id, memberships: seq<Id>, deps: seq<Id>, now: Time)
    returns (r: Result<Option<seq<Id>>, Failure>)
    requires db.ValidCommands() && server in db.servers && user in db.users && group in db.groups
    requires MembershipRows(db.memberships, db.users, db.groups, user, memberships)
    modifies db`commands, db`outbox, db`nextCommand
    ensures db.ValidCommands() && old(db.outbox) <= db.outbox
    ensures Listed(db.memberships, db.groups, memberships)
    ensures db.servers[server].osPlatform.None? ==>
      r == Err(DoesNotExist) && db.commands == old(db.commands) && db.nextCommand == old(db.nextCommand)
    ensures db.servers[server].osPlatform == Some("darwin") ==>
      r == Ok(None) && db.commands == old(db.commands) && db.nextCommand == old(db.nextCommand)
    ensures !IsConnected(db.sessions, server) ==> db.outbox == old(db.outbox)
    ensures (db.commands, db.nextCommand, r) ==
            Preparation(db, server, user, group, memberships, deps, now, (old(db.commands), old(db.nextCommand)))
    ensures old(db.nextCommand) <= db.nextCommand &&
      PushedOnCreation(db.outbox[|old(db.outbox)|..], db.sessions, db.commands, old(db.nextCommand), db.nextCommand)
  {
    assert Listed(db.memberships, db.groups, memberships);
    var platform := db.servers[server].osPlatform;
    if platform.None? || platform.value == "darwin" {
      NothingPushed(db.sessions, db.commands, db.nextCommand);
      return if platform.None? then Err(DoesNotExist) else Ok(None);
    }
    r := Provision(db, server, user, group, memberships, deps, now);
  }

  /** `prepare_user` past the platform checks: the `addgroup` loop, then the `adduser` turn. */
  method Provision(db: Db, server: Id, user: Id, group: Id, memberships: seq<Id>, deps: seq<Id>, now: Time)
    returns (r: Result<Option<seq<Id>>, Failure>)
    requires db.ValidCommands() && server in db.servers && user in db.users && group in db.groups
    requires Listed(db.memberships, db.groups, memberships)
    modifies db`commands, db`outbox, db`nextCommand
    ensures db.ValidCommands() && old(db.outbox) <= db.outbox
    ensures !IsConnected(db.sessions, server) ==> db.outbox == old(db.outbox)
    ensures (db.commands, db.nextCommand, r) ==
            Provisioned(db, server, user, group, memberships, deps, now, (old(db.commands), old(db.nextCommand)))
    ensures old(db.nextCommand) <= db.nextCommand &&
      PushedOnCreation(db.outbox[|old(db.outbox)|..], db.sessions, db.commands, old(db.nextCommand), db.nextCommand)
  {
    var grouped := AddGroups(db, server, user, memberships, deps, now);
    if grouped.Err? {
      return Err(grouped.error);
    }
    var (gids, out) := grouped.value;
    var added := UserTurn(db, server, user, group, gids, out, now, old(db.outbox), old(db.nextCommand));
    if added.Err? {
      return Err(added.error);
    }
    r := Ok(Some(added.value));
  }

  /** The last step of `prepare_user`: an `adduser` after the dependency list `out`, unless the server has the user. */
  method UserTurn(db: Db, server: Id, user: Id, group: Id, gids: seq<Option<nat>>, out: seq<Id>, now: Time,
                  ghost o0: seq<Push>, ghost base: nat)
    returns (r: Result<seq<Id>, Failure>)
    requires db.ValidCommands() && server in db.servers && user in db.users && group in db.groups
    requires o0 <= db.outbox && base <= db.nextCommand && PushedOnCreation(db.outbox[|o0|..], db.sessions, db.commands, base, db.nextCommand)
    modifies db`commands, db`outbox, db`nextCommand
    ensures db.ValidCommands() && old(db.outbox) <= db.outbox
    ensures !IsConnected(db.sessions, server) ==> db.outbox == old(db.outbox)
    ensures Usable(db.servers[server]) ==>
      r.Ok? && Prep(db.commands, db.nextCommand, r.value) ==
      UserStep(Prep(old(db.commands), old(db.nextCommand), out), HasUser(db.systemUsers, server, user),
               UserRows(server, user, db.users[user], db.groups[group], gids, IsConnected(db.sessions, server), now))
    ensures !Usable(db.servers[server]) ==>
      db.commands == old(db.commands) && db.nextCommand == old(db.nextCommand) &&
      (r.Err? <==> !HasUser(db.systemUsers, server, user)) &&
      (r.Err? ==> r.error == ValidationError("Invalid server.")) && (r.Ok? ==> r.value == out)
    ensures base <= db.nextCommand && PushedOnCreation(db.outbox[|o0|..], db.sessions, db.commands, base, db.nextCommand)
  {
    if HasUser(db.systemUsers, server, user) {
      return Ok(out);
    }
    var g := db.groups[group];
    ghost var o1, c1, n1 := db.outbox, db.commands, db.nextCommand;
    var c := Account(db, server, AddUserCmd(user, db.users[user], g.gid, g.name, gids), Some(user), out, now);
    PushedInTurn(o0, o1, db.outbox, db.sessions, c1, db.commands, base, n1, db.nextCommand);
    if c.Err? {
      return Err(c.error);
    }
    r := Ok(out + [c.value]);
  }

  /**
   * The loop of `prepare_user` over the memberships: returns the gids and
   * the dependency list with the `addgroup` keys appended, or the failure
   * of the first `addgroup` on an unusable server.
   */
  method AddGroups(db: Db, server: Id, user: Id, memberships: seq<Id>, deps: seq<Id>, now: Time)
    returns (r: Result<(seq<Option<nat>>, seq<Id>), Failure>)
    requires db.ValidCommands() && server in db.servers && Listed(db.memberships, db.groups, memberships)
    modifies db`commands, db`outbox, db`nextCommand
    ensures db.ValidCommands() && old(db.outbox) <= db.outbox
    ensures !IsConnected(db.sessions, server) ==> db.outbox == old(db.outbox)
    ensures Usable(db.servers[server]) ==>
      var q := Grouped(db.memberships, db.groups, db.systemGroups, server, GroupRows(server, user, IsConnected(db.sessions, server), now),
                       memberships, |memberships|, Prep(old(db.commands), old(db.nextCommand), deps));
      r == Ok((Gids(db.memberships, db.groups, memberships, |memberships|), q.deps)) && db.commands == q.cmds && db.nextCommand == q.next
    ensures !Usable(db.servers[server]) ==>
      db.commands == old(db.commands) && db.nextCommand == old(db.nextCommand) &&
      (r.Err? <==> exists i :: 0 <= i < |memberships| && !HasGroup(db.systemGroups, server, db.memberships[memberships[i]].group)) &&
      (r.Err? ==> r.error == ValidationError("Invalid server.")) &&
      (r.Ok? ==> r.value == (Gids(db.memberships, db.groups, memberships, |memberships|), deps))
    ensures old(db.nextCommand) <= db.nextCommand &&
      PushedOnCreation(db.outbox[|old(db.outbox)|..], db.sessions, db.commands, old(db.nextCommand), db.nextCommand)
  {
    ghost var start := Prep(db.commands, db.nextCommand, deps);
    NothingPushed(db.sessions, db.commands, start.next);
    var gids: seq<Option<nat>> := [];
    var out := deps;
    var i := 0;
    while i < |memberships|
      invariant 0 <= i <= |memberships|
      invariant gids == Gids(db.memberships, db.groups, memberships, i)
      invariant TurnsDone(db.memberships, db.groups, db.systemGroups, server, Usable(db.servers[server]),
                          GroupRows(server, user, IsConnected(db.sessions, server), now), memberships, i, start, Prep(db.commands, db.nextCommand, out))
      invariant db.ValidCommands() && old(db.outbox) <= db.outbox
      invariant !IsConnected(db.sessions, server) ==> db.outbox == old(db.outbox)
      invariant start.next <= db.nextCommand &&
        PushedOnCreation(db.outbox[|old(db.outbox)|..], db.sessions, db.commands, start.next, db.nextCommand)
    {
      gids := gids + [db.groups[db.memberships[memberships[i]].group].gid];
      var c := GroupTurn(db, server, user, memberships, i, out, now, start, old(db.outbox));
      if c.Err? {
        return Err(c.error);
      }
      out := c.value;
      i := i + 1;
    }
    r := Ok((gids, out));
  }

  /**
   * Where the group turns stand after the first `i` memberships, from
   * `start`: on a usable server at `Grouped`; otherwise nothing issued, and
   * the server has every group so far.
   */
  predicate TurnsDone(ms: map<Id, Membership>, groups: map<Id, Group>, systemGroups: map<Id, SystemGroup>, server: Id,
                      usable: bool, row: Group -> Command, memberships: seq<Id>, i: nat, start: Prep, now: Prep)
    requires i <= |memberships| && Listed(ms, groups, memberships)
  {
    if usable then now == Grouped(ms, groups, systemGroups, server, row, memberships, i, start)
    else now == start && forall j :: 0 <= j < i ==> HasGroup(systemGroups, server, ms[memberships[j]].group)
  }

  /**
   * The turn of the `i`-th membership of `prepare_user`: an `addgroup` for
   * its group unless the server has it. It takes the turns from the first
   * `i` memberships to the first `i + 1`, or fails, changing nothing, when
   * the server is unusable and lacks the group; the outbox, from `o0`, keeps
   * holding what was pushed for the keys from `start.next` on.
   */
  method GroupTurn(db: Db, server: Id, user: Id, memberships: seq<Id>, i: nat, out: seq<Id>, now: Time,
                   ghost start: Prep, ghost o0: seq<Push>)
    returns (r: Result<seq<Id>, Failure>)
    requires db.ValidCommands() && server in db.servers && i < |memberships| && Listed(db.memberships, db.groups, memberships)
    requires TurnsDone(db.memberships, db.groups, db.systemGroups, server, Usable(db.servers[server]),
                       GroupRows(server, user, IsConnected(db.sessions, server), now), memberships, i, start,
                       Prep(db.commands, db.nextCommand, out))
    requires o0 <= db.outbox && start.next <= db.nextCommand &&
      PushedOnCreation(db.outbox[|o0|..], db.sessions, db.commands, start.next, db.nextCommand)
    modifies db`commands, db`outbox, db`nextCommand
    ensures db.ValidCommands() && old(db.outbox) <= db.outbox
    ensures !IsConnected(db.sessions, server) ==> db.outbox == old(db.outbox)
    ensures r.Ok? ==>
      TurnsDone(db.memberships, db.groups, db.systemGroups, server, Usable(db.servers[server]),
                GroupRows(server, user, IsConnected(db.sessions, server), now), memberships, i + 1, start,
                Prep(db.commands, db.nextCommand, r.value))
    ensures r.Err? <==> !Usable(db.servers[server]) && !HasGroup(db.systemGroups, server, db.memberships[memberships[i]].group)
    ensures r.Err? ==>
      r.error == ValidationError("Invalid server.") && db.commands == old(db.commands) && db.nextCommand == old(db.nextCommand)
    ensures start.next <= db.nextCommand && PushedOnCreation(db.outbox[|o0|..], db.sessions, db.commands, start.next, db.nextCommand)
  {
    var g := db.memberships[memberships[i]].group;
    if HasGroup(db.systemGroups, server, g) {
      return Ok(out);
    }
    ghost var o1, c1, n1 := db.outbox, db.commands, db.nextCommand;
    var c := Account(db, server, AddGroupCmd(db.groups[g]), Some(user), [], now);
    PushedInTurn(o0, o1, db.outbox, db.sessions, c1, db.commands, start.next, n1, db.nextCommand);
    if c.Err? {
      return Err(c.error);
    }
    r := Ok(out + [c.value]);
  }

  // ----- response delay -----

  /** The commands `delay_now` looks at: delivered, and acknowledged or left unacknowledged for at least 180 seconds. */
  predicate Measurable(c: Command, now: Time)
  {
    c.deliveredAt.Some? && (c.ackedAt.Some? || c.deliveredAt.value <= now - 3 * MINUTE)
  }

  /** The delay a measurable command shows: acknowledgement minus delivery, or the time waited so far. */
  function MeasuredDelay(c: Command, now: Time): int
    requires c.deliveredAt.Some?
  {
    if c.ackedAt.Some? then c.ackedAt.value - c.deliveredAt.value else now - c.deliveredAt.value
  }

  /** `a` comes no later than `b` under `ORDER BY scheduled_at DESC`, where PostgreSQL puts NULL first. */
  predicate SortsFirst(a: Option<Time>, b: Option<Time>)
  {
    a.None? || (b.Some? && a.value >= b.value)
  }

  /** `k` is a first row of the server's measurable commands, newest `scheduled_at` first. */
  predicate LatestMeasured(cmds: map<Id, Command>, server: Id, now: Time, k: Id)
  {
    k in cmds && cmds[k].server == server && Measurable(cmds[k], now) &&
    forall j :: j in cmds && cmds[j].server == server && Measurable(cmds[j], now) ==> SortsFirst(cmds[k].scheduledAt, cmds[j].scheduledAt)
  }

  /** What `delay_now` may be: the latest measurable command's delay, or 0 when there is none. */
  ghost predicate IsDelayNow(cmds: map<Id, Command>, server: Id, now: Time, d: int)
  {
    if exists k :: k in cmds && cmds[k].server == server && Measurable(cmds[k], now)
    then exists k :: LatestMeasured(cmds, server, now, k) && d == MeasuredDelay(cmds[k], now)
    else d == 0
  }

  /** An unacknowledged command delivered less than 180 seconds ago never decides `delay_now`. */
  lemma {:induction false} YoungUnackedIsIgnored(cmds: map<Id, Command>, server: Id, now: Time, k: Id)
    requires k in cmds && cmds[k].ackedAt.None? && cmds[k].deliveredAt.Some? && cmds[k].deliveredAt.value > now - 3 * MINUTE
    ensures !LatestMeasured(cmds, server, now, k)
    ensures forall d :: IsDelayNow(cmds, server, now, d) <==> IsDelayNow(cmds[k := cmds[k].(deliveredAt := None)], server, now, d)
  {
    var cmds' := cmds[k := cmds[k].(deliveredAt := None)];
    SameMeasured(cmds, server, now, k);
    forall d ensures IsDelayNow(cmds, server, now, d) <==> IsDelayNow(cmds', server, now, d) {
      if j :| LatestMeasured(cmds, server, now, j) && d == MeasuredDelay(cmds[j], now) {
        assert cmds'[j] == cmds[j];
      }
      if j :| LatestMeasured(cmds', server, now, j) && d == MeasuredDelay(cmds'[j], now) {
        assert cmds'[j] == cmds[j];
      }
    }
  }

  /** Forgetting the delivery of a command that is not measurable changes neither the measurable commands nor the latest ones. */
  lemma SameMeasured(cmds: map<Id, Command>, server: Id, now: Time, k: Id)
    requires k in cmds && !Measurable(cmds[k], now)
    ensures var cmds' := cmds[k := cmds[k].(deliveredAt := None)];
      (forall j :: j in cmds && cmds[j].server == server && Measurable(cmds[j], now) <==>
                   j in cmds' && cmds'[j].server == server && Measurable(cmds'[j], now)) &&
      (forall j :: LatestMeasured(cmds, server, now, j) <==> LatestMeasured(cmds', server, now, j))
  {
    var cmds' := cmds[k := cmds[k].(deliveredAt := None)];
    assert forall j :: j in cmds && cmds[j].server == server && Measurable(cmds[j], now) <==>
                       j in cmds' && cmds'[j].server == server && Measurable(cmds'[j], now);
    forall j ensures LatestMeasured(cmds, server, now, j) <==> LatestMeasured(cmds', server, now, j) {
    }
  }

  /** `response_delay()['delay_now']`: the delay of the latest measurable command of the server, else 0. */
  method DelayNow(db: Db, server: Id, now: Time) returns (d: int)
    ensures IsDelayNow(db.commands, server, now, d)
  {
    var pool := set k | k in db.commands && db.commands[k].server == server && Measurable(db.commands[k], now);
    var best: Option<Id> := None;
    var remaining := pool;
    while remaining != {}
      invariant remaining <= pool
      invariant best.None? <==> remaining == pool
      invariant best.Some? ==> best.value in pool - remaining
      invariant best.Some? ==> forall j :: j in pool - remaining ==> SortsFirst(db.commands[best.value].scheduledAt, db.commands[j].scheduledAt)
      decreases remaining
    {
      var k :| k in remaining;
      if best.None? || !SortsFirst(db.commands[best.value].scheduledAt, db.commands[k].scheduledAt) {
        best := Some(k);
      }
      remaining := remaining - {k};
    }
    if best.None? {
      d := 0;
      assert forall k :: k in db.commands && db.commands[k].server == server && Measurable(db.commands[k], now) ==> k in pool;
    } else {
      d := MeasuredDelay(db.commands[best.value], now);
      assert pool - remaining == pool;
      assert LatestMeasured(db.commands, server, now, best.value);
    }
  }

  // ----- health -----

  /** The flags and messages of the health check, stated condition by condition. */
  function Health(connected: bool, commissioned: bool, delayNow: int, drift: Option<int>): ServerStatus
  {
    var driftChecked := delayNow <= 15 && drift.Some? && drift.value > 30;
    var error := !connected || !commissioned || delayNow > 3 * MINUTE || (driftChecked && drift.value > 2 * MINUTE);
    var warn := (15 < delayNow <= 3 * MINUTE) || (driftChecked && drift.value <= 2 * MINUTE);
    var messages :=
      (if !connected then [NotConnected] else []) +
      (if !commissioned then [NotCommissioned] else []) +
      (if delayNow > 3 * MINUTE then [DelayOver3Minutes] else []) +
      (if 15 < delayNow <= 3 * MINUTE then [DelayOver15Seconds] else []) +
      (if driftChecked then [ClockDrift(drift.value)] else []) +
      (if !error && !warn then [ServerOkay] else []);
    ServerStatus(if error then ErrorCode else if warn then WarnCode else OkCode, messages, delayNow)
  }

  /**
   * `get_current_status()`, with the latest time record's drift as `drift`
   * (none when the server has no record): the flags are raised in the
   * order connection, commissioning, delay, and, only when the delay is at
   * most 15 seconds, clock drift.
   */
  method CurrentStatus(db: Db, server: Id, drift: Option<int>, now: Time) returns (st: ServerStatus)
    requires server in db.servers
    ensures IsDelayNow(db.commands, server, now, st.delayNow)
    ensures st == Health(IsConnected(db.sessions, server), db.servers[server].commissioned, st.delayNow, drift)
  {
    var delay := DelayNow(db, server, now);
    st := Assess(IsConnected(db.sessions, server), db.servers[server].commissioned, delay, drift);
  }

  /** The flag-raising part of `get_current_status`, once the delay is known. */
  method Assess(connected: bool, commissioned: bool, delay: int, drift: Option<int>) returns (st: ServerStatus)
    ensures st == Health(connected, commissioned, delay, drift)
  {
    var error := false;
    var warn := false;
    var messages: seq<HealthMessage> := [];
    if !connected {
      error := true;
      messages := messages + [NotConnected];
    }
    if !commissioned {
      error := true;
      messages := messages + [NotCommissioned];
    }
    ghost var flagged := messages;
    assert error == (!connected || !commissioned) && !warn &&
      flagged == (if !connected then [NotConnected] else []) + (if !commissioned then [NotCommissioned] else []);
    if delay > 180 {
      error := true;
      messages := messages + [DelayOver3Minutes];
    } else if delay > 15 {
      warn := true;
      messages := messages + [DelayOver15Seconds];
    } else if drift.Some? {
      if drift.value > 30 {
        if drift.value > 120 {
          error := true;
        } else {
          warn := true;
        }
        messages := messages + [ClockDrift(drift.value)];
      }
    }
    ghost var h := Health(connected, commissioned, delay, drift);
    assert (error ==> h.code == ErrorCode) && (!error && warn ==> h.code == WarnCode) && (!error && !warn ==> h.code == OkCode);
    assert messages == flagged +
      (if delay > 3 * MINUTE then [DelayOver3Minutes] else []) +
      (if 15 < delay <= 3 * MINUTE then [DelayOver15Seconds] else []) +
      (if delay <= 15 && drift.Some? && drift.value > 30 then [ClockDrift(drift.value)] else []);
    if !error && !warn {
      messages := messages + [ServerOkay];
    }
    st := ServerStatus(if error then ErrorCode else if warn then WarnCode else OkCode, messages, delay);
  }

  /**
   * The thresholds are strict: a delay of exactly 180 seconds is a warning,
   * exactly 15 seconds raises no delay flag (and lets drift be checked), and
   * a drift of exactly 120 or 30 seconds is a warning or nothing.
   */
  lemma HealthThresholdsAreStrict(drift: Option<int>)
    ensures Health(true, true, 180, drift).code == WarnCode
    ensures Health(true, true, 181, drift).code == ErrorCode
    ensures Health(true, true, 15, None).code == OkCode
    ensures Health(true, true, 16, drift).code == WarnCode
    ensures Health(true, true, 0, Some(120)).code == WarnCode
    ensures Health(true, true, 0, Some(121)).code == ErrorCode
    ensures Health(true, true, 0, Some(30)).code == OkCode
  {
  }

  /**
   * The code is error iff an error condition holds, warn iff only a warning
   * condition holds; 'Server is okay.' is reported exactly when the code is
   * ok, and then it is the only message; drift is reported only when the
   * delay is at most 15 seconds.
   */
  lemma {:induction false} HealthSummary(connected: bool, commissioned: bool, delayNow: int, drift: Option<int>)
    ensures var st := Health(connected, commissioned, delayNow, drift);
      (st.code == ErrorCode <==>
         !connected || !commissioned || delayNow > 180 || (delayNow <= 15 && drift.Some? && drift.value > 120)) &&
      (st.code == OkCode <==> connected && commissioned && delayNow <= 15 && (drift.None? || drift.value <= 30)) &&
      (ServerOkay in st.messages <==> st.code == OkCode) &&
      (st.code == OkCode ==> st.messages == [ServerOkay]) &&
      (NotConnected in st.messages <==> !connected) &&
      (delayNow > 15 ==> forall m :: m in st.messages ==> !m.ClockDrift?) &&
      st.delayNow == delayNow
  {
    var st := Health(connected, commissioned, delayNow, drift);
    if delayNow > 15 {
      forall m | m in st.messages ensures !m.ClockDrift? {
      }
    }
  }

  /** The text, icon and color shown with each code. */
  function Presentation(code: StatusCode): (string, string, string)
  {
    match code
    case ErrorCode => ("Error", "triangle-exclamation", "danger")
    case WarnCode => ("Warning", "circle-exclamation", "warning")
    case OkCode => ("Good", "circle-check", "success")
  }
}
