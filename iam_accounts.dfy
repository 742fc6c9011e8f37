// Saving and deleting IAM users and groups: automatic uid and gid
// allocation above the highest id in use, the defaults filled in on save,
// and the soft delete that retires an account under a new name, removes its
// memberships (and a user's API tokens) and asks every server holding the
// account to delete it.
module IamAccounts {
  import opened Common
  import opened Commands
  import opened Sessions
  import opened IamRows
  import opened TokenRows
  import opened ProcRows
  import opened ServerRows
  import opened Store
  import ServerOps
  import ApiTokens

  const INVALID_SERVER: string := "Invalid server."
  const DEFAULT_GROUP_UNDELETABLE: string := "Default group \"alpacon\" cannot be removed."
  const DELETED_USER_PREFIX: string := "deleted_user-"
  const DELETED_GROUP_PREFIX: string := "deleted_group-"
  const RANDOM_SUFFIX_LENGTH: nat := 16

  // ----- id allocation -----

  /** The uids of the users `User.objects` shows. */
  function VisibleUids(users: map<Id, User>): set<nat>
  {
    set k | k in users && VisibleUser(users, k) && users[k].uid.Some? :: users[k].uid.value
  }

  /** The gids of the groups `Group.objects` shows. */
  function VisibleGids(groups: map<Id, Group>): set<nat>
  {
    set k | k in groups && VisibleGroup(groups, k) && groups[k].gid.Some? :: groups[k].gid.value
  }

  /** A non-empty finite set of naturals has a largest element. */
  lemma {:induction false} HasLargest(ids: set<nat>)
    requires ids != {}
    ensures exists m :: m in ids && forall x :: x in ids ==> x <= m
    decreases |ids|
  {
    var a :| a in ids;
    var rest := ids - {a};
    if rest == {} {
      forall x | x in ids ensures x <= a {
        assert x == a || x in rest;
      }
      assert a in ids && forall x :: x in ids ==> x <= a;
    } else {
      HasLargest(rest);
      var m :| m in rest && forall x :: x in rest ==> x <= m;
      var best := if a <= m then m else a;
      forall x | x in ids ensures x <= best {
        if x != a { assert x in rest; }
      }
      assert best in ids && forall x :: x in ids ==> x <= best;
    }
  }

  /**
   * `Coalesce(Max(ids), 1999) + 1`: one above the largest id in use, or 2000
   * when none is. The result is above every id in use, so it is free.
   */
  function NextAfter(ids: set<nat>): (r: nat)
    ensures ids == {} ==> r == ID_FLOOR + 1
    ensures ids != {} ==> r - 1 in ids
    ensures forall x :: x in ids ==> x < r
  {
    if ids == {} then ID_FLOOR + 1
    else
      HasLargest(ids);
      var m :| m in ids && forall x :: x in ids ==> x <= m;
      m + 1
  }

  /** `not self.uid`: a missing id, and also the id 0, is replaced on save. */
  predicate MissingId(x: Option<nat>)
  {
    x.None? || x.value == 0
  }

  // ----- User.save -----

  /** The row `User.save` writes, given the uid the allocation would pick. */
  function StampedUser(u: User, nextUid: nat): User
  {
    u.(isStaff := u.isStaff || u.isSuperuser,
       uid := if MissingId(u.uid) then Some(nextUid) else u.uid,
       homeDirectory := if u.homeDirectory == "" then "/home/" + u.username else u.homeDirectory)
  }

  /**
   * What save guarantees about the row: a superuser is always staff, the
   * uid is present (a given non-zero uid is kept), the home directory
   * defaults to `/home/<username>`, and nothing else changes. Saving the
   * saved row again changes nothing.
   */
  lemma StampedUserShape(u: User, nextUid: nat, laterUid: nat)
    requires nextUid > 0
    ensures var r := StampedUser(u, nextUid);
      (r.isSuperuser ==> r.isStaff) && (r.isStaff <==> u.isStaff || u.isSuperuser) &&
      r.uid.Some? && r.uid.value > 0 && (!MissingId(u.uid) ==> r.uid == u.uid) &&
      (MissingId(u.uid) ==> r.uid == Some(nextUid)) &&
      (u.homeDirectory == "" ==> r.homeDirectory == "/home/" + u.username) &&
      (u.homeDirectory != "" ==> r.homeDirectory == u.homeDirectory) &&
      r.(isStaff := u.isStaff, uid := u.uid, homeDirectory := u.homeDirectory) == u
    ensures StampedUser(StampedUser(u, nextUid), laterUid) == StampedUser(u, nextUid)
  {
  }

  /** The uid and username columns are unique in the database: any other row holding either refuses the save. */
  predicate UserClash(users: map<Id, User>, id: Id, row: User)
  {
    exists k :: k in users && k != id && (users[k].username == row.username || (row.uid.Some? && users[k].uid == row.uid))
  }

  /** `User.save()` of row `id` (new or existing) on the user table. */
  function UserSaved(users: map<Id, User>, id: Id, u: User): Result<map<Id, User>, Failure>
  {
    var row := StampedUser(u, NextAfter(VisibleUids(users)));
    if UserClash(users, id, row) then Err(IntegrityError("user_unique")) else Ok(users[id := row])
  }

  /** Soft-deleted users hold no uid (`User.delete` clears it), so they never block an allocation. */
  predicate RetiredHoldNoUid(users: map<Id, User>)
  {
    forall k :: k in users && users[k].deletedAt.Some? ==> users[k].uid.None?
  }

  /**
   * An allocated uid is taken by no other row once retired users hold none:
   * it is above every visible uid. The first allocation yields 2000.
   */
  lemma {:induction false} AllocatedUidIsFree(users: map<Id, User>, id: Id, u: User)
    requires RetiredHoldNoUid(users) && MissingId(u.uid)
    ensures var row := StampedUser(u, NextAfter(VisibleUids(users)));
      forall k :: k in users && k != id ==> users[k].uid != row.uid
    ensures VisibleUids(users) == {} ==> StampedUser(u, NextAfter(VisibleUids(users))).uid == Some(2000)
  {
    var next := NextAfter(VisibleUids(users));
    forall k | k in users && k != id ensures users[k].uid != Some(next) {
      if users[k].uid.Some? {
        assert VisibleUser(users, k);
        assert users[k].uid.value in VisibleUids(users);
      }
    }
  }

  /** A successful save keeps uids unique and leaves the other rows alone. */
  lemma SavingKeepsUidsUnique(users: map<Id, User>, id: Id, u: User)
    requires UidsUnique(users) && UserSaved(users, id, u).Ok?
    ensures UidsUnique(UserSaved(users, id, u).value)
    ensures forall k :: k in users && k != id ==> UserSaved(users, id, u).value[k] == users[k]
  {
  }

  /** `User.save()`: fills in the defaults step by step, then writes the row unless it clashes. */
  method SaveUser(db: Db, id: Id, u: User) returns (r: Result<User, Failure>)
    modifies db`users
    ensures var s := UserSaved(old(db.users), id, u);
      (r.Ok? <==> s.Ok?) && (s.Ok? ==> db.users == s.value && r.value == db.users[id]) &&
      (s.Err? ==> r.error == s.error && db.users == old(db.users))
  {
    var row := u;
    if row.isSuperuser && !row.isStaff {
      row := row.(isStaff := true);
    }
    if MissingId(row.uid) {
      row := row.(uid := Some(NextAfter(VisibleUids(db.users))));
    }
    if row.homeDirectory == "" {
      row := row.(homeDirectory := "/home/" + row.username);
    }
    assert row == StampedUser(u, NextAfter(VisibleUids(db.users)));
    if UserClash(db.users, id, row) {
      r := Err(IntegrityError("user_unique"));
    } else {
      db.users := db.users[id := row];
      r := Ok(row);
    }
  }

  // ----- Group.save -----

  /** The row `Group.save` writes, given the gid the allocation would pick. */
  function StampedGroup(g: Group, nextGid: nat): Group
  {
    g.(gid := if MissingId(g.gid) then Some(nextGid) else g.gid)
  }

  predicate GroupClash(groups: map<Id, Group>, id: Id, row: Group)
  {
    exists k :: k in groups && k != id && (groups[k].name == row.name || (row.gid.Some? && groups[k].gid == row.gid))
  }

  /** `Group.save()` of row `id` on the group table. */
  function GroupSaved(groups: map<Id, Group>, id: Id, g: Group): Result<map<Id, Group>, Failure>
  {
    var row := StampedGroup(g, NextAfter(VisibleGids(groups)));
    if GroupClash(groups, id, row) then Err(IntegrityError("group_unique")) else Ok(groups[id := row])
  }

  predicate RetiredHoldNoGid(groups: map<Id, Group>)
  {
    forall k :: k in groups && groups[k].deletedAt.Some? ==> groups[k].gid.None?
  }

  /**
   * Gids are allocated like uids: a given non-zero gid is kept, a missing one
   * becomes one above every visible gid (2000 for the first), and the
   * allocated gid is held by no other row.
   */
  lemma {:induction false} AllocatedGidIsFree(groups: map<Id, Group>, id: Id, g: Group)
    requires RetiredHoldNoGid(groups)
    ensures var row := StampedGroup(g, NextAfter(VisibleGids(groups)));
      row.gid.Some? && row.gid.value > 0 && (!MissingId(g.gid) ==> row.gid == g.gid) &&
      (MissingId(g.gid) ==> forall k :: k in groups && k != id ==> groups[k].gid != row.gid) &&
      (MissingId(g.gid) && VisibleGids(groups) == {} ==> row.gid == Some(2000)) &&
      row.(gid := g.gid) == g
  {
    var next := NextAfter(VisibleGids(groups));
    forall k | k in groups && k != id ensures groups[k].gid != Some(next) {
      if groups[k].gid.Some? {
        assert VisibleGroup(groups, k);
        assert groups[k].gid.value in VisibleGids(groups);
      }
    }
  }

  /** `Group.save()` on the database. */
  method SaveGroup(db: Db, id: Id, g: Group) returns (r: Result<Group, Failure>)
    modifies db`groups
    ensures var s := GroupSaved(old(db.groups), id, g);
      (r.Ok? <==> s.Ok?) && (s.Ok? ==> db.groups == s.value && r.value == db.groups[id]) &&
      (s.Err? ==> r.error == s.error && db.groups == old(db.groups))
  {
    var row := g;
    if MissingId(row.gid) {
      row := row.(gid := Some(NextAfter(VisibleGids(db.groups))));
    }
    if GroupClash(db.groups, id, row) {
      r := Err(IntegrityError("group_unique"));
    } else {
      db.groups := db.groups[id := row];
      r := Ok(row);
    }
  }

  // ----- deleting the account on servers -----

  /** How far the loop over servers gets: the position of the first server that refuses commands, or the end. */
  function Reached(servers: map<Id, Server>, targets: seq<Id>): (n: nat)
    requires forall i :: 0 <= i < |targets| ==> targets[i] in servers
    ensures n <= |targets|
    decreases |targets|
  {
    if targets == [] then 0
    else if !Usable(servers[targets[0]]) then 0
    else 1 + Reached(servers, targets[1..])
  }

  /** The command table `cmds` once the first `n` targets have each been sent a command, under consecutive keys from `base`. */
  function Issued(cmds: map<Id, Command>, base: nat, targets: seq<Id>, n: nat, line: string, data: Json,
                  sessions: map<Id, Session>, now: Time): map<Id, Command>
    requires n <= |targets|
    decreases n
  {
    if n == 0 then cmds
    else Issued(cmds, base, targets, n - 1, line, data, sessions, now)[base + n - 1 := AccountRow(line, data, sessions, now, targets[n - 1])]
  }

  /** The account command `del_user`/`del_group` saves on `server`, given its command line and data. */
  function AccountRow(line: string, data: Json, sessions: map<Id, Session>, now: Time, server: Id): Command
  {
    ServerOps.Created(server, Internal, line, Some(data), None, [], IsConnected(sessions, server), now)
  }

  /**
   * The loop of `User.delete`/`Group.delete` over the account's servers:
   * one account command per server, in order, until a disabled or deleted
   * server makes `execute` raise; the commands issued before it stay.
   */
  method IssueToEach(db: Db, targets: seq<Id>, line: string, data: Json, now: Time)
    returns (r: Result<(), Failure>, ghost blocks: seq<seq<Push>>)
    requires db.ValidCommands() && forall i :: 0 <= i < |targets| ==> targets[i] in db.servers
    modifies db`commands, db`outbox, db`nextCommand
    ensures db.ValidCommands() && old(db.outbox) <= db.outbox
    ensures var n := Reached(db.servers, targets);
      (r.Ok? <==> n == |targets|) && (r.Err? ==> r.error == ValidationError(INVALID_SERVER)) &&
      db.nextCommand == old(db.nextCommand) + n &&
      db.commands == Issued(old(db.commands), old(db.nextCommand), targets, n, line, data, db.sessions, now)
    ensures |blocks| == Reached(db.servers, targets) && db.outbox == old(db.outbox) + Concat(blocks)
    ensures AccountsPushed(blocks, db.sessions, targets, old(db.nextCommand), line, data, now)
  {
    ghost var base, cmds0 := db.nextCommand, db.commands;
    var i, ok := 0, true;
    blocks := [];
    while ok && i < |targets|
      invariant 0 <= i <= |targets| && forall j :: 0 <= j < i ==> Usable(db.servers[targets[j]])
      invariant !ok ==> Reached(db.servers, targets) == i < |targets|
      invariant db.ValidCommands()
      invariant db.nextCommand == base + i
      invariant db.commands == Issued(cmds0, base, targets, i, line, data, db.sessions, now)
      invariant |blocks| == i && db.outbox == old(db.outbox) + Concat(blocks) && AccountsPushed(blocks, db.sessions, targets, base, line, data, now)
    {
      ok, blocks := IssueOne(db, targets, i, line, data, now, base, cmds0, old(db.outbox), blocks);
      if ok {
        i := i + 1;
      }
    }
    if ok {
      ReachedAt(db.servers, targets, i);
      r := Ok(());
    } else {
      r := Err(ValidationError(INVALID_SERVER));
    }
  }

  /**
   * One turn of the loop: the account command for `targets[i]`, saved under
   * the next key unless the server refuses it, in which case the loop stops
   * at `i`.
   */
  method IssueOne(db: Db, targets: seq<Id>, i: nat, line: string, data: Json, now: Time,
                  ghost base: nat, ghost cmds0: map<Id, Command>, ghost o0: seq<Push>, ghost blocks: seq<seq<Push>>)
    returns (ok: bool, ghost blocks': seq<seq<Push>>)
    requires forall j :: 0 <= j < |targets| ==> targets[j] in db.servers
    requires i < |targets| && forall j :: 0 <= j < i ==> Usable(db.servers[targets[j]])
    requires db.ValidCommands() && db.nextCommand == base + i && db.commands == Issued(cmds0, base, targets, i, line, data, db.sessions, now)
    requires |blocks| == i && db.outbox == o0 + Concat(blocks) && AccountsPushed(blocks, db.sessions, targets, base, line, data, now)
    modifies db`commands, db`outbox, db`nextCommand
    ensures db.ValidCommands() && old(db.outbox) <= db.outbox
    ensures ok <==> Usable(db.servers[targets[i]])
    ensures ok ==> db.nextCommand == base + i + 1 && db.commands == Issued(cmds0, base, targets, i + 1, line, data, db.sessions, now)
    ensures !ok ==> db.nextCommand == base + i && db.commands == old(db.commands) && Reached(db.servers, targets) == i
    ensures |blocks'| == (if ok then i + 1 else i) && db.outbox == o0 + Concat(blocks') &&
      AccountsPushed(blocks', db.sessions, targets, base, line, data, now)
  {
    ghost var o1, c1 := db.outbox, db.commands;
    var step := ServerOps.Execute(db, targets[i], line, Internal, Some(data), None, [], now);
    ok := step.Ok?;
    if !ok {
      ReachedAt(db.servers, targets, i);
      blocks' := blocks;
    } else {
      blocks' := blocks + [db.outbox[|o1|..]];
      AccountStep(o0, o1, db.outbox, blocks, db.sessions, targets, base, line, data, now, cmds0, c1, db.commands, step.value);
    }
  }

  /**
   * One more account command, saved under `k`: the table is `Issued` one
   * target further, and the outbox still holds one block per command so far.
   */
  lemma AccountStep(o0: seq<Push>, o1: seq<Push>, o2: seq<Push>, blocks: seq<seq<Push>>, sessions: map<Id, Session>,
                    targets: seq<Id>, base: nat, line: string, data: Json, now: Time,
                    cmds0: map<Id, Command>, c1: map<Id, Command>, cmds: map<Id, Command>, k: Id)
    requires |blocks| < |targets| && o1 == o0 + Concat(blocks) && o1 <= o2
    requires AccountsPushed(blocks, sessions, targets, base, line, data, now)
    requires k == base + |blocks| && c1 == Issued(cmds0, base, targets, |blocks|, line, data, sessions, now)
    requires cmds == c1[k := ServerOps.Created(targets[|blocks|], Internal, line, Some(data), None, [], IsConnected(sessions, targets[|blocks|]), now)]
    requires IsConnected(sessions, targets[|blocks|]) ==>
      PushedToEach(o2[|o1|..], sessions, OpenSessionsOf(sessions, targets[|blocks|]), Request(k, cmds[k]))
    requires !IsConnected(sessions, targets[|blocks|]) ==> o2 == o1
    ensures cmds == Issued(cmds0, base, targets, |blocks| + 1, line, data, sessions, now)
    ensures o2 == o0 + Concat(blocks + [o2[|o1|..]])
    ensures AccountsPushed(blocks + [o2[|o1|..]], sessions, targets, base, line, data, now)
  {
    ConcatOneMore(o0, o1, o2, blocks);
    ServerOps.PushedForCreated(o2[|o1|..], sessions, k, targets[|blocks|], Internal, line, Some(data), None, now);
    AccountsPushedOneMore(blocks, o2[|o1|..], sessions, targets, base, line, data, now);
  }

  /**
   * `blocks[i]` is what the account command to `targets[i]`, saved under key
   * `base + i`, pushed (see `ServerOps.PushedFor`).
   */
  predicate AccountsPushed(blocks: seq<seq<Push>>, sessions: map<Id, Session>, targets: seq<Id>, base: nat, line: string,
                           data: Json, now: Time)
  {
    |blocks| <= |targets| &&
    forall i :: 0 <= i < |blocks| ==> ServerOps.PushedFor(blocks[i], sessions, base + i, AccountRow(line, data, sessions, now, targets[i]))
  }

  lemma AccountsPushedOneMore(blocks: seq<seq<Push>>, block: seq<Push>, sessions: map<Id, Session>, targets: seq<Id>, base: nat,
                              line: string, data: Json, now: Time)
    requires AccountsPushed(blocks, sessions, targets, base, line, data, now) && |blocks| < |targets|
    requires ServerOps.PushedFor(block, sessions, base + |blocks|, AccountRow(line, data, sessions, now, targets[|blocks|]))
    ensures AccountsPushed(blocks + [block], sessions, targets, base, line, data, now)
  {
  }

  /** Stopping at `i` because `targets[i]` refuses (or at the end) pins down `Reached`. */
  lemma {:induction false} ReachedAt(servers: map<Id, Server>, targets: seq<Id>, i: nat)
    requires forall j :: 0 <= j < |targets| ==> targets[j] in servers
    requires i <= |targets| && forall j :: 0 <= j < i ==> Usable(servers[targets[j]])
    requires i < |targets| ==> !Usable(servers[targets[i]])
    ensures Reached(servers, targets) == i
    decreases |targets|
  {
    if targets != [] && i > 0 {
      ReachedAt(servers, targets[1..], i - 1);
    }
  }

  /** Every server before `i` accepts commands, so the loop gets at least that far. */
  lemma {:induction false} ReachedPast(servers: map<Id, Server>, targets: seq<Id>, i: nat)
    requires forall j :: 0 <= j < |targets| ==> targets[j] in servers
    requires i <= |targets| && forall j :: 0 <= j < i ==> Usable(servers[targets[j]])
    ensures i <= Reached(servers, targets)
    decreases i
  {
    if i > 0 {
      ReachedPast(servers, targets[1..], i - 1);
    }
  }

  // ----- User.delete -----

  /** The row `User.delete` leaves: renamed, without uid, inactive, with an unusable password, stamped deleted. */
  function RetiredUser(u: User, suffix: string, now: Time): User
  {
    u.(username := DELETED_USER_PREFIX + u.username + "-" + suffix, uid := None, isActive := false,
       password := Unusable, deletedAt := Some(now))
  }

  /** The memberships left once `user`'s live memberships (as the membership manager shows them) are removed. */
  function WithoutUserMemberships(ms: map<Id, Membership>, users: map<Id, User>, groups: map<Id, Group>, user: Id): (r: map<Id, Membership>)
    ensures forall k :: k in r <==> k in ms && !(VisibleMembership(ms, users, groups, k) && ms[k].user == user)
    ensures forall k :: k in r ==> r[k] == ms[k]
  {
    map k | k in ms && !(VisibleMembership(ms, users, groups, k) && ms[k].user == user) :: ms[k]
  }

  /** The API tokens left once every token of `user` is removed. */
  function WithoutUserTokens(tokens: map<string, ApiToken>, user: Id): (r: map<string, ApiToken>)
    ensures forall key :: key in r <==> key in tokens && tokens[key].user != user
    ensures forall key :: key in r ==> r[key] == tokens[key]
  {
    map key | key in tokens && tokens[key].user != user :: tokens[key]
  }

  /** The retired row is hidden by the user manager, keeps its old name inside the new one and holds no uid. */
  lemma RetiredUserIsHidden(users: map<Id, User>, id: Id, suffix: string, now: Time)
    requires id in users && RetiredHoldNoUid(users)
    ensures var after := users[id := RetiredUser(users[id], suffix, now)];
      !VisibleUser(after, id) && RetiredHoldNoUid(after) &&
      after[id].username[..|DELETED_USER_PREFIX| + |users[id].username|] == DELETED_USER_PREFIX + users[id].username &&
      !after[id].isActive && after[id].password == Unusable
  {
  }

  /**
   * What the deletion of user `id` leaves touches only that user: they hold
   * no role and no token of theirs is left, while every other user keeps
   * the same roles and the same accepted tokens.
   */
  lemma UserDeletionTouchesOnlyTheUser(ms: map<Id, Membership>, users: map<Id, User>, groups: map<Id, Group>,
                                       tokens: map<string, ApiToken>, id: Id, suffix: string, now: Time)
    requires id in users
    ensures var users' := users[id := RetiredUser(users[id], suffix, now)];
      var ms' := WithoutUserMemberships(ms, users, groups, id);
      var tokens' := WithoutUserTokens(tokens, id);
      (forall g, roles :: !HasRole(ms', users', groups, id, g, roles)) &&
      (forall key :: key in tokens' ==> tokens'[key].user != id) &&
      (forall u, g, roles :: u != id ==> (HasRole(ms', users', groups, u, g, roles) <==> HasRole(ms, users, groups, u, g, roles))) &&
      (forall key, t :: key in tokens && tokens[key].user != id ==> ApiTokens.ValidUser(tokens', users', key, t) == ApiTokens.ValidUser(tokens, users, key, t))
  {
    var users' := users[id := RetiredUser(users[id], suffix, now)];
    var ms' := WithoutUserMemberships(ms, users, groups, id);
    forall u, g, roles | u != id
      ensures HasRole(ms', users', groups, u, g, roles) <==> HasRole(ms, users, groups, u, g, roles)
    {
      if HasRole(ms, users, groups, u, g, roles) {
        var k :| k in ms && VisibleMembership(ms, users, groups, k) && ms[k].user == u && ms[k].group == g && ms[k].role in roles;
        assert k in ms' && VisibleMembership(ms', users', groups, k);
      }
      if HasRole(ms', users', groups, u, g, roles) {
        var k :| k in ms' && VisibleMembership(ms', users', groups, k) && ms'[k].user == u && ms'[k].group == g && ms'[k].role in roles;
        assert VisibleMembership(ms, users, groups, k);
      }
    }
  }

  /**
   * Likewise the deletion of group `id`: nobody holds a role in it, and
   * every role in another group is kept.
   */
  lemma GroupDeletionTouchesOnlyTheGroup(ms: map<Id, Membership>, users: map<Id, User>, groups: map<Id, Group>,
                                         id: Id, suffix: string, now: Time)
    requires id in groups
    ensures var groups' := groups[id := RetiredGroup(groups[id], suffix, now)];
      var ms' := WithoutGroupMemberships(ms, users, groups, id);
      (forall u, roles :: !HasRole(ms', users, groups', u, id, roles)) &&
      (forall u, g, roles :: g != id ==> (HasRole(ms', users, groups', u, g, roles) <==> HasRole(ms, users, groups, u, g, roles)))
  {
    var groups' := groups[id := RetiredGroup(groups[id], suffix, now)];
    var ms' := WithoutGroupMemberships(ms, users, groups, id);
    forall u, g, roles | g != id
      ensures HasRole(ms', users, groups', u, g, roles) <==> HasRole(ms, users, groups, u, g, roles)
    {
      if HasRole(ms, users, groups, u, g, roles) {
        var k :| k in ms && VisibleMembership(ms, users, groups, k) && ms[k].user == u && ms[k].group == g && ms[k].role in roles;
        assert k in ms' && VisibleMembership(ms', users, groups', k);
      }
      if HasRole(ms', users, groups', u, g, roles) {
        var k :| k in ms' && VisibleMembership(ms', users, groups', k) && ms'[k].user == u && ms'[k].group == g && ms'[k].role in roles;
        assert VisibleMembership(ms, users, groups, k);
      }
    }
  }

  /** The servers on which the system accounts listed in `accounts` live. */
  function AccountServers(systemUsers: map<Id, SystemUser>, accounts: seq<Id>): (r: seq<Id>)
    requires forall i :: 0 <= i < |accounts| ==> accounts[i] in systemUsers
    ensures |r| == |accounts| && forall i :: 0 <= i < |accounts| ==> r[i] == systemUsers[accounts[i]].server
  {
    seq(|accounts|, i requires 0 <= i < |accounts| => systemUsers[accounts[i]].server)
  }

  function GroupServers(systemGroups: map<Id, SystemGroup>, accounts: seq<Id>): (r: seq<Id>)
    requires forall i :: 0 <= i < |accounts| ==> accounts[i] in systemGroups
    ensures |r| == |accounts| && forall i :: 0 <= i < |accounts| ==> r[i] == systemGroups[accounts[i]].server
  {
    seq(|accounts|, i requires 0 <= i < |accounts| => systemGroups[accounts[i]].server)
  }

  /** The system users linked to `user`. */
  function LinkedUsers(systemUsers: map<Id, SystemUser>, user: Id): set<Id>
  {
    set k | k in systemUsers && systemUsers[k].iamUser == Some(user)
  }

  /** The system groups linked to `group`. */
  function LinkedGroups(systemGroups: map<Id, SystemGroup>, group: Id): set<Id>
  {
    set k | k in systemGroups && systemGroups[k].iamGroup == Some(group)
  }

  /** `accounts` enumerates the system users linked to `user`, each once (`user.systemuser_set.all()`). */
  predicate ListsUserAccounts(systemUsers: map<Id, SystemUser>, user: Id, accounts: seq<Id>)
  {
    (forall i :: 0 <= i < |accounts| ==> accounts[i] in systemUsers && systemUsers[accounts[i]].iamUser == Some(user)) &&
    (forall k :: k in LinkedUsers(systemUsers, user) ==> k in accounts) &&
    (forall i, j :: 0 <= i < j < |accounts| ==> accounts[i] != accounts[j])
  }

  predicate ListsGroupAccounts(systemGroups: map<Id, SystemGroup>, group: Id, accounts: seq<Id>)
  {
    (forall i :: 0 <= i < |accounts| ==> accounts[i] in systemGroups && systemGroups[accounts[i]].iamGroup == Some(group)) &&
    (forall k :: k in LinkedGroups(systemGroups, group) ==> k in accounts) &&
    (forall i, j :: 0 <= i < j < |accounts| ==> accounts[i] != accounts[j])
  }

  /**
   * `User.delete()`: a `deluser` command to every server holding one of the
   * user's accounts; if one of those servers is disabled or deleted,
   * `execute` raises there and nothing else happens. Otherwise the user's
   * live memberships and all their API tokens are removed and the row is
   * retired. The random suffix is a parameter; it is assumed not to produce
   * a username already taken.
   */
  method DeleteUser(db: Db, id: Id, accounts: seq<Id>, suffix: string, now: Time)
    returns (r: Result<(), Failure>, ghost blocks: seq<seq<Push>>)
    requires db.ValidCommands() && id in db.users && |suffix| == RANDOM_SUFFIX_LENGTH
    requires ListsUserAccounts(db.systemUsers, id, accounts)
    requires forall i :: 0 <= i < |accounts| ==> db.systemUsers[accounts[i]].server in db.servers
    modifies db`commands, db`outbox, db`nextCommand, db`memberships, db`apiTokens, db`users
    ensures db.ValidCommands() && old(db.outbox) <= db.outbox
    ensures var targets := AccountServers(db.systemUsers, accounts);
      var n := Reached(db.servers, targets);
      db.nextCommand == old(db.nextCommand) + n &&
      db.commands == Issued(old(db.commands), old(db.nextCommand), targets, n,
                            ServerOps.AccountLine(ServerOps.DelUserCmd(old(db.users[id]))),
                            ServerOps.AccountData(ServerOps.DelUserCmd(old(db.users[id]))), db.sessions, now) &&
      (r.Ok? <==> n == |targets|)
    ensures r.Err? ==>
      r.error == ValidationError(INVALID_SERVER) &&
      db.memberships == old(db.memberships) && db.apiTokens == old(db.apiTokens) && db.users == old(db.users)
    ensures r.Ok? ==>
      db.memberships == WithoutUserMemberships(old(db.memberships), old(db.users), db.groups, id) &&
      db.apiTokens == WithoutUserTokens(old(db.apiTokens), id) &&
      db.users == old(db.users)[id := RetiredUser(old(db.users[id]), suffix, now)]
    ensures var targets := AccountServers(db.systemUsers, accounts);
      var a := ServerOps.DelUserCmd(old(db.users[id]));
      |blocks| == Reached(db.servers, targets) && db.outbox == old(db.outbox) + Concat(blocks) &&
      AccountsPushed(blocks, db.sessions, targets, old(db.nextCommand), ServerOps.AccountLine(a), ServerOps.AccountData(a), now)
  {
    var targets := AccountServers(db.systemUsers, accounts);
    var a := ServerOps.DelUserCmd(db.users[id]);
    r, blocks := IssueToEach(db, targets, ServerOps.AccountLine(a), ServerOps.AccountData(a), now);
    if r.Ok? {
      RetireUserRows(db, id, suffix, now);
    }
  }

  /** The table updates that end `User.delete`, once every server has been asked to delete the account. */
  method RetireUserRows(db: Db, id: Id, suffix: string, now: Time)
    requires id in db.users
    modifies db`memberships, db`apiTokens, db`users
    ensures db.memberships == WithoutUserMemberships(old(db.memberships), old(db.users), db.groups, id)
    ensures db.apiTokens == WithoutUserTokens(old(db.apiTokens), id)
    ensures db.users == old(db.users)[id := RetiredUser(old(db.users[id]), suffix, now)]
  {
    db.memberships := WithoutUserMemberships(db.memberships, db.users, db.groups, id);
    db.apiTokens := WithoutUserTokens(db.apiTokens, id);
    db.users := db.users[id := RetiredUser(db.users[id], suffix, now)];
  }

  // ----- Group.delete -----

  /** The row `Group.delete` leaves: renamed, without gid, stamped deleted. */
  function RetiredGroup(g: Group, suffix: string, now: Time): Group
  {
    g.(name := DELETED_GROUP_PREFIX + g.name + "-" + suffix, gid := None, deletedAt := Some(now))
  }

  /** The memberships left once the group's live memberships (as the membership manager shows them) are removed. */
  function WithoutGroupMemberships(ms: map<Id, Membership>, users: map<Id, User>, groups: map<Id, Group>, group: Id): (r: map<Id, Membership>)
    ensures forall k :: k in r <==> k in ms && !(VisibleMembership(ms, users, groups, k) && ms[k].group == group)
    ensures forall k :: k in r ==> r[k] == ms[k]
  {
    map k | k in ms && !(VisibleMembership(ms, users, groups, k) && ms[k].group == group) :: ms[k]
  }

  /**
   * `Group.delete()`: refused for the default group before anything
   * happens. Otherwise a `delgroup` command goes to every server holding the
   * group (stopping where `execute` raises), then the group's live
   * memberships are removed and the row is retired.
   */
  method DeleteGroup(db: Db, id: Id, accounts: seq<Id>, suffix: string, now: Time)
    returns (r: Result<(), Failure>, ghost blocks: seq<seq<Push>>)
    requires db.ValidCommands() && id in db.groups && |suffix| == RANDOM_SUFFIX_LENGTH
    requires ListsGroupAccounts(db.systemGroups, id, accounts)
    requires forall i :: 0 <= i < |accounts| ==> db.systemGroups[accounts[i]].server in db.servers
    modifies db`commands, db`outbox, db`nextCommand, db`memberships, db`groups
    ensures db.ValidCommands() && old(db.outbox) <= db.outbox
    ensures old(db.groups[id]).name == DEFAULT_GROUP_NAME ==>
      r == Err(Raised(DEFAULT_GROUP_UNDELETABLE)) && db.commands == old(db.commands) &&
      db.nextCommand == old(db.nextCommand) && db.outbox == old(db.outbox)
    ensures old(db.groups[id]).name != DEFAULT_GROUP_NAME ==>
      var targets := GroupServers(db.systemGroups, accounts);
      var n := Reached(db.servers, targets);
      db.nextCommand == old(db.nextCommand) + n &&
      db.commands == Issued(old(db.commands), old(db.nextCommand), targets, n,
                            ServerOps.AccountLine(ServerOps.DelGroupCmd(old(db.groups[id]))),
                            ServerOps.AccountData(ServerOps.DelGroupCmd(old(db.groups[id]))), db.sessions, now) &&
      (r.Ok? <==> n == |targets|)
    ensures old(db.groups[id]).name != DEFAULT_GROUP_NAME && r.Err? ==> r.error == ValidationError(INVALID_SERVER)
    ensures r.Err? ==> db.memberships == old(db.memberships) && db.groups == old(db.groups)
    ensures r.Ok? ==>
      db.memberships == WithoutGroupMemberships(old(db.memberships), db.users, old(db.groups), id) &&
      db.groups == old(db.groups)[id := RetiredGroup(old(db.groups[id]), suffix, now)]
    ensures old(db.groups[id]).name != DEFAULT_GROUP_NAME ==>
      var targets := GroupServers(db.systemGroups, accounts);
      var a := ServerOps.DelGroupCmd(old(db.groups[id]));
      |blocks| == Reached(db.servers, targets) && db.outbox == old(db.outbox) + Concat(blocks) &&
      AccountsPushed(blocks, db.sessions, targets, old(db.nextCommand), ServerOps.AccountLine(a), ServerOps.AccountData(a), now)
  {
    var g := db.groups[id];
    if g.name == DEFAULT_GROUP_NAME {
      return Err(Raised(DEFAULT_GROUP_UNDELETABLE)), [];
    }
    var targets := GroupServers(db.systemGroups, accounts);
    var a := ServerOps.DelGroupCmd(g);
    r, blocks := IssueToEach(db, targets, ServerOps.AccountLine(a), ServerOps.AccountData(a), now);
    if r.Ok? {
      RetireGroupRows(db, id, suffix, now);
    }
  }

  /** The table updates that end `Group.delete`. */
  method RetireGroupRows(db: Db, id: Id, suffix: string, now: Time)
    requires id in db.groups
    modifies db`memberships, db`groups
    ensures db.memberships == WithoutGroupMemberships(old(db.memberships), db.users, old(db.groups), id)
    ensures db.groups == old(db.groups)[id := RetiredGroup(old(db.groups[id]), suffix, now)]
  {
    db.memberships := WithoutGroupMemberships(db.memberships, db.users, db.groups, id);
    db.groups := db.groups[id := RetiredGroup(db.groups[id], suffix, now)];
  }

  /**
   * A user with an account on a disabled server cannot be deleted: the
   * `deluser` command for that server raises, so the user stays visible
   * with their memberships and tokens.
   */
  lemma {:induction false} DisabledServerBlocksUserDeletion(servers: map<Id, Server>, targets: seq<Id>, i: nat)
    requires forall j :: 0 <= j < |targets| ==> targets[j] in servers
    requires i < |targets| && !Usable(servers[targets[i]])
    ensures Reached(servers, targets) <= i < |targets|
    decreases i
  {
    if i > 0 && Usable(servers[targets[0]]) {
      assert targets[1..][i - 1] == targets[i];
      DisabledServerBlocksUserDeletion(servers, targets[1..], i - 1);
    }
  }
}
