// The periodic worker tasks over commands, events, servers and installers:
// the scheduled sweep, the clean-ups of old rows, the ping and debug rounds
// and the status refresh.
module Tasks {
  import opened Common
  import opened Sessions
  import opened Commands
  import opened ServerRows
  import Store
  import Dispatch
  import ServerOps

  // ----- commands and events -----

  /** `execute_scheduled_commands(server_pk)`: exactly the sweep, scoped to `scope`. */
  method ExecuteScheduled(db: Store.Db, scope: Option<Id>, now: Time) returns (count: nat)
    modifies db`commands, db`outbox
    ensures db.commands == Dispatch.Delivered(old(db.commands), Dispatch.EligibleSet(db.servers, db.sessions, old(db.commands), now, scope), now)
    ensures count == |Dispatch.EligibleSet(db.servers, db.sessions, old(db.commands), now, scope)|
    ensures old(db.outbox) <= db.outbox
    ensures Dispatch.RequestsPushed(db.outbox[|old(db.outbox)|..], db.sessions, old(db.commands),
                                    Dispatch.EligibleSet(db.servers, db.sessions, old(db.commands), now, scope))
  {
    count := Dispatch.ExecuteAllScheduled(db, scope, now);
  }

  /** An event `delete_old_events` removes: added more than a week ago. */
  predicate IsOldEvent(e: Event, now: Time)
  {
    e.addedAt < now - WEEK
  }

  /** The event table after `delete_old_events`. */
  function EventsKept(events: map<Id, Event>, now: Time): (r: map<Id, Event>)
    ensures forall k :: k in r <==> k in events && !IsOldEvent(events[k], now)
    ensures forall k :: k in r ==> r[k] == events[k]
  {
    map k | k in events && !IsOldEvent(events[k], now) :: events[k]
  }

  /**
   * Running the clean-up again at the same time removes nothing more, and a
   * later run keeps no event an earlier one removed.
   */
  lemma EventPurgeIsIdempotent(events: map<Id, Event>, now: Time, later: Time)
    requires now <= later
    ensures EventsKept(EventsKept(events, now), now) == EventsKept(events, now)
    ensures EventsKept(events, later).Keys <= EventsKept(events, now).Keys
    ensures EventsKept(EventsKept(events, now), later) == EventsKept(events, later)
  {
  }

  /** `delete_old_events`: hard-deletes the events added more than a week ago. */
  method DeleteOldEvents(db: Store.Db, now: Time)
    modifies db`events
    ensures db.events == EventsKept(old(db.events), now)
  {
    db.events := EventsKept(db.events, now);
  }

  /** A command `delete_old_commands` removes: an internal ping or debug without requester, scheduled over a week ago. */
  predicate IsOldProbe(c: Command, now: Time)
  {
    c.shell == Internal && (c.line == "ping" || c.line == "debug") && c.requestedBy.None? &&
    c.scheduledAt.Some? && c.scheduledAt.value < now - WEEK
  }

  /** The keys `delete_old_commands` removes. */
  function OldProbes(cmds: map<Id, Command>, now: Time): (r: set<Id>)
    ensures forall k :: k in r <==> k in cmds && IsOldProbe(cmds[k], now)
  {
    set k | k in cmds && IsOldProbe(cmds[k], now)
  }

  /**
   * The command table after `delete_old_commands`: the old probes are gone,
   * and every dependency link to them goes with them.
   */
  function CommandsKept(cmds: map<Id, Command>, now: Time): (r: map<Id, Command>)
    ensures forall k :: k in r <==> k in cmds && !IsOldProbe(cmds[k], now)
  {
    var gone := OldProbes(cmds, now);
    map k | k in cmds && !IsOldProbe(cmds[k], now) :: cmds[k].(runAfter := cmds[k].runAfter - gone)
  }

  /**
   * A command with a requester, or with another shell or line, is never
   * removed; what survives is unchanged but for links to removed rows.
   */
  lemma {:induction false} OnlyProbesArePurged(cmds: map<Id, Command>, now: Time, k: Id)
    requires k in cmds && (cmds[k].requestedBy.Some? || cmds[k].shell != Internal || (cmds[k].line != "ping" && cmds[k].line != "debug"))
    ensures k in CommandsKept(cmds, now)
    ensures var c := CommandsKept(cmds, now)[k];
      c == cmds[k].(runAfter := c.runAfter) && c.runAfter <= cmds[k].runAfter &&
      forall d :: d in cmds[k].runAfter && d !in c.runAfter ==> d in cmds && IsOldProbe(cmds[d], now)
  {
  }

  /** `delete_old_commands`: hard-deletes the old probes and their dependency links. */
  method DeleteOldCommands(db: Store.Db, now: Time)
    modifies db`commands
    ensures db.commands == CommandsKept(old(db.commands), now)
  {
    db.commands := CommandsKept(db.commands, now);
  }

  // ----- servers -----

  /** The servers `ping_all_servers` and `debug_all_servers` iterate over: usable, with at least one session row. */
  function RoundServers(servers: map<Id, Server>, sessions: map<Id, Session>): (r: set<Id>)
    ensures forall s :: s in r <==> s in servers && Usable(servers[s]) && SessionsOf(sessions, s) != {}
  {
    set s | s in servers && Usable(servers[s]) && SessionsOf(sessions, s) != {}
  }

  /** The servers a round actually probes: those of `RoundServers` that are connected. */
  function Probed(servers: map<Id, Server>, sessions: map<Id, Session>): set<Id>
  {
    set s | s in RoundServers(servers, sessions) && IsConnected(sessions, s)
  }

  /** The session filter is implied by the connection test: the probed servers are exactly the usable connected ones. */
  lemma ProbedAreUsableConnected(servers: map<Id, Server>, sessions: map<Id, Session>, s: Id)
    ensures s in Probed(servers, sessions) <==> s in servers && Usable(servers[s]) && IsConnected(sessions, s)
  {
    if s in servers && IsConnected(sessions, s) {
      var k :| k in sessions && sessions[k].client == s && IsOpen(sessions[k]);
      assert k in SessionsOf(sessions, s);
    }
  }

  /** The probe a round issues to server `s`: an internal command without requester, delivered at once. */
  function ProbeRow(s: Id, line: string, now: Time): Command
  {
    ServerOps.Created(s, Internal, line, None, None, [], true, now)
  }

  /** `cmds` with one probe per server of `probed`, under consecutive keys from `base`. */
  function WithProbes(cmds: map<Id, Command>, base: nat, probed: seq<Id>, line: string, now: Time): map<Id, Command>
  {
    if probed == [] then cmds
    else WithProbes(cmds, base, probed[..|probed| - 1], line, now)[base + |probed| - 1 := ProbeRow(probed[|probed| - 1], line, now)]
  }

  lemma WithProbesOneMore(cmds: map<Id, Command>, base: nat, probed: seq<Id>, s: Id, line: string, now: Time)
    ensures WithProbes(cmds, base, probed + [s], line, now) == WithProbes(cmds, base, probed, line, now)[base + |probed| := ProbeRow(s, line, now)]
  {
    assert (probed + [s])[..|probed|] == probed;
  }

  /** A round adds rows under exactly the keys `base` to `base + |probed| - 1`. */
  lemma {:induction false} WithProbesKeys(cmds: map<Id, Command>, base: nat, probed: seq<Id>, line: string, now: Time)
    ensures forall k :: k in WithProbes(cmds, base, probed, line, now) <==> k in cmds || base <= k < base + |probed|
  {
    if probed != [] {
      WithProbesKeys(cmds, base, probed[..|probed| - 1], line, now);
    }
  }

  /** A round changes no row below its first fresh key. */
  lemma {:induction false} WithProbesKeepsOld(cmds: map<Id, Command>, base: nat, probed: seq<Id>, line: string, now: Time, k: Id)
    requires k in cmds && k < base
    ensures k in WithProbes(cmds, base, probed, line, now)
    ensures WithProbes(cmds, base, probed, line, now)[k] == cmds[k]
  {
    if probed != [] {
      WithProbesKeepsOld(cmds, base, probed[..|probed| - 1], line, now, k);
    }
  }

  /** The `i`-th fresh key holds the probe to the `i`-th server of the round. */
  lemma {:induction false} WithProbesRow(cmds: map<Id, Command>, base: nat, probed: seq<Id>, line: string, now: Time, i: nat)
    requires i < |probed|
    ensures base + i in WithProbes(cmds, base, probed, line, now)
    ensures WithProbes(cmds, base, probed, line, now)[base + i] == ProbeRow(probed[i], line, now)
  {
    var n := |probed| - 1;
    if i < n {
      WithProbesRow(cmds, base, probed[..n], line, now, i);
      assert probed[..n][i] == probed[i];
    }
  }

  /** Every probe is delivered when it is created and has no requester. */
  lemma ProbeIsSent(s: Id, line: string, now: Time)
    ensures Status(ProbeRow(s, line, now), now).text == Sent && ProbeRow(s, line, now).requestedBy.None?
    ensures ProbeRow(s, line, now).server == s && ProbeRow(s, line, now).line == line
  {
    ServerOps.CreatedRow(s, Internal, line, None, None, [], true, now);
  }

  /**
   * `blocks[i]` is what the probe to `probed[i]`, saved under key `base + i`,
   * pushed: its request to each open session of that server.
   */
  predicate ProbesPushed(blocks: seq<seq<Push>>, sessions: map<Id, Session>, probed: seq<Id>, base: nat, line: string, now: Time)
  {
    |blocks| == |probed| &&
    forall i :: 0 <= i < |blocks| ==>
      PushedToEach(blocks[i], sessions, OpenSessionsOf(sessions, probed[i]), Request(base + i, ProbeRow(probed[i], line, now)))
  }

  lemma ProbesPushedOneMore(blocks: seq<seq<Push>>, block: seq<Push>, sessions: map<Id, Session>, probed: seq<Id>, s: Id,
                            base: nat, line: string, now: Time)
    requires ProbesPushed(blocks, sessions, probed, base, line, now)
    requires PushedToEach(block, sessions, OpenSessionsOf(sessions, s), Request(base + |probed|, ProbeRow(s, line, now)))
    ensures ProbesPushed(blocks + [block], sessions, probed + [s], base, line, now)
  {
  }

  /**
   * `ping_all_servers` (line "ping") and `debug_all_servers` (line "debug"):
   * each probed server, in some order, gets one probe under a fresh key,
   * pushed at once to each of its open sessions; no other row changes.
   * `blocks[i]` is what the probe of `probed[i]` pushed.
   */
  method ProbeRound(db: Store.Db, line: string, now: Time) returns (ghost probed: seq<Id>, ghost blocks: seq<seq<Push>>)
    requires db.ValidCommands()
    modifies db`commands, db`outbox, db`nextCommand
    ensures db.ValidCommands() && old(db.outbox) <= db.outbox
    ensures forall s :: s in probed <==> s in Probed(db.servers, db.sessions)
    ensures forall i, j :: 0 <= i < j < |probed| ==> probed[i] != probed[j]
    ensures db.nextCommand == old(db.nextCommand) + |probed|
    ensures db.commands == WithProbes(old(db.commands), old(db.nextCommand), probed, line, now)
    ensures db.outbox == old(db.outbox) + Concat(blocks)
    ensures ProbesPushed(blocks, db.sessions, probed, old(db.nextCommand), line, now)
  {
    ghost var c0, base := db.commands, db.nextCommand;
    var targets := RoundServers(db.servers, db.sessions);
    var remaining := targets;
    probed, blocks := [], [];
    while remaining != {}
      invariant remaining <= targets
      invariant forall s :: s in probed <==> s in targets && s !in remaining && IsConnected(db.sessions, s)
      invariant forall i, j :: 0 <= i < j < |probed| ==> probed[i] != probed[j]
      invariant db.nextCommand == base + |probed|
      invariant db.commands == WithProbes(c0, base, probed, line, now)
      invariant db.ValidCommands()
      invariant db.outbox == old(db.outbox) + Concat(blocks)
      invariant ProbesPushed(blocks, db.sessions, probed, base, line, now)
      decreases remaining
    {
      var s :| s in remaining;
      if IsConnected(db.sessions, s) {
        probed, blocks := Probe(db, s, line, now, c0, base, old(db.outbox), probed, blocks);
      }
      remaining := remaining - {s};
    }
  }

  /**
   * One turn of a round: `execute` of the probe on the connected server `s`,
   * which adds its row under the next key and its pushes as one more block.
   */
  method Probe(db: Store.Db, s: Id, line: string, now: Time, ghost c0: map<Id, Command>, ghost base: nat,
               ghost o0: seq<Push>, ghost probed: seq<Id>, ghost blocks: seq<seq<Push>>)
    returns (ghost probed': seq<Id>, ghost blocks': seq<seq<Push>>)
    requires db.ValidCommands() && s in db.servers && Usable(db.servers[s]) && IsConnected(db.sessions, s)
    requires db.nextCommand == base + |probed| && db.commands == WithProbes(c0, base, probed, line, now)
    requires db.outbox == o0 + Concat(blocks) && ProbesPushed(blocks, db.sessions, probed, base, line, now)
    modifies db`commands, db`outbox, db`nextCommand
    ensures probed' == probed + [s]
    ensures db.ValidCommands() && db.nextCommand == base + |probed'| && db.commands == WithProbes(c0, base, probed', line, now)
    ensures db.outbox == o0 + Concat(blocks') && ProbesPushed(blocks', db.sessions, probed', base, line, now)
  {
    ghost var o1, c1 := db.outbox, db.commands;
    var r := ServerOps.Execute(db, s, line, Internal, None, None, [], now);
    probed', blocks' := probed + [s], blocks + [db.outbox[|o1|..]];
    assert probed'[..|probed|] == probed && blocks'[..|blocks|] == blocks;
    assert db.commands == c1[base + |probed| := ProbeRow(s, line, now)];
    WithProbesOneMore(c0, base, probed, s, line, now);
    ProbesPushedOneMore(blocks, db.outbox[|o1|..], db.sessions, probed, s, base, line, now);
    ConcatOneMore(o0, o1, db.outbox, blocks);
  }

  /** The server row after a status refresh: only `status` changed, to the health computed now. */
  ghost predicate Refreshed(before: Server, after: Server, k: Id, cmds: map<Id, Command>, sessions: map<Id, Session>,
                            drift: Option<int>, now: Time)
  {
    after.status.Some? && after == before.(status := after.status) &&
    ServerOps.IsDelayNow(cmds, k, now, after.status.value.delayNow) &&
    after.status.value == ServerOps.Health(IsConnected(sessions, k), before.commissioned, after.status.value.delayNow, drift)
  }

  /** Writes `get_current_status()` into server `k`'s `status`, with `drift` as the latest clock-drift record. */
  method Refresh(db: Store.Db, k: Id, drift: Option<int>, now: Time)
    requires k in db.servers
    modifies db`servers
    ensures db.servers.Keys == old(db.servers).Keys
    ensures Refreshed(old(db.servers)[k], db.servers[k], k, db.commands, db.sessions, drift, now)
    ensures forall j :: j in db.servers && j != k ==> db.servers[j] == old(db.servers)[j]
  {
    var st := ServerOps.CurrentStatus(db, k, drift, now);
    db.servers := db.servers[k := db.servers[k].(status := Some(st))];
  }

  /**
   * `check_server_status()`: refreshes every usable server, each with its
   * own drift record, and leaves every other server untouched.
   */
  method RefreshAll(db: Store.Db, drift: Id -> Option<int>, now: Time)
    modifies db`servers
    ensures db.servers.Keys == old(db.servers).Keys
    ensures forall k :: k in db.servers ==>
      if Usable(old(db.servers)[k]) then Refreshed(old(db.servers)[k], db.servers[k], k, db.commands, db.sessions, drift(k), now)
      else db.servers[k] == old(db.servers)[k]
  {
    ghost var s0 := db.servers;
    var targets := set k | k in db.servers && Usable(db.servers[k]);
    var remaining := targets;
    ghost var done: set<Id> := {};
    while remaining != {}
      invariant done + remaining == targets && done !! remaining
      invariant db.servers.Keys == s0.Keys
      invariant forall k :: k in s0 ==>
        if k in done then Refreshed(s0[k], db.servers[k], k, db.commands, db.sessions, drift(k), now) else db.servers[k] == s0[k]
      decreases remaining
    {
      var k :| k in remaining;
      Refresh(db, k, drift(k), now);
      done := done + {k};
      remaining := remaining - {k};
    }
  }

  /** `check_server_status(pk)`: refreshes that server whatever its flags, or fails when there is no such server. */
  method RefreshOne(db: Store.Db, pk: Id, drift: Option<int>, now: Time) returns (err: Option<Failure>)
    modifies db`servers
    ensures pk !in old(db.servers) ==> err == Some(DoesNotExist) && db.servers == old(db.servers)
    ensures pk in old(db.servers) ==> err.None? && db.servers.Keys == old(db.servers).Keys
    ensures pk in old(db.servers) ==> Refreshed(old(db.servers)[pk], db.servers[pk], pk, db.commands, db.sessions, drift, now)
    ensures pk in old(db.servers) ==> forall j :: j in db.servers && j != pk ==> db.servers[j] == old(db.servers)[j]
  {
    if pk !in db.servers {
      return Some(DoesNotExist);
    }
    Refresh(db, pk, drift, now);
    err := None;
  }

  /** An installer `cleanup_installers` removes: added more than a day ago. */
  predicate IsExpiredInstaller(i: Installer, now: Time)
  {
    i.addedAt < now - INSTALLER_LIFETIME
  }

  /** The installer table after `cleanup_installers`. */
  function InstallersKept(installers: map<Id, Installer>, now: Time): (r: map<Id, Installer>)
    ensures forall k :: k in r <==> k in installers && !IsExpiredInstaller(installers[k], now)
    ensures forall k :: k in r ==> r[k] == installers[k]
  {
    map k | k in installers && !IsExpiredInstaller(installers[k], now) :: installers[k]
  }

  /**
   * Running the clean-up again at the same time removes nothing more, and a
   * later run keeps no installer an earlier one removed.
   */
  lemma InstallerCleanupIsIdempotent(installers: map<Id, Installer>, now: Time, later: Time)
    requires now <= later
    ensures InstallersKept(InstallersKept(installers, now), now) == InstallersKept(installers, now)
    ensures InstallersKept(installers, later).Keys <= InstallersKept(installers, now).Keys
    ensures InstallersKept(InstallersKept(installers, now), later) == InstallersKept(installers, later)
  {
  }

  /** `cleanup_installers`: hard-deletes the installers added more than a day ago. */
  method CleanupInstallers(db: Store.Db, now: Time)
    modifies db`installers
    ensures db.installers == InstallersKept(old(db.installers), now)
  {
    db.installers := InstallersKept(db.installers, now);
  }
}
