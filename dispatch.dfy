// The imperative half of the command model: pushing a command to its
// server, the sweep that delivers every eligible scheduled command, the
// acknowledgement, the completion with its one-level failure cascade, the
// retry, and the reaction to agent events.
module Dispatch {
  import opened Common
  import opened Sessions
  import opened Commands
  import opened ServerRows
  import opened Store
  import Registry

  // ----- eligibility -----

  /** The row filter of the sweep's query: a usable server, due, never delivered, unhandled, and in scope. */
  predicate Candidate(servers: map<Id, Server>, cmds: map<Id, Command>, k: Id, now: Time, scope: Option<Id>)
    requires k in cmds
  {
    var c := cmds[k];
    c.server in servers && Usable(servers[c.server]) &&
    c.scheduledAt.Some? && c.scheduledAt.value <= now &&
    c.deliveredAt.None? && c.handledAt.None? &&
    (scope.None? || c.server == scope.value)
  }

  /** Some command that `k` runs after is still unhandled. Success is not consulted. */
  predicate Blocked(cmds: map<Id, Command>, k: Id)
    requires k in cmds
  {
    exists d :: d in cmds[k].runAfter && d in cmds && cmds[d].handledAt.None?
  }

  /** What the sweep delivers: a candidate that is not blocked and whose server is connected. */
  predicate Eligible(servers: map<Id, Server>, sessions: map<Id, Session>, cmds: map<Id, Command>, k: Id, now: Time, scope: Option<Id>)
    requires k in cmds
  {
    Candidate(servers, cmds, k, now, scope) && !Blocked(cmds, k) && IsConnected(sessions, cmds[k].server)
  }

  function EligibleSet(servers: map<Id, Server>, sessions: map<Id, Session>, cmds: map<Id, Command>, now: Time, scope: Option<Id>): (r: set<Id>)
    ensures forall k :: k in r <==> k in cmds && Eligible(servers, sessions, cmds, k, now, scope)
  {
    set k | k in cmds && Eligible(servers, sessions, cmds, k, now, scope)
  }

  /** The command table after each command of `picked` is marked delivered at `now`. */
  function Delivered(cmds: map<Id, Command>, picked: set<Id>, now: Time): (r: map<Id, Command>)
    ensures r.Keys == cmds.Keys
    ensures forall k :: k in r ==> r[k] == if k in picked then cmds[k].(deliveredAt := Some(now)) else cmds[k]
  {
    map k | k in cmds :: if k in picked then cmds[k].(deliveredAt := Some(now)) else cmds[k]
  }

  lemma DeliveredOneMore(cmds: map<Id, Command>, picked: set<Id>, now: Time, k: Id)
    requires k in cmds
    ensures Delivered(cmds, picked, now)[k := cmds[k].(deliveredAt := Some(now))] == Delivered(cmds, picked + {k}, now)
  {
  }

  /** Delivering other commands changes neither a command's own candidacy nor what blocks it. */
  lemma {:induction false} DeliveryKeepsEligibility(servers: map<Id, Server>, sessions: map<Id, Session>, cmds: map<Id, Command>,
                                                     picked: set<Id>, now: Time, scope: Option<Id>, k: Id)
    requires k in cmds && k !in picked
    ensures Eligible(servers, sessions, Delivered(cmds, picked, now), k, now, scope) <==> Eligible(servers, sessions, cmds, k, now, scope)
  {
    var d := Delivered(cmds, picked, now);
    assert d[k] == cmds[k];
    if Blocked(cmds, k) {
      var j :| j in cmds[k].runAfter && j in cmds && cmds[j].handledAt.None?;
      assert j in d && d[j].handledAt.None?;
    }
    if Blocked(d, k) {
      var j :| j in d[k].runAfter && j in d && d[j].handledAt.None?;
      assert j in cmds && cmds[j].handledAt.None?;
    }
  }

  /** A command the sweep delivered is never delivered again: it is no longer a candidate. */
  lemma {:induction false} SweepNeverRedelivers(servers: map<Id, Server>, sessions: map<Id, Session>, cmds: map<Id, Command>,
                                                now: Time, later: Time, scope: Option<Id>, scope2: Option<Id>)
    ensures var after := Delivered(cmds, EligibleSet(servers, sessions, cmds, now, scope), now);
      forall k :: k in EligibleSet(servers, sessions, cmds, now, scope) ==> k !in EligibleSet(servers, sessions, after, later, scope2)
  {
    var e := EligibleSet(servers, sessions, cmds, now, scope);
    var after := Delivered(cmds, e, now);
    forall k | k in e ensures k !in EligibleSet(servers, sessions, after, later, scope2) {
      assert after[k].deliveredAt.Some?;
    }
  }

  // ----- the pushes a sweep makes -----

  /**
   * `pushes` carries the request of each command in `picked` once to each
   * open session of that command's server, down the session's channel, and
   * nothing else.
   */
  predicate RequestsPushed(pushes: seq<Push>, sessions: map<Id, Session>, cmds: map<Id, Command>, picked: set<Id>)
    requires picked <= cmds.Keys
  {
    (forall i :: 0 <= i < |pushes| ==>
       pushes[i].message.CommandRequest? &&
       pushes[i].message.id in picked &&
       pushes[i].message == Request(pushes[i].message.id, cmds[pushes[i].message.id]) &&
       pushes[i].session in OpenSessionsOf(sessions, cmds[pushes[i].message.id].server) &&
       pushes[i].channel == sessions[pushes[i].session].channel) &&
    (forall k, s :: k in picked && s in OpenSessionsOf(sessions, cmds[k].server) ==>
       exists i :: 0 <= i < |pushes| && pushes[i].session == s && pushes[i].message == Request(k, cmds[k])) &&
    (forall i, j :: 0 <= i < j < |pushes| ==> pushes[i].session != pushes[j].session || pushes[i].message != pushes[j].message)
  }

  lemma {:induction false} RequestsPushedOneMore(pushes: seq<Push>, block: seq<Push>, sessions: map<Id, Session>,
                                                 cmds: map<Id, Command>, picked: set<Id>, k: Id)
    requires picked <= cmds.Keys && k in cmds && k !in picked
    requires RequestsPushed(pushes, sessions, cmds, picked)
    requires PushedToEach(block, sessions, OpenSessionsOf(sessions, cmds[k].server), Request(k, cmds[k]))
    ensures RequestsPushed(pushes + block, sessions, cmds, picked + {k})
  {
    var all := pushes + block;
    var n := |pushes|;
    forall i | 0 <= i < |all|
      ensures all[i].message.CommandRequest? && all[i].message.id in picked + {k}
      ensures all[i].message == Request(all[i].message.id, cmds[all[i].message.id])
      ensures all[i].session in OpenSessionsOf(sessions, cmds[all[i].message.id].server)
      ensures all[i].channel == sessions[all[i].session].channel
    {
      if i >= n { assert all[i] == block[i - n]; }
    }
    CoverageOneMore(pushes, block, sessions, cmds, picked, k);
    DistinctOneMore(pushes, block, sessions, cmds, picked, k);
  }

  lemma {:induction false} CoverageOneMore(pushes: seq<Push>, block: seq<Push>, sessions: map<Id, Session>,
                                           cmds: map<Id, Command>, picked: set<Id>, k: Id)
    requires picked <= cmds.Keys && k in cmds && k !in picked
    requires RequestsPushed(pushes, sessions, cmds, picked)
    requires PushedToEach(block, sessions, OpenSessionsOf(sessions, cmds[k].server), Request(k, cmds[k]))
    ensures forall j, s :: j in picked + {k} && s in OpenSessionsOf(sessions, cmds[j].server) ==>
       exists i :: 0 <= i < |pushes + block| && (pushes + block)[i].session == s && (pushes + block)[i].message == Request(j, cmds[j])
  {
    var all := pushes + block;
    var n := |pushes|;
    forall j, s | j in picked + {k} && s in OpenSessionsOf(sessions, cmds[j].server)
      ensures exists i :: 0 <= i < |all| && all[i].session == s && all[i].message == Request(j, cmds[j])
    {
      if j == k {
        var i :| 0 <= i < |block| && block[i].session == s;
        assert all[n + i] == block[i];
      } else {
        var i :| 0 <= i < |pushes| && pushes[i].session == s && pushes[i].message == Request(j, cmds[j]);
        assert all[i] == pushes[i];
      }
    }
  }

  lemma {:induction false} DistinctOneMore(pushes: seq<Push>, block: seq<Push>, sessions: map<Id, Session>,
                                           cmds: map<Id, Command>, picked: set<Id>, k: Id)
    requires picked <= cmds.Keys && k in cmds && k !in picked
    requires RequestsPushed(pushes, sessions, cmds, picked)
    requires PushedToEach(block, sessions, OpenSessionsOf(sessions, cmds[k].server), Request(k, cmds[k]))
    ensures forall i, j :: 0 <= i < j < |pushes + block| ==>
      (pushes + block)[i].session != (pushes + block)[j].session || (pushes + block)[i].message != (pushes + block)[j].message
  {
    var all := pushes + block;
    var n := |pushes|;
    forall i, j | 0 <= i < j < |all| ensures all[i].session != all[j].session || all[i].message != all[j].message {
      if j >= n {
        assert all[j] == block[j - n];
        if i >= n { assert all[i] == block[i - n]; }
        else { assert all[i] == pushes[i]; assert all[i].message.id != k; }
      } else {
        assert all[i] == pushes[i] && all[j] == pushes[j];
      }
    }
  }

  /** The pushes for two disjoint sets of commands, one after the other, are the pushes for both. */
  lemma {:induction false} RequestsPushedUnion(first: seq<Push>, second: seq<Push>, sessions: map<Id, Session>,
                                               cmds: map<Id, Command>, a: set<Id>, b: set<Id>)
    requires a <= cmds.Keys && b <= cmds.Keys && a !! b
    requires RequestsPushed(first, sessions, cmds, a) && RequestsPushed(second, sessions, cmds, b)
    ensures RequestsPushed(first + second, sessions, cmds, a + b)
  {
    var all := first + second;
    var n := |first|;
    forall i | 0 <= i < |all|
      ensures all[i].message.CommandRequest? && all[i].message.id in a + b
      ensures all[i].message == Request(all[i].message.id, cmds[all[i].message.id])
      ensures all[i].session in OpenSessionsOf(sessions, cmds[all[i].message.id].server)
      ensures all[i].channel == sessions[all[i].session].channel
    {
      if i >= n { assert all[i] == second[i - n]; }
    }
    CoverageUnion(first, second, sessions, cmds, a, b);
    DistinctUnion(first, second, sessions, cmds, a, b);
  }

  lemma {:induction false} CoverageUnion(first: seq<Push>, second: seq<Push>, sessions: map<Id, Session>,
                                         cmds: map<Id, Command>, a: set<Id>, b: set<Id>)
    requires a <= cmds.Keys && b <= cmds.Keys
    requires RequestsPushed(first, sessions, cmds, a) && RequestsPushed(second, sessions, cmds, b)
    ensures forall k, s :: k in a + b && s in OpenSessionsOf(sessions, cmds[k].server) ==>
      exists i :: 0 <= i < |first + second| && (first + second)[i].session == s && (first + second)[i].message == Request(k, cmds[k])
  {
    var all := first + second;
    var n := |first|;
    forall k, s | k in a + b && s in OpenSessionsOf(sessions, cmds[k].server)
      ensures exists i :: 0 <= i < |all| && all[i].session == s && all[i].message == Request(k, cmds[k])
    {
      if k in a {
        var i :| 0 <= i < |first| && first[i].session == s && first[i].message == Request(k, cmds[k]);
        assert all[i] == first[i];
      } else {
        var i :| 0 <= i < |second| && second[i].session == s && second[i].message == Request(k, cmds[k]);
        assert all[n + i] == second[i];
      }
    }
  }

  lemma {:induction false} DistinctUnion(first: seq<Push>, second: seq<Push>, sessions: map<Id, Session>,
                                         cmds: map<Id, Command>, a: set<Id>, b: set<Id>)
    requires a <= cmds.Keys && b <= cmds.Keys && a !! b
    requires RequestsPushed(first, sessions, cmds, a) && RequestsPushed(second, sessions, cmds, b)
    ensures forall i, j :: 0 <= i < j < |first + second| ==>
      (first + second)[i].session != (first + second)[j].session || (first + second)[i].message != (first + second)[j].message
  {
    var all := first + second;
    var n := |first|;
    forall i, j | 0 <= i < j < |all| ensures all[i].session != all[j].session || all[i].message != all[j].message {
      if j >= n {
        assert all[j] == second[j - n];
        if i >= n { assert all[i] == second[i - n]; }
        else { assert all[i] == first[i]; assert all[i].message.id in a && all[j].message.id in b; }
      } else {
        assert all[i] == first[i] && all[j] == first[j];
      }
    }
  }

  /** Whether pushes are those of `picked` depends only on the rows of `picked`. */
  lemma RequestsPushedElsewhere(pushes: seq<Push>, sessions: map<Id, Session>, cmds: map<Id, Command>,
                                cmds': map<Id, Command>, picked: set<Id>)
    requires picked <= cmds.Keys && picked <= cmds'.Keys && forall k :: k in picked ==> cmds'[k] == cmds[k]
    ensures RequestsPushed(pushes, sessions, cmds, picked) <==> RequestsPushed(pushes, sessions, cmds', picked)
  {
  }

  // ----- delivery -----

  /**
   * `Command.execute`: push the command's request to every open session of
   * its server; when `toSave`, also record `delivered_at = now`.
   */
  method Execute(db: Db, k: Id, toSave: bool, now: Time)
    requires k in db.commands
    modifies db`commands, db`outbox
    ensures |db.outbox| >= |old(db.outbox)| && db.outbox[..|old(db.outbox)|] == old(db.outbox)
    ensures PushedToEach(db.outbox[|old(db.outbox)|..], db.sessions, OpenSessionsOf(db.sessions, old(db.commands)[k].server),
                         Request(k, old(db.commands)[k]))
    ensures db.commands == if toSave then old(db.commands)[k := old(db.commands)[k].(deliveredAt := Some(now))] else old(db.commands)
  {
    var c := db.commands[k];
    Registry.Send(db, c.server, Request(k, c));
    if toSave {
      db.commands := db.commands[k := c.(deliveredAt := Some(now))];
    }
  }

  /** One delivery step of the sweep, stated against the table and pushes as they were when the sweep began. */
  method DeliverOne(db: Db, k: Id, now: Time, ghost c0: map<Id, Command>, ghost done: set<Id>,
                    ghost o0: seq<Push>, ghost pushed: seq<Push>) returns (ghost block: seq<Push>)
    requires k in c0 && k !in done && done <= c0.Keys
    requires db.commands == Delivered(c0, done, now)
    requires db.outbox == o0 + pushed && RequestsPushed(pushed, db.sessions, c0, done)
    modifies db`commands, db`outbox
    ensures db.commands == Delivered(c0, done + {k}, now)
    ensures db.outbox == o0 + (pushed + block) && RequestsPushed(pushed + block, db.sessions, c0, done + {k})
  {
    assert db.commands[k] == c0[k];
    ghost var before := db.outbox;
    Execute(db, k, true, now);
    block := db.outbox[|before|..];
    assert db.outbox == before + block;
    RequestsPushedOneMore(pushed, block, db.sessions, c0, done, k);
    DeliveredOneMore(c0, done, now, k);
  }

  /**
   * `execute_all_scheduled(server_pk)`: delivers exactly the eligible
   * commands, pushing each one's request to its server's open sessions, and
   * returns how many it delivered.
   */
  method ExecuteAllScheduled(db: Db, scope: Option<Id>, now: Time) returns (count: nat)
    modifies db`commands, db`outbox
    ensures db.commands == Delivered(old(db.commands), EligibleSet(db.servers, db.sessions, old(db.commands), now, scope), now)
    ensures count == |EligibleSet(db.servers, db.sessions, old(db.commands), now, scope)|
    ensures |db.outbox| >= |old(db.outbox)| && db.outbox[..|old(db.outbox)|] == old(db.outbox)
    ensures RequestsPushed(db.outbox[|old(db.outbox)|..], db.sessions, old(db.commands),
                           EligibleSet(db.servers, db.sessions, old(db.commands), now, scope))
  {
    var candidates := set k | k in db.commands && Candidate(db.servers, db.commands, k, now, scope);
    ghost var eligible := EligibleSet(db.servers, db.sessions, db.commands, now, scope);
    count := DeliverAll(db, candidates, now, scope, eligible);
  }

  /** `candidates` are rows of the sweep's query and `eligible` holds exactly those of them the sweep delivers. */
  ghost predicate Classified(servers: map<Id, Server>, sessions: map<Id, Session>, cmds: map<Id, Command>, now: Time,
                             scope: Option<Id>, candidates: set<Id>, eligible: set<Id>)
    requires candidates <= cmds.Keys
  {
    forall k {:trigger Candidate(servers, cmds, k, now, scope)} :: k in candidates ==>
      Candidate(servers, cmds, k, now, scope) && (k in eligible <==> Eligible(servers, sessions, cmds, k, now, scope))
  }

  /** The sweep's loop: visits each candidate once, delivering exactly those of `eligible`. */
  method DeliverAll(db: Db, candidates: set<Id>, now: Time, scope: Option<Id>, ghost eligible: set<Id>) returns (count: nat)
    requires eligible <= candidates <= db.commands.Keys
    requires Classified(db.servers, db.sessions, db.commands, now, scope, candidates, eligible)
    modifies db`commands, db`outbox
    ensures db.commands == Delivered(old(db.commands), eligible, now)
    ensures count == |eligible|
    ensures |db.outbox| >= |old(db.outbox)| && db.outbox[..|old(db.outbox)|] == old(db.outbox)
    ensures RequestsPushed(db.outbox[|old(db.outbox)|..], db.sessions, old(db.commands), eligible)
  {
    ghost var c0 := db.commands;
    ghost var o0 := db.outbox;
    var remaining := candidates;
    ghost var done: set<Id> := {};
    ghost var pushed: seq<Push> := [];
    count := 0;
    while remaining != {}
      invariant remaining <= candidates
      invariant Visited(eligible, remaining, done)
      invariant db.commands == Delivered(c0, done, now)
      invariant count == |done|
      invariant db.outbox == o0 + pushed
      invariant RequestsPushed(pushed, db.sessions, c0, done)
      decreases remaining
    {
      var k :| k in remaining;
      count, done, pushed := Visit(db, k, now, scope, c0, o0, candidates, eligible, remaining, count, done, pushed);
      remaining := remaining - {k};
    }
    assert done == eligible;
    assert db.outbox[|o0|..] == pushed;
  }

  /**
   * One turn of the sweep's loop over the candidates: a blocked command is
   * skipped, a command whose server is connected is delivered.
   */
  method Visit(db: Db, k: Id, now: Time, scope: Option<Id>, ghost c0: map<Id, Command>, ghost o0: seq<Push>,
               ghost candidates: set<Id>, ghost eligible: set<Id>, ghost remaining: set<Id>, count: nat,
               ghost done: set<Id>, ghost pushed: seq<Push>)
    returns (count': nat, ghost done': set<Id>, ghost pushed': seq<Push>)
    requires k in remaining && remaining <= candidates <= c0.Keys && eligible <= c0.Keys
    requires Classified(db.servers, db.sessions, c0, now, scope, candidates, eligible)
    requires Visited(eligible, remaining, done)
    requires db.commands == Delivered(c0, done, now)
    requires count == |done|
    requires db.outbox == o0 + pushed && RequestsPushed(pushed, db.sessions, c0, done)
    modifies db`commands, db`outbox
    ensures Visited(eligible, remaining - {k}, done')
    ensures db.commands == Delivered(c0, done', now)
    ensures count' == |done'|
    ensures db.outbox == o0 + pushed' && RequestsPushed(pushed', db.sessions, c0, done')
  {
    DeliveryKeepsEligibility(db.servers, db.sessions, c0, done, now, scope, k);
    count', done', pushed' := count, done, pushed;
    if !Blocked(db.commands, k) && IsConnected(db.sessions, db.commands[k].server) {
      ghost var block := DeliverOne(db, k, now, c0, done, o0, pushed);
      pushed' := pushed + block;
      count' := count + 1;
      done' := done + {k};
    }
  }

  /** `done` holds exactly the members of `eligible` already visited, that is, no longer in `remaining`. */
  ghost predicate Visited(eligible: set<Id>, remaining: set<Id>, done: set<Id>)
  {
    done <= eligible && done !! remaining && forall j :: j in eligible && j !in remaining ==> j in done
  }

  // ----- acknowledgement and retry -----

  /** `ack()`: `acked_at` becomes `now`, whatever it held before; nothing else is written. */
  method Ack(db: Db, k: Id, now: Time)
    requires k in db.commands
    modifies db`commands
    ensures db.commands == old(db.commands)[k := old(db.commands)[k].(ackedAt := Some(now))]
  {
    db.commands := db.commands[k := db.commands[k].(ackedAt := Some(now))];
  }

  /**
   * Saving a command's timestamps: `scheduled_at` is a NOT NULL column, so a
   * row without it is refused by the database and the table stays as it was.
   */
  function SaveTimestamps(cmds: map<Id, Command>, k: Id, c: Command): (r: Result<map<Id, Command>, Failure>)
    requires k in cmds
    ensures r.Err? <==> c.scheduledAt.None?
    ensures r.Err? ==> r.error == IntegrityError("scheduled_at")
    ensures r.Ok? ==> r.value == cmds[k := c]
  {
    if c.scheduledAt.None? then Err(IntegrityError("scheduled_at")) else Ok(cmds[k := c])
  }

  /** `retry()`: clears every timestamp and saves them, which the database always refuses. */
  function Retry(cmds: map<Id, Command>, k: Id): (r: Result<map<Id, Command>, Failure>)
    requires k in cmds
    ensures r == Err(IntegrityError("scheduled_at"))
  {
    SaveTimestamps(cmds, k, Retried(cmds[k]))
  }

  /** Even held only in memory, a retried command is not one the sweep picks up: it has no due time. */
  lemma RetriedIsNeverSwept(servers: map<Id, Server>, sessions: map<Id, Session>, cmds: map<Id, Command>, k: Id, now: Time, scope: Option<Id>)
    requires k in cmds
    ensures !Eligible(servers, sessions, cmds[k := Retried(cmds[k])], k, now, scope)
  {
  }

  // ----- completion -----

  /**
   * The command table after a first `fin`: on failure every still-unhandled
   * direct dependent is cancelled with the same `handled_at`; then the
   * command's own success, result and `handled_at` are written, and win over
   * the cascade should the command depend on itself.
   */
  function Finished(cmds: map<Id, Command>, k: Id, success: bool, result: string, now: Time): (r: map<Id, Command>)
    requires k in cmds
    ensures r.Keys == cmds.Keys
  {
    var cascaded := map j | j in cmds ::
      if !success && k in cmds[j].runAfter && cmds[j].handledAt.None?
      then cmds[j].(success := Some(false), result := Some(CANCELLED_RESULT), handledAt := Some(now))
      else cmds[j];
    cascaded[k := cascaded[k].(success := Some(success), result := Some(result), handledAt := Some(now))]
  }

  /** `fin(success, result)` on the command table: nothing happens once the command is handled. */
  function FinOutcome(cmds: map<Id, Command>, k: Id, success: bool, result: string, now: Time): (r: map<Id, Command>)
    requires k in cmds
    ensures r.Keys == cmds.Keys
  {
    if cmds[k].handledAt.Some? then cmds else Finished(cmds, k, success, result, now)
  }

  /** `fin` is idempotent: a second call, with any arguments at any time, changes nothing. */
  lemma {:induction false} FinIsIdempotent(cmds: map<Id, Command>, k: Id, s1: bool, r1: string, t1: Time, s2: bool, r2: string, t2: Time)
    requires k in cmds
    ensures FinOutcome(FinOutcome(cmds, k, s1, r1, t1), k, s2, r2, t2) == FinOutcome(cmds, k, s1, r1, t1)
  {
    var once := FinOutcome(cmds, k, s1, r1, t1);
    if cmds[k].handledAt.None? {
      assert once[k].handledAt == Some(t1);
    }
  }

  /** A first `fin` records the outcome on the command itself. */
  lemma {:induction false} FinRecordsOutcome(cmds: map<Id, Command>, k: Id, success: bool, result: string, now: Time)
    requires k in cmds && cmds[k].handledAt.None?
    ensures var after := FinOutcome(cmds, k, success, result, now);
      after[k] == cmds[k].(success := Some(success), result := Some(result), handledAt := Some(now))
  {
  }

  /**
   * On failure, each still-unhandled direct dependent is cancelled with the
   * command's `handled_at`; every other row, and on success every row but the
   * command's own, is unchanged.
   */
  lemma {:induction false} FinCascadesOneLevel(cmds: map<Id, Command>, k: Id, success: bool, result: string, now: Time, j: Id)
    requires k in cmds && cmds[k].handledAt.None? && j in cmds && j != k
    ensures var after := FinOutcome(cmds, k, success, result, now);
      if !success && j in RunBefore(cmds, k) && cmds[j].handledAt.None?
      then after[j] == cmds[j].(success := Some(false), result := Some(CANCELLED_RESULT), handledAt := Some(now))
      else after[j] == cmds[j]
  {
  }

  /**
   * The cascade stops after one level, and the sweep counts any handled
   * command as a satisfied dependency: a command waiting only for a
   * cancelled dependent of a failed command becomes deliverable.
   */
  lemma {:induction false} GrandchildOfFailureBecomesEligible(servers: map<Id, Server>, sessions: map<Id, Session>, cmds: map<Id, Command>,
                                                              k: Id, d: Id, g: Id, result: string, now: Time)
    requires k in cmds && d in cmds && g in cmds
    requires cmds[k].handledAt.None? && cmds[d].handledAt.None?
    requires k in cmds[d].runAfter && d != k
    requires cmds[g].runAfter == {d} && g != k && g != d
    requires Candidate(servers, cmds, g, now, None) && IsConnected(sessions, cmds[g].server)
    ensures var after := FinOutcome(cmds, k, false, result, now);
      after[g] == cmds[g] && after[d].success == Some(false) && Eligible(servers, sessions, after, g, now, None)
  {
    var after := FinOutcome(cmds, k, false, result, now);
    FinCascadesOneLevel(cmds, k, false, result, now, d);
    FinCascadesOneLevel(cmds, k, false, result, now, g);
    assert k !in cmds[g].runAfter;
    assert !Blocked(after, g);
  }

  /** Whether `fin` asks for another sweep: some direct dependent is still unhandled after the update. */
  predicate WantsSweep(cmds: map<Id, Command>, k: Id)
  {
    exists j :: j in cmds && k in cmds[j].runAfter && cmds[j].handledAt.None?
  }

  /** After a failure every direct dependent is handled, so a failed `fin` never asks for a sweep. */
  lemma {:induction false} NoSweepAfterFailure(cmds: map<Id, Command>, k: Id, result: string, now: Time)
    requires k in cmds && cmds[k].handledAt.None?
    ensures !WantsSweep(FinOutcome(cmds, k, false, result, now), k)
  {
    var after := FinOutcome(cmds, k, false, result, now);
    forall j | j in after && k in after[j].runAfter ensures after[j].handledAt.Some? {
      if j != k { FinCascadesOneLevel(cmds, k, false, result, now, j); }
    }
  }

  /**
   * `fin(success, result)`: the first call updates the table as `FinOutcome`
   * says, then queues a sweep of the command's server if a direct dependent
   * is still unhandled, and always queues a status check of that server. A
   * later call returns at once. Records derived from ping and debug results
   * are not modelled.
   */
  method Fin(db: Db, k: Id, success: bool, result: string, now: Time)
    requires k in db.commands
    modifies db`commands, db`tasks
    ensures db.commands == FinOutcome(old(db.commands), k, success, result, now)
    ensures old(db.commands)[k].handledAt.Some? ==> db.tasks == old(db.tasks)
    ensures old(db.commands)[k].handledAt.None? ==>
      var server := old(db.commands)[k].server;
      db.tasks == old(db.tasks) + (if WantsSweep(db.commands, k) then [ExecuteScheduledCommands(Some(server))] else [])
                                + [CheckServerStatus(Some(server))]
  {
    var c := db.commands[k];
    if c.handledAt.Some? {
      return;
    }
    db.commands := Finished(db.commands, k, success, result, now);
    var pending := exists j :: j in db.commands && k in db.commands[j].runAfter && db.commands[j].handledAt.None?;
    if pending {
      db.tasks := db.tasks + [ExecuteScheduledCommands(Some(c.server))];
    }
    db.tasks := db.tasks + [CheckServerStatus(Some(c.server))];
  }

  // ----- events -----

  /** The server table after `handle_event`: 'started' stamps `started_at`, 'committed' sets `commissioned`; both touch `updated_at`. */
  function ServersAfterEvent(servers: map<Id, Server>, server: Id, effect: EventEffect, now: Time): (r: map<Id, Server>)
    requires server in servers
    ensures r.Keys == servers.Keys
    ensures effect == NoEffect ==> r == servers
    ensures effect == MarkStarted ==> r[server].startedAt == Some(now) && r[server].commissioned == servers[server].commissioned
    ensures effect == MarkCommissioned ==> r[server].commissioned && r[server].startedAt == servers[server].startedAt
    ensures effect != NoEffect ==> r[server].updatedAt == now && r == servers[server := r[server]]
  {
    match effect
    case MarkStarted => servers[server := servers[server].(startedAt := Some(now), updatedAt := now)]
    case MarkCommissioned => servers[server := servers[server].(commissioned := true, updatedAt := now)]
    case NoEffect => servers
  }

  /** The installers left after `server`'s are deleted. */
  function InstallersWithout(installers: map<Id, Installer>, server: Id): (r: map<Id, Installer>)
    ensures forall k :: k in r <==> k in installers && installers[k].server != server
    ensures forall k :: k in r ==> r[k] == installers[k]
  {
    map k | k in installers && installers[k].server != server :: installers[k]
  }

  /**
   * After a started event no installer of the server is left, every other
   * server's installers are kept, and a repeated started event changes
   * nothing more.
   */
  lemma StartedEventClearsInstallers(installers: map<Id, Installer>, server: Id)
    ensures forall k :: k in InstallersWithout(installers, server) ==> InstallersWithout(installers, server)[k].server != server
    ensures forall k :: k in installers && installers[k].server != server ==>
      k in InstallersWithout(installers, server) && InstallersWithout(installers, server)[k] == installers[k]
    ensures InstallersWithout(InstallersWithout(installers, server), server) == InstallersWithout(installers, server)
  {
  }

  /**
   * `Event.handle_event`: an alpamon 'started' event also deletes the
   * server's installers; any event other than alpamon 'started' or
   * 'committed' changes nothing.
   */
  method HandleEvent(db: Db, server: Id, reporter: string, record: string, now: Time)
    requires server in db.servers
    modifies db`servers, db`installers
    ensures db.servers == ServersAfterEvent(old(db.servers), server, EffectOf(reporter, record), now)
    ensures db.installers == if EffectOf(reporter, record) == MarkStarted then InstallersWithout(old(db.installers), server) else old(db.installers)
  {
    var effect := EffectOf(reporter, record);
    db.servers := ServersAfterEvent(db.servers, server, effect, now);
    if effect == MarkStarted {
      db.installers := InstallersWithout(db.installers, server);
    }
  }
}
