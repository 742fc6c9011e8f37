// The connection registry: the queries a client answers about its sessions,
// pushing a message to every open session, closing sessions, and the two
// periodic clean-ups of the session table.
module Registry {
  import opened Common
  import opened Sessions
  import opened Store

  // ----- queries -----

  /** `last_session`: a most recently updated open session, else a most recently updated session, else none. */
  method LastSession(db: Db, client: Id) returns (r: Option<Id>)
    ensures IsLastSession(db.sessions, client, r)
  {
    var open := OpenSessionsOf(db.sessions, client);
    var pool := if open != {} then open else SessionsOf(db.sessions, client);
    r := None;
    var remaining := pool;
    while remaining != {}
      invariant remaining <= pool
      invariant r.None? <==> remaining == pool
      invariant r.Some? ==> r.value in pool - remaining
      invariant r.Some? ==> forall j :: j in pool - remaining ==> db.sessions[j].updatedAt <= db.sessions[r.value].updatedAt
      decreases remaining
    {
      var k :| k in remaining;
      if r.None? || db.sessions[r.value].updatedAt < db.sessions[k].updatedAt {
        r := Some(k);
      }
      remaining := remaining - {k};
    }
  }

  /** When the client is connected, the last session is one of its open sessions; otherwise it is a closed one or none. */
  lemma {:induction false} LastSessionIsOpenIffConnected(sessions: map<Id, Session>, client: Id, r: Option<Id>)
    requires IsLastSession(sessions, client, r)
    ensures r.Some? ==> r.value in sessions && sessions[r.value].client == client
    ensures IsConnected(sessions, client) <==> r.Some? && IsOpen(sessions[r.value])
  {
    ConnectedIffOpenSession(sessions, client);
    var open := OpenSessionsOf(sessions, client);
    if open == {} && r.Some? {
      assert r.value in SessionsOf(sessions, client) && r.value !in open;
    }
  }

  /** `remote_ip`: the last session's address, or none when the client never connected. */
  method RemoteIp(db: Db, client: Id) returns (ip: Option<string>)
    ensures ip.None? <==> SessionsOf(db.sessions, client) == {}
    ensures ip.Some? ==> exists k :: IsLastSession(db.sessions, client, Some(k)) && ip.value == db.sessions[k].remoteIp
  {
    var last := LastSession(db, client);
    ip := if last.Some? then Some(db.sessions[last.value].remoteIp) else None;
    LastSessionIsOpenIffConnected(db.sessions, client, last);
  }

  /** `last_connectivity`: the last session's `updated_at`, or none when the client never connected. */
  method LastConnectivity(db: Db, client: Id) returns (t: Option<Time>)
    ensures t.None? <==> SessionsOf(db.sessions, client) == {}
    ensures t.Some? ==> exists k :: IsLastSession(db.sessions, client, Some(k)) && t.value == db.sessions[k].updatedAt
  {
    var last := LastSession(db, client);
    t := if last.Some? then Some(db.sessions[last.value].updatedAt) else None;
    LastSessionIsOpenIffConnected(db.sessions, client, last);
  }

  // ----- pushing -----

  /** `WebSocketClient.send`: one push of `message` down the channel of each open session of `client`. */
  method Send(db: Db, client: Id, message: Message)
    modifies db`outbox
    ensures |db.outbox| >= |old(db.outbox)| && db.outbox[..|old(db.outbox)|] == old(db.outbox)
    ensures PushedToEach(db.outbox[|old(db.outbox)|..], db.sessions, OpenSessionsOf(db.sessions, client), message)
  {
    var targets := OpenSessionsOf(db.sessions, client);
    var remaining := targets;
    var sent: seq<Push> := [];
    while remaining != {}
      invariant remaining <= targets
      invariant db.outbox == old(db.outbox) + sent
      invariant PushedToEach(sent, db.sessions, targets - remaining, message)
      decreases remaining
    {
      var k :| k in remaining;
      var p := Push(k, db.sessions[k].channel, message);
      PushedToOneMore(sent, db.sessions, targets - remaining, message, k);
      db.outbox := db.outbox + [p];
      sent := sent + [p];
      assert targets - (remaining - {k}) == (targets - remaining) + {k};
      remaining := remaining - {k};
    }
    assert targets - remaining == targets;
    assert db.outbox[|old(db.outbox)|..] == sent;
  }

  // ----- closing -----

  /** `WebSocketSession.delete`: a soft delete writing only `deleted_at`; the row stays. */
  method SoftDelete(db: Db, k: Id, now: Time)
    requires k in db.sessions
    modifies db`sessions
    ensures db.sessions == old(db.sessions)[k := SoftDeleted(old(db.sessions)[k], now)]
  {
    db.sessions := db.sessions[k := SoftDeleted(db.sessions[k], now)];
  }

  /** `close(quit)`: push the quit or reconnect notice down the session's channel, then soft-delete it. */
  method Close(db: Db, k: Id, quit: bool, now: Time)
    requires k in db.sessions
    modifies db`sessions, db`outbox
    ensures db.outbox == old(db.outbox) + [Push(k, old(db.sessions)[k].channel, CloseNotice(quit))]
    ensures db.sessions == old(db.sessions)[k := SoftDeleted(old(db.sessions)[k], now)]
  {
    db.outbox := db.outbox + [Push(k, db.sessions[k].channel, CloseNotice(quit))];
    SoftDelete(db, k, now);
  }

  // ----- periodic clean-ups -----

  /** The sessions `clear_stale_sessions` closes. */
  function StaleSessions(sessions: map<Id, Session>, now: Time): (r: set<Id>)
    ensures forall k :: k in r <==> k in sessions && IsStale(sessions[k], now)
  {
    set k | k in sessions && IsStale(sessions[k], now)
  }

  /** The session table after each session of `closed` is soft-deleted at `now`. */
  function ClosedAt(sessions: map<Id, Session>, closed: set<Id>, now: Time): (r: map<Id, Session>)
    ensures r.Keys == sessions.Keys
    ensures forall k :: k in r ==> r[k] == if k in closed then SoftDeleted(sessions[k], now) else sessions[k]
  {
    map k | k in sessions :: if k in closed then SoftDeleted(sessions[k], now) else sessions[k]
  }

  /** Closing one more session of the set. */
  lemma ClosedAtOneMore(sessions: map<Id, Session>, closed: set<Id>, now: Time, k: Id)
    requires k in sessions && k !in closed
    ensures ClosedAt(sessions, closed, now)[k := SoftDeleted(sessions[k], now)] == ClosedAt(sessions, closed + {k}, now)
  {
  }

  /** The session table after every stale session is closed at `now`. */
  function Reaped(sessions: map<Id, Session>, now: Time): (r: map<Id, Session>)
    ensures r.Keys == sessions.Keys
    ensures forall k :: k in r ==> r[k] == if IsStale(sessions[k], now) then SoftDeleted(sessions[k], now) else sessions[k]
  {
    ClosedAt(sessions, StaleSessions(sessions, now), now)
  }

  /**
   * Reaping closes exactly the stale sessions: none is left open afterwards,
   * and a client stays connected iff it had an open session touched within
   * the last 15 minutes.
   */
  lemma {:induction false} ReapedConnectivity(sessions: map<Id, Session>, now: Time, client: Id)
    ensures forall k :: k in Reaped(sessions, now) ==> !IsStale(Reaped(sessions, now)[k], now)
    ensures IsConnected(Reaped(sessions, now), client) <==>
      exists k :: k in sessions && sessions[k].client == client && IsOpen(sessions[k]) && !IsStale(sessions[k], now)
  {
    var r := Reaped(sessions, now);
    if IsConnected(r, client) {
      var k :| k in r && r[k].client == client && IsOpen(r[k]);
      assert k in sessions && sessions[k].client == client && IsOpen(sessions[k]) && !IsStale(sessions[k], now);
    }
    if exists k :: k in sessions && sessions[k].client == client && IsOpen(sessions[k]) && !IsStale(sessions[k], now) {
      var k :| k in sessions && sessions[k].client == client && IsOpen(sessions[k]) && !IsStale(sessions[k], now);
      assert k in r && r[k].client == client && IsOpen(r[k]);
    }
  }

  /** Closes each session of `targets` in turn with the reconnect notice, at time `now`. */
  method CloseEach(db: Db, targets: set<Id>, now: Time) returns (count: nat)
    requires targets <= db.sessions.Keys
    modifies db`sessions, db`outbox
    ensures db.sessions == ClosedAt(old(db.sessions), targets, now)
    ensures count == |targets|
    ensures |db.outbox| >= |old(db.outbox)| && db.outbox[..|old(db.outbox)|] == old(db.outbox)
    ensures PushedToEach(db.outbox[|old(db.outbox)|..], old(db.sessions), targets, CloseNotice(false))
  {
    ghost var s0 := db.sessions;
    var remaining := targets;
    ghost var done: set<Id> := {};
    ghost var pushed: seq<Push> := [];
    count := 0;
    while remaining != {}
      invariant done + remaining == targets && done !! remaining
      invariant db.sessions == ClosedAt(s0, done, now)
      invariant count == |pushed|
      invariant db.outbox == old(db.outbox) + pushed
      invariant PushedToEach(pushed, s0, done, CloseNotice(false))
      decreases remaining
    {
      var k :| k in remaining;
      PushedToOneMore(pushed, s0, done, CloseNotice(false), k);
      ClosedAtOneMore(s0, done, now, k);
      Close(db, k, false, now);
      pushed := pushed + [Push(k, s0[k].channel, CloseNotice(false))];
      done := done + {k};
      remaining := remaining - {k};
      count := count + 1;
    }
    assert done == targets;
    assert db.outbox[|old(db.outbox)|..] == pushed;
    PushedToEachCount(pushed, s0, targets, CloseNotice(false));
  }

  /**
   * `clear_stale_sessions`: closes (reconnect notice, then soft delete) every
   * open session untouched for more than 15 minutes and returns how many.
   */
  method ClearStale(db: Db, now: Time) returns (count: nat)
    modifies db`sessions, db`outbox
    ensures db.sessions == Reaped(old(db.sessions), now)
    ensures count == |StaleSessions(old(db.sessions), now)|
    ensures |db.outbox| >= |old(db.outbox)| && db.outbox[..|old(db.outbox)|] == old(db.outbox)
    ensures PushedToEach(db.outbox[|old(db.outbox)|..], old(db.sessions), StaleSessions(old(db.sessions), now), CloseNotice(false))
  {
    count := CloseEach(db, StaleSessions(db.sessions, now), now);
  }

  /** The session table after `delete_old_sessions`: rows closed more than a week ago are gone. */
  function Purged(sessions: map<Id, Session>, now: Time): (r: map<Id, Session>)
    ensures r.Keys <= sessions.Keys
    ensures forall k :: k in sessions ==> (k in r <==> !IsPurgeable(sessions[k], now))
    ensures forall k :: k in r ==> r[k] == sessions[k]
  {
    map k | k in sessions && !IsPurgeable(sessions[k], now) :: sessions[k]
  }

  /** Purging never removes an open session, so it never changes who is connected. */
  lemma {:induction false} PurgeKeepsConnectivity(sessions: map<Id, Session>, now: Time, client: Id)
    ensures OpenSessionsOf(Purged(sessions, now), client) == OpenSessionsOf(sessions, client)
    ensures IsConnected(Purged(sessions, now), client) <==> IsConnected(sessions, client)
  {
    var p := Purged(sessions, now);
    forall k | k in OpenSessionsOf(sessions, client) ensures k in OpenSessionsOf(p, client) {
      OpenSessionsAreNeverPurged(sessions[k], now);
    }
    ConnectedIffOpenSession(sessions, client);
    ConnectedIffOpenSession(p, client);
  }

  /** `delete_old_sessions`: hard-deletes the rows closed more than a week ago and returns how many. */
  method DeleteOld(db: Db, now: Time) returns (count: nat)
    modifies db`sessions
    ensures db.sessions == Purged(old(db.sessions), now)
    ensures count == |old(db.sessions).Keys - db.sessions.Keys|
  {
    var before := db.sessions.Keys;
    db.sessions := Purged(db.sessions, now);
    count := |before - db.sessions.Keys|;
  }
}
