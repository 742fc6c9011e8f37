// Agent connections (the WebSocket session table) and the messages pushed
// down a session's channel.
module Sessions {
  import opened Common

  /** A message pushed to an agent over its channel. */
  datatype Message =
    | CommandRequest(id: Id, shell: string, line: string, user: string, group: string, data: Option<Payload>)
    | Quit(reason: string)
    | Reconnect(reason: string)

  /** One channel-layer send: the session it was addressed to, its channel name and the message. */
  datatype Push = Push(session: Id, channel: string, message: Message)

  /**
   * A session row. Closing a session is a soft delete: `deletedAt` is set and
   * the row stays.
   */
  datatype Session = Session(client: Id, remoteIp: string, channel: string, updatedAt: Time, deletedAt: Option<Time>)

  const QUIT_REASON: string := "New connection from the same host has been established."
  const RECONNECT_REASON: string := "Session has retired. Please reconnect again to keep up to date."

  /** Sessions idle for longer than this are reaped. */
  const STALE_AFTER: int := 15 * MINUTE

  /** Closed sessions older than this are removed for good. */
  const PURGE_AFTER: int := WEEK

  predicate IsOpen(s: Session)
  {
    s.deletedAt.None?
  }

  /** The sessions of `client`, open or closed. */
  function SessionsOf(sessions: map<Id, Session>, client: Id): (r: set<Id>)
    ensures forall k :: k in r <==> k in sessions && sessions[k].client == client
  {
    set k | k in sessions && sessions[k].client == client
  }

  /** The open sessions of `client`. */
  function OpenSessionsOf(sessions: map<Id, Session>, client: Id): (r: set<Id>)
    ensures r <= SessionsOf(sessions, client)
    ensures forall k :: k in r <==> k in sessions && sessions[k].client == client && IsOpen(sessions[k])
  {
    set k | k in sessions && sessions[k].client == client && IsOpen(sessions[k])
  }

  /** A client is connected iff it holds at least one open session. */
  predicate IsConnected(sessions: map<Id, Session>, client: Id)
  {
    exists k :: k in sessions && sessions[k].client == client && IsOpen(sessions[k])
  }

  lemma ConnectedIffOpenSession(sessions: map<Id, Session>, client: Id)
    ensures IsConnected(sessions, client) <==> OpenSessionsOf(sessions, client) != {}
  {
    if IsConnected(sessions, client) {
      var k :| k in sessions && sessions[k].client == client && IsOpen(sessions[k]);
      assert k in OpenSessionsOf(sessions, client);
    }
  }

  /** `k` is a most recently updated member of `among`. */
  predicate MostRecent(sessions: map<Id, Session>, among: set<Id>, k: Id)
    requires among <= sessions.Keys
  {
    k in among && forall j :: j in among ==> sessions[j].updatedAt <= sessions[k].updatedAt
  }

  /**
   * The rule behind `last_session`: the most recently updated open session,
   * else the most recently updated session of any kind, else none.
   */
  predicate IsLastSession(sessions: map<Id, Session>, client: Id, r: Option<Id>)
  {
    var open := OpenSessionsOf(sessions, client);
    var all := SessionsOf(sessions, client);
    if open != {} then r.Some? && MostRecent(sessions, open, r.value)
    else if all != {} then r.Some? && MostRecent(sessions, all, r.value)
    else r.None?
  }

  /** The notice sent before a session is closed. */
  function CloseNotice(quit: bool): (m: Message)
    ensures m.Quit? <==> quit
    ensures m.Quit? ==> m.reason == QUIT_REASON
    ensures m.Reconnect? ==> m.reason == RECONNECT_REASON
  {
    if quit then Quit(QUIT_REASON) else Reconnect(RECONNECT_REASON)
  }

  /** The session after `delete()`: only `deletedAt` changes, and it is set even when already set. */
  function SoftDeleted(s: Session, now: Time): (r: Session)
    ensures r.deletedAt == Some(now) && !IsOpen(r)
    ensures r.client == s.client && r.remoteIp == s.remoteIp && r.channel == s.channel && r.updatedAt == s.updatedAt
  {
    s.(deletedAt := Some(now))
  }

  /** The rows `clear_stale_sessions` closes: open and untouched for more than 15 minutes. */
  predicate IsStale(s: Session, now: Time)
  {
    IsOpen(s) && s.updatedAt < now - STALE_AFTER
  }

  /** The rows `delete_old_sessions` removes: closed more than a week ago. */
  predicate IsPurgeable(s: Session, now: Time)
  {
    s.deletedAt.Some? && s.deletedAt.value < now - PURGE_AFTER
  }

  lemma OpenSessionsAreNeverPurged(s: Session, now: Time)
    requires IsOpen(s)
    ensures !IsPurgeable(s, now)
  {
  }

  /**
   * `pushes` sends `message` once to each session in `targets`, along that
   * session's channel, and to no other session.
   */
  predicate PushedToEach(pushes: seq<Push>, sessions: map<Id, Session>, targets: set<Id>, message: Message)
    requires targets <= sessions.Keys
  {
    (forall i :: 0 <= i < |pushes| ==>
       pushes[i].session in targets && pushes[i].message == message && pushes[i].channel == sessions[pushes[i].session].channel) &&
    (forall t :: t in targets ==> exists i :: 0 <= i < |pushes| && pushes[i].session == t) &&
    (forall i, j :: 0 <= i < j < |pushes| ==> pushes[i].session != pushes[j].session)
  }

  /** The blocks of pushes one after the other. */
  function Concat(blocks: seq<seq<Push>>): seq<Push>
  {
    if blocks == [] then [] else Concat(blocks[..|blocks| - 1]) + blocks[|blocks| - 1]
  }

  /** An outbox that was `o0` then the blocks, and then grew to `o2`, is `o0` then the blocks and what it grew by. */
  lemma ConcatOneMore(o0: seq<Push>, o1: seq<Push>, o2: seq<Push>, blocks: seq<seq<Push>>)
    requires o1 == o0 + Concat(blocks) && o1 <= o2
    ensures o2 == o0 + Concat(blocks + [o2[|o1|..]])
  {
    assert (blocks + [o2[|o1|..]])[..|blocks|] == blocks;
    assert o2 == o1 + o2[|o1|..];
  }

  /** Pushing the same message to one more session, down its channel, extends `PushedToEach` to that session. */
  lemma {:induction false} PushedToOneMore(pushes: seq<Push>, sessions: map<Id, Session>, targets: set<Id>, message: Message, k: Id)
    requires targets <= sessions.Keys && k in sessions && k !in targets
    requires PushedToEach(pushes, sessions, targets, message)
    ensures PushedToEach(pushes + [Push(k, sessions[k].channel, message)], sessions, targets + {k}, message)
  {
    var ps := pushes + [Push(k, sessions[k].channel, message)];
    forall t | t in targets + {k} ensures exists i :: 0 <= i < |ps| && ps[i].session == t {
      if t == k {
        assert ps[|pushes|].session == t;
      } else {
        var i :| 0 <= i < |pushes| && pushes[i].session == t;
        assert ps[i].session == t;
      }
    }
  }

  /** The sessions a sequence of pushes goes to. */
  function SessionsPushed(pushes: seq<Push>): (r: set<Id>)
    ensures forall t :: t in r <==> exists i :: 0 <= i < |pushes| && pushes[i].session == t
  {
    set i | 0 <= i < |pushes| :: pushes[i].session
  }

  /** `PushedToEach` makes exactly one push per target. */
  lemma {:induction false} PushedToEachCount(pushes: seq<Push>, sessions: map<Id, Session>, targets: set<Id>, message: Message)
    requires targets <= sessions.Keys
    requires PushedToEach(pushes, sessions, targets, message)
    ensures |pushes| == |targets|
  {
    assert SessionsPushed(pushes) == targets;
    DistinctCount(pushes);
  }

  lemma {:induction false} DistinctCount(pushes: seq<Push>)
    requires forall i, j :: 0 <= i < j < |pushes| ==> pushes[i].session != pushes[j].session
    ensures |SessionsPushed(pushes)| == |pushes|
  {
    if pushes != [] {
      var last := |pushes| - 1;
      DistinctCount(pushes[..last]);
      assert SessionsPushed(pushes) == SessionsPushed(pushes[..last]) + {pushes[last].session};
      assert pushes[last].session !in SessionsPushed(pushes[..last]);
    }
  }
}
