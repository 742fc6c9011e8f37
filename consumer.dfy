// The WebSocket consumers. An agent connection is admitted only when the
// authentication middleware resolved an API client; it then owns one session
// row, which every received message refreshes and disconnection closes.
// User-facing consumers only check that the scope's user is authenticated.
module Consumer {
  import opened Common
  import opened Sessions
  import opened ServerRows
  import opened Store
  import Auth

  /** The close code for a connection without credentials. */
  const FORBIDDEN: int := 403
  /** The close code for a message on a connection without a live session. */
  const BAD_REQUEST: int := 400
  /** The address used when the scope carries no client address. */
  const LOCALHOST: string := "127.0.0.1"
  /** The name under which proxies report the original address. */
  const FORWARDED_FOR: string := "x-forwarded-for"
  /** The error raised when the `wsclient` placeholder is read before it is filled. */
  const CLIENT_NOT_READY: string := "Accessing scope client before it is ready."
  /** The error raised when the `user` placeholder is read before it is filled. */
  const USER_NOT_READY: string := "Accessing scope user before it is ready."

  /** `v.split(',')[0]`: the longest prefix of `v` without a comma. */
  function FirstField(v: string): (r: string)
    ensures r <= v
    ensures forall j :: 0 <= j < |r| ==> r[j] != ','
    ensures |r| < |v| ==> v[|r|] == ','
  {
    if v == [] || v[0] == ',' then [] else [v[0]] + FirstField(v[1..])
  }

  /** The value of the first `x-forwarded-for` header from position `i` on. */
  function ForwardedFrom(headers: seq<(string, string)>, i: nat): (r: Option<string>)
    requires i <= |headers|
    ensures r.None? <==> forall j :: i <= j < |headers| ==> headers[j].0 != FORWARDED_FOR
    ensures r.Some? ==> exists j :: i <= j < |headers| && headers[j] == (FORWARDED_FOR, r.value) &&
                                    forall l :: i <= l < j ==> headers[l].0 != FORWARDED_FOR
    decreases |headers| - i
  {
    if i == |headers| then None
    else if headers[i].0 == FORWARDED_FOR then Some(headers[i].1)
    else ForwardedFrom(headers, i + 1)
  }

  /**
   * `get_remote_ip()`: the first comma-separated field of the first
   * `x-forwarded-for` header, else the scope's client host, else localhost.
   */
  function RemoteIpOf(headers: seq<(string, string)>, client: Option<string>): (ip: string)
    ensures ForwardedFrom(headers, 0).Some? ==> ip == FirstField(ForwardedFrom(headers, 0).value)
    ensures ForwardedFrom(headers, 0).None? && client.Some? ==> ip == client.value
    ensures ForwardedFrom(headers, 0).None? && client.None? ==> ip == LOCALHOST
  {
    match ForwardedFrom(headers, 0)
    case Some(v) => FirstField(v)
    case None => if client.Some? then client.value else LOCALHOST
  }

  /** A forwarded address never carries a comma, and headers after the first forwarded one are ignored. */
  lemma {:induction false} ForwardedAddressWins(headers: seq<(string, string)>, value: string, later: seq<(string, string)>, client: Option<string>)
    requires forall j :: 0 <= j < |headers| ==> headers[j].0 != FORWARDED_FOR
    ensures RemoteIpOf(headers + [(FORWARDED_FOR, value)] + later, client) == FirstField(value)
    ensures forall j :: 0 <= j < |FirstField(value)| ==> FirstField(value)[j] != ','
  {
    var hs := headers + [(FORWARDED_FOR, value)] + later;
    assert hs[|headers|] == (FORWARDED_FOR, value);
    FirstForwarded(hs, 0, |headers|);
  }

  /** The search for the forwarded header passes over the headers before the first one. */
  lemma {:induction false} FirstForwarded(headers: seq<(string, string)>, i: nat, n: nat)
    requires i <= n < |headers| && headers[n].0 == FORWARDED_FOR
    requires forall j :: i <= j < n ==> headers[j].0 != FORWARDED_FOR
    ensures ForwardedFrom(headers, i) == Some(headers[n].1)
    decreases n - i
  {
    if i < n {
      FirstForwarded(headers, i + 1, n);
    }
  }

  /** `get_remote_ip()` as the loop over the headers that stops at the first forwarded one. */
  method RemoteIp(headers: seq<(string, string)>, client: Option<string>) returns (ip: string)
    ensures ip == RemoteIpOf(headers, client)
  {
    ip := if client.Some? then client.value else LOCALHOST;
    var i := 0;
    while i < |headers|
      invariant i <= |headers|
      invariant ForwardedFrom(headers, i) == ForwardedFrom(headers, 0)
    {
      if headers[i].0 == FORWARDED_FOR {
        ip := FirstField(headers[i].1);
        return;
      }
      i := i + 1;
    }
  }

  /** The sessions after `update_session`: an open session `k` is stamped `now`; anything else is left alone. */
  function Touched(sessions: map<Id, Session>, k: Id, now: Time): (r: map<Id, Session>)
    ensures r.Keys == sessions.Keys
    ensures forall j :: j in r && j != k ==> r[j] == sessions[j]
    ensures k in sessions && IsOpen(sessions[k]) ==> r[k] == sessions[k].(updatedAt := now)
    ensures !(k in sessions && IsOpen(sessions[k])) ==> r == sessions
  {
    if k in sessions && IsOpen(sessions[k]) then sessions[k := sessions[k].(updatedAt := now)] else sessions
  }

  /** The sessions after `delete_session`: an open session `k` is closed at `now`; anything else is left alone. */
  function Closed(sessions: map<Id, Session>, k: Id, now: Time): (r: map<Id, Session>)
    ensures r.Keys == sessions.Keys
    ensures forall j :: j in r && j != k ==> r[j] == sessions[j]
    ensures k in sessions && IsOpen(sessions[k]) ==> r[k] == sessions[k].(deletedAt := Some(now))
    ensures !(k in sessions && IsOpen(sessions[k])) ==> r == sessions
  {
    if k in sessions && IsOpen(sessions[k]) then sessions[k := sessions[k].(deletedAt := Some(now))] else sessions
  }

  /** Closing twice keeps the first closing time, and a closed session is never refreshed again. */
  lemma ClosedStaysClosed(sessions: map<Id, Session>, k: Id, t1: Time, t2: Time)
    ensures Closed(Closed(sessions, k, t1), k, t2) == Closed(sessions, k, t1)
    ensures Touched(Closed(sessions, k, t1), k, t2) == Closed(sessions, k, t1)
  {
  }

  /** Refreshing keeps a session open, and closing the client's only open session disconnects it. */
  lemma ClosingTheLastSessionDisconnects(sessions: map<Id, Session>, k: Id, now: Time)
    requires k in sessions && OpenSessionsOf(sessions, sessions[k].client) == {k}
    ensures IsConnected(Touched(sessions, k, now), sessions[k].client)
    ensures !IsConnected(Closed(sessions, k, now), sessions[k].client)
  {
    var c := sessions[k].client;
    assert k in OpenSessionsOf(sessions, c);
    assert k in Touched(sessions, k, now) && Touched(sessions, k, now)[k].client == c;
    var after := Closed(sessions, k, now);
    forall j | j in after && after[j].client == c
      ensures !IsOpen(after[j])
    {
      if j != k {
        assert j !in OpenSessionsOf(sessions, c);
      }
    }
  }

  /** `APIClientAsyncConsumer`: the consumer of one agent connection. */
  class AgentConsumer {
    const db: Db
    /** The channel-layer name of this connection. */
    const channel: string
    /** The session row this connection owns, once it has one. */
    var session: Option<Id>
    /** Whether the handshake was accepted. */
    var accepted: bool
    /** The close code sent, if the connection was closed. */
    var closeCode: Option<int>
    /** The messages passed on to the JSON message handler, in order. */
    var handled: seq<Json>
    /** The messages sent down the socket, in order. */
    var sent: seq<Json>

    /** A connection before its handshake. */
    constructor (db: Db, channel: string)
      ensures this.db == db && this.channel == channel
      ensures session.None? && !accepted && closeCode.None? && handled == [] && sent == []
    {
      this.db := db;
      this.channel := channel;
      session, accepted, closeCode, handled, sent := None, false, None, [], [];
    }

    /**
     * `connect()`: reading a `wsclient` that is still a placeholder fails; no
     * client closes the connection with 403; a client is accepted and gets a
     * new open session, and a client that may not hold several connections
     * has its other sessions dropped by a background task.
     */
    method Connect(wsclient: Auth.Slot, headers: seq<(string, string)>, clientHost: Option<string>, now: Time)
      returns (r: Result<Option<Id>, Failure>)
      requires db.ValidSessions()
      requires wsclient.Resolved? && wsclient.value.Some? ==> wsclient.value.value in db.wsClients
      modifies this`session, this`accepted, this`closeCode, db`sessions, db`nextSession, db`tasks
      ensures db.ValidSessions()
      ensures wsclient.Placeholder? ==>
                r == Err(ValueError(CLIENT_NOT_READY)) && unchanged(this) && unchanged(db)
      ensures wsclient == Auth.Resolved(None) ==>
                r == Ok(None) && closeCode == Some(FORBIDDEN) && accepted == old(accepted) && session == old(session) && unchanged(db)
      ensures wsclient.Resolved? && wsclient.value.Some? ==>
                var c, k := wsclient.value.value, old(db.nextSession);
                r == Ok(Some(k)) && session == Some(k) && accepted && closeCode == old(closeCode) &&
                k !in old(db.sessions) &&
                db.sessions == old(db.sessions)[k := Session(c, RemoteIpOf(headers, clientHost), channel, now, None)] &&
                db.tasks == old(db.tasks) + (if db.wsClients[c].concurrent then [] else [DropConcurrentSessions(c, k)])
    {
      match wsclient
      case Placeholder =>
        r := Err(ValueError(CLIENT_NOT_READY));
      case Resolved(None) =>
        closeCode := Some(FORBIDDEN);
        r := Ok(None);
      case Resolved(Some(c)) =>
        accepted := true;
        var ip := RemoteIp(headers, clientHost);
        var k := db.SaveSession(Session(c, ip, channel, now, None));
        session := Some(k);
        if !db.wsClients[c].concurrent {
          db.tasks := db.tasks + [DropConcurrentSessions(c, k)];
        }
        r := Ok(Some(k));
    }

    /** `update_session()`: refreshes the session if it is still open, and says whether it was. */
    method UpdateSession(now: Time) returns (live: bool)
      requires session.Some?
      modifies db`sessions
      ensures live <==> session.value in old(db.sessions) && IsOpen(old(db.sessions)[session.value])
      ensures db.sessions == Touched(old(db.sessions), session.value, now)
    {
      var k := session.value;
      live := k in db.sessions && IsOpen(db.sessions[k]);
      db.sessions := Touched(db.sessions, k, now);
    }

    /** `delete_session()`: closes the session if it is still open, and says whether it was. */
    method DeleteSession(now: Time) returns (was: bool)
      requires session.Some?
      modifies db`sessions
      ensures was <==> session.value in old(db.sessions) && IsOpen(old(db.sessions)[session.value])
      ensures db.sessions == Closed(old(db.sessions), session.value, now)
    {
      var k := session.value;
      was := k in db.sessions && IsOpen(db.sessions[k]);
      db.sessions := Closed(db.sessions, k, now);
    }

    /**
     * `receive_json(content)`: a message is handled only on a connection whose
     * session is still open; otherwise the connection is closed with 400.
     */
    method ReceiveJson(content: Json, now: Time)
      modifies this`closeCode, this`handled, db`sessions
      ensures session.None? ==>
                closeCode == Some(BAD_REQUEST) && handled == old(handled) && db.sessions == old(db.sessions)
      ensures session.Some? ==> db.sessions == Touched(old(db.sessions), session.value, now)
      ensures session.Some? && session.value in old(db.sessions) && IsOpen(old(db.sessions)[session.value]) ==>
                handled == old(handled) + [content] && closeCode == old(closeCode)
      ensures session.Some? && !(session.value in old(db.sessions) && IsOpen(old(db.sessions)[session.value])) ==>
                handled == old(handled) && closeCode == Some(BAD_REQUEST)
    {
      if session.None? {
        closeCode := Some(BAD_REQUEST);
        return;
      }
      var live := UpdateSession(now);
      if !live {
        closeCode := Some(BAD_REQUEST);
        return;
      }
      handled := handled + [content];
    }

    /** `disconnect(code)`: closes the session this connection owns, if it has one. */
    method Disconnect(now: Time)
      modifies db`sessions
      ensures session.Some? ==> db.sessions == Closed(old(db.sessions), session.value, now)
      ensures session.None? ==> db.sessions == old(db.sessions)
    {
      if session.Some? {
        var _ := DeleteSession(now);
      }
    }

    /** `send_message(event)`: forwards the event's content down the socket. */
    method SendMessage(content: Json)
      modifies this`sent
      ensures sent == old(sent) + [content]
    {
      sent := sent + [content];
    }
  }

  /** `AuthedAsyncConsumer` and `AuthedAsyncJsonConsumer`: connections for signed-in users. */
  class UserConsumer {
    /** Whether the handshake was accepted. */
    var accepted: bool
    /** The close code sent, if the connection was closed. */
    var closeCode: Option<int>

    /** A connection before its handshake. */
    constructor ()
      ensures !accepted && closeCode.None?
    {
      accepted, closeCode := false, None;
    }

    /** `connect()`: a signed-in user is accepted; anyone else is turned away with 403. */
    method Connect(user: Auth.Slot) returns (r: Result<bool, Failure>)
      modifies this
      ensures user.Placeholder? ==> r == Err(ValueError(USER_NOT_READY)) && unchanged(this)
      ensures user == Auth.Resolved(None) ==> r == Ok(false) && closeCode == Some(FORBIDDEN) && accepted == old(accepted)
      ensures user.Resolved? && user.value.Some? ==> r == Ok(true) && accepted && closeCode == old(closeCode)
    {
      match user
      case Placeholder =>
        r := Err(ValueError(USER_NOT_READY));
      case Resolved(None) =>
        closeCode := Some(FORBIDDEN);
        r := Ok(false);
      case Resolved(Some(_)) =>
        accepted := true;
        r := Ok(true);
    }
  }
}
