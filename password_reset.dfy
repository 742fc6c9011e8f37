// Password-reset tokens. A request issues at most one pending token per active
// user with the given email, reusing a pending one; a token may be mailed at
// most five times and confirmed once, after a mail went out. Confirmation
// withdraws the user's other reset tokens and signs out their browser logins.
module PasswordReset {
  import opened Common
  import opened IamRows
  import opened TokenRows
  import opened Store

  const ALLOWANCE_EXCEEDED: string := "Request exceeded your allowance."

  /** ASCII upper-casing, as the database's `UPPER` does for ASCII text. */
  function Upper(c: char): char
  {
    if 'a' <= c <= 'z' then (c as int - 32) as char else c
  }

  /** `email__iexact`: equal up to ASCII case. */
  predicate SameEmail(a: string, b: string)
  {
    |a| == |b| && forall i :: 0 <= i < |a| ==> Upper(a[i]) == Upper(b[i])
  }


  /** A token still pending at `now`: unconfirmed and requested no longer than the timeout ago. */
  predicate Pending(t: ResetToken, now: Time)
  {
    t.confirmedAt.None? && t.requestedAt >= now - PASSWORD_RESET_TIMEOUT
  }

  /** `user` holds a pending token. */
  predicate HasPending(tokens: map<string, ResetToken>, user: Id, now: Time)
  {
    exists k :: k in tokens && tokens[k].user == user && Pending(tokens[k], now)
  }

  /** The users a reset for `email` goes to: visible, active, with that email up to case. */
  function Recipients(users: map<Id, User>, email: string): (r: set<Id>)
    ensures forall u :: u in r <==> VisibleUser(users, u) && users[u].isActive && SameEmail(users[u].email, email)
  {
    set u | u in users && VisibleUser(users, u) && users[u].isActive && SameEmail(users[u].email, email)
  }

  /** A reset request reaches the same users however the case of its email is written. */
  lemma RecipientsIgnoreCase(users: map<Id, User>, e1: string, e2: string)
    requires SameEmail(e1, e2)
    ensures Recipients(users, e1) == Recipients(users, e2)
  {

  }

  /** The row a new request saves: requested now, never mailed, unconfirmed. */
  function FreshToken(user: Id, now: Time): (t: ResetToken)
    ensures t.user == user && Pending(t, now) && t.sentCount == 0 && t.sentAt.None?
  {
    ResetToken(user, now, 0, None, None)
  }

  /** Distinct users get distinct generated keys. */
  ghost predicate Injective(keyFor: Id -> string)
  {
    forall u, v :: u != v ==> keyFor(u) != keyFor(v)
  }

  /** The rows `create_tokens` adds for the users in `done`: one fresh token for each user without a pending one. */
  function NewRows(tokens: map<string, ResetToken>, done: set<Id>, now: Time, keyFor: Id -> string): (r: map<string, ResetToken>)
    requires Injective(keyFor)
    ensures forall u :: u in done && !HasPending(tokens, u, now) ==> keyFor(u) in r && r[keyFor(u)] == FreshToken(u, now)
    ensures forall k :: k in r ==> r[k].user in done && !HasPending(tokens, r[k].user, now) && k == keyFor(r[k].user)
  {
    map u | u in done && !HasPending(tokens, u, now) :: keyFor(u) := FreshToken(u, now)
  }

  /**
   * What `create_tokens` hands back: one key per recipient and no recipient
   * twice; each key names a pending token of its user, an old one when the
   * user had one and the user's generated key otherwise.
   */
  predicate Serves(issued: seq<string>, before: map<string, ResetToken>, after: map<string, ResetToken>,
                   recipients: set<Id>, now: Time, keyFor: Id -> string)
  {
    IssuedPending(issued, before, after, recipients, now, keyFor) &&
    (forall i, j :: 0 <= i < j < |issued| ==> after[issued[i]].user != after[issued[j]].user) &&
    (forall u :: u in recipients ==> exists i :: 0 <= i < |issued| && after[issued[i]].user == u)
  }

  /** Each issued key names a pending token of a recipient: an old one when the user had one, else the user's generated key. */
  predicate IssuedPending(issued: seq<string>, before: map<string, ResetToken>, after: map<string, ResetToken>,
                          recipients: set<Id>, now: Time, keyFor: Id -> string)
  {
    forall i :: 0 <= i < |issued| ==>
      issued[i] in after && after[issued[i]].user in recipients && Pending(after[issued[i]], now) &&
      (if HasPending(before, after[issued[i]].user, now) then issued[i] in before
       else issued[i] == keyFor(after[issued[i]].user))
  }

  /** Serving one more user, with a key whose token names them, keeps `Serves` when nothing issued earlier changed. */
  lemma ServesOneMore(issued: seq<string>, before: map<string, ResetToken>, mid: map<string, ResetToken>, after: map<string, ResetToken>,
                      done: set<Id>, u: Id, key: string, now: Time, keyFor: Id -> string)
    requires Serves(issued, before, mid, done, now, keyFor) && u !in done
    requires forall i :: 0 <= i < |issued| ==> issued[i] in after && after[issued[i]] == mid[issued[i]]
    requires key in after && after[key].user == u && Pending(after[key], now)
    requires if HasPending(before, u, now) then key in before else key == keyFor(u)
    ensures Serves(issued + [key], before, after, done + {u}, now, keyFor)
  {
    var ext := issued + [key];
    assert forall i :: 0 <= i < |issued| ==> ext[i] == issued[i];
    assert ext[|issued|] == key;
    forall v | v in done + {u}
      ensures exists i :: 0 <= i < |ext| && after[ext[i]].user == v
    {
      if v == u {
        assert after[ext[|issued|]].user == v;
      } else {
        var i :| 0 <= i < |issued| && mid[issued[i]].user == v;
        assert after[ext[i]].user == v;
      }
    }
  }

  /** After a request every recipient holds a pending token. */
  lemma EveryRecipientIsServed(tokens: map<string, ResetToken>, recipients: set<Id>, now: Time, keyFor: Id -> string)
    requires Injective(keyFor) && forall u :: keyFor(u) !in tokens
    ensures forall u :: u in recipients ==> HasPending(tokens + NewRows(tokens, recipients, now, keyFor), u, now)
  {
    var after := tokens + NewRows(tokens, recipients, now, keyFor);
    forall u | u in recipients
      ensures HasPending(after, u, now)
    {
      if HasPending(tokens, u, now) {
        var k :| k in tokens && tokens[k].user == u && Pending(tokens[k], now);
        assert k in after && after[k] == tokens[k];
      } else {
        assert keyFor(u) in after && after[keyFor(u)].user == u;
      }
    }
  }

  /** Asking again at the same moment saves nothing new. */
  lemma RepeatedRequestAddsNothing(tokens: map<string, ResetToken>, recipients: set<Id>, now: Time, keyFor: Id -> string, keyFor2: Id -> string)
    requires Injective(keyFor) && Injective(keyFor2) && forall u :: keyFor(u) !in tokens
    ensures NewRows(tokens + NewRows(tokens, recipients, now, keyFor), recipients, now, keyFor2) == map[]
  {
    EveryRecipientIsServed(tokens, recipients, now, keyFor);
  }

  /** A user with a pending token gets no new row. */
  lemma PendingTokenIsReused(tokens: map<string, ResetToken>, recipients: set<Id>, user: Id, now: Time, keyFor: Id -> string)
    requires Injective(keyFor) && HasPending(tokens, user, now)
    ensures forall k :: k in NewRows(tokens, recipients, now, keyFor) ==> NewRows(tokens, recipients, now, keyFor)[k].user != user
  {
  }

  /**
   * `create_tokens(email)`: for each recipient, reuse a pending token (any
   * one, when there are several) or save a new one under a generated key.
   * `keyFor` stands for the random key generation.
   */
  method CreateTokens(db: Db, email: string, now: Time, keyFor: Id -> string) returns (issued: seq<string>)
    requires Injective(keyFor) && forall u :: keyFor(u) !in db.resetTokens
    modifies db`resetTokens
    ensures db.resetTokens == old(db.resetTokens) + NewRows(old(db.resetTokens), Recipients(db.users, email), now, keyFor)
    ensures Serves(issued, old(db.resetTokens), db.resetTokens, Recipients(db.users, email), now, keyFor)
  {
    ghost var t0 := db.resetTokens;
    var recipients := Recipients(db.users, email);
    var remaining := recipients;
    ghost var done: set<Id> := {};
    issued := [];
    while remaining != {}
      invariant done !! remaining && done + remaining == recipients
      invariant db.resetTokens == t0 + NewRows(t0, done, now, keyFor)
      invariant Serves(issued, t0, db.resetTokens, done, now, keyFor)
      decreases remaining
    {
      var u :| u in remaining;
      issued := CreateOne(db, t0, done, u, now, keyFor, issued);
      remaining := remaining - {u};
      done := done + {u};
    }
  }

  /** One turn of `create_tokens`: serve `u`, who has not been served yet. */
  method CreateOne(db: Db, ghost t0: map<string, ResetToken>, ghost done: set<Id>, u: Id, now: Time, keyFor: Id -> string,
                   issued: seq<string>) returns (issued': seq<string>)
    requires Injective(keyFor) && (forall v :: keyFor(v) !in t0) && u !in done
    requires db.resetTokens == t0 + NewRows(t0, done, now, keyFor)
    requires Serves(issued, t0, db.resetTokens, done, now, keyFor)
    modifies db`resetTokens
    ensures db.resetTokens == t0 + NewRows(t0, done + {u}, now, keyFor)
    ensures Serves(issued', t0, db.resetTokens, done + {u}, now, keyFor)
  {
    if k :| k in db.resetTokens && db.resetTokens[k].user == u && Pending(db.resetTokens[k], now) {
      ReusedServes(t0, done, u, k, now, keyFor, issued);
      issued' := issued + [k];
    } else {
      FreshServes(t0, done, u, now, keyFor, issued);
      db.resetTokens := db.resetTokens[keyFor(u) := FreshToken(u, now)];
      issued' := issued + [keyFor(u)];
    }
  }

  /** Serving `u` with a pending token found in the table. */
  lemma ReusedServes(t0: map<string, ResetToken>, done: set<Id>, u: Id, k: string, now: Time, keyFor: Id -> string, issued: seq<string>)
    requires Injective(keyFor) && (forall v :: keyFor(v) !in t0) && u !in done
    requires var mid := t0 + NewRows(t0, done, now, keyFor);
      Serves(issued, t0, mid, done, now, keyFor) && k in mid && mid[k].user == u && Pending(mid[k], now)
    ensures var mid := t0 + NewRows(t0, done, now, keyFor);
      mid == t0 + NewRows(t0, done + {u}, now, keyFor) && Serves(issued + [k], t0, mid, done + {u}, now, keyFor)
  {
    var mid := t0 + NewRows(t0, done, now, keyFor);
    assert k in t0 && HasPending(t0, u, now);
    NewRowsKeep(t0, done, u, now, keyFor);
    ServesOneMore(issued, t0, mid, mid, done, u, k, now, keyFor);
  }

  /** Serving `u`, who holds no pending token, with a new row under the generated key. */
  lemma FreshServes(t0: map<string, ResetToken>, done: set<Id>, u: Id, now: Time, keyFor: Id -> string, issued: seq<string>)
    requires Injective(keyFor) && (forall v :: keyFor(v) !in t0) && u !in done
    requires var mid := t0 + NewRows(t0, done, now, keyFor);
      Serves(issued, t0, mid, done, now, keyFor) &&
      !exists k :: k in mid && mid[k].user == u && Pending(mid[k], now)
    ensures var mid := t0 + NewRows(t0, done, now, keyFor);
      var after := mid[keyFor(u) := FreshToken(u, now)];
      after == t0 + NewRows(t0, done + {u}, now, keyFor) && Serves(issued + [keyFor(u)], t0, after, done + {u}, now, keyFor)
  {
    var rows := NewRows(t0, done, now, keyFor);
    var mid := t0 + rows;
    var key := keyFor(u);
    forall j | j in t0 && t0[j].user == u
      ensures !Pending(t0[j], now)
    {
      assert j !in rows && mid[j] == t0[j];
    }
    assert key !in mid;
    var after := mid[key := FreshToken(u, now)];
    NewRowsGrow(t0, done, u, now, keyFor);
    UpdateUnion(t0, rows, key, FreshToken(u, now));
    Untouched(issued, mid, key, FreshToken(u, now), t0, done, now, keyFor);
    ServesOneMore(issued, t0, mid, after, done, u, key, now, keyFor);
  }

  /** Adding a key that was not in use leaves every issued key's token as it was. */
  lemma Untouched(issued: seq<string>, mid: map<string, ResetToken>, key: string, v: ResetToken,
                  t0: map<string, ResetToken>, done: set<Id>, now: Time, keyFor: Id -> string)
    requires key !in mid && IssuedPending(issued, t0, mid, done, now, keyFor)
    ensures forall i :: 0 <= i < |issued| ==> issued[i] in mid[key := v] && mid[key := v][issued[i]] == mid[issued[i]]
  {
  }

  /** Serving one more user adds no row when that user holds a pending token. */
  lemma NewRowsKeep(tokens: map<string, ResetToken>, done: set<Id>, u: Id, now: Time, keyFor: Id -> string)
    requires Injective(keyFor) && HasPending(tokens, u, now)
    ensures NewRows(tokens, done + {u}, now, keyFor) == NewRows(tokens, done, now, keyFor)
  {
  }

  /** Serving one more user adds that user's fresh row when they hold no pending token. */
  lemma NewRowsGrow(tokens: map<string, ResetToken>, done: set<Id>, u: Id, now: Time, keyFor: Id -> string)
    requires Injective(keyFor) && !HasPending(tokens, u, now)
    ensures NewRows(tokens, done + {u}, now, keyFor) == NewRows(tokens, done, now, keyFor)[keyFor(u) := FreshToken(u, now)]
  {
    var grown, updated := NewRows(tokens, done + {u}, now, keyFor), NewRows(tokens, done, now, keyFor)[keyFor(u) := FreshToken(u, now)];
    NewKeysGrow(tokens, done, u, now, keyFor);
    forall k | k in grown
      ensures grown[k] == updated[k]
    {
      var w := grown[k].user;
      if w != u {
        assert keyFor(w) in NewRows(tokens, done, now, keyFor);
      }
    }
    SameEntries(grown, updated);
  }

  /** Two maps with the same keys and the same value at each key are the same map. */
  lemma SameEntries(a: map<string, ResetToken>, b: map<string, ResetToken>)
    requires a.Keys == b.Keys && forall k | k in a :: a[k] == b[k]
    ensures a == b
  {
  }

  /** The keys of `NewRows` grow by the key of the user served, and by nothing else. */
  lemma NewKeysGrow(tokens: map<string, ResetToken>, done: set<Id>, u: Id, now: Time, keyFor: Id -> string)
    requires Injective(keyFor) && !HasPending(tokens, u, now)
    ensures NewRows(tokens, done + {u}, now, keyFor).Keys == NewRows(tokens, done, now, keyFor).Keys + {keyFor(u)}
  {
    NewKeysFrom(tokens, done, u, now, keyFor);
    OldKeysStay(tokens, done, u, now, keyFor);
  }

  /** Every key of `NewRows` after serving `u` was there before or is the key of `u`. */
  lemma NewKeysFrom(tokens: map<string, ResetToken>, done: set<Id>, u: Id, now: Time, keyFor: Id -> string)
    requires Injective(keyFor)
    ensures forall k | k in NewRows(tokens, done + {u}, now, keyFor) :: k in NewRows(tokens, done, now, keyFor) || k == keyFor(u)
  {
    var before, grown := NewRows(tokens, done, now, keyFor), NewRows(tokens, done + {u}, now, keyFor);
    forall k | k in grown
      ensures k in before || k == keyFor(u)
    {
      var w := grown[k].user;
      if w != u {
        assert keyFor(w) in before;
      }
    }
  }

  /** Serving one more user keeps every key of `NewRows`. */
  lemma OldKeysStay(tokens: map<string, ResetToken>, done: set<Id>, u: Id, now: Time, keyFor: Id -> string)
    requires Injective(keyFor)
    ensures NewRows(tokens, done, now, keyFor).Keys <= NewRows(tokens, done + {u}, now, keyFor).Keys
  {
    var before, grown := NewRows(tokens, done, now, keyFor), NewRows(tokens, done + {u}, now, keyFor);
    forall k | k in before
      ensures k in grown
    {
      var w := before[k].user;
      assert keyFor(w) in grown;
    }
  }


  /** Updating a union in its right-hand part. */
  lemma UpdateUnion(a: map<string, ResetToken>, b: map<string, ResetToken>, k: string, v: ResetToken)
    ensures (a + b)[k := v] == a + b[k := v]
  {
  }

  /** `get_valid_token(key)`: a pending token with that key, or `DoesNotExist`. */
  function ValidToken(tokens: map<string, ResetToken>, key: string, now: Time): (r: Result<ResetToken, Failure>)
    ensures r.Ok? <==> key in tokens && Pending(tokens[key], now)
    ensures r.Ok? ==> r.value == tokens[key]
    ensures r.Err? ==> r.error == DoesNotExist
  {
    if key in tokens && Pending(tokens[key], now) then Ok(tokens[key]) else Err(DoesNotExist)
  }

  /** `delete_expired_tokens()`: drops unconfirmed tokens requested before the timeout window. */
  function WithoutExpired(tokens: map<string, ResetToken>, now: Time): (r: map<string, ResetToken>)
    ensures forall k :: k in r <==> k in tokens && !(tokens[k].confirmedAt.None? && tokens[k].requestedAt < now - PASSWORD_RESET_TIMEOUT)
    ensures forall k :: k in r ==> r[k] == tokens[k]
  {
    map k | k in tokens && !(tokens[k].confirmedAt.None? && tokens[k].requestedAt < now - PASSWORD_RESET_TIMEOUT) :: tokens[k]
  }

  /** The clean-up keeps exactly the valid tokens and the confirmed ones. */
  lemma CleanupKeepsValidAndConfirmed(tokens: map<string, ResetToken>, key: string, now: Time)
    ensures key in WithoutExpired(tokens, now) <==>
              ValidToken(tokens, key, now).Ok? || (key in tokens && tokens[key].confirmedAt.Some?)
  {
  }

  /** `send_email()` on one token: refused once five mails went out, else counted and stamped. */
  function Sent(t: ResetToken, now: Time): (r: Result<ResetToken, Failure>)
    ensures r.Err? <==> t.sentCount >= RESET_TOKEN_MAX_SENT_COUNT
    ensures r.Err? ==> r.error == PermissionDenied(ALLOWANCE_EXCEEDED)
    ensures r.Ok? ==> r.value == t.(sentCount := t.sentCount + 1, sentAt := Some(now)) && r.value.sentCount <= RESET_TOKEN_MAX_SENT_COUNT
  {
    if t.sentCount >= RESET_TOKEN_MAX_SENT_COUNT then Err(PermissionDenied(ALLOWANCE_EXCEEDED))
    else Ok(t.(sentCount := t.sentCount + 1, sentAt := Some(now)))
  }

  /** Mailing the token `n` times in a row, stopping at the first refusal. */
  function SentTimes(t: ResetToken, n: nat, now: Time): Result<ResetToken, Failure>
    decreases n
  {
    if n == 0 then Ok(t)
    else match Sent(t, now)
      case Err(e) => Err(e)
      case Ok(t') => SentTimes(t', n - 1, now)
  }

  /** A token that has been mailed `c` times can be mailed exactly `5 - c` more times. */
  lemma {:induction false} MailQuota(t: ResetToken, n: nat, now: Time)
    requires t.sentCount <= RESET_TOKEN_MAX_SENT_COUNT
    ensures SentTimes(t, n, now).Ok? <==> t.sentCount + n <= RESET_TOKEN_MAX_SENT_COUNT
    ensures SentTimes(t, n, now).Ok? ==> SentTimes(t, n, now).value.sentCount == t.sentCount + n
    decreases n
  {
    if n > 0 && t.sentCount < RESET_TOKEN_MAX_SENT_COUNT {
      MailQuota(Sent(t, now).value, n - 1, now);
    }
  }

  /** A new token can be mailed five times and not a sixth. */
  lemma FreshTokenAllowsFiveMails(user: Id, requested: Time, now: Time)
    ensures SentTimes(FreshToken(user, requested), 5, now).Ok?
    ensures SentTimes(FreshToken(user, requested), 6, now).Err?
  {
    MailQuota(FreshToken(user, requested), 5, now);
    MailQuota(FreshToken(user, requested), 6, now);
  }

  /** `send_email()` on the token stored under `key`; the mail itself is not modelled. */
  method SendEmail(db: Db, key: string, now: Time) returns (r: Result<(), Failure>)
    requires key in db.resetTokens
    modifies db`resetTokens
    ensures Sent(old(db.resetTokens[key]), now).Err? ==>
              r == Err(Sent(old(db.resetTokens[key]), now).error) && db.resetTokens == old(db.resetTokens)
    ensures Sent(old(db.resetTokens[key]), now).Ok? ==>
              r == Ok(()) && db.resetTokens == old(db.resetTokens)[key := Sent(old(db.resetTokens[key]), now).value]
  {
    match Sent(db.resetTokens[key], now)
    case Err(e) =>
      r := Err(e);
    case Ok(t) =>
      db.resetTokens := db.resetTokens[key := t];
      r := Ok(());
  }

  /**
   * `confirm(request)` on the token under `key`: refused unless a mail went
   * out and it is unconfirmed; otherwise it is confirmed, the user's other
   * unconfirmed reset tokens are deleted, and so are the user's login tokens.
   */
  function Confirmed(resets: map<string, ResetToken>, apiTokens: map<string, ApiToken>, key: string, now: Time)
    : (r: Result<(map<string, ResetToken>, map<string, ApiToken>), Failure>)
    requires key in resets
    ensures r.Err? <==> resets[key].sentAt.None? || resets[key].confirmedAt.Some?
    ensures r.Err? ==> r.error == DoesNotExist
    ensures r.Ok? ==> var user := resets[key].user;
              key in r.value.0 && r.value.0[key] == resets[key].(confirmedAt := Some(now)) &&
              (forall k :: k in r.value.0 && k != key ==> k in resets && r.value.0[k] == resets[k]) &&
              (forall k :: k in resets && k != key ==>
                 (k in r.value.0 <==> resets[k].user != user || resets[k].confirmedAt.Some?))
    ensures r.Ok? ==> var user := resets[key].user;
              forall k :: k in r.value.1 <==> k in apiTokens && !(apiTokens[k].user == user && apiTokens[k].source == Login)
    ensures r.Ok? ==> forall k :: k in r.value.1 ==> r.value.1[k] == apiTokens[k]
  {
    var t := resets[key];
    if t.sentAt.None? || t.confirmedAt.Some? then Err(DoesNotExist)
    else
      var stamped := resets[key := t.(confirmedAt := Some(now))];
      Ok((map k | k in stamped && !(stamped[k].user == t.user && stamped[k].confirmedAt.None?) :: stamped[k],
          map k | k in apiTokens && !(apiTokens[k].user == t.user && apiTokens[k].source == Login) :: apiTokens[k]))
  }

  /** After confirmation no reset token of the user works any more, this one included, and it cannot be confirmed twice. */
  lemma ConfirmationEndsTheReset(resets: map<string, ResetToken>, apiTokens: map<string, ApiToken>, key: string, now: Time, later: Time)
    requires key in resets && Confirmed(resets, apiTokens, key, now).Ok?
    ensures var after := Confirmed(resets, apiTokens, key, now).value.0;
      forall k :: k in after && after[k].user == resets[key].user ==> ValidToken(after, k, later).Err?
    ensures var after := Confirmed(resets, apiTokens, key, now).value.0;
      Confirmed(after, apiTokens, key, later).Err?
  {
  }

  /** Confirmation signs the user out of browser logins but keeps their API tokens and everyone else's. */
  lemma ConfirmationKeepsApiTokens(resets: map<string, ResetToken>, apiTokens: map<string, ApiToken>, key: string, now: Time, k: string)
    requires key in resets && Confirmed(resets, apiTokens, key, now).Ok? && k in apiTokens
    ensures k in Confirmed(resets, apiTokens, key, now).value.1 <==>
              apiTokens[k].source == Api || apiTokens[k].user != resets[key].user
  {
  }

  /** A token that was never mailed cannot be confirmed. */
  lemma UnsentTokenCannotBeConfirmed(resets: map<string, ResetToken>, apiTokens: map<string, ApiToken>, key: string, now: Time)
    requires key in resets && resets[key].sentAt.None?
    ensures Confirmed(resets, apiTokens, key, now) == Err(DoesNotExist)
  {
  }

  /** `confirm(request)` on the database. */
  method Confirm(db: Db, key: string, now: Time) returns (r: Result<(), Failure>)
    requires key in db.resetTokens
    modifies db`resetTokens, db`apiTokens
    ensures var c := Confirmed(old(db.resetTokens), old(db.apiTokens), key, now);
      (c.Err? ==> r == Err(c.error) && db.resetTokens == old(db.resetTokens) && db.apiTokens == old(db.apiTokens)) &&
      (c.Ok? ==> r == Ok(()) && db.resetTokens == c.value.0 && db.apiTokens == c.value.1)
  {
    match Confirmed(db.resetTokens, db.apiTokens, key, now)
    case Err(e) =>
      r := Err(e);
    case Ok((resets, tokens)) =>
      db.resetTokens, db.apiTokens := resets, tokens;
      r := Ok(());
  }

  /** `delete_expired_tokens()` on the database. */
  method DeleteExpired(db: Db, now: Time)
    modifies db`resetTokens
    ensures db.resetTokens == WithoutExpired(old(db.resetTokens), now)
  {
    db.resetTokens := WithoutExpired(db.resetTokens, now);
  }
}
