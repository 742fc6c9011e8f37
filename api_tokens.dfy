// API tokens: the validity rule used by token authentication, the expiry
// clean-up, deletion, the browser-login token and key generation on save.
// The token table is keyed by the token's key, which the database keeps unique.
module ApiTokens {
  import opened Common
  import opened IamRows
  import opened TokenRows
  import opened Store

  /** A token is accepted at `now` when it is enabled, its user is active, and it has no expiry or expires later. */
  predicate Accepts(t: ApiToken, users: map<Id, User>, now: Time)
  {
    t.enabled && t.user in users && users[t.user].isActive && (t.expiresAt.None? || t.expiresAt.value > now)
  }

  /** `get_valid_user(key)`: the token's user and the token, or `DoesNotExist`. */
  function ValidUser(tokens: map<string, ApiToken>, users: map<Id, User>, key: string, now: Time): (r: Result<(Id, ApiToken), Failure>)
    ensures r.Ok? <==> key in tokens && Accepts(tokens[key], users, now)
    ensures r.Ok? ==> r.value == (tokens[key].user, tokens[key])
    ensures r.Err? ==> r.error == DoesNotExist
  {
    if key in tokens && Accepts(tokens[key], users, now) then Ok((tokens[key].user, tokens[key])) else Err(DoesNotExist)
  }

  /** A token expired at `now`: it has an expiry strictly before now. */
  predicate Expired(t: ApiToken, now: Time)
  {
    t.expiresAt.Some? && t.expiresAt.value < now
  }

  /** The table after `delete_expired_tokens`. */
  function WithoutExpired(tokens: map<string, ApiToken>, now: Time): (r: map<string, ApiToken>)
    ensures forall key :: key in r <==> key in tokens && !Expired(tokens[key], now)
    ensures forall key :: key in r ==> r[key] == tokens[key]
  {
    map key | key in tokens && !Expired(tokens[key], now) :: tokens[key]
  }

  /** The clean-up never removes a token that authentication would still accept. */
  lemma PurgeKeepsValidTokens(tokens: map<string, ApiToken>, users: map<Id, User>, key: string, now: Time)
    requires ValidUser(tokens, users, key, now).Ok?
    ensures ValidUser(WithoutExpired(tokens, now), users, key, now) == ValidUser(tokens, users, key, now)
  {
  }

  /** A token that expires exactly now is refused, yet still kept by the clean-up until a later run. */
  lemma ExpiryBoundary(tokens: map<string, ApiToken>, users: map<Id, User>, key: string, now: Time)
    requires key in tokens && tokens[key].expiresAt == Some(now)
    ensures ValidUser(tokens, users, key, now).Err?
    ensures key in WithoutExpired(tokens, now)
    ensures key !in WithoutExpired(tokens, now + 1)
  {
  }

  /** The table after `delete_token(user, key)`: the token goes only when it belongs to `user`. */
  function WithoutToken(tokens: map<string, ApiToken>, user: Id, key: string): (r: map<string, ApiToken>)
    ensures key in tokens && tokens[key].user == user ==> r == tokens - {key}
    ensures !(key in tokens && tokens[key].user == user) ==> r == tokens
  {
    if key in tokens && tokens[key].user == user then tokens - {key} else tokens
  }

  /**
   * `APIToken.save`: an empty key is replaced by `randomKey` (64 random
   * characters). The database refuses a key held by another token, and a
   * second API-sourced token with the same name for the same user.
   */
  function Saved(tokens: map<string, ApiToken>, t: ApiToken, key: string, randomKey: string): (r: Result<(string, map<string, ApiToken>), Failure>)
    requires |randomKey| == API_KEY_LENGTH
    ensures r.Ok? ==> r.value.0 == (if key == "" then randomKey else key) && r.value.0 != ""
    ensures r.Ok? ==> forall k :: k in r.value.1 <==> k == r.value.0 || (k in tokens && tokens[k].id != t.id)
    ensures r.Ok? ==> r.value.0 in r.value.1 && r.value.1[r.value.0] == t
    ensures r.Ok? ==> forall k :: k in r.value.1 && k != r.value.0 ==> r.value.1[k] == tokens[k]
    ensures r.Err? <==>
      (var used := if key == "" then randomKey else key; used in tokens && tokens[used].id != t.id) ||
      (t.source == Api && exists k :: k in tokens && tokens[k].id != t.id && tokens[k].source == Api &&
                                      tokens[k].user == t.user && tokens[k].name == t.name)
  {
    var used := if key == "" then randomKey else key;
    if used in tokens && tokens[used].id != t.id then Err(IntegrityError("key"))
    else if t.source == Api && exists k :: k in tokens && tokens[k].id != t.id && tokens[k].source == Api &&
                                         tokens[k].user == t.user && tokens[k].name == t.name then
      Err(IntegrityError("unique_api_token"))
    else Ok((used, (map k | k in tokens && tokens[k].id != t.id :: tokens[k])[used := t]))
  }

  /** A key given by the caller is kept as it is. */
  lemma SuppliedKeyIsKept(tokens: map<string, ApiToken>, t: ApiToken, key: string, randomKey: string)
    requires |randomKey| == API_KEY_LENGTH && key != "" && Saved(tokens, t, key, randomKey).Ok?
    ensures Saved(tokens, t, key, randomKey).value.0 == key
  {
  }

  /** Names need only be unique among API-sourced tokens: login tokens may share them freely. */
  lemma LoginTokensMayShareNames(tokens: map<string, ApiToken>, t: ApiToken, key: string, randomKey: string)
    requires |randomKey| == API_KEY_LENGTH && t.source == Login
    requires forall k :: k in tokens ==> tokens[k].id != t.id
    requires (if key == "" then randomKey else key) !in tokens
    ensures Saved(tokens, t, key, randomKey).Ok?
  {
  }

  /** `APIToken.save` on the database: the table becomes `Saved`'s, or nothing changes. */
  method Save(db: Db, t: ApiToken, key: string, randomKey: string) returns (r: Result<string, Failure>)
    requires |randomKey| == API_KEY_LENGTH
    modifies db`apiTokens
    ensures var s := Saved(old(db.apiTokens), t, key, randomKey);
      (r.Ok? <==> s.Ok?) && (r.Ok? ==> r.value == s.value.0 && db.apiTokens == s.value.1) &&
      (r.Err? ==> r.error == s.error && db.apiTokens == old(db.apiTokens))
  {
    match Saved(db.apiTokens, t, key, randomKey)
    case Err(e) =>
      r := Err(e);
    case Ok((used, tokens)) =>
      db.apiTokens := tokens;
      r := Ok(used);
  }

  /** The token `create_via_login` saves: login-sourced, enabled, expiring seven days from now. */
  function LoginToken(id: Id, user: Id, now: Time): (t: ApiToken)
    ensures t.source == Login && t.enabled && t.user == user && t.expiresAt == Some(now + LOGIN_VALID_DAYS * DAY)
  {
    ApiToken(id, user, "", Login, true, Some(now + LOGIN_VALID_DAYS * DAY))
  }

  /** A login token is accepted for exactly seven days. */
  lemma LoginTokenLifetime(id: Id, user: Id, users: map<Id, User>, issued: Time, now: Time)
    requires user in users && users[user].isActive
    ensures Accepts(LoginToken(id, user, issued), users, now) <==> now < issued + 7 * DAY
  {
  }

  /** `create_via_login(user, request)`: saves a fresh login token with a random key. */
  method CreateViaLogin(db: Db, id: Id, user: Id, randomKey: string, now: Time) returns (r: Result<string, Failure>)
    requires |randomKey| == API_KEY_LENGTH
    modifies db`apiTokens
    ensures var s := Saved(old(db.apiTokens), LoginToken(id, user, now), "", randomKey);
      (r.Ok? <==> s.Ok?) && (r.Ok? ==> r.value == randomKey && db.apiTokens == s.value.1) &&
      (r.Err? ==> db.apiTokens == old(db.apiTokens))
  {
    r := Save(db, LoginToken(id, user, now), "", randomKey);
  }

  /** `delete_expired_tokens()` on the database. */
  method DeleteExpired(db: Db, now: Time)
    modifies db`apiTokens
    ensures db.apiTokens == WithoutExpired(old(db.apiTokens), now)
  {
    db.apiTokens := WithoutExpired(db.apiTokens, now);
  }

  /** `delete_token(user, key)` on the database. */
  method DeleteToken(db: Db, user: Id, key: string)
    modifies db`apiTokens
    ensures db.apiTokens == WithoutToken(old(db.apiTokens), user, key)
  {
    db.apiTokens := WithoutToken(db.apiTokens, user, key);
  }
}
