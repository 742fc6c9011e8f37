// Authentication from the `Authorization` header, shared by the REST API and
// the WebSocket middleware. The header is scanned for `name=value` pairs by
// the pattern `(\w+)[:=] ?"?([a-zA-Z0-9-_]+)"?`, applied left to right as
// `re.findall` does; the pairs become a dictionary in which later names
// override earlier ones. API clients present `id` and `key`, users `token`.
module Auth {
  import opened Common
  import opened IamRows
  import opened TokenRows
  import opened ServerRows
  import ApiTokens

  // ----- the header parser -----

  /** `\w`, restricted to ASCII. */
  predicate IsWordChar(c: char)
  {
    ('a' <= c <= 'z') || ('A' <= c <= 'Z') || ('0' <= c <= '9') || c == '_'
  }

  /** The value class `[a-zA-Z0-9-_]`. */
  predicate IsValueChar(c: char)
  {
    IsWordChar(c) || c == '-'
  }

  /** The length of the run of word characters starting at `i`. */
  function WordRun(s: string, i: nat): (n: nat)
    requires i <= |s|
    ensures i + n <= |s|
    decreases |s| - i
  {
    if i < |s| && IsWordChar(s[i]) then 1 + WordRun(s, i + 1) else 0
  }

  /** The length of the run of value characters starting at `i`. */
  function ValueRun(s: string, i: nat): (n: nat)
    requires i <= |s|
    ensures i + n <= |s|
    decreases |s| - i
  {
    if i < |s| && IsValueChar(s[i]) then 1 + ValueRun(s, i + 1) else 0
  }

  /** A match of the pattern: the two groups and the position after the match. */
  datatype Hit = Hit(name: string, value: string, end: nat)

  /**
   * The pattern tried at position `i`. The greedy pieces never need to give
   * anything back: a shorter name ends before a word character, not before
   * `:` or `=`, and leaving out the optional space or quote puts that very
   * character where the value must start.
   */
  function MatchAt(s: string, i: nat): (r: Option<Hit>)
    requires i <= |s|
    ensures r.Some? ==> i < r.value.end <= |s|
  {
    var n := WordRun(s, i);
    if n == 0 || i + n == |s| || (s[i + n] != ':' && s[i + n] != '=') then None
    else
      var a := i + n + 1;
      var b := if a < |s| && s[a] == ' ' then a + 1 else a;
      var c := if b < |s| && s[b] == '"' then b + 1 else b;
      var m := ValueRun(s, c);
      if m == 0 then None
      else
        var d := c + m;
        Some(Hit(s[i..i + n], s[c..d], if d < |s| && s[d] == '"' then d + 1 else d))
  }

  /** `parser.findall(s[i..])`: after a match the scan resumes where it ended, otherwise one character later. */
  function FindAll(s: string, i: nat): (r: seq<(string, string)>)
    requires i <= |s|
    decreases |s| - i
  {
    if i == |s| then []
    else match MatchAt(s, i)
      case Some(h) => [(h.name, h.value)] + FindAll(s, h.end)
      case None => FindAll(s, i + 1)
  }

  /** The pairs of a whole header. */
  function Pairs(header: string): seq<(string, string)>
  {
    FindAll(header, 0)
  }

  /** `dict(pairs).get(name)`: the value of the last pair with that name. */
  function Get(pairs: seq<(string, string)>, name: string): (r: Option<string>)
    ensures r.None? <==> forall k :: 0 <= k < |pairs| ==> pairs[k].0 != name
    ensures r.Some? ==> exists k :: 0 <= k < |pairs| && pairs[k] == (name, r.value) &&
                                    forall j :: k < j < |pairs| ==> pairs[j].0 != name
  {
    if pairs == [] then None
    else if pairs[|pairs| - 1].0 == name then Some(pairs[|pairs| - 1].1)
    else Get(pairs[..|pairs| - 1], name)
  }

  /** Later pairs override earlier ones with the same name and leave other names alone. */
  lemma {:induction false} LaterPairsOverride(pairs: seq<(string, string)>, name: string, other: string, value: string)
    requires other != name
    ensures Get(pairs + [(name, value)], name) == Some(value)
    ensures Get(pairs + [(other, value)], name) == Get(pairs, name)
  {
    assert (pairs + [(other, value)])[..|pairs|] == pairs;
  }

  // ----- facts about the scan -----

  /** A text of word characters only, at least one. */
  predicate Word(w: string)
  {
    w != [] && forall j :: 0 <= j < |w| ==> IsWordChar(w[j])
  }

  /** A text of value characters only, at least one. */
  predicate Value(v: string)
  {
    v != [] && forall j :: 0 <= j < |v| ==> IsValueChar(v[j])
  }

  /** A header without `:` or `=` holds no pair at all. */
  lemma {:induction false} NoSeparatorNoPairs(s: string, i: nat)
    requires i <= |s| && forall j :: 0 <= j < |s| ==> s[j] != ':' && s[j] != '='
    ensures FindAll(s, i) == []
    decreases |s| - i
  {
    if i < |s| {
      NoSeparatorNoPairs(s, i + 1);
    }
  }

  /** A character that cannot start a name is skipped. */
  lemma SkipNonWord(s: string, i: nat)
    requires i < |s| && !IsWordChar(s[i])
    ensures FindAll(s, i) == FindAll(s, i + 1)
  {
  }

  /** A run of word characters that the text bounds is measured exactly. */
  lemma {:induction false} WordRunIs(s: string, i: nat, n: nat)
    requires i + n <= |s| && (forall j :: i <= j < i + n ==> IsWordChar(s[j])) && (i + n == |s| || !IsWordChar(s[i + n]))
    ensures WordRun(s, i) == n
    decreases n
  {
    if n > 0 {
      WordRunIs(s, i + 1, n - 1);
    }
  }

  /** A run of value characters that the text bounds is measured exactly. */
  lemma {:induction false} ValueRunIs(s: string, i: nat, n: nat)
    requires i + n <= |s| && (forall j :: i <= j < i + n ==> IsValueChar(s[j])) && (i + n == |s| || !IsValueChar(s[i + n]))
    ensures ValueRun(s, i) == n
    decreases n
  {
    if n > 0 {
      ValueRunIs(s, i + 1, n - 1);
    }
  }

  /** The text `name=value`, or `name="value"` when quoted. */
  function PairText(name: string, value: string, quoted: bool): string
  {
    if quoted then name + "=\"" + value + "\"" else name + "=" + value
  }

  /**
   * A pair written at position `|pre|` is read back as it was written, and
   * the scan goes on right after it. Unquoted, it must not run into a value
   * character or a quote.
   */
  lemma {:induction false} PairIsRead(pre: string, name: string, value: string, quoted: bool, rest: string)
    requires Word(name) && Value(value)
    requires !quoted && rest != [] ==> !IsValueChar(rest[0]) && rest[0] != '"'
    ensures var s := pre + PairText(name, value, quoted) + rest;
      FindAll(s, |pre|) == [(name, value)] + FindAll(s, |pre| + |PairText(name, value, quoted)|)
  {
    var t := PairText(name, value, quoted);
    Placed(pre, t, rest);
    PairAt(pre + t + rest, |pre|, name, value, quoted);
  }

  /** Where the middle part of a concatenation sits. */
  lemma Placed(pre: string, t: string, rest: string)
    ensures (pre + t + rest)[|pre|..|pre| + |t|] == t
    ensures rest != [] ==> (pre + t + rest)[|pre| + |t|] == rest[0]
  {
  }

  /** A pair found in place at `i` is read as written, and the scan goes on right after it. */
  lemma PairAt(s: string, i: nat, name: string, value: string, quoted: bool)
    requires Word(name) && Value(value)
    requires i + |PairText(name, value, quoted)| <= |s| && s[i..i + |PairText(name, value, quoted)|] == PairText(name, value, quoted)
    requires var e := i + |PairText(name, value, quoted)|;
      !quoted && e < |s| ==> !IsValueChar(s[e]) && s[e] != '"'
    ensures FindAll(s, i) == [(name, value)] + FindAll(s, i + |PairText(name, value, quoted)|)
  {
    var e := i + |PairText(name, value, quoted)|;
    if quoted {
      QuotedPairAt(s, i, name, value);
    } else {
      PlainPairAt(s, i, name, value);
    }
    FindAllStep(s, i, Hit(name, value, e));
  }

  /** The pattern reads `name="value"` in place. */
  lemma QuotedPairAt(s: string, i: nat, name: string, value: string)
    requires Word(name) && Value(value)
    requires i + |name| + 3 + |value| <= |s| && s[i..i + |name| + 3 + |value|] == PairText(name, value, true)
    ensures MatchAt(s, i) == Some(Hit(name, value, i + |name| + 3 + |value|))
  {
    var n, m := |name|, |value|;
    var t := s[i..i + n + 3 + m];
    assert t == name + ("=\"" + value + "\"");
    assert t[..n] == name && t[n] == '=' && t[n + 1] == '"' && t[n + 2..n + 2 + m] == value && t[n + 2 + m] == '"';
    assert s[i..i + n] == name && s[i + n + 2..i + n + 2 + m] == value;
    Runs(s, i, name, value, i + n + 2);
    QuotedMatch(s, i, n, m);
  }

  /** The outcome of the pattern once the runs of a quoted pair are known. */
  lemma QuotedMatch(s: string, i: nat, n: nat, m: nat)
    requires 0 < n && 0 < m && i + n + 3 + m <= |s|
    requires WordRun(s, i) == n && s[i + n] == '=' && s[i + n + 1] == '"' && ValueRun(s, i + n + 2) == m && s[i + n + 2 + m] == '"'
    ensures MatchAt(s, i) == Some(Hit(s[i..i + n], s[i + n + 2..i + n + 2 + m], i + n + 3 + m))
  {
  }

  /** The pattern reads `name=value` in place when no value character or quote follows. */
  lemma PlainPairAt(s: string, i: nat, name: string, value: string)
    requires Word(name) && Value(value)
    requires i + |name| + 1 + |value| <= |s| && s[i..i + |name| + 1 + |value|] == PairText(name, value, false)
    requires var e := i + |name| + 1 + |value|; e < |s| ==> !IsValueChar(s[e]) && s[e] != '"'
    ensures MatchAt(s, i) == Some(Hit(name, value, i + |name| + 1 + |value|))
  {
    var n, m := |name|, |value|;
    var t := s[i..i + n + 1 + m];
    assert t[..n] == name && t[n] == '=' && t[n + 1..] == value;
    assert s[i..i + n] == name && s[i + n + 1..i + n + 1 + m] == value;
    assert s[i + n + 1] == value[0];
    Runs(s, i, name, value, i + n + 1);
    PlainMatch(s, i, n, m);
  }

  /** The outcome of the pattern once the runs of an unquoted pair are known. */
  lemma PlainMatch(s: string, i: nat, n: nat, m: nat)
    requires 0 < n && 0 < m && i + n + 1 + m <= |s|
    requires WordRun(s, i) == n && s[i + n] == '=' && s[i + n + 1] != ' ' && s[i + n + 1] != '"' && ValueRun(s, i + n + 1) == m
    requires i + n + 1 + m < |s| ==> s[i + n + 1 + m] != '"'
    ensures MatchAt(s, i) == Some(Hit(s[i..i + n], s[i + n + 1..i + n + 1 + m], i + n + 1 + m))
  {
  }

  /** The name run before `=` and the value run at `c` are measured exactly. */
  lemma Runs(s: string, i: nat, name: string, value: string, c: nat)
    requires Word(name) && Value(value)
    requires i + |name| < c && c + |value| <= |s| && s[i..i + |name|] == name && s[i + |name|] == '=' && s[c..c + |value|] == value
    requires c + |value| == |s| || !IsValueChar(s[c + |value|])
    ensures WordRun(s, i) == |name| && ValueRun(s, c) == |value|
  {
    assert forall j :: i <= j < i + |name| ==> s[j] == name[j - i];
    WordRunIs(s, i, |name|);
    assert forall j :: c <= j < c + |value| ==> s[j] == value[j - c];
    ValueRunIs(s, c, |value|);
  }

  /** A match at `i` is recorded and the scan resumes where it ended. */
  lemma FindAllStep(s: string, i: nat, h: Hit)
    requires i < |s| && MatchAt(s, i) == Some(h)
    ensures h.end <= |s| && FindAll(s, i) == [(h.name, h.value)] + FindAll(s, h.end)
  {
  }

  /** The end of the header ends the scan. */
  lemma ScanEnds(s: string)
    ensures FindAll(s, |s|) == []
  {
  }

  // ----- the forms the clients send -----

  /** Two pairs separated by a comma, with or without a space after it, are both read. */
  lemma TwoPairs(n1: string, v1: string, n2: string, v2: string, quoted: bool, spaced: bool)
    requires Word(n1) && Value(v1) && Word(n2) && Value(v2)
    ensures var sep := if spaced then ", " else ",";
      Pairs(PairText(n1, v1, quoted) + sep + PairText(n2, v2, quoted)) == [(n1, v1), (n2, v2)]
  {
    var sep := if spaced then ", " else ",";
    var p1, p2 := PairText(n1, v1, quoted), PairText(n2, v2, quoted);
    var s := p1 + sep + p2;
    var x := |p1| + |sep|;
    assert s[..|p1|] == p1 && s[x..] == p2 && |s| == x + |p2|;
    assert s[|p1|] == ',' && (spaced ==> s[|p1| + 1] == ' ');
    LaidOut(s, |p1|, x, n1, v1, n2, v2, quoted);
  }

  /**
   * The scan of a text laid out as a pair, one or two separator characters
   * that start no name, and a second pair that ends the text.
   */
  lemma {:induction false} LaidOut(s: string, m: nat, x: nat, n1: string, v1: string, n2: string, v2: string, quoted: bool)
    requires Word(n1) && Value(v1) && Word(n2) && Value(v2)
    requires m == |PairText(n1, v1, quoted)| && m < x <= m + 2 && x + |PairText(n2, v2, quoted)| == |s|
    requires s[..m] == PairText(n1, v1, quoted) && s[x..] == PairText(n2, v2, quoted)
    requires forall j :: m <= j < x ==> !IsValueChar(s[j]) && s[j] != '"'
    ensures FindAll(s, 0) == [(n1, v1), (n2, v2)]
  {
    assert s[0..m] == s[..m];
    PairAt(s, 0, n1, v1, quoted);
    SkipSeparators(s, m, x);
    assert s[x..x + |PairText(n2, v2, quoted)|] == s[x..];
    PairAt(s, x, n2, v2, quoted);
    InOrder(s, m, x, (n1, v1), (n2, v2));
  }

  /** Characters that start no name are passed over. */
  lemma {:induction false} SkipSeparators(s: string, m: nat, x: nat)
    requires m <= x <= |s| && forall j :: m <= j < x ==> !IsWordChar(s[j])
    ensures FindAll(s, m) == FindAll(s, x)
    decreases x - m
  {
    if m < x {
      SkipNonWord(s, m);
      SkipSeparators(s, m + 1, x);
    }
  }

  /** Two pairs read in turn, with nothing between them and nothing after. */
  lemma InOrder(s: string, m: nat, x: nat, a: (string, string), b: (string, string))
    requires m <= x <= |s|
    requires FindAll(s, 0) == [a] + FindAll(s, m) && FindAll(s, m) == FindAll(s, x)
    requires FindAll(s, x) == [b] + FindAll(s, |s|)
    ensures FindAll(s, 0) == [a, b]
  {
    ScanEnds(s);
  }

  /** `id=..., key=...` is read the same with or without quotes and with or without the space after the comma. */
  lemma ClientHeaderForms(id: string, key: string, quoted: bool, spaced: bool)
    requires Value(id) && Value(key)
    ensures var sep := if spaced then ", " else ",";
      Pairs(PairText("id", id, quoted) + sep + PairText("key", key, quoted)) == [("id", id), ("key", key)]
  {
    assert Word("id") && Word("key");
    TwoPairs("id", id, "key", key, quoted, spaced);
  }

  /** `token=...` is read the same with or without quotes. */
  lemma {:induction false} TokenHeaderForms(token: string, quoted: bool)
    requires Value(token)
    ensures Pairs(PairText("token", token, quoted)) == [("token", token)]
  {
    var s := PairText("token", token, quoted);
    assert Word("token");
    assert s == [] + s + [];
    PairIsRead([], "token", token, quoted, []);
    ScanEnds(s);
  }

  /** An empty quoted value is no pair, so `token=""` carries no token. */
  lemma EmptyQuotedToken()
    ensures Pairs("token" + "=\"\"") == []
    ensures AuthToken(Some("token" + "=\"\"")) == None
  {
    var s := "token" + "=\"\"";
    assert Word("token");
    assert s[..5] == "token" && s[5] == '=' && s[6] == '"' && s[7] == '"' && |s| == 8;
    EmptyQuotedFrom(s, 5, 0);
  }

  /** Scanning `name=""` from any position finds nothing. */
  lemma {:induction false} EmptyQuotedFrom(s: string, n: nat, k: nat)
    requires |s| == n + 3 && Word(s[..n]) && s[n] == '=' && s[n + 1] == '"' && s[n + 2] == '"' && k <= |s|
    ensures FindAll(s, k) == []
    decreases |s| - k
  {
    if k < |s| {
      if k < n {
        assert forall j :: k <= j < n ==> s[j] == s[..n][j];
        WordRunIs(s, k, n - k);
      }
      assert MatchAt(s, k).None?;
      EmptyQuotedFrom(s, n, k + 1);
    }
  }

  // ----- REST authentication -----

  /** `get_auth_token(request)`: the `token` of a non-empty header, if any. */
  function AuthToken(header: Option<string>): (r: Option<string>)
    ensures header.None? || header == Some("") ==> r.None?
    ensures r.Some? ==> r.value != [] && header.Some? && r == Get(Pairs(header.value), "token")
  {
    if header.None? || header.value == "" then None
    else
      var token := Get(Pairs(header.value), "token");
      if token.None? || token.value == "" then None else token
  }

  /** A bare token, quoted or not, is what `get_auth_token` returns. */
  lemma TokenIsExtracted(token: string, quoted: bool)
    requires Value(token)
    ensures AuthToken(Some(PairText("token", token, quoted))) == Some(token)
  {
    TokenHeaderForms(token, quoted);
  }

  /** `APITokenAuthentication.authenticate`: the token's user and the token, or no authentication. */
  function TokenAuthenticate(tokens: map<string, ApiToken>, users: map<Id, User>, header: Option<string>, now: Time): (r: Option<(Id, ApiToken)>)
    ensures r.Some? <==> AuthToken(header).Some? && ApiTokens.ValidUser(tokens, users, AuthToken(header).value, now).Ok?
    ensures r.Some? ==> r.value == ApiTokens.ValidUser(tokens, users, AuthToken(header).value, now).value
  {
    match AuthToken(header)
    case None => None
    case Some(token) =>
      match ApiTokens.ValidUser(tokens, users, token, now)
      case Ok(found) => Some(found)
      case Err(_) => None
  }

  /**
   * `get_valid_client(id, key)`: an enabled client with that id whose
   * stored key hash `checkKey` accepts. `parseId` reads the UUID text;
   * text that is no UUID fails validation. The expiry is not consulted.
   */
  function ValidClient(clients: map<Id, ApiClient>, id: string, key: string,
                       parseId: string -> Option<Id>, checkKey: (string, string) -> bool): (r: Result<Id, Failure>)
    ensures r.Ok? <==> parseId(id).Some? && parseId(id).value in clients && clients[parseId(id).value].enabled &&
                       checkKey(key, clients[parseId(id).value].keyHash)
    ensures r.Ok? ==> r.value == parseId(id).value
  {
    match parseId(id)
    case None => Err(ValidationError("is not a valid UUID."))
    case Some(k) =>
      if k !in clients || !clients[k].enabled then Err(DoesNotExist)
      else if !checkKey(key, clients[k].keyHash) then Err(DoesNotExist)
      else Ok(k)
  }

  /**
   * A server authenticates as a client exactly when it is enabled and its
   * stored key hash accepts the key, and it does so alike through the whole
   * `APIClient` table and through the `WebSocketClient` rows.
   */
  lemma ServerIsAValidClient(clients: map<Id, ApiClient>, wsClients: map<Id, ApiClient>, servers: map<Id, Server>,
                             id: string, key: string, parseId: string -> Option<Id>, checkKey: (string, string) -> bool)
    requires ClientTables(clients, wsClients, servers) && parseId(id).Some? && parseId(id).value in servers
    ensures var k := parseId(id).value;
      ValidClient(clients, id, key, parseId, checkKey) == ValidClient(wsClients, id, key, parseId, checkKey) ==
        if servers[k].enabled && checkKey(key, servers[k].keyHash) then Ok(k) else Err(DoesNotExist)
  {
  }

  /** `APIClientAuthentication.authenticate`: the client named by a non-empty `id` and `key`, or no authentication. */
  function ClientAuthenticate(clients: map<Id, ApiClient>, header: Option<string>,
                              parseId: string -> Option<Id>, checkKey: (string, string) -> bool): (r: Option<Id>)
    ensures header.None? || header == Some("") ==> r.None?
    ensures r.Some? ==> header.Some?
    ensures r.Some? ==>
              var ps := Pairs(header.value);
              NonEmpty(Get(ps, "id")) && NonEmpty(Get(ps, "key")) &&
              ValidClient(clients, Get(ps, "id").value, Get(ps, "key").value, parseId, checkKey) == Ok(r.value)
  {
    if header.None? || header.value == "" then None
    else
      var ps := Pairs(header.value);
      var id := if Get(ps, "id").Some? then Get(ps, "id").value else "";
      var key := if Get(ps, "key").Some? then Get(ps, "key").value else "";
      if id == "" || key == "" then None
      else
        match ValidClient(clients, id, key, parseId, checkKey)
        case Ok(k) => Some(k)
        case Err(_) => None
  }

  /** A header with only one of `id` and `key` authenticates no client. */
  lemma HalfCredentialsAreRefused(clients: map<Id, ApiClient>, value: string, parseId: string -> Option<Id>, checkKey: (string, string) -> bool)
    requires Value(value)
    ensures ClientAuthenticate(clients, Some(PairText("id", value, true)), parseId, checkKey).None?
    ensures ClientAuthenticate(clients, Some(PairText("key", value, true)), parseId, checkKey).None?
  {
    var s1, s2 := PairText("id", value, true), PairText("key", value, true);
    assert Word("id") && Word("key");
    assert s1 == [] + s1 + [] && s2 == [] + s2 + [];
    PairIsRead([], "id", value, true, []);
    ScanEnds(s1);
    PairIsRead([], "key", value, true, []);
    ScanEnds(s2);
  }

  // ----- WebSocket authentication -----

  /** Who a WebSocket connection authenticated as. */
  datatype Principal = ClientPrincipal(client: Id) | UserPrincipal(user: Id)

  /** A header whose name is exactly `Authorization` or `authorization` and whose value is not empty. */
  predicate IsAuthHeader(h: (string, string))
  {
    (h.0 == "Authorization" || h.0 == "authorization") && h.1 != ""
  }

  /**
   * `get_auth_user(scope)` from header `i` on: the first authorization
   * header with an `id` and a `key` decides by the client lookup, one with a
   * `token` by the token lookup; a failed lookup ends the search with nothing.
   * The client lookup is `WebSocketClient.objects.get_valid_client`, so it
   * reads `wsClients`, the WebSocket client rows, and not the whole
   * `APIClient` table that the REST authentication reads.
   */
  function AuthUserFrom(headers: seq<(string, string)>, i: nat, wsClients: map<Id, ApiClient>, tokens: map<string, ApiToken>,
                        users: map<Id, User>, parseId: string -> Option<Id>, checkKey: (string, string) -> bool, now: Time): Option<Principal>
    requires i <= |headers|
    decreases |headers| - i
  {
    if i == |headers| then None
    else if !IsAuthHeader(headers[i]) then AuthUserFrom(headers, i + 1, wsClients, tokens, users, parseId, checkKey, now)
    else
      var ps := Pairs(headers[i].1);
      if NonEmpty(Get(ps, "id")) && NonEmpty(Get(ps, "key")) then
        match ValidClient(wsClients, Get(ps, "id").value, Get(ps, "key").value, parseId, checkKey)
        case Ok(k) => Some(ClientPrincipal(k))
        case Err(_) => None
      else if NonEmpty(Get(ps, "token")) then
        match ApiTokens.ValidUser(tokens, users, Get(ps, "token").value, now)
        case Ok(found) => Some(UserPrincipal(found.0))
        case Err(_) => None
      else AuthUserFrom(headers, i + 1, wsClients, tokens, users, parseId, checkKey, now)
  }

  /** Headers that are not authorization headers are never looked at. */
  lemma {:induction false} OnlyAuthHeadersCount(headers: seq<(string, string)>, i: nat, wsClients: map<Id, ApiClient>, tokens: map<string, ApiToken>,
                                                users: map<Id, User>, parseId: string -> Option<Id>, checkKey: (string, string) -> bool, now: Time)
    requires i <= |headers| && forall j :: i <= j < |headers| ==> !IsAuthHeader(headers[j])
    ensures AuthUserFrom(headers, i, wsClients, tokens, users, parseId, checkKey, now).None?
    decreases |headers| - i
  {
    if i < |headers| {
      OnlyAuthHeadersCount(headers, i + 1, wsClients, tokens, users, parseId, checkKey, now);
    }
  }

  /** An `id` and `key` pair takes precedence over a token in the same header. */
  lemma ClientBeforeToken(headers: seq<(string, string)>, i: nat, wsClients: map<Id, ApiClient>, tokens: map<string, ApiToken>,
                          users: map<Id, User>, parseId: string -> Option<Id>, checkKey: (string, string) -> bool, now: Time)
    requires i < |headers| && IsAuthHeader(headers[i])
    requires var ps := Pairs(headers[i].1); NonEmpty(Get(ps, "id")) && NonEmpty(Get(ps, "key"))
    ensures var ps := Pairs(headers[i].1);
      AuthUserFrom(headers, i, wsClients, tokens, users, parseId, checkKey, now) ==
        match ValidClient(wsClients, Get(ps, "id").value, Get(ps, "key").value, parseId, checkKey)
        case Ok(k) => Some(ClientPrincipal(k))
        case Err(_) => None
  {
  }

  /**
   * The WebSocket admits exactly the WebSocket clients whose key matches:
   * a plain API client is refused even with the right key, any WebSocket
   * client (a server or not) is admitted, and every client admitted is one
   * the REST authentication would admit too.
   */
  lemma OnlyWebSocketClientsConnect(headers: seq<(string, string)>, i: nat, clients: map<Id, ApiClient>,
                                    wsClients: map<Id, ApiClient>, servers: map<Id, Server>, tokens: map<string, ApiToken>,
                                    users: map<Id, User>, parseId: string -> Option<Id>, checkKey: (string, string) -> bool, now: Time)
    requires ClientTables(clients, wsClients, servers)
    requires i < |headers| && IsAuthHeader(headers[i])
    requires var ps := Pairs(headers[i].1); NonEmpty(Get(ps, "id")) && NonEmpty(Get(ps, "key"))
    ensures var ps := Pairs(headers[i].1);
      var id, key := Get(ps, "id").value, Get(ps, "key").value;
      var r := AuthUserFrom(headers, i, wsClients, tokens, users, parseId, checkKey, now);
      (r.Some? ==> r.value.ClientPrincipal? && r.value.client in wsClients &&
                   ValidClient(clients, id, key, parseId, checkKey) == Ok(r.value.client)) &&
      (parseId(id).Some? && parseId(id).value !in wsClients ==> r.None?) &&
      ((parseId(id).Some? && parseId(id).value in wsClients && wsClients[parseId(id).value].enabled &&
        checkKey(key, wsClients[parseId(id).value].keyHash)) ==>
         r == Some(ClientPrincipal(parseId(id).value)))
  {
    ClientBeforeToken(headers, i, wsClients, tokens, users, parseId, checkKey, now);
  }

  /** A failed lookup ends the search: later headers, however good, are not examined. */
  lemma FailedLookupStops(headers: seq<(string, string)>, later: seq<(string, string)>, i: nat,
                          wsClients: map<Id, ApiClient>, tokens: map<string, ApiToken>, users: map<Id, User>,
                          parseId: string -> Option<Id>, checkKey: (string, string) -> bool, now: Time)
    requires i < |headers| && IsAuthHeader(headers[i])
    requires var ps := Pairs(headers[i].1);
      (NonEmpty(Get(ps, "id")) && NonEmpty(Get(ps, "key")) &&
       ValidClient(wsClients, Get(ps, "id").value, Get(ps, "key").value, parseId, checkKey).Err?) ||
      (!(NonEmpty(Get(ps, "id")) && NonEmpty(Get(ps, "key"))) && NonEmpty(Get(ps, "token")) &&
       ApiTokens.ValidUser(tokens, users, Get(ps, "token").value, now).Err?)
    ensures AuthUserFrom(headers, i, wsClients, tokens, users, parseId, checkKey, now).None?
    ensures AuthUserFrom(headers[..i + 1] + later, i, wsClients, tokens, users, parseId, checkKey, now).None?
  {
    assert (headers[..i + 1] + later)[i] == headers[i];
  }

  /** `get_auth_user(scope)`: tries the headers in order and returns at the first decision. */
  method GetAuthUser(headers: seq<(string, string)>, wsClients: map<Id, ApiClient>, tokens: map<string, ApiToken>, users: map<Id, User>,
                     parseId: string -> Option<Id>, checkKey: (string, string) -> bool, now: Time) returns (r: Option<Principal>)
    ensures r == AuthUserFrom(headers, 0, wsClients, tokens, users, parseId, checkKey, now)
  {
    var i := 0;
    while i < |headers|
      invariant i <= |headers|
      invariant AuthUserFrom(headers, i, wsClients, tokens, users, parseId, checkKey, now) == AuthUserFrom(headers, 0, wsClients, tokens, users, parseId, checkKey, now)
    {
      var (name, value) := headers[i];
      if (name == "Authorization" || name == "authorization") && value != "" {
        var ps := Pairs(value);
        var id, key, token := Get(ps, "id"), Get(ps, "key"), Get(ps, "token");
        if NonEmpty(id) && NonEmpty(key) {
          var found := ValidClient(wsClients, id.value, key.value, parseId, checkKey);
          if found.Ok? {
            return Some(ClientPrincipal(found.value));
          }
          return None;
        } else if NonEmpty(token) {
          var found := ApiTokens.ValidUser(tokens, users, token.value, now);
          if found.Ok? {
            return Some(UserPrincipal(found.value.0));
          }
          return None;
        }
      }
      i := i + 1;
    }
    r := None;
  }

  /** A scope entry: the lazy placeholder that fails when read, or a resolved value. */
  datatype Slot = Placeholder | Resolved(value: Option<Id>)

  /** The connection scope after `resolve_scope`: who the API client is, and who the user is. */
  datatype Scope = Scope(wsclient: Slot, user: Slot)

  /**
   * `APIAuthMiddleware.resolve_scope`: a client fills `wsclient`, a user fills
   * `user`, and the other entry keeps its placeholder; without a result
   * `wsclient` becomes `None` and the user comes from the session cookie.
   */
  function ResolvedScope(result: Option<Principal>, sessionUser: Option<Id>): (sc: Scope)
    ensures result.None? ==> sc == Scope(Resolved(None), Resolved(sessionUser))
    ensures result.Some? && result.value.ClientPrincipal? ==> sc == Scope(Resolved(Some(result.value.client)), Placeholder)
    ensures result.Some? && result.value.UserPrincipal? ==> sc == Scope(Placeholder, Resolved(Some(result.value.user)))
  {
    match result
    case None => Scope(Resolved(None), Resolved(sessionUser))
    case Some(ClientPrincipal(c)) => Scope(Resolved(Some(c)), Placeholder)
    case Some(UserPrincipal(u)) => Scope(Placeholder, Resolved(Some(u)))
  }
}
