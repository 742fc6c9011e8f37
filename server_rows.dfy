// Rows of the servers app: servers, installers, notes and starred servers,
// plus the health summary stored in a server's `status` column, and the API
// client rows a server inherits. `Server` is a multi-table child of
// `WebSocketClient`, itself a child of `APIClient`: every server is a WebSocket
// client, but plain WebSocket clients and plain API clients exist as well.
module ServerRows {
  import opened Common

  datatype StatusCode = OkCode | WarnCode | ErrorCode

  /** One line of the health summary. `ClockDrift` carries the latest time record's difference in seconds. */
  datatype HealthMessage =
    | NotConnected
    | NotCommissioned
    | DelayOver3Minutes
    | DelayOver15Seconds
    | ClockDrift(diff: int)
    | ServerOkay

  /**
   * The value `get_current_status` stores in `status`. The text, icon and
   * color are functions of the code (see `Health`); `delayNow` is the part
   * of the `meta` dictionary that the model keeps.
   */
  datatype ServerStatus = ServerStatus(code: StatusCode, messages: seq<HealthMessage>, delayNow: int)

  /**
   * A server row, including the API-client columns it inherits. The key is
   * stored as the hash that `set_key` computes; `groups` are the IAM groups
   * authorized to reach it. `osPlatform` is the
   * `platform_like` of the server's latest OS version record; it is absent
   * when the server has reported none, in which case reading `platform` fails.
   */
  datatype Server = Server(
    name: string,
    owner: Id,
    groups: set<Id>,
    keyHash: string,
    enabled: bool,
    concurrent: bool,
    deletedAt: Option<Time>,
    commissioned: bool,
    status: Option<ServerStatus>,
    version: Option<string>,
    osqueryVersion: Option<string>,
    load: Option<real>,
    startedAt: Option<Time>,
    osPlatform: Option<string>,
    updatedAt: Time)

  /** A server that commands may be sent to: enabled and not deleted. */
  predicate Usable(s: Server)
  {
    s.enabled && s.deletedAt.None?
  }

  /**
   * The columns of an `APIClient` row (`AbstractAPIClient`) that the model
   * reads: the `enabled` flag, the key as the hash `set_key` stores, and
   * whether the client may hold several connections at once.
   */
  datatype ApiClient = ApiClient(enabled: bool, keyHash: string, concurrent: bool)

  /** The parent row a server shares with its `WebSocketClient` and `APIClient` rows. */
  function ClientRowOf(s: Server): ApiClient
  {
    ApiClient(s.enabled, s.keyHash, s.concurrent)
  }

  /**
   * The multi-table inheritance between the three tables: every WebSocket
   * client is an API client with the same row, and every server is a
   * WebSocket client whose row holds the server's flag, key and `concurrent`.
   * `clients` is the whole `APIClient` table, `wsClients` the rows that
   * `WebSocketClient.objects` reads.
   */
  predicate ClientTables(clients: map<Id, ApiClient>, wsClients: map<Id, ApiClient>, servers: map<Id, Server>)
  {
    (forall k :: k in wsClients ==> k in clients && clients[k] == wsClients[k]) &&
    (forall k :: k in servers ==> k in wsClients && wsClients[k] == ClientRowOf(servers[k]))
  }

  datatype Installer = Installer(server: Id, addedAt: Time)

  datatype Note = Note(server: Id, author: Id, content: string, private: bool, pinned: bool)

  datatype Star = Star(user: Id, server: Id)

  /** Installers older than this are cleaned up. */
  const INSTALLER_LIFETIME: int := DAY

  const MAX_PINNED_NOTES: nat := 3
  const MAX_STARRED_SERVERS: nat := 5
}
