// Rows of the websh app: terminal sessions, the channels that join them, and
// files queued for transfer to or from a server.
module WebshRows {
  import opened Common

  /** A terminal session (not an agent connection). */
  datatype TermSession = TermSession(server: Id, user: Option<Id>, username: string, groupname: string,
                                     rows: nat, cols: nat, closedAt: Option<Time>)

  /**
   * A channel into a terminal session. User channels carry a join password;
   * pty channels (the agent's side) have none.
   */
  datatype Channel = Channel(session: Option<Id>, token: Option<string>, tokenCreatedAt: Option<Time>,
                             tokenExpiredAt: Option<Time>, user: Option<Id>, password: Option<string>,
                             isMaster: bool, readOnly: bool)

  /** A file to send to (uploaded) or fetch from (downloaded) a server. `contentName` is the stored file's name. */
  datatype FileRow = FileRow(name: string, path: string, contentName: string, server: Id, user: Id,
                             username: string, groupname: string, command: Option<Id>, expiresAt: Option<Time>)

  const CHANNEL_TOKEN_LENGTH: nat := 32
  const USER_CHANNEL_PASSWORD_LENGTH: nat := 16
  const SHARE_TIMEOUT: int := 30 * MINUTE
  const FILE_LIFETIME: int := DAY
}
