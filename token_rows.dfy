// Rows behind the credential checks: API tokens, password-reset tokens and
// the command ACLs attached to API tokens. Both token tables are keyed by
// their `key` column, which the schema declares unique.
module TokenRows {
  import opened Common

  datatype TokenSource = Login | Api

  /** An API token; `id` is its primary key, which ACL rows refer to. */
  datatype ApiToken = ApiToken(id: Id, user: Id, name: string, source: TokenSource, enabled: bool, expiresAt: Option<Time>)

  /** A password-reset token. */
  datatype ResetToken = ResetToken(user: Id, requestedAt: Time, sentCount: nat, sentAt: Option<Time>, confirmedAt: Option<Time>)

  /** One allowed command pattern of an API token. */
  datatype Acl = Acl(token: Id, command: string)

  const LOGIN_VALID_DAYS: nat := 7
  const API_KEY_LENGTH: nat := 64
  const RESET_TOKEN_LENGTH: nat := 64
  const RESET_TOKEN_MAX_SENT_COUNT: nat := 5
  const PASSWORD_RESET_TIMEOUT: int := 6 * HOUR
}
