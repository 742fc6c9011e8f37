# Alpacon server control plane in Dafny

Alpacon is a server-management service. Servers run an agent (alpamon) that holds a websocket session to the
control plane. Users, API clients and the agents talk to the control plane over a REST API. This project models the
control plane's core as in-memory tables (`Store.Db`, one `map` per database table) and proves properties of it:

- **Commands and sweeps** (`Commands`, `Dispatch`, `ServerOps`, `CommandApi`, `Tasks`): what a command's status
  means, delivery to a connected agent, dependency-ordered sweeps, acknowledgement and completion with a one-level
  failure cascade, server health, account preparation before a shell, and the periodic purge tasks.
- **Agent connections** (`Sessions`, `Registry`, `Consumer`): websocket sessions, soft deletion, closing with a
  quit or reconnect notice, the consumer's connect/receive/disconnect life cycle, and stale-session cleanup.
- **Credentials** (`Auth`, `ApiTokens`, `PasswordReset`, `Security`): parsing the Authorization header, API token
  and API client authentication, the websocket scope resolver, token expiry, the password-reset state machine and
  the command ACL matcher.
- **Identity and access** (`IamValidation`, `IamAccounts`, `IamUsers`, `IamGroups`, `IamPermissions`,
  `Permissions`): username and group-name rules, uid/gid allocation, soft deletion of users and groups, the
  superuser and owner guards of the IAM views, and the object permissions.
- **Server data** (`ServerApi`, `ServerMeta`, `Proc`, `SemVer`): server actions, stars and pinned notes, the
  agent's metadata report (accounts, interfaces, versions), interface flags, OS version normalisation and the
  semantic-version parser.
- **Web terminal** (`Websh`): channels and their tokens, sessions and joining, terminal accounts, and the file
  upload and download commands with their account-preparation dependencies.

Pushes to the channel layer are appended to `Db.outbox` and Celery `.delay` calls to `Db.tasks`. Fresh primary keys
come from per-table counters. Times are whole seconds. State-changing operations are methods with field-granular
`modifies` clauses. Each is specified against a pure function of the old tables, and the lemmas are about those
functions.

Where the code departs from its own documentation, the model follows the code:

- The failure cascade of `Command.fin` marks only the direct dependents.
- `Command.retry` cannot be saved, because `scheduled_at` is not nullable.
- Completion through the HTTP API writes `handled_at` without calling `fin`.
- Creation through the API delivers at once and ignores `run_after`.
- The health thresholds are strict (`>`).
- `UploadedFile.upload` passes keyword arguments that `Server.execute` does not accept.

## Model

| member | source | states |
|---|---|---|
| Sessions.ConnectedIffOpenSession | wsutils/models.py:24-26 | a client is connected exactly when it has at least one open session (`OpenSessionsOf` is the set of the client's sessions without `deleted_at`) |
| Sessions.CloseNotice | wsutils/models.py:90-100 | closing sends a quit notice with the new-connection reason exactly when `quit` is set, and a reconnect notice with the retired-session reason otherwise |
| Sessions.SoftDeleted | wsutils/models.py:79-81 | `delete` sets the deletion time to now, which closes the session, and keeps client, remote IP, channel and update time |
| Sessions.OpenSessionsAreNeverPurged | wsutils/tasks.py:22-26 | the week-old purge never removes an open session |
| Sessions.PushedToOneMore | wsutils/models.py:51-53 | sending to one more open session, down its own channel, extends a send-to-each-session log to that session |
| Sessions.PushedToEachCount | wsutils/models.py:51-53 | a send to every open session makes exactly one push per session |
| Commands.ShellName | events/models.py:57-61 | a shell is stored as one of the three choices `system`, `osquery`, `internal` |
| Commands.Status | events/models.py:139-207 | the first set timestamp among handled, acked, delivered and scheduled decides the state; acked or delivered more than 600 s ago is Stuck; scheduled in the past is Queued, otherwise Scheduled; none set is Error; cancellable exactly for Queued, Scheduled and Error; the colour per state |
| Commands.CancellableIffNotSent | events/models.py:139-207 | a command is cancellable exactly while it was never delivered, acknowledged or handled |
| Commands.HandledStatusIgnoresClock | events/models.py:141-155 | once handled, a command's status no longer depends on the clock |
| Commands.ResponseDelay | events/models.py:123-129 | the delay is present exactly when both ack and delivery times are, and is their difference clamped at zero |
| Commands.AckRevokesWritePermission | events/models.py:114-121 | reading is always permitted; any other permission holds exactly until the command is acknowledged |
| Commands.Request | events/models.py:209-223 | the pushed request carries the command's id, shell name, line, username and groupname, and its data exactly when the data is truthy |
| Commands.RetriedIsErrorState | events/models.py:201-207 | a command with its timestamps cleared shows the Error state, which is cancellable (`Retried` is the row `retry` leaves) |
| Commands.EffectOf | events/models.py:42-53 | an `alpamon` `started` event marks the server started, an `alpamon` `committed` event marks it commissioned, and no other event does either |
| Registry.LastSession | wsutils/models.py:28-35 | the last session is a most recently updated open session of the client, else a most recently updated closed one, else none |
| Registry.LastSessionIsOpenIffConnected | wsutils/models.py:24-35 | the last session belongs to the client, and it is open exactly when the client is connected |
| Registry.RemoteIp | wsutils/models.py:37-42 | the remote IP is the last session's address, and absent exactly when the client has no session at all |
| Registry.LastConnectivity | wsutils/models.py:44-49 | the last connectivity is the last session's update time, and absent exactly when the client has no session at all |
| Registry.Send | wsutils/models.py:51-53 | a send appends one push of the message down the channel of each open session of the client, and nothing else |
| Registry.SoftDelete | wsutils/models.py:79-81 | deleting a session only sets its deletion time; the row stays |
| Registry.Close | wsutils/models.py:90-101 | closing pushes the quit or reconnect notice down the session's own channel, then soft-deletes the session |
| Registry.ClosedAtOneMore | wsutils/tasks.py:13-18 | closing one more session extends the table closed so far by that one soft delete |
| Registry.Reaped | wsutils/tasks.py:10-19 | after the sweep every stale session is soft-deleted at `now` and every other row is unchanged |
| Registry.ReapedConnectivity | wsutils/tasks.py:10-19 | no session is stale after the sweep, and a client stays connected exactly when it had an open session touched within the last 15 minutes (`StaleSessions` is the set the sweep closes) |
| Registry.CloseEach | wsutils/tasks.py:13-19 | closing each target in turn soft-deletes exactly the targets, sends each one reconnect notice, and counts them |
| Registry.ClearStale | wsutils/tasks.py:10-19 | the sweep leaves the reaped table, sends one reconnect notice per stale session and returns their number |
| Registry.PurgeKeepsConnectivity | wsutils/tasks.py:22-26 | the purge keeps every client's open sessions, so it never changes who is connected (`Purged` is the table the purge leaves) |
| Registry.DeleteOld | wsutils/tasks.py:22-26 | the purge leaves the purged table and returns the number of rows it removed |
| Dispatch.DeliveredOneMore | events/models.py:245-251 | delivering one more command extends the table delivered so far by that one delivery time |
| Dispatch.DeliveryKeepsEligibility | events/models.py:245-251 | delivering other commands during the sweep changes neither a command's own candidacy nor what blocks it, so the order of the loop does not matter (`Delivered` stamps the delivered commands) |
| Dispatch.SweepNeverRedelivers | events/models.py:233-240 | a command the sweep delivered is never picked by a later sweep, whatever its scope or time (`EligibleSet` is the sweep's candidates and `Delivered` the table it leaves) |
| Dispatch.RequestsPushedOneMore | events/models.py:220-223 | adding one command's pushes to every open session of its server extends the log of requests pushed so far to that command |
| Dispatch.Execute | events/models.py:209-230 | `execute` pushes the command's request to each open session of its server and, when saving, sets only its delivery time to `now` |
| Dispatch.DeliverOne | events/models.py:245-251 | one delivery step of the sweep extends both the delivered table and the pushed requests by one command |
| Dispatch.ExecuteAllScheduled | events/models.py:232-252 | the sweep delivers exactly the eligible commands, pushes each one's request to every open session of its server, and returns how many it delivered |
| Dispatch.DeliverAll | events/models.py:244-252 | the loop visits every candidate and delivers exactly the eligible ones, counting them |
| Dispatch.Visit | events/models.py:245-251 | one turn of the loop skips a blocked or disconnected command and delivers any other |
| Dispatch.Ack | events/models.py:261-263 | `ack` sets only the acknowledgement time, to `now`, whatever it held |
| Dispatch.SaveTimestamps | events/models.py:80-84 | saving timestamps fails with an integrity error exactly when the NOT NULL `scheduled_at` is missing, and otherwise stores the row |
| Dispatch.Retry | events/models.py:254-259 | `retry` always fails on the NOT NULL `scheduled_at` column and leaves the table as it was |
| Dispatch.RetriedIsNeverSwept | events/models.py:232-252 | a retried command, even held only in memory, is never picked by the sweep |
| Dispatch.FinIsIdempotent | events/models.py:265-270 | a second `fin`, with any arguments at any time, changes nothing |
| Dispatch.FinRecordsOutcome | events/models.py:272-281 | a first `fin` records the given success and result on the command, handled at `now` |
| Dispatch.FinCascadesOneLevel | events/models.py:275-280 | on failure, each still-unhandled direct dependent is cancelled, with the cancellation result, at the command's handling time; every other row is unchanged (`Commands.RunBefore` gives the direct dependents) |
| Dispatch.GrandchildOfFailureBecomesEligible | events/models.py:246-280 | the cascade stops after one level: a command waiting only for a cancelled dependent of a failed command becomes deliverable |
| Dispatch.NoSweepAfterFailure | events/models.py:275-321 | after a failed `fin` every direct dependent is handled, so no sweep is queued |
| Dispatch.Fin | events/models.py:265-323 | `fin` leaves the table as `FinOutcome` says; a first call queues a sweep of the server exactly when a direct dependent is still unhandled, then always a status check; a later call queues nothing |
| Dispatch.ServersAfterEvent | events/models.py:42-53 | a started event stamps the server's start time, a committed event sets commissioned, both touch the update time; no other server or field changes |
| Dispatch.HandleEvent | events/models.py:42-53 | handling an event updates the server table as `ServersAfterEvent` says and deletes the server's installers exactly for an alpamon started event |
| Dispatch.StartedEventClearsInstallers | events/models.py:42-53 | after an alpamon started event no installer of the server is left, every other server's installers are kept, and a repeated event removes nothing more (`InstallersWithout` is the table left) |
| ServerOps.CreatedRow | servers/models.py:262-285 | the created row is scheduled now and never acknowledged or handled; string data is stored as it is and other data JSON-encoded; a command with dependencies waits for exactly them and is not delivered by the call; one without is delivered now exactly when the server is connected (`Commands.NewCommand` is the undelivered row `Command(...)` starts from) |
| ServerOps.QueuedCommandIsSweptLater | servers/models.py:281-283 | a command without dependencies made for a disconnected server shows Scheduled at once and Queued afterwards, and stays a candidate of every later sweep while the server is usable |
| ServerOps.Execute | servers/models.py:259-286 | `execute` is refused with "Invalid server." on a disabled or deleted server and changes nothing; otherwise it saves the created row under the next key and returns it, and pushes its request to every open session of the server exactly when it has no dependencies and the server is connected |
| ServerOps.PushedByExecute | servers/models.py:259-286 | what one `execute` pushed is exactly the request of the command it saved, once to each open session of the server, when that command was delivered at once (no dependencies and a connected server), and nothing otherwise |
| ServerOps.Issued | servers/models.py:259-286 | the command table, next key and result `execute` leaves, from a given table and key |
| ServerOps.ActionLinesAreDistinct | servers/models.py:288-342 | the seven agent actions send seven different command lines |
| ServerOps.Act | servers/models.py:288-342 | each action is an internal command with its own line and no data or dependencies, refused on an unusable server; the pushes appended to the outbox carry, once to each open session of its server, the request of every command saved here that was delivered at once, and nothing else |
| ServerOps.AccountCommandShape | servers/models.py:354-404 | account commands carry their data JSON-encoded; the line names the account; the `adduser` data lists the membership gids in order and its comment ends with `(alpacon)` and the user's id; the `addgroup` data carries the group's gid |
| ServerOps.Account | servers/models.py:354-404 | `add_user`, `add_group`, `del_user` and `del_group` are `execute` with the account command's line and data; the pushes appended to the outbox carry, once to each open session of its server, the request of every command saved here that was delivered at once, and nothing else |
| ServerOps.Gids | servers/models.py:412-413 | the collected gids are those of the groups of the memberships, in order |
| ServerOps.MissingGroups | servers/models.py:412-417 | the groups that get an `addgroup` are groups the server has no system group for, in membership order |
| ServerOps.MissingGroupsExact | servers/models.py:349-417 | a group gets an `addgroup` exactly when some membership is in it and the server has no system group for it |
| ServerOps.AddGroupRow | servers/models.py:372-416 | each `addgroup` row is internal, names the group, is requested by the user and has no dependencies |
| ServerOps.AddUserRow | servers/models.py:354-427 | the `adduser` row names the user, is requested by them, carries their account data and waits for exactly the given dependencies |
| ServerOps.GroupedShape | servers/models.py:412-417 | the membership loop issues one `addgroup` per missing group, in order, under consecutive new keys appended to the dependencies, and changes no existing row |
| ServerOps.PreparedShape | servers/models.py:407-430 | on a usable server, `prepare_user` issues the `addgroup`s, then one `adduser` exactly when the server lacks the user, run after the initial dependencies and every `addgroup`; every new key is appended to the dependency list |
| ServerOps.AddUserWaitsForAll | servers/models.py:419-428 | the `adduser` waits for every dependency handed in and for every `addgroup` just issued, and for nothing else |
| ServerOps.Preparation | servers/models.py:407-430 | the table, next key and result `prepare_user` leaves, from a given table and key |
| ServerOps.PrepareUser | servers/models.py:407-430 | reading the platform fails when the server reported no OS version; on darwin nothing is issued and none is returned; otherwise the table and the returned dependencies are as `Preparation` says; on a disconnected server nothing is pushed; the pushes appended to the outbox carry, once to each open session of its server, the request of every command saved here that was delivered at once, and nothing else |
| ServerOps.UserTurn | servers/models.py:419-430 | the last step issues an `adduser` after the dependency list unless the server has the user, and fails on an unusable server; the pushes since the start of the preparation stay exactly those of the commands it saved |
| ServerOps.AddGroups | servers/models.py:412-417 | the loop returns the gids and the dependencies with each `addgroup` key appended, or the failure of the first `addgroup` on an unusable server; the pushes appended to the outbox carry, once to each open session of its server, the request of every command saved here that was delivered at once, and nothing else |
| ServerOps.GroupTurn | servers/models.py:413-417 | one membership's turn issues an `addgroup` unless the server has the group, appending its key to the dependencies; it fails with "Invalid server." exactly when the group is missing and the server is unusable, leaving the table; the pushes since the start of the loop stay exactly those of the commands it saved |
| ServerOps.YoungUnackedIsIgnored | servers/models.py:166-172 | an unacknowledged command delivered less than 180 seconds ago never decides `delay_now` |
| ServerOps.DelayNow | servers/models.py:166-180 | `delay_now` is the delay of a newest-scheduled measurable command (NULL scheduled times first), acknowledgement minus delivery or the time waited so far, and 0 when there is none |
| ServerOps.CurrentStatus | servers/models.py:183-241 | the status flags not connected and not commissioned, then a delay over 180 s as an error or over 15 s as a warning, and only otherwise a clock drift over 120 s as an error or over 30 s as a warning |
| ServerOps.Assess | servers/models.py:184-214 | the flag-raising part computes the same health as `Health` |
| ServerOps.HealthThresholdsAreStrict | servers/models.py:195-210 | illustration at the boundaries: a delay of 180 s is a warning and 181 s an error, 15 s is fine and 16 s a warning; a drift of 120 s is a warning, 121 s an error and 30 s fine |
| ServerOps.HealthSummary | servers/models.py:183-241 | the code is error exactly when an error condition holds and warn exactly when only a warning condition holds; "Server is okay." is reported exactly when the code is ok, and then alone; drift is reported only when the delay is at most 15 s |
| Tasks.ExecuteScheduled | events/tasks.py:13-15 | the Celery task is exactly the sweep in the given scope: it delivers the eligible commands and returns their number; the pushes appended carry the request of each eligible command once to each open session of its server, and nothing else |
| Tasks.DeleteOldEvents | events/tasks.py:18-22 | the Celery task leaves exactly the kept events |
| Tasks.EventPurgeIsIdempotent | events/tasks.py:18-22 | running the clean-up again removes nothing more, and a later run keeps no event an earlier one removed (`EventsKept` is the table left) |
| Tasks.OnlyProbesArePurged | events/tasks.py:27-31 | a command with a requester, another shell or another line is never removed, and a kept command changes only by losing links to removed rows (`OldProbes` is the set removed and `CommandsKept` the table left) |
| Tasks.DeleteOldCommands | events/tasks.py:25-32 | the Celery task leaves exactly the kept commands |
| Tasks.ProbedAreUsableConnected | servers/tasks.py:16-21 | the servers probed are exactly the usable connected ones: the session filter is implied by the connection test (`RoundServers` is the queryset the rounds iterate over) |
| Tasks.WithProbesKeys | servers/tasks.py:20-21 | a round adds rows under exactly the next consecutive keys, one per probed server |
| Tasks.WithProbesKeepsOld | servers/tasks.py:20-21 | a round changes no existing row |
| Tasks.WithProbesRow | servers/tasks.py:20-21 | the i-th new key holds the probe of the i-th probed server |
| Tasks.ProbeIsSent | servers/tasks.py:20-21 | every probe goes to its own server with its line and no requester, and is delivered when it is created |
| Tasks.ProbeRound | servers/tasks.py:14-31 | `ping_all_servers` and `debug_all_servers` give each usable connected server, once each, one probe under a new key, and change no other row; the outbox grows by one block per probe, each block the probe's request once to each open session of its server |
| Tasks.Refresh | servers/tasks.py:41-42 | one refresh writes the server's current status and changes no other server |
| Tasks.RefreshAll | servers/tasks.py:36-42 | the sweep refreshes every usable server, each with its own drift record, and leaves every other server unchanged |
| Tasks.RefreshOne | servers/tasks.py:43-46 | a refresh by key fails with DoesNotExist when there is no such server, and otherwise refreshes that server whatever its flags, and only it |
| Tasks.CleanupInstallers | servers/tasks.py:49-53 | the Celery task leaves exactly the kept installers |
| Tasks.InstallerCleanupIsIdempotent | servers/tasks.py:49-53 | running the clean-up again removes nothing more, and a later run keeps no installer an earlier one removed (`InstallersKept` is the table left) |
| Security.LiteralMatchesItself | security/models.py:51-53 | a pattern without `*` admits exactly itself, with or without one final newline (Python's `$`) |
| Security.StarMatchesAnyRun | security/models.py:51-53 | a leading `*` admits any run of non-newline characters, after which the rest of the pattern must match what is left |
| Security.LiteralHead | security/models.py:51-53 | a literal head, escaped by `re.escape`, must be matched character for character before the rest of the pattern |
| Security.RunAfterHead | security/models.py:51-53 | `a*` with a literal `a` admits `a` followed by any run without a newline |
| Security.RunBetween | security/models.py:51-53 | `a*b` with literal `a` and `b` admits `a`, any run without a newline, then `b` |
| Security.ExampleMatches | security/tests.py:241-255 | the reference ACL rows admit the six lines meant to be allowed |
| Security.HeadMismatch | security/models.py:51-53 | a line whose head differs from a pattern's literal head is refused |
| Security.ExampleRejections | security/tests.py:241-276 | the reference ACL rows refuse another directory and an unlisted command |
| Security.SmuggledLineRefused | security/models.py:51-53 | a newline inside the line ends what `*` may cover, so `ls *` cannot admit a second command |
| Security.ComposeDownRefused | security/tests.py:242-270 | `docker compose -f * up -d` refuses the same line ending in `down` |
| Security.NoAclAllowsNothing | security/models.py:48-54 | a token without ACL rows may run nothing |
| Security.OtherTokensDoNotCount | security/models.py:50 | only the token's own rows count: adding a row of another token changes no decision |
| Security.IsAllowed | security/models.py:48-54 | `is_allowed` returns true exactly when one of the token's ACL rows admits the line |
| CommandApi.Visible | servers/api/mixins.py:21-30 | an agent sees exactly its own server's commands; staff see every command that is not hidden; any other user sees the non-hidden commands of the servers of their groups |
| CommandApi.PurgedProbesWereHidden | events/api/views.py:47-57 | every command the weekly clean-up deletes (an internal ping or debug probe no person requested) was already hidden from people's listings |
| CommandApi.RequestedProbesAreShown | events/api/views.py:47-57 | a command a person requested is listed to staff unless it is a `resizepty` |
| CommandApi.TimestampErrors | events/api/serializers.py:113-121 | "already acknowledged" is reported exactly when an acknowledgement is sent for an acknowledged command, "already handled" exactly when completion is sent for a handled one; no message otherwise |
| CommandApi.Validated | events/api/serializers.py:123-139 | a completion keeps every field and stamps the server clock, an acknowledgement keeps only `acked_at` (server clock), a bare result keeps only the result and is refused once handled, an empty request is refused; every refusal carries a message |
| CommandApi.Updated | events/api/serializers.py:103-139 | a command outside the viewer's listing is not found; otherwise the update succeeds exactly when validation does, and then only row `k` changes, to the validated fields applied |
| CommandApi.SecondAckIsRefused | events/api/serializers.py:113-116 | acknowledging an already acknowledged command is refused with the "already acknowledged" message |
| CommandApi.AckStampsServerTime | events/api/serializers.py:113-116 | acknowledging an unacknowledged command sets `acked_at` to the server clock whatever time was supplied and changes nothing else (`Applied` saves the validated changes onto the row) |
| CommandApi.HttpCompletionSkipsCascade | events/api/serializers.py:123-125 | completing a failed command over HTTP leaves every other command, including its dependants, as it was |
| CommandApi.Update | events/api/serializers.py:103-139 | the command table becomes `Updated`'s result on success and is unchanged on error, with the same error |
| CommandApi.FirstMissing | events/api/serializers.py:83-88 | the dependency the `run_after` field reports: none exactly when every key exists, otherwise the first missing one |
| CommandApi.LineErrors | events/models.py:71-75 | the `line` field's own checks come first: a blank line gets only "This field may not be blank.", one over 512 characters only the length message, and only a line that passes both reaches the ACL and gets "Permission denied" when an API-sourced token's rows do not admit it |
| CommandApi.NameErrors | events/models.py:93-94 | `username` and `groupname` may be blank or left out, and are refused with the length message exactly when over 128 characters |
| CommandApi.CreateFieldErrors | events/api/serializers.py:84-101 | no message exactly when the line is non-blank, at most 512 characters and admitted by the ACL, the account names are at most 128 characters, the server exists and every dependency exists; "Permission denied" is reported exactly when a non-blank line of at most 512 characters is not admitted for an API-sourced token; a blank or over-long line's message comes first |
| CommandApi.OrElse | websh/mixins.py:14-15 | a present non-empty value wins, any other value yields the default |
| CommandApi.Account | websh/mixins.py:7-50 | succeeds exactly when the server is commissioned and connected, the username is a system user or the requester's own, and access is granted; the username defaults to the requester's, the group to the username (system user) or "alpacon"; each refusal carries its message |
| CommandApi.Drafted | events/api/serializers.py:84-101 | field errors are returned as they are; a drafted row is on a commissioned, connected server, carries the request's server, shell, line (non-blank, at most 512 characters), data and dependencies, is requested by the requester, not yet delivered or handled, and is due now when no time was given |
| CommandApi.AclOnlyForApiTokens | events/api/serializers.py:96-101 | without an API-sourced token the ACL table has no influence on the outcome |
| CommandApi.UnlistedLineIsRefused | events/api/serializers.py:96-101 | a line that passes the field's checks but that no ACL row of an API-sourced token admits is refused with "Permission denied" |
| CommandApi.BadLinesAreRefused | events/models.py:71-75 | a blank line or one over 512 characters is refused, its blank or length message first, and never with "Permission denied", whatever the ACL holds |
| CommandApi.CreateIgnoresDependencies | events/api/views.py:69-75 | a due command with an unhandled dependency is still drafted and delivered, and its saved row is blocked in the sweep's sense |
| CommandApi.Create | events/api/views.py:69-75 | on success the command is saved under the next fresh key as `Drafted` says and is delivered at once (with `delivered_at` set) when it is due; on error nothing changes |
| CommandApi.Destroyed | events/api/views.py:77-84 | a command outside the listing is not found; deletion is refused with the "cannot be cancelled" message exactly when it was delivered; otherwise the row and every dependency link to it are gone and nothing else changes |
| CommandApi.CancelUnblocksDependents | events/api/views.py:77-84 | cancelling the only unhandled dependency of a command leaves that command present and unblocked |
| CommandApi.Destroy | events/api/views.py:77-84 | the command table becomes `Destroyed`'s result on success and is unchanged on error, with the same error |
| CommandApi.LatestExists | events/api/serializers.py:39 | every non-empty set of events has a latest member |
| CommandApi.FoldedEventStaysLatest | events/api/serializers.py:31-42 | a repeat folded into the latest recent match raises its count by one and keeps it the latest recent match for the rest of the ten-minute window, so later repeats fold into the same event (`RecentRepeats` is the filter, `Counted` the fold) |
| CommandApi.ReportEvent | events/api/serializers.py:30-48 | an unidentified caller is refused and an unknown server is not found, with no change; a repeated report with a recent match raises the latest match's count; any other report adds one new event with count 1 under a fresh key and applies that event's effect on the server and installer tables |
| ApiTokens.ValidUser | api/apitoken/models.py:25-32 | succeeds exactly when a token with that key exists, is enabled, belongs to an active user and has no expiry or one later than now, and then returns that user and token; otherwise `DoesNotExist` |
| ApiTokens.PurgeKeepsValidTokens | api/apitoken/models.py:25-41 | a token that authentication accepts is still there, and still accepted, after the clean-up (`WithoutExpired` is the table the clean-up leaves) |
| ApiTokens.ExpiryBoundary | api/apitoken/models.py:25-41 | a token expiring exactly now is refused yet kept by a clean-up now, and removed by any later clean-up |
| ApiTokens.WithoutToken | api/apitoken/models.py:34-38 | the token with that key goes exactly when it belongs to the user; otherwise the table is unchanged |
| ApiTokens.Saved | api/apitoken/models.py:114-117 | an empty key is replaced by the random 64-character key and a supplied one is kept; the save fails exactly when the key is another token's or another API token of the same user has the same name; on success the token is stored under its key and every other token is kept |
| ApiTokens.SuppliedKeyIsKept | api/apitoken/models.py:114-117 | a non-empty supplied key is the key the token is saved under |
| ApiTokens.LoginTokensMayShareNames | api/apitoken/models.py:102-104 | a login token with a fresh key is always saved, whatever names other tokens carry |
| ApiTokens.Save | api/apitoken/models.py:114-117 | the token table becomes `Saved`'s on success and is unchanged on failure, with the same error |
| ApiTokens.LoginTokenLifetime | api/apitoken/models.py:16-32 | for an active user, a login token issued at `t` is accepted exactly before `t` plus seven days (`LoginToken` is the row `create_via_login` builds) |
| ApiTokens.CreateViaLogin | api/apitoken/models.py:16-23 | saves the login token under the random key, returning that key, or changes nothing |
| ApiTokens.DeleteExpired | api/apitoken/models.py:40-41 | the token table becomes `WithoutExpired`'s |
| ApiTokens.DeleteToken | api/apitoken/models.py:34-38 | the token table becomes `WithoutToken`'s |
| Auth.Get | api/apitoken/auth.py:23-28 | no value exactly when no pair has that name; otherwise the value of the last pair with that name |
| Auth.LaterPairsOverride | api/apitoken/auth.py:23 | a pair appended later decides the value of its name and leaves every other name's value as it was |
| Auth.NoSeparatorNoPairs | api/apitoken/auth.py:14 | a header with neither `:` nor `=` yields no pair |
| Auth.PairIsRead | api/apitoken/auth.py:14 | a well-formed `name=value` or `name="value"` pair is read back as written and the scan resumes right after it, provided an unquoted value is not followed by a value character or a quote |
| Auth.TwoPairs | api/apiclient/auth.py:15 | two well-formed pairs separated by `,` or `, ` are both read, in order, with nothing else |
| Auth.ClientHeaderForms | api/apiclient/auth.py:15 | `id=…,key=…` is read as exactly those two pairs with or without quotes and with or without the space after the comma |
| Auth.TokenHeaderForms | api/apitoken/auth.py:14 | `token=…` is read as exactly that one pair, quoted or not |
| Auth.EmptyQuotedToken | api/apitoken/auth.py:28-31 | `token=""` yields no pair and therefore no token |
| Auth.AuthToken | api/apitoken/auth.py:17-31 | a missing or empty header gives no token; a token given is non-empty and is the header's last `token` value |
| Auth.TokenIsExtracted | api/apitoken/auth.py:17-31 | a bare token header, quoted or not, yields exactly that token |
| Auth.TokenAuthenticate | api/apitoken/auth.py:37-48 | a user is authenticated exactly when the header carries a token that `ValidUser` accepts, and the result is `ValidUser`'s user and token; every failure is no authentication |
| Auth.ValidClient | api/apiclient/models.py:26-31 | succeeds exactly when the id parses, names an enabled client and the key matches its stored hash, returning that client |
| Auth.ServerIsAValidClient | api/apiclient/models.py:26-31 | a server, whose `WebSocketClient` and `APIClient` parent rows hold its enabled flag and key, authenticates exactly when it is enabled and its stored hash accepts the key, through either table alike |
| Auth.ClientAuthenticate | api/apiclient/auth.py:26-53 | a missing or empty header authenticates no client; a client authenticated had non-empty `id` and `key` values that `ValidClient` accepted for it |
| Auth.HalfCredentialsAreRefused | api/apiclient/auth.py:38-41 | a header with only an `id`, or only a `key`, authenticates no client |
| Auth.OnlyAuthHeadersCount | wsutils/auth.py:23-26 | headers other than non-empty `Authorization`/`authorization` headers never produce a principal |
| Auth.ClientBeforeToken | wsutils/auth.py:31-41 | when a header carries both `id` and `key`, the lookup among the `WebSocketClient` rows alone decides, whatever token the header also carries |
| Auth.OnlyWebSocketClientsConnect | wsutils/auth.py:31-39 | with an `id` and a `key`, a plain API client that is no WebSocket client gets no principal even with the right key, every WebSocket client (a server or not) whose key matches is admitted, and every client admitted is one the REST authentication admits too |
| Auth.FailedLookupStops | wsutils/auth.py:37-47 | a failed client or token lookup ends the search with no principal, whatever headers follow |
| Auth.GetAuthUser | wsutils/auth.py:21-50 | the loop over the headers returns the same principal as the header-by-header definition, which looks clients up among the `WebSocketClient` rows only |
| Auth.ResolvedScope | wsutils/auth.py:62-79 | a client fills `wsclient` and leaves `user` a placeholder; a user fills `user` and leaves `wsclient` a placeholder; no result sets `wsclient` to none and takes the user from the session |
| Consumer.FirstField | wsutils/consumer.py:31 | the result is the prefix of the value before its first comma: it holds no comma and is followed by one unless it is the whole value |
| Consumer.ForwardedFrom | wsutils/consumer.py:29-32 | no value exactly when no header from that position on is `x-forwarded-for`; otherwise the value of the first such header |
| Consumer.RemoteIpOf | wsutils/consumer.py:24-33 | the first comma-separated field of the first `x-forwarded-for` header, else the scope's client host, else 127.0.0.1 |
| Consumer.ForwardedAddressWins | wsutils/consumer.py:29-32 | the first forwarded header decides the address whatever follows it, and the address holds no comma |
| Consumer.FirstForwarded | wsutils/consumer.py:29-32 | the search from a position finds the first forwarded header after it |
| Consumer.RemoteIp | wsutils/consumer.py:24-33 | the loop that breaks at the first forwarded header returns `RemoteIpOf`'s address |
| Consumer.ClosedStaysClosed | wsutils/consumer.py:45-61 | a second close and any later refresh leave a closed session exactly as the first close left it (`Touched` is the refresh and `Closed` the close) |
| Consumer.ClosingTheLastSessionDisconnects | wsutils/consumer.py:45-61 | refreshing a client's only open session keeps it connected; closing that session disconnects it |
| Consumer.AgentConsumer.Connect | wsutils/consumer.py:35-43 | a placeholder client fails and changes nothing; no client closes with 403 and saves nothing; any WebSocket client, a server or not, is accepted, gets exactly one new open session with its remote address and channel, and a drop task is queued when its row does not allow concurrent connections |
| Consumer.AgentConsumer.UpdateSession | wsutils/consumer.py:45-52 | returns true exactly when the session was open, and the sessions become `Touched`'s |
| Consumer.AgentConsumer.DeleteSession | wsutils/consumer.py:54-61 | returns true exactly when the session was open, and the sessions become `Closed`'s |
| Consumer.AgentConsumer.ReceiveJson | wsutils/consumer.py:73-77 | with no session, or a session that is no longer open, the connection closes with 400 and nothing is handled; otherwise the session is refreshed and the message is handled |
| Consumer.AgentConsumer.Disconnect | wsutils/consumer.py:79-82 | the connection's own session is closed as `Closed` says; without a session nothing changes |
| Consumer.AgentConsumer.SendMessage | wsutils/consumer.py:84-86 | the event's content is appended to what the socket has sent |
| Consumer.UserConsumer.Connect | wsutils/consumer.py:99-106 | a placeholder user fails and changes nothing; no signed-in user is refused with 403; a signed-in user is accepted |
| PasswordReset.RecipientsIgnoreCase | api/password_reset/models.py:25-28 | two spellings of an email that differ only in case reach the same active users (`Recipients` is the set of users a request serves) |
| PasswordReset.FreshToken | api/password_reset/models.py:39-43 | a new token belongs to the user, is pending now, and has never been mailed |
| PasswordReset.NewRows | api/password_reset/models.py:31-43 | one fresh row under the user's generated key for each served user without a pending token, and no other row |
| PasswordReset.ServesOneMore | api/password_reset/models.py:31-51 | serving one more recipient with a pending token of theirs, reused when they had one, keeps every issued key valid and the recipients distinct |
| PasswordReset.EveryRecipientIsServed | api/password_reset/models.py:25-52 | after a request every recipient holds a pending token (`Recipients` is the set of users a request serves) |
| PasswordReset.RepeatedRequestAddsNothing | api/password_reset/models.py:31-43 | a second request at the same moment adds no row |
| PasswordReset.PendingTokenIsReused | api/password_reset/models.py:32-37 | a user who holds a pending token gets no new row |
| PasswordReset.CreateTokens | api/password_reset/models.py:25-52 | the table gains exactly `NewRows` for the recipients, and the keys returned name one pending token per recipient, reused when the user had one |
| PasswordReset.CreateOne | api/password_reset/models.py:32-51 | one turn of the loop extends the table and the issued keys to serve one more recipient |
| PasswordReset.ValidToken | api/password_reset/models.py:54-60 | succeeds exactly when the key names an unconfirmed token requested within the timeout, returning it; otherwise `DoesNotExist` |
| PasswordReset.CleanupKeepsValidAndConfirmed | api/password_reset/models.py:54-66 | a token survives the clean-up exactly when it is still valid or already confirmed (`WithoutExpired` is the table the clean-up leaves) |
| PasswordReset.Sent | api/password_reset/models.py:119-135 | refused with "Request exceeded your allowance." exactly when five mails went out; otherwise the count goes up by one and `sent_at` becomes now |
| PasswordReset.MailQuota | api/password_reset/models.py:119-135 | a token mailed `c` times can be mailed `n` more times in a row exactly when `c + n` is at most five, and then its count is `c + n` |
| PasswordReset.FreshTokenAllowsFiveMails | api/password_reset/models.py:17 | a new token can be mailed five times and not six |
| PasswordReset.SendEmail | api/password_reset/models.py:119-135 | the token under `key` becomes `Sent`'s on success and the table is unchanged on refusal |
| PasswordReset.Confirmed | api/password_reset/models.py:137-155 | refused with `DoesNotExist` exactly when no mail went out or it is already confirmed; otherwise it is confirmed now, the user's other unconfirmed tokens go, every other reset token stays, and exactly the user's login tokens are deleted |
| PasswordReset.ConfirmationEndsTheReset | api/password_reset/models.py:137-150 | after confirmation no reset token of the user is valid and the same token cannot be confirmed again |
| PasswordReset.ConfirmationKeepsApiTokens | api/password_reset/models.py:152-155 | an API token survives confirmation exactly when it is API-sourced or belongs to another user |
| PasswordReset.UnsentTokenCannotBeConfirmed | api/password_reset/models.py:138-139 | a token that was never mailed cannot be confirmed |
| PasswordReset.Confirm | api/password_reset/models.py:137-155 | both tables become `Confirmed`'s on success and are unchanged on refusal, with the same error |
| PasswordReset.DeleteExpired | api/password_reset/models.py:62-66 | the reset-token table becomes `WithoutExpired`'s |
| Permissions.OnePermissionPerMethod | api/permissions.py:5-14 | a reading of the table: exactly the seven listed methods have an entry, each names one permission: view for the safe methods, add for POST, change for PUT and PATCH, delete for DELETE |
| Permissions.PermCodesAreDistinct | api/permissions.py:6-14 | a reading of the table: distinct actions expand to distinct permission codes of the same model |
| Permissions.WriteOnlyRules | api/permissions.py:17-44 | an unauthenticated request is refused by both classes; safe methods pass both for any authenticated user; an unsafe method passes exactly for a superuser, respectively a staff member; an agent passes exactly on safe methods |
| Permissions.SuperuserWriteImpliesAdminWrite | api/permissions.py:17-44 | for a user whose superuser flag implies the staff flag, whatever the superuser class admits the staff class admits too |
| IamValidation.ValidateUsername | iam/api/serializers.py:72-85 | a name that fails the lowercase UNIX pattern is refused first, a reserved name next, a name any server already has as an account or group last; an accepted name is returned unchanged |
| IamValidation.ValidateGroupName | iam/api/serializers.py:184-198 | the same three refusals in the same order, with group wording; an accepted name is returned unchanged |
| IamValidation.GroupNamesFollowUsernameRules | iam/api/serializers.py:184-198 | a group name is accepted exactly when the same text would be accepted as a username |
| IamValidation.AcceptedNamesAreUnixSafe | iam/api/serializers.py:22-85 | an accepted username starts with a lowercase letter, holds only `[a-z0-9_-]` apart from at most one trailing newline, is not reserved and is used on no server |
| IamValidation.TrailingNewlineIsTolerated | iam/api/serializers.py:22 | because `$` also matches before a final newline, a valid name followed by one newline matches the pattern and one followed by two does not |
| IamValidation.UsernameExamples | iam/api/serializers.py:22-85 | illustration: `Alice` and `1alice` fail the pattern, `root` is reserved, and an unused `alice` is accepted |
| IamValidation.ValidatePassword | iam/api/serializers.py:87-92 | an empty password becomes none without calling the validators; a non-empty one is kept when the validators accept it and refused with their message otherwise |
| IamValidation.EmptyPasswordSkipsValidators | iam/api/serializers.py:87-92 | the outcome for an empty password does not depend on the validators |
| IamValidation.ValidateMembershipGroup | iam/api/serializers.py:262-267 | a group is accepted exactly when it is not the default group `alpacon`, and otherwise refused with the fixed-memberships message |
| IamAccounts.NextAfter | iam/models.py:127-130 | one more than the largest id, or 2000 when there is none: above every id in the set |
| IamAccounts.StampedUserShape | iam/models.py:122-131 | a saved user is staff when superuser, holds a uid (a given non-zero uid is kept), defaults its home directory to `/home/<username>`, changes nothing else, and saving it again changes nothing |
| IamAccounts.AllocatedUidIsFree | iam/models.py:127-130 | an allocated uid is held by no other row, and the first allocation is 2000 |
| IamAccounts.SavingKeepsUidsUnique | iam/models.py:122-131 | a successful save keeps uids unique and leaves every other user row as it was |
| IamAccounts.SaveUser | iam/models.py:122-131 | the row is written as `UserSaved` says and returned, or the table is unchanged and the integrity error returned |
| IamAccounts.AllocatedGidIsFree | iam/models.py:371-376 | a saved group holds a gid: a given non-zero gid is kept, a missing one is held by no other row and is 2000 for the first; nothing else changes |
| IamAccounts.SaveGroup | iam/models.py:371-376 | the row is written as `GroupSaved` says and returned, or the table is unchanged and the integrity error returned |
| IamAccounts.IssueToEach | iam/models.py:144-149 | the commands for the servers before the first one that refuses are saved under consecutive keys; the result is success exactly when every server accepted, else "Invalid server."; the pushes appended to the outbox carry, once to each open session of its server, the request of every command saved here that was delivered at once, and nothing else |
| IamAccounts.IssueOne | iam/models.py:145-148 | one account command is saved under the next key exactly when the server accepts commands; otherwise nothing changes; the push block of a saved command is its request to each open session of the server when the server is connected, and empty otherwise |
| IamAccounts.ReachedAt | iam/models.py:144-149 | when every server before `i` accepts and the one at `i` refuses (or `i` is the end), the loop stops at `i` |
| IamAccounts.ReachedPast | iam/models.py:144-149 | when every server before `i` accepts, the loop gets at least that far |
| IamAccounts.RetiredUserIsHidden | iam/models.py:155-163 | the retired user is hidden, holds no uid, is inactive with an unusable password, and its new name starts with `deleted_user-` followed by the old name |
| IamAccounts.DeleteUser | iam/models.py:133-163 | a `deluser` command goes to each of the user's servers in turn until one refuses; if one refuses the error is "Invalid server." and memberships, tokens and the user row are unchanged; otherwise the user's live memberships and all their tokens go and the row is retired; the pushes appended to the outbox carry, once to each open session of its server, the request of every command saved here that was delivered at once, and nothing else |
| IamAccounts.RetireUserRows | iam/models.py:151-163 | memberships, tokens and the user row become the retired state |
| IamAccounts.UserDeletionTouchesOnlyTheUser | iam/models.py:151-163 | after the deletion the user holds no role and has no token left, while every other user keeps the same roles and the same accepted tokens (`WithoutUserMemberships` and `WithoutUserTokens` are the tables left) |
| IamAccounts.DeleteGroup | iam/models.py:378-401 | the default group is refused before anything happens; otherwise a `delgroup` command goes to each server in turn until one refuses, and on success the group's live memberships go and the row is retired; the pushes appended to the outbox carry, once to each open session of its server, the request of every command saved here that was delivered at once, and nothing else |
| IamAccounts.RetireGroupRows | iam/models.py:392-401 | memberships and the group row become the retired state |
| IamAccounts.GroupDeletionTouchesOnlyTheGroup | iam/models.py:392-401 | after the deletion nobody holds a role in the group, and every role in another group is kept (`WithoutGroupMemberships` is the table left) |
| IamAccounts.DisabledServerBlocksUserDeletion | iam/models.py:144-149 | a disabled or deleted server among the targets stops the loop at or before it, so the deletion fails |
| IamPermissions.RolesToManage | iam/api/permissions.py:74-77 | an owner may always act; a manager may act exactly on plain members' memberships |
| IamPermissions.UserAccessRules | iam/api/permissions.py:6-24 | an anonymous request is refused; creating needs the staff or superuser flag; every other method passes for an authenticated caller; an ordinary user may change or delete only their own row |
| IamPermissions.GroupAccessRules | iam/api/permissions.py:40-57 | outside the superuser, deleting a group takes exactly an owner's live membership; a manager may change it but not delete it; every other method is let through |
| IamPermissions.RetiredMembershipsGrantNothing | iam/api/permissions.py:52-57 | a requester that is soft-deleted or unknown holds no role in any group |
| IamPermissions.MembershipAccessRules | iam/api/permissions.py:68-82 | a user may always act on their own membership and a group's owner on every membership of it; for an unsafe method on someone else's manager or owner membership, outside the superuser, exactly an owner may act |
| IamUsers.Requester | iam/api/views.py:25-26 | no requester is the anonymous user; a signed-in requester carries their key and their own staff and superuser flags |
| IamUsers.UsernameField | iam/api/serializers.py:46-85 | accepted exactly when at most 150 characters, not held by a visible user, passed by Django's `UnicodeUsernameValidator` and accepted by `ValidateUsername`; the length is checked first, uniqueness next, then the validator with its own message; an accepted name holds no line break |
| IamUsers.NewPasswordField | iam/api/serializers.py:49-54 | a missing password is "required", an empty one "blank"; accepted exactly when non-empty, at most 128 characters and passed by the validators |
| IamUsers.CreatedUserRules | iam/api/views.py:47-53 | a created user was requested by staff or a superuser, and only a superuser creates a staff or superuser account; the new user is visible under the requested name with the hashed password, holds a uid no other row holds, and is a plain member of the default group |
| IamUsers.CreateUser | iam/signals.py:15-19 | the three tables become `UserCreated`'s on success and the new user's key is returned; on failure the groups and memberships are unchanged |
| IamUsers.JoinDefaultGroup | iam/signals.py:15-19 | the user joins the default group as a member, the group being created first when it is missing; a clash on creating it changes nothing |
| IamUsers.UpdatePasswordField | iam/api/serializers.py:125-136 | a missing password is accepted exactly on a partial update; a blank one is always accepted; a non-empty one exactly when at most 128 characters and passed by the validators |
| IamUsers.UpdateAdmission | iam/api/views.py:30-75 | an anonymous request is refused; an admitted update names a visible user the requester may change, uses the full serializer exactly when staff name a user by key (and then the password passed its field), assigns no privilege unless the requester is a superuser, and removes a superuser flag only when another superuser exists |
| IamUsers.UpdateKeepsASuperuser | iam/api/views.py:62-73 | an update never leaves the system without a superuser |
| IamUsers.UpdatePrivilegeRules | iam/api/views.py:55-60 | a requester without the superuser flag grants no superuser flag and no staff flag to a non-superuser; username and uid never change, the saved row keeps superuser implying staff, and other rows are unchanged |
| IamUsers.UpdatePasswordRules | iam/api/serializers.py:101-105 | the password changes exactly when staff or a superuser names the user by key and sends a non-empty password the validators pass, and then it becomes its hash |
| IamUsers.FirstSoleOwnership | iam/api/views.py:85-99 | finds an owner membership whose group has at most one owner, or none exists among the listed ones |
| IamUsers.UserRemoval | iam/api/views.py:77-110 | an anonymous request is refused; an admitted removal names a visible user, who owns no group alone, and who is a superuser only when another superuser exists |
| IamUsers.RemovalPrivilegeRules | iam/api/views.py:77-83 | outside the superuser, a user deletes only themselves or, as staff, someone with neither the staff nor the superuser flag |
| IamUsers.RemovalKeepsASuperuser | iam/api/views.py:101-108 | deleting a user never leaves the system without a superuser |
| IamUsers.RemovalKeepsOwners | iam/api/views.py:85-99 | every group that had an owner still has one after the user is deleted |
| IamUsers.DestroyUser | iam/api/views.py:77-110 | a refused removal changes nothing; an admitted one runs `DeleteUser`: on success the row is retired and the user's memberships and tokens go, and when a server refuses the error is "Invalid server." and users and memberships are unchanged |
| IamGroups.GroupNameField | iam/models.py:320-327 | accepted exactly when non-blank, not held by a visible group, at most 128 characters, a slug and accepted by `ValidateGroupName`; an accepted name is returned unchanged |
| IamGroups.AcceptedGroupNamesAreSlugs | iam/api/serializers.py:184-198 | every name `validate_name` accepts also matches the slug pattern |
| IamGroups.DisplayNameField | iam/models.py:328-332 | accepted exactly when non-empty and at most 128 characters |
| IamGroups.GroupAdmission | iam/api/views.py:113-117 | an admitted group was requested by staff or a superuser and is saved with the requested name and display name |
| IamGroups.CreatorOwnsNewGroup | iam/api/views.py:129-134 | a new group is visible under the requested name and has exactly one owner, its creator, who holds the staff or superuser flag |
| IamGroups.CreateGroup | iam/api/views.py:129-134 | groups and memberships become `GroupCreated`'s on success, returning the new key; on failure nothing changes |
| IamGroups.GroupUpdate | iam/api/serializers.py:229-231 | an update succeeds only on a visible group whose manager or owner, or a superuser, asked |
| IamGroups.UpdateGroup | iam/api/serializers.py:229-231 | the group table becomes `GroupUpdate`'s on success and is unchanged on failure |
| IamGroups.GroupRemoval | iam/api/views.py:136-143 | an admitted removal names a visible group other than `alpacon` |
| IamGroups.GroupRemovalRules | iam/api/views.py:136-143 | the default group is never removed, and a removal is by a superuser or an owner of the group |
| IamGroups.DestroyGroup | iam/api/views.py:136-143 | a refused removal changes nothing; an admitted one runs `DeleteGroup`: on success the group is retired and its live memberships go, and when a server refuses the error is "Invalid server." and nothing else changes |
| IamGroups.CreatedMembershipRules | iam/api/views.py:162-174 | a created membership joins a visible user to a visible group other than `alpacon` with the requested role (member by default); outside the superuser the requester manages that role in the group; (user, group) pairs stay unique |
| IamGroups.CreateMembership | iam/api/views.py:162-174 | the membership table becomes `MembershipCreated`'s on success, returning the key; on failure nothing changes |
| IamGroups.MembershipUpdateAccess | iam/api/views.py:176-183 | an admitted update names a visible membership and, outside the superuser, comes from an owner of its group |
| IamGroups.OwnerPatchWithoutRoleRaises | iam/api/views.py:184-186 | a superuser's `PATCH` without a role on an owner's membership fails with `KeyError` rather than leaving it unchanged |
| IamGroups.MembershipUpdate | iam/api/views.py:184-197 | as intended: an admitted update without a role leaves the table unchanged |
| IamGroups.UpdateAgreesWhenRoleGiven | iam/api/views.py:184-197 | the written and the intended update agree whenever a role is given or the membership is not an owner's |
| IamGroups.ManagersCannotChangeRoles | iam/api/views.py:176-183 | a manager who is not an owner passes the object permission on a member's membership yet is refused by "Requires group owner." |
| IamGroups.DefaultGroupRolesCanChange | iam/api/views.py:176-197 | a superuser may change the role of a membership in `alpacon`, which only creation and deletion refuse |
| IamGroups.UpdateKeepsOwners | iam/api/views.py:184-196 | a role change never leaves a group that had an owner without one |
| IamGroups.UpdateMembership | iam/api/views.py:176-197 | the membership table becomes `MembershipUpdate`'s on success and is unchanged on failure |
| IamGroups.RemovalPrivilegeIsTheObjectPermission | iam/api/views.py:199-210 | `perform_destroy`'s privilege check admits exactly the requesters the object permission admits for `DELETE`, so it never refuses on its own |
| IamGroups.RemovalRules | iam/api/views.py:199-228 | a group's only owner's membership is never removed; a removal is of a visible membership outside `alpacon` and removes exactly that row |
| IamGroups.RemovalKeepsGroupOwners | iam/api/views.py:219-227 | removing a membership never leaves a group that had an owner without one |
| IamGroups.DestroyMembership | iam/api/views.py:199-228 | the membership table becomes `MembershipRemoval`'s on success and is unchanged on failure |
| ServerApi.ServerObjectPermission | servers/api/permissions.py:9-16 | never an explicit `False`; every safe method is granted |
| ServerApi.ServerAccessRules | servers/api/permissions.py:9-16 | for a write: an agent gets exactly its own server, an ordinary user exactly the servers they own, an anonymous caller nothing, staff and superusers every server |
| ServerApi.NoteObjectPermission | servers/api/permissions.py:24-30 | never an explicit `False`; a safe method and the note's author are always granted |
| ServerApi.PrivateNoteIsWritableOnlyByItsAuthor | servers/api/permissions.py:24-30 | a private note is writable exactly by its author, not by staff or superusers |
| ServerApi.PublicNoteWriters | servers/api/permissions.py:24-30 | a note that is not private is writable exactly by staff, superusers and its author |
| ServerApi.OnlyUsersReachServers | servers/api/serializers.py:319-327 | only a signed-in user reaches a server through the related-server field |
| ServerApi.ActionCheck | servers/api/serializers.py:259-268 | accepted exactly on a commissioned, connected server; "not commisioned" is reported before "not connected" |
| ServerApi.RunAction | servers/api/views.py:116-123 | a refused action creates no command and sends nothing; an accepted one on a usable server creates its action command under the next key, for the requester, at the current time; an unusable server gets "Invalid server." and no command |
| ServerApi.StarCheck | servers/api/serializers.py:288-299 | starring is accepted exactly for an unstarred server when the user has fewer than five stars, unstarring exactly for a starred one; each refusal gets its own message, and the accepted value is the requested status |
| ServerApi.Starred | servers/api/serializers.py:306-316 | starring adds the row under the new key; unstarring removes exactly the row found and keeps every other |
| ServerApi.SetStar | servers/api/views.py:126-148 | the result is `StarCheck`'s; a refusal leaves the star table, an acceptance makes it `Starred`'s |
| ServerApi.StarQuotaIsKept | servers/api/serializers.py:288-299 | a user with at most five stars still has at most five after any accepted request, and no other user's stars change (`StarsOf` is the user's stars) |
| ServerApi.StarThenUnstarRestores | servers/api/serializers.py:306-316 | starring a server and then unstarring it leaves the star table as it was |
| ServerApi.NoteCreation | servers/api/serializers.py:352-366 | accepted exactly when the server is one the requester reaches, the content is non-blank (the `content` column has no `blank=True`) and at most 512 characters, and a pinned note finds fewer than three pinned notes on its server; the note's author is the requester; a fourth pin is refused with its message |
| ServerApi.CreateNote | servers/api/views.py:255-256 | the note table gains `NoteCreation`'s row under the new key on success and is unchanged on failure |
| ServerApi.NoteUpdate | servers/api/serializers.py:336-349 | an update succeeds only on a note the requester sees and may write; a blank content is refused as blank; the server and author never change; content, pin and privacy follow the request or stay; a new pin finds fewer than three pinned notes; an invisible note is not found |
| ServerApi.UpdateNote | servers/api/serializers.py:336-349 | the note table takes `NoteUpdate`'s row on success and is unchanged on failure |
| ServerApi.NoteRemoval | servers/api/views.py:224-247 | a removal succeeds exactly on a note the requester sees and may delete, and removes exactly that note |
| ServerApi.DestroyNote | servers/api/views.py:224-247 | the note table becomes `NoteRemoval`'s on success and is unchanged on failure |
| ServerApi.PrivateNotesStayWithTheirAuthor | servers/api/views.py:237-241 | another user's private note is not found for update or deletion, whoever asks |
| ServerApi.QuotaEverywhere | servers/api/serializers.py:342-366 | under the pin quota every server has at most three pinned notes, not only those that have notes (`PinnedOn` is a server's pinned notes) |
| ServerApi.PinningKeepsQuota | servers/api/serializers.py:342-366 | writing a note whose new pin finds fewer than three pinned notes on its server keeps the quota on every server |
| ServerApi.NoteWritesKeepPinQuota | servers/api/serializers.py:342-366 | creating or updating a note through the API never takes a server past three pinned notes |
| ServerApi.RawKeyIsNeverStored | servers/api/serializers.py:52-56 | the raw key is never what is stored, so long as hashing changes it (`ServerUpdated` is the row the update saves) |
| ServerApi.UpdateServer | servers/api/serializers.py:52-56 | the server table takes `ServerUpdated`'s row for that server and keeps the rest |
| Proc.RaisingOneFlag | proc/models.py:150-184 | the flag bits are independent: raising one clear bit turns on exactly the property it stands for and changes no other |
| Proc.NoFlagsNoProperty | proc/models.py:171-184 | an interface with no flags is neither up, running, a loopback nor point-to-point |
| Proc.FlagExamples | proc/models.py:150-184 | illustration: flags `0x1043` read as up and running, `0x49` as up, running and loopback, `0x10d1` as up, running and point-to-point |
| Proc.WithBootTime | proc/models.py:85-88 | a clock report without a boot time gets `datetime` minus `uptime` seconds; one with a boot time is kept whole; no other field changes |
| Proc.BootTimeIsDerivedOnce | proc/models.py:85-88 | saving a clock report again changes nothing |
| Proc.IamGroupAsWritten | proc/models.py:120-125 | as written: `None` without a primary group; a success on a primary group is that group's linked IAM group, never `None` |
| Proc.UnlinkedPrimaryGroupRaises | proc/models.py:120-125 | a primary group linked to no IAM group makes the property raise `AttributeError` |
| Proc.IamGroup | proc/models.py:120-125 | as intended: `None` without a primary group, otherwise the primary group's IAM group, `None` when it has none |
| Proc.IamGroupAgreesWhereDefined | proc/models.py:120-125 | the intended property agrees with the written one wherever that one succeeds, never fails on a stored group, and is `None` exactly when either link is missing |
| Proc.Uninstall | proc/models.py:231-255 | an unusable server gets "Invalid server." and no command; otherwise the uninstall command for the requester is created under the next key, and only the system-package variant returns it; the pushes appended to the outbox carry, once to each open session of its server, the request of every command saved here that was delivered at once, and nothing else |
| Proc.UninstallLinesTellKindsApart | proc/models.py:231-255 | the two kinds of package never share an uninstall line, whatever their names (`UninstallLine` builds the line) |
| Proc.NormalizedName | proc/api/serializers.py:19-27 | `Debian`, `CentOS` and `RHEL` come exactly from their long or short names; every other name is kept |
| Proc.NormalizedNameIsIdempotent | proc/api/serializers.py:19-27 | normalising a normalised name changes nothing |
| Proc.BeforeFirst | proc/api/serializers.py:34-36 | `rsplit('(')[0]` is a prefix without the separator, ending at its first occurrence |
| Proc.MajorMinor | proc/api/serializers.py:31-32 | `<major>.<minor>` exactly when both are given; a missing major, then a missing minor, raises `KeyError`, and a `None` one `TypeError` |
| Proc.ValidatedOs | proc/api/serializers.py:29-40 | the name is normalised; CentOS and RHEL get `<major>.<minor>` and fail exactly when that fails; other systems get their reported version, cut for Ubuntu and Debian; an empty `platform_like` becomes the platform; a missing one raises |
| Proc.StripOneTrailingSpace | proc/api/serializers.py:34-36 | a text with one trailing space and none elsewhere at its ends strips to the text before that space |
| Proc.UbuntuKeepsTheRelease | proc/api/serializers.py:33-34 | `<release> LTS (<code name>)` becomes `<release>` for Ubuntu |
| Proc.DebianKeepsTheRelease | proc/api/serializers.py:35-36 | `<release> (<code name>)` becomes `<release>` for Debian |
| Proc.RedHatExamples | proc/api/serializers.py:29-40 | a CentOS report is renamed with the version built from major and minor; a RHEL one whose minor is `None` raises `TypeError` |
| Proc.Broadcast | proc/api/serializers.py:82-89 | a falsy broadcast becomes `None`, a missing one raises `KeyError`, any other is kept |
| ServerMeta.ValidAddresses | proc/api/serializers.py:82-89 | the addresses pass exactly when every broadcast does; each validated address keeps its fields with the broadcast normalised; a failure comes from a failing item |
| ServerMeta.Validated | servers/api/serializers.py:141-155 | a report is valid exactly when its OS part and its addresses, when present, validate; the valid OS part is `ValidatedOs`'s |
| ServerMeta.Refreshed | servers/api/serializers.py:157-168 | `updated_at` is always the current time; `version` and `osquery_version` keep their value when absent from the report and otherwise take the reported value, a reported null clearing them; `load` changes only when reported, to the report's average; a new OS report sets the server's platform to its `platform_like`; no other column changes |
| ServerMeta.LinkedGroup | servers/api/serializers.py:183-186 | the IAM group whose gid and name both match, `None` exactly when there is none; with unique gids the match is the only one |
| ServerMeta.LinkedUser | servers/api/serializers.py:192-195 | the IAM user whose uid and username both match, `None` exactly when there is none; with unique uids the match is the only one |
| ServerMeta.GroupRows | servers/api/serializers.py:181-187 | one system group row per reported group, in order, linked to its matching IAM group |
| ServerMeta.FirstWithGid | servers/api/serializers.py:196-200 | the index of the first reported group with the gid, `None` exactly when none has it |
| ServerMeta.UserRows | servers/api/serializers.py:190-206 | one system user row per reported account, in order |
| ServerMeta.AccountsAreLinkedExactly | servers/api/serializers.py:181-206 | a system group is linked only to an IAM group with its gid and name, a system user only to an IAM user with its uid and username, and to a new group exactly when that is the first reported group with its gid |
| ServerMeta.GetGroup | servers/api/serializers.py:183-186 | the lookup returns `LinkedGroup`'s answer |
| ServerMeta.GetUser | servers/api/serializers.py:192-195 | the lookup returns `LinkedUser`'s answer |
| ServerMeta.BuildGroups | servers/api/serializers.py:181-187 | the loop builds exactly `GroupRows` |
| ServerMeta.FindGroup | servers/api/serializers.py:196-200 | the inner loop finds exactly `FirstWithGid` |
| ServerMeta.BuildUser | servers/api/serializers.py:192-206 | one account's row is exactly `UserRow` |
| ServerMeta.BuildUsers | servers/api/serializers.py:190-207 | the loop builds exactly `UserRows` |
| ServerMeta.ReplacingKeepsTheRest | servers/api/serializers.py:177-236 | replacing a server's rows by new ones under fresh keys keeps every other row as it was (`Numbered` is `bulk_create` under fresh keys) |
| ServerMeta.LastNamed | servers/api/serializers.py:214-216 | the last of the first `n` new interfaces with the name, `None` exactly when none has it |
| ServerMeta.NameIndexFindsTheLast | servers/api/serializers.py:214-216 | `interface_map[name]` is the key of the last new interface with that name, and a name no new interface has is missing |
| ServerMeta.BuildNameIndex | servers/api/serializers.py:214-216 | the loop builds exactly `NameIndex` |
| ServerMeta.AddressRows | servers/api/serializers.py:217-224 | address rows are built exactly when every address names a reported interface, each under that interface; otherwise the error is `KeyError` of a missing name |
| ServerMeta.UnknownInterfaceRaises | servers/api/serializers.py:217-224 | an address naming an interface the report does not list makes the commit raise `KeyError` |
| ServerMeta.ReplaceAccounts | servers/api/serializers.py:177-207 | the server's accounts and groups are deleted and the reported ones created in their place |
| ServerMeta.ReplaceInterfaces | servers/api/serializers.py:209-224 | the server's interfaces and their addresses are deleted, the reported interfaces created, then their addresses unless building them fails or a pair repeats |
| ServerMeta.SaveColumns | servers/api/serializers.py:157-175 | the server's columns become `Refreshed`'s and the clock report, if any, is stored with its boot time derived |
| ServerMeta.SaveAccounts | servers/api/serializers.py:177-207 | the accounts and groups are replaced when both are reported and kept otherwise |
| ServerMeta.SaveNetwork | servers/api/serializers.py:209-236 | the interfaces and addresses are replaced when both are reported; the packages follow unless building the addresses failed |
| ServerMeta.Save | servers/api/serializers.py:157-236 | the whole save in order: columns, accounts, network; a failure on the addresses stops it before the packages |
| ServerMeta.Commit | servers/api/views.py:105-113 | a caller other than an agent is refused and an invalid report reported, both writing nothing; a valid report from an agent is saved |
| ServerMeta.AccountsOfOtherServersAreKept | servers/api/serializers.py:177-207 | a commit keeps every account and group row of another server |
| ServerMeta.NetworkOfOtherServersIsKept | servers/api/serializers.py:209-236 | a commit keeps every interface, address and package row of another server |
| ServerMeta.ReportedGroupsReplaceTheOldOnes | servers/api/serializers.py:177-188 | after the save the server's groups are exactly the reported ones, in order under the fresh keys |
| ServerMeta.ReportedUsersReplaceTheOldOnes | servers/api/serializers.py:177-207 | after the save the server's accounts are exactly the reported ones, in order under the fresh keys |
| ServerMeta.ReportedInterfacesReplaceTheOldOnes | servers/api/serializers.py:209-213 | after the save the server's interfaces are exactly the reported ones, in order under the fresh keys (`InterfaceRows` builds them) |
| ServerMeta.ReportedPackagesReplaceTheOldOnes | servers/api/serializers.py:226-235 | a reported package list replaces the server's packages of that kind, in order under the fresh keys (`PackageRows` builds them) |
| ServerMeta.FailedAddressesLeaveInterfacesBare | servers/api/serializers.py:209-224 | when the addresses fail the new interfaces stay without any address, and the old ones are gone with theirs (`AddressesOf` is the addresses deleted with the interfaces) |
| SemVer.NumberAt | utils/models.py:11 | `0\|[1-9][0-9]*` matches at the start exactly when a digit is there; what it takes is a number with no leading zero and, unless it starts with `0`, the whole digit run |
| SemVer.DottedAt | utils/models.py:11 | `\.(0\|[1-9][0-9]*)` matches exactly at a dot followed by a digit, taking a number with no leading zero |
| SemVer.OptionalPart | utils/models.py:11 | the optional `.<number>` part takes `DottedAt`'s match, and the part and the rest put back together are the text |
| SemVer.Matched | utils/models.py:11 | `regex.match` succeeds exactly on a text starting with a digit; the major and minor parts are numbers with no leading zero, the major the number taken at the start |
| SemVer.MatchCoversTheFirstLine | utils/models.py:11 | a match covers a prefix of the text ending at its first line break, the label holding no line break |
| SemVer.Parse | utils/models.py:46-51 | a version is read exactly when the text matches; parts that did not take part read as 0 and the empty label |
| SemVer.Saved | utils/models.py:44-53 | the parse inside the `try`: the columns follow the text when it matches and are left as they were otherwise; the text itself never changes |
| SemVer.Stored | utils/models.py:35-54 | the whole save succeeds exactly when the `version` text fits its 64 characters, the parsed numbers fit PostgreSQL's `integer` and the label its 32 characters, and then leaves `Saved`'s row; otherwise it raises a data error |
| SemVer.SavingIsIdempotent | utils/models.py:44-54 | saving twice gives what saving once gives |
| SemVer.NumberTakesAPrintedNumber | utils/models.py:11 | the number pattern takes exactly a printed number that no digit follows |
| SemVer.PrintedVersionsReadBack | utils/models.py:11-51 | `<major>.<minor>.<patch>[-]<label>` reads back as the same numbers and label, for a one-line label that, without the dash, starts with neither a digit nor a `-` |
| SemVer.PrintedVersionsAreStored | utils/models.py:35-54 | such a printed version whose text, numbers and label fit their columns is saved as exactly those numbers and label, whatever the row held |
| SemVer.LongVersionTextsAreRefused | utils/models.py:35-54 | such a printed version whose numbers and label fit but whose text is over 64 characters matches the pattern, yet its save raises "value too long for type character varying(64)" |
| SemVer.WideNumbersAreRefused | utils/models.py:36-54 | such a printed version with a number above 2147483647 matches the pattern, yet its save raises "integer out of range" |
| SemVer.DottedTakesAPrintedNumber | utils/models.py:11 | the optional `.<number>` part takes exactly a printed number that no digit follows |
| SemVer.FullVersionExample | utils/models.py:11-51 | `1.2.3-beta` reads as 1, 2, 3 and `beta` |
| SemVer.LabelWithoutDashExample | utils/models.py:11-51 | `1.2.3beta` reads as 1, 2, 3 and `beta` |
| SemVer.MajorOnly | utils/models.py:11 | text after the major number that is neither a `.<number>` part nor a `-` is all label |
| SemVer.LeadingZeroIsAWholeNumber | utils/models.py:11-51 | a leading `0` is the whole major number: a digit after it starts the label |
| SemVer.BareDotStartsTheLabel | utils/models.py:11-51 | a dot with no digit after it starts the label |
| SemVer.LeadingZeroExample | utils/models.py:11-51 | `01.2` reads as 0.0.0 with the label `1.2` |
| SemVer.TrailingDotExample | utils/models.py:11-51 | `1.` reads as 1.0.0 with the label `.` |
| SemVer.PrefixedVersionExample | utils/models.py:44-54 | `v1.2` does not match, so saving it leaves the columns as they were |
| Websh.WithToken | websh/models.py:152-158 | a channel without a token gets the drawn one, made now and expiring one share timeout later; a channel with a token is kept whole; nothing else changes |
| Websh.UserChannelSaved | websh/models.py:196-199 | a password is drawn only for a channel without one, then the channel gets its token; an existing token and expiry are kept, and so are the session, user and flags |
| Websh.TokenValid | websh/models.py:160-161 | valid exactly when the expiry is strictly after now; a channel with no expiry makes the comparison raise `TypeError` |
| Websh.SavingAgainKeepsTheSecrets | websh/models.py:152-158 | saving a user channel again keeps its token, its times and its password |
| Websh.NewTokenLastsTheShareTimeout | websh/models.py:152-161 | a new token is valid exactly before one share timeout has passed, and already invalid at the instant of expiry |
| Websh.OnlyTheDrawnPasswordIsValid | websh/models.py:196-202 | a channel saved without a password accepts exactly the drawn one |
| Websh.UserWsUrl | websh/models.py:163-167 | the user URL starts with `<root>ws/websh/` |
| Websh.ServerWsUrl | websh/models.py:169-173 | the pty URL starts with `<root>ws/websh/pty/` |
| Websh.UserUrlsNameTheirChannel | websh/models.py:163-167 | two equal user URLs under one root are for the same channel and token |
| Websh.UserUrlsAreNotPtyUrls | websh/models.py:163-173 | a user URL is never a pty URL |
| Websh.SavingAFileAgainChangesNothing | websh/models.py:247-252 | saving a file twice gives what saving once gives (`FileSaved` is the row `save` leaves) |
| Websh.Basename | websh/models.py:283 | the basename is a suffix of the path without `/`, preceded by a `/` when shorter than the path |
| Websh.Join | websh/models.py:286 | `os.path.join(a, b)` ends in `b` |
| Websh.BasenameAfterDirectory | websh/models.py:283-286 | a name without `/` after a directory ending in `/`, or after nothing, is the basename |
| Websh.JoinedNameIsTheBasename | websh/models.py:286-293 | joining a plain name to any directory ends the path in that name |
| Websh.UsersForHome | websh/models.py:291 | a path without `/home` is kept |
| Websh.HomeMovesToUsers | websh/models.py:291 | `/home<rest>` becomes `/Users<rest>` when the rest holds no `/home` |
| Websh.UploadPath | websh/models.py:283-293 | a path naming a file is used as is; a directory path gets the name appended; with no path the file goes to the system user's home on debian and rhel, the user's home under `/Users` on darwin, and the bare name elsewhere; only the no-path case reads the platform, failing when none was reported |
| Websh.UploadLandsOnItsName | websh/models.py:283-293 | whichever branch, an upload of a plain name lands on a file of that name unless the path names the file |
| Websh.NewDownloadedFile | websh/api/serializers.py:144-146 | the name is the path's basename; the path, server and user are as given; the account stays at no user name and the `alpacon` group; no command yet; the file expires one day from now |
| Websh.TerminalAccount | websh/mixins.py:7-50 | without a server only the defaults apply; with one the checks of `CommandApi.Account` decide |
| Websh.AccountDefaultsToTheRequester | websh/mixins.py:14-15 | the account is the requester's name unless a non-empty one was given, and a non-empty group is kept |
| Websh.ValidRoot | websh/api/serializers.py:40-43 | root is refused exactly when the requester is neither staff nor a superuser, with its message |
| Websh.NewSessionHasOneMasterChannel | websh/api/serializers.py:45-47 | a new session has exactly one channel, the master writable one, with no user, the drawn token and the drawn password |
| Websh.CreateSession | websh/api/serializers.py:45-54 | the session row is stored, and its only channel is the master writable one saved with a token and password; channels stay with their sessions; the answer is that channel's browser URL |
| Websh.Share | websh/api/views.py:72-85 | a further channel of the session is saved, not master, read-only as asked; the answer is the join page, the drawn password and the expiry one share timeout from now |
| Websh.AdmittedMeansBothChecksPass | websh/api/serializers.py:91-96 | the join filter admits a channel exactly when it belongs to the session, `is_password_valid` holds and `is_token_valid` is true |
| Websh.SharedChannelAdmitsUntilExpiry | websh/api/serializers.py:91-100 | a channel shared at `t0`, whose password no other channel of the session takes, is the only one a join admits before `t0` plus the share timeout, and none admits it after |
| Websh.JoinSession | websh/api/serializers.py:88-116 | a blank password is refused first; no admitting channel is "does not match or expired", several are "Unkown error", and both change nothing; through the one, the answer carries its URL, read-only flag and the session's size, and an authenticated joiner is recorded on it |
| Websh.UpdateSession | websh/api/views.py:66-69 | a closed session is refused and nothing changes; otherwise the size is saved, then `resizepty` is issued for the session's user with it; the pushes appended to the outbox carry, once to each open session of its server, the request of every command saved here that was delivered at once, and nothing else |
| Websh.PrepareOwnAccount | websh/models.py:90-92 | `prepare_user` runs only for the user's own account from an empty dependency list; the pushes appended to the outbox carry, once to each open session of its server, the request of every command saved here that was delivered at once, and nothing else |
| Websh.IssueOpenpty | websh/models.py:94-117 | the platform is read, then `openpty` is issued after the dependencies with the pty URL, the size, the account and the home directory; the pushes appended to the outbox carry, once to each open session of its server, the request of every command saved here that was delivered at once, and nothing else |
| Websh.OpenTerminal | websh/models.py:86-117 | a session without a user fails on its name and issues nothing; otherwise the account is prepared when it is the user's own, then `openpty` is issued; the pushes appended to the outbox carry, once to each open session of its server, the request of every command saved here that was delivered at once, and nothing else |
| Websh.TerminalWaitsForTheAccount | websh/models.py:86-117 | the `openpty` command is the last one issued and waits for exactly the commands issued before it in the same call |
| Websh.DependenciesAreFresh | servers/models.py:407-430 | the dependencies an own-account preparation returns are exactly the keys it used |
| Websh.PreparedKeysAreFresh | servers/models.py:407-430 | `prepare_user` from an empty dependency list returns exactly the keys it used |
| Websh.Issue | servers/models.py:259-286 | `execute` of an internal command, seen through the command table; the pushes appended to the outbox carry, once to each open session of its server, the request of every command saved here that was delivered at once, and nothing else |
| Websh.Upload | websh/models.py:279-315 | as written: the target path, then the account preparation, then `execute`, which rejects the `username` and `groupname` arguments; the pushes appended to the outbox carry, once to each open session of its server, the request of every command saved here that was delivered at once, and nothing else |
| Websh.NoUploadIsSent | websh/models.py:300-312 | as written, every upload fails and issues no `download` command |
| Websh.IssueUpload | websh/models.py:279-312 | corrected: `download "<target>"` is issued after the account preparation with the download URL and the account in its data; the pushes appended to the outbox carry, once to each open session of its server, the request of every command saved here that was delivered at once, and nothing else |
| Websh.UploadAsIntended | websh/models.py:279-315 | corrected: the command is issued, recorded on the file and the file saved; a failure leaves the file table; the pushes appended to the outbox carry, once to each open session of its server, the request of every command saved here that was delivered at once, and nothing else |
| Websh.IssueDownload | websh/models.py:336-356 | `upload "<path>"` is issued after the account preparation with the upload URL and the account in its data; the pushes appended to the outbox carry, once to each open session of its server, the request of every command saved here that was delivered at once, and nothing else |
| Websh.Download | websh/models.py:336-359 | the command is issued, recorded on the file and the file saved; a failure leaves the file table; the pushes appended to the outbox carry, once to each open session of its server, the request of every command saved here that was delivered at once, and nothing else |
| Websh.IssuedAfterPreparation | servers/models.py:259-286 | a command issued after an own-account preparation is stored under the next key with its line, its JSON-encoded data and requester, and waits for exactly the commands the preparation issued |
| Websh.DownloadWaitsForTheAccount | websh/models.py:336-359 | a successful download stores `upload "<path>"` with the upload URL and account, requested by the file's user, waiting for exactly the account commands issued before it |
| Websh.UploadWaitsForTheAccount | websh/models.py:279-315 | a successful corrected upload stores `download "<target>"` with the download URL and account, requested by the file's user, waiting for exactly the account commands issued before it |

## Left out

- Database machinery: querysets, transactions, `select_for_update` and migrations become in-memory tables. Concurrent sweeps and row locking are not modelled, and every operation runs to completion on its own.
- Channel layer, Redis, Celery and the async consumers: a push is an append to `Db.outbox` and a `.delay` is an append to `Db.tasks`. Delivery and the later execution of queued Celery jobs are not modelled.
- LDAP: every LDAP branch of the user and group serializers and models, including those of `User.delete` and `Group.delete`, is a foreign service.
- Password and key hashing, `get_random_string`, and JWT handling: `make_password` and `check_password` are function parameters, random strings are parameters, and JWT 'Bearer' authentication is not modelled.
- `json.dumps`: an encoded payload is kept as the symbolic value `Dumped(json)`, which is always truthy.
- Floating point: the hourly, daily and weekly `response_delay` averages, `load` as a number, and `elapsed_time`. Times are integer seconds.
- Helpers that the core calls but does not define are parameters: `drop_concurrent_sessions`, `Server.is_systemuser`, `Server.has_access`, `Server.systemuser_home_directory`, `Group.get_default`, and the clock-drift `diff` of the latest time record. The single-open-session policy for non-concurrent clients is therefore not proved.
- `WebSocketClient._last_session`: the per-object cache is not modelled. `last_session` is recomputed from the table each time.
- The results of the `ping` and `debug` commands (the debug JSON parser and request statistics), email sending, and installer template rendering.
- CommandApi.Drafted: the `username` saved on the row defaults to the requester's username, which may hold up to 150 characters; a default over the column's 128 characters would make PostgreSQL refuse the save, which the model does not state.
- DRF `CharField` whitespace trimming before validators, field type coercion, and the framework's choice of which error to report first: the model reports the first failing rule in the order the code checks them.
- Query results that the views compute with querysets (the requester's owned groups, accounts on servers, the default group) are parameters of the view methods. The view routing and queryset filters of the server and websh views are left out, apart from the command listing filter.
- `InterfaceSerializer.create` and `update`: the REST path that writes one interface with its addresses. The agent's metadata report, which replaces interfaces and addresses, is modelled in `ServerMeta`.
- The one-line permission classes of the security, API token and websh APIs, as well as admin, URL configuration, settings, pagination and test-data population.
- Constructors of the Django models: rows are built directly as datatype values.
- Primary keys: the source's UUID keys become natural numbers (`Common.Id`). Wherever a key appears in text (the `session_id` of `openpty`, the websh URLs, the file URLs) it is written in decimal by `DecimalText`, not in the UUID's hyphenated hex form. Injectivity of that text is what the lemmas rely on.
- Unicode: Python's `\w` in the `Token` header pattern is Unicode-aware, but `Auth.IsWordChar` accepts only ASCII letters, digits and `_`. A key containing non-ASCII word characters is therefore read differently.
- Unicode: the database's `UPPER` in the case-insensitive email match covers every cased letter, but `PasswordReset.Upper` folds only `a`-`z`. Two emails differing only in non-ASCII case are told apart by the model.
- Unicode: `str.strip()` removes every Unicode whitespace character, but `ServerOps.Strip` removes only the six ASCII ones (`ServerOps.IsSpace`). This affects the `adduser` comment and the Ubuntu and Debian version parsing.
- IamUsers.CreateUser: `create_user` normalises the email's domain part (`normalize_email`) and the username (NFKC, `normalize_username`). The model stores both as given.
- ServerMeta.Save: the `info` part of the agent's report (`systeminfo_set.create`) creates a row that the model does not keep. Of the `os` part only `platform_like` is kept, as the server's platform; the other fields of the OS version row are not modelled.
- ServerApi.ServerUpdated: `ServerSerializer` also accepts writes of `remote_ip`, `is_connected`, the CPU, memory and OS fields, `load`, `uptime`, `boot_time`, `last_connectivity` and `started_at`. `ServerPatch` covers only `name`, `key`, `owner` and `groups`, the fields the update logic handles.
- ServerApi.NoteUpdate: a `PUT` must carry every required field of `NoteSerializer`. The model treats `PUT` like `PATCH`, with omitted fields kept.
- SemVer.Stored: the database's refusal of a `version` text, number or label too wide for its column is modelled as one `DataError` with PostgreSQL's message; which column the database names, and other engines' behaviour, are not.
- IamGroups.GroupCreated, IamGroups.GroupUpdate: `GroupSerializer` also writes `tags`, `description` and `servers`. `servers` is the writable reverse side of `Server.groups`, so a create or an update, a manager's `PATCH` included, can attach the group to servers and so change who reaches them (`ServerApi.ServerReachable`) without issuing any account command. The model keeps only the name and the display name and leaves the server table and the two text columns as they were.

## Findings

| source | as written | input that shows it | evidently intended | confidence | as-written member | corrected member |
|---|---|---|---|---|---|---|
| iam/api/views.py:184-196 | `perform_update` reads `validated_data['role']` whenever the target membership is an owner's | a superuser sends PATCH `{}` to an owner's membership | a PATCH without a role keeps the current role, so the owner check is skipped | not executed | IamGroups.OwnerPatchWithoutRoleRaises | IamGroups.UpdateAgreesWhenRoleGiven |
| proc/models.py:120-125 | `iam_group` returns `self.group.iam_group.id` whenever the user has a primary group | a system user whose primary group (for example root's) has no IAM group | `None` when the primary group has no IAM group, as when there is no primary group | not executed | Proc.UnlinkedPrimaryGroupRaises | Proc.IamGroupAgreesWhereDefined |
| websh/models.py:300-312 | `upload` calls `execute` with `username=` and `groupname=`, which `Server.execute` (servers/models.py:259) does not accept | any upload to a server; `prepare_user` has already issued its account commands when the call raises `TypeError` | the upload command is issued after the account commands, as `download` does | not executed | Websh.NoUploadIsSent | Websh.UploadWaitsForTheAccount |
