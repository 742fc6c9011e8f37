// The command and event rows of the events app, and the pure parts of the
// command model: its status classification, response delay, permission rule
// and the request pushed to the agent.
module Commands {
  import opened Common
  import opened Sessions

  datatype Shell = System | Osquery | Internal

  function ShellName(s: Shell): (r: string)
    ensures r in {"system", "osquery", "internal"}
  {
    match s
    case System => "system"
    case Osquery => "osquery"
    case Internal => "internal"
  }

  /**
   * A command row. `runAfter` is the set of commands this one waits for; the
   * reverse relation (`run_before`) is computed by `RunBefore`.
   */
  datatype Command = Command(
    server: Id,
    shell: Shell,
    line: string,
    data: Option<Payload>,
    success: Option<bool>,
    result: Option<string>,
    scheduledAt: Option<Time>,
    deliveredAt: Option<Time>,
    ackedAt: Option<Time>,
    handledAt: Option<Time>,
    requestedBy: Option<Id>,
    username: string,
    groupname: string,
    runAfter: set<Id>)

  const DEFAULT_GROUPNAME: string := "alpacon"
  const CANCELLED_RESULT: string := "Cancelled due to prior commmand failure."

  /** Acked or delivered commands left without progress for longer than this are reported as stuck. */
  const STUCK_AFTER: int := 10 * MINUTE

  /** A fresh, undelivered command as `Command(...)` builds it, before its timestamps are set. */
  function NewCommand(server: Id, shell: Shell, line: string, data: Option<Payload>, requestedBy: Option<Id>): (c: Command)
    ensures c.server == server && c.shell == shell && c.line == line && c.data == data && c.requestedBy == requestedBy
    ensures c.deliveredAt.None? && c.ackedAt.None? && c.handledAt.None? && c.success.None? && c.result.None?
    ensures c.username == "" && c.groupname == DEFAULT_GROUPNAME && c.runAfter == {}
  {
    Command(server, shell, line, data, None, None, None, None, None, None, requestedBy, "", DEFAULT_GROUPNAME, {})
  }

  /** The commands that wait for `id` (Django's `run_before`). */
  function RunBefore(cmds: map<Id, Command>, id: Id): (r: set<Id>)
    ensures forall k :: k in r <==> k in cmds && id in cmds[k].runAfter
  {
    set k | k in cmds && id in cmds[k].runAfter
  }

  // ----- status -----

  datatype StatusText = Success | Failed | Stuck | Acked | Sent | Queued | Scheduled | Error
  datatype Color = SuccessColor | Danger | Warning | Secondary
  datatype StatusMessage =
    | FinishedAt(time: Time)
    | FailedAt(time: Time)
    | StartedNoResult
    | BeingExecuted
    | SentNoResponse
    | SentWaiting
    | OnDue
    | WillBeSent
    | NotImplementedState

  datatype CommandStatus = CommandStatus(text: StatusText, color: Color, cancellable: bool, message: StatusMessage)

  /**
   * The status shown for a command at time `now`. The first set timestamp
   * among handled, acked, delivered and scheduled (in that order) decides.
   */
  function Status(c: Command, now: Time): (st: CommandStatus)
    ensures st.text == Success <==> c.handledAt.Some? && c.success == Some(true)
    ensures st.text == Failed <==> c.handledAt.Some? && c.success != Some(true)
    ensures st.text == Stuck <==>
      (c.handledAt.None? &&
       if c.ackedAt.Some? then c.ackedAt.value < now - STUCK_AFTER
       else c.deliveredAt.Some? && c.deliveredAt.value < now - STUCK_AFTER)
    ensures st.text == Acked <==> c.handledAt.None? && c.ackedAt.Some? && c.ackedAt.value >= now - STUCK_AFTER
    ensures st.text == Sent <==> c.handledAt.None? && c.ackedAt.None? && c.deliveredAt.Some? && c.deliveredAt.value >= now - STUCK_AFTER
    ensures st.text == Queued <==> c.handledAt.None? && c.ackedAt.None? && c.deliveredAt.None? && c.scheduledAt.Some? && c.scheduledAt.value < now
    ensures st.text == Scheduled <==> c.handledAt.None? && c.ackedAt.None? && c.deliveredAt.None? && c.scheduledAt.Some? && c.scheduledAt.value >= now
    ensures st.text == Error <==> c.handledAt.None? && c.ackedAt.None? && c.deliveredAt.None? && c.scheduledAt.None?
    ensures st.cancellable <==> st.text in {Queued, Scheduled, Error}
    ensures st.color == Danger <==> st.text in {Failed, Stuck, Error}
    ensures st.color == SuccessColor <==> st.text == Success
    ensures st.color == Secondary <==> st.text == Scheduled
  {
    if c.handledAt.Some? then
      if c.success == Some(true) then CommandStatus(Success, SuccessColor, false, FinishedAt(c.handledAt.value))
      else CommandStatus(Failed, Danger, false, FailedAt(c.handledAt.value))
    else if c.ackedAt.Some? then
      if c.ackedAt.value < now - STUCK_AFTER then CommandStatus(Stuck, Danger, false, StartedNoResult)
      else CommandStatus(Acked, Warning, false, BeingExecuted)
    else if c.deliveredAt.Some? then
      if c.deliveredAt.value < now - STUCK_AFTER then CommandStatus(Stuck, Danger, false, SentNoResponse)
      else CommandStatus(Sent, Warning, false, SentWaiting)
    else if c.scheduledAt.Some? then
      if c.scheduledAt.value < now then CommandStatus(Queued, Warning, true, OnDue)
      else CommandStatus(Scheduled, Secondary, true, WillBeSent)
    else CommandStatus(Error, Danger, true, NotImplementedState)
  }

  /** A command can be cancelled exactly while it has not left the server: never delivered, acked or handled. */
  lemma CancellableIffNotSent(c: Command, now: Time)
    ensures Status(c, now).cancellable <==> c.handledAt.None? && c.ackedAt.None? && c.deliveredAt.None?
  {
  }

  /** Once a command is handled, its status no longer depends on the clock. */
  lemma HandledStatusIgnoresClock(c: Command, now1: Time, now2: Time)
    requires c.handledAt.Some?
    ensures Status(c, now1) == Status(c, now2)
  {
  }

  // ----- response delay and permissions -----

  /** Seconds between delivery and acknowledgement, clamped at 0; none unless both are set. */
  function ResponseDelay(c: Command): (d: Option<int>)
    ensures d.Some? <==> c.ackedAt.Some? && c.deliveredAt.Some?
    ensures d.Some? ==> d.value >= 0 && d.value >= c.ackedAt.value - c.deliveredAt.value
    ensures d.Some? ==> d.value == 0 || d.value == c.ackedAt.value - c.deliveredAt.value
  {
    if c.ackedAt.Some? && c.deliveredAt.Some? then
      var secs := c.ackedAt.value - c.deliveredAt.value;
      Some(if secs > 0 then secs else 0)
    else None
  }

  /** Reading is always allowed; any other permission only until the agent has acknowledged the command. */
  predicate HasPerm(c: Command, permission: string)
  {
    permission == "r" || c.ackedAt.None?
  }

  lemma AckRevokesWritePermission(c: Command, permission: string)
    requires permission != "r"
    ensures HasPerm(c, permission) <==> c.ackedAt.None?
    ensures HasPerm(c, "r")
  {
  }

  // ----- the request pushed to the agent -----

  /** `{query: 'command', command: {id, shell, line, user, group[, data]}}`; `data` only when truthy. */
  function Request(id: Id, c: Command): (m: Message)
    ensures m.CommandRequest? && m.id == id && m.line == c.line && m.shell == ShellName(c.shell)
    ensures m.user == c.username && m.group == c.groupname
    ensures m.data.Some? <==> c.data.Some? && Truthy(c.data.value)
    ensures m.data.Some? ==> m.data == c.data
  {
    CommandRequest(id, ShellName(c.shell), c.line, c.username, c.groupname,
                   if c.data.Some? && Truthy(c.data.value) then c.data else None)
  }

  // ----- retry, as the object holds it -----

  /**
   * The fields `retry()` assigns before saving: every timestamp cleared.
   * The command table never holds this value (see `Dispatch.Retry`).
   */
  function Retried(c: Command): (r: Command)
    ensures r.scheduledAt.None? && r.deliveredAt.None? && r.ackedAt.None? && r.handledAt.None?
    ensures r.(scheduledAt := c.scheduledAt, deliveredAt := c.deliveredAt, ackedAt := c.ackedAt, handledAt := c.handledAt) == c
  {
    c.(scheduledAt := None, deliveredAt := None, ackedAt := None, handledAt := None)
  }

  /** Cleared timestamps classify as the 'Error' state, not as queued. */
  lemma RetriedIsErrorState(c: Command, now: Time)
    ensures Status(Retried(c), now).text == Error
    ensures Status(Retried(c), now).cancellable
  {
  }

  // ----- events -----

  /** An event row; `count` grows when the same event repeats. */
  datatype Event = Event(server: Id, count: nat, record: string, reporter: string,
                         description: Option<string>, data: Option<Json>, addedAt: Time, updatedAt: Time)

  /** The reaction `handle_event` chooses for an event. */
  datatype EventEffect = MarkStarted | MarkCommissioned | NoEffect

  function EffectOf(reporter: string, record: string): (e: EventEffect)
    ensures e == MarkStarted <==> reporter == "alpamon" && record == "started"
    ensures e == MarkCommissioned <==> reporter == "alpamon" && record == "committed"
  {
    if reporter == "alpamon" && record == "started" then MarkStarted
    else if reporter == "alpamon" && record == "committed" then MarkCommissioned
    else NoEffect
  }

  /** Repeats within this window increase the existing event's count. */
  const REPEAT_WINDOW: int := 10 * MINUTE
}
