// The database as the control plane sees it: one map per table, plus the two
// effects that leave the process, recorded as logs: pushes down agent
// channels and background tasks queued for the worker.
module Store {
  import opened Common
  import opened Sessions
  import opened Commands
  import opened ServerRows
  import opened IamRows
  import opened TokenRows
  import opened ProcRows
  import opened WebshRows

  /** A background task handed to the worker queue (`.delay(...)`). */
  datatype Task =
    | ExecuteScheduledCommands(server: Option<Id>)
    | CheckServerStatus(server: Option<Id>)
    | DropConcurrentSessions(client: Id, session: Id)

  /** Every key of `m` is below `n`. */
  predicate KeysBelow<V>(m: map<Id, V>, n: nat)
  {
    forall k :: k in m ==> k < n
  }

  class Db {
    var servers: map<Id, Server>
    /** The `WebSocketClient` rows, servers among them (see `ClientTables`); sessions belong to these clients. */
    var wsClients: map<Id, ApiClient>
    var sessions: map<Id, Session>
    var commands: map<Id, Command>
    var events: map<Id, Event>
    var installers: map<Id, Installer>
    var notes: map<Id, Note>
    var stars: map<Id, Star>

    var users: map<Id, User>
    var groups: map<Id, Group>
    var memberships: map<Id, Membership>

    var apiTokens: map<string, ApiToken>
    var resetTokens: map<string, ResetToken>
    var acls: map<Id, Acl>

    var systemUsers: map<Id, SystemUser>
    var systemGroups: map<Id, SystemGroup>
    var interfaces: map<Id, Interface>
    var addresses: map<Id, InterfaceAddress>
    var packages: map<Id, Package>
    var pyPackages: map<Id, Package>
    var systemTimes: map<Id, SystemTime>

    var termSessions: map<Id, TermSession>
    var userChannels: map<Id, Channel>
    var ptyChannels: map<Id, Channel>
    var uploadedFiles: map<Id, FileRow>
    var downloadedFiles: map<Id, FileRow>

    /** Every push made down a session's channel, in order. */
    var outbox: seq<Push>
    /** Every background task queued, in order. */
    var tasks: seq<Task>
    /** The next unused command key (stands in for UUID generation). */
    var nextCommand: nat
    /** The next unused event key. */
    var nextEvent: nat
    /** The next unused session key. */
    var nextSession: nat

    /** Every command key in use is below `nextCommand`, so a new command never takes a key in use. */
    ghost predicate ValidCommands()
      reads this`commands, this`nextCommand
    {
      KeysBelow(commands, nextCommand)
    }

    /** Every event key in use is below `nextEvent`. */
    ghost predicate ValidEvents()
      reads this`events, this`nextEvent
    {
      KeysBelow(events, nextEvent)
    }

    /** Every session key in use is below `nextSession`. */
    ghost predicate ValidSessions()
      reads this`sessions, this`nextSession
    {
      KeysBelow(sessions, nextSession)
    }

    /** An empty database. */
    constructor ()
      ensures ValidCommands() && ValidEvents() && ValidSessions()
      ensures servers == map[] && wsClients == map[] && sessions == map[] && commands == map[] && events == map[]
      ensures outbox == [] && tasks == []
    {
      servers, wsClients, sessions, commands, events, installers, notes, stars := map[], map[], map[], map[], map[], map[], map[], map[];
      users, groups, memberships := map[], map[], map[];
      apiTokens, resetTokens, acls := map[], map[], map[];
      systemUsers, systemGroups, interfaces, addresses := map[], map[], map[], map[];
      packages, pyPackages, systemTimes := map[], map[], map[];
      termSessions, userChannels, ptyChannels, uploadedFiles, downloadedFiles := map[], map[], map[], map[], map[];
      outbox, tasks, nextCommand, nextEvent, nextSession := [], [], 0, 0, 0;
    }

    /** Saves a new command row under a fresh key. */
    method SaveCommand(c: Command) returns (id: Id)
      requires ValidCommands()
      modifies this`commands, this`nextCommand
      ensures ValidCommands() && id == old(nextCommand) && nextCommand == id + 1 && id !in old(commands)
      ensures commands == old(commands)[id := c]
    {
      id := nextCommand;
      commands := commands[id := c];
      nextCommand := nextCommand + 1;
    }

    /** Saves a new event row under a fresh key. */
    method SaveEvent(e: Event) returns (id: Id)
      requires ValidEvents()
      modifies this`events, this`nextEvent
      ensures ValidEvents() && id == old(nextEvent) && nextEvent == id + 1 && id !in old(events)
      ensures events == old(events)[id := e]
    {
      id := nextEvent;
      events := events[id := e];
      nextEvent := nextEvent + 1;
    }

    /** Saves a new session row under a fresh key. */
    method SaveSession(row: Session) returns (id: Id)
      requires ValidSessions()
      modifies this`sessions, this`nextSession
      ensures ValidSessions() && id == old(nextSession) && nextSession == id + 1 && id !in old(sessions)
      ensures sessions == old(sessions)[id := row]
    {
      id := nextSession;
      sessions := sessions[id := row];
      nextSession := nextSession + 1;
    }
  }
}
