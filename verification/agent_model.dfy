/** The records exchanged between the control plane and its remote agents. */
module AgentModel {
  import opened Common

  datatype Kind = Ping | ExecuteQuery | IntrospectSchema | ConfigureDatabase

  datatype Command = Command(
    sessionID: string,
    commandID: Uuid,
    issuedAt: Instant,
    kind: Kind,
    sql: string,
    dsn: string)

  /** What an agent reports back; the constructor is the one-of of the wire message. */
  datatype Body =
    | PingBody(roundTripMS: int)
    | QueryBody(columns: seq<string>, rows: seq<map<string, string>>, elapsedMS: int,
                databaseUser: string, databaseName: string, error: string,
                errorCode: string, errorReason: string, blockedConstructs: seq<string>)
    | SchemaBody(schema: string, elapsedMS: int, databaseUser: string, databaseName: string, error: string)
    | ConfigureBody(elapsedMS: int, databaseUser: string, databaseName: string, error: string, errorCode: string)
  {
    /** The dispatch of SubmitCommandResult on the one-of. */
    function KindOf(): Kind {
      match this
      case PingBody(_) => Ping
      case QueryBody(_, _, _, _, _, _, _, _, _) => ExecuteQuery
      case SchemaBody(_, _, _, _, _) => IntrospectSchema
      case ConfigureBody(_, _, _, _, _) => ConfigureDatabase
    }
  }

  datatype Result = Result(sessionID: string, commandID: Uuid, completedAt: Instant, body: Body)

  datatype Error =
    | InvalidSessionID
    | InvalidHostname
    | SessionNotFound
    | SessionNotActive
    | CommandNotFound
    | CommandRejected
    | TenantNotConnected

  /** A caller's request: which session it may go to, and what it carries. */
  datatype Request =
    | PingRequest(sessionID: string)
    | QueryRequest(tenantID: Uuid, sql: string)
    | SchemaRequest(tenantID: Uuid)
    | ConfigureRequest(tokenID: Uuid, dsn: string)
  {
    function KindOf(): Kind {
      match this
      case PingRequest(_) => Ping
      case QueryRequest(_, _) => ExecuteQuery
      case SchemaRequest(_) => IntrospectSchema
      case ConfigureRequest(_, _) => ConfigureDatabase
    }

    function Sql(): string { if QueryRequest? then sql else "" }

    function Dsn(): string { if ConfigureRequest? then dsn else "" }
  }

  /** Entry of the four pending-waiter maps, which are keyed here by kind and command ID together. */
  datatype Key = Key(kind: Kind, commandID: Uuid)

  /** The capacity of a session's command channel. */
  const QUEUE_CAPACITY := 16

  /** What a session record keeps for its whole life. */
  datatype Identity = Identity(
    sessionID: string,
    tenantID: Uuid,
    tokenID: Uuid,
    hostname: string,
    connectedAt: Instant)

  /** Whether a session record is open, and how often its done channel was closed. */
  datatype Life = Life(active: bool, doneCloses: nat, disconnectedAt: Option<Instant>)

  const OPEN_LIFE := Life(true, 0, None)

  /** A session record; the manager updates it in place and hands out pointers to it. */
  class AgentSession {
    const sessionID: string
    const tenantID: Uuid
    const tokenID: Uuid
    const hostname: string
    const connectedAt: Instant
    var lastHeartbeatAt: Instant
    var disconnectedAt: Option<Instant>
    var active: bool
    var doneCloses: nat
    var commands: seq<Command>
    var pending: map<Key, Handle>

    ghost function Who(): Identity { Identity(sessionID, tenantID, tokenID, hostname, connectedAt) }

    ghost function How(): Life
      reads this
    {
      Life(active, doneCloses, disconnectedAt)
    }

    constructor (tenantID: Uuid, tokenID: Uuid, sessionID: string, hostname: string, now: Instant)
      ensures Who() == Identity(sessionID, tenantID, tokenID, hostname, now)
      ensures How() == OPEN_LIFE && lastHeartbeatAt == now && commands == [] && pending == map[]
    {
      this.sessionID, this.tenantID, this.tokenID, this.hostname := sessionID, tenantID, tokenID, hostname;
      this.connectedAt, this.lastHeartbeatAt, this.disconnectedAt := now, now, None;
      this.active, this.doneCloses, this.commands, this.pending := true, 0, [], map[];
    }
  }
}
