/** A command on its way to the agent, and the agent's handling of it. */
module EdgeAgent {
  import opened Common
  import opened AgentModel

  /** The payload of a stream message; the first message of a stream has none. */
  datatype Payload = NoPayload | PingPayload | QueryPayload(sql: string) | SchemaPayload | ConfigurePayload(dsn: string)

  datatype Frame = Frame(sessionID: string, commandID: Option<Uuid>, issuedAt: Instant, payload: Payload)

  function Ack(sessionID: string): Frame { Frame(sessionID, None, 0, NoPayload) }

  function CommandToProto(c: Command): Frame {
    Frame(c.sessionID, Some(c.commandID), c.issuedAt,
          match c.kind
          case Ping => PingPayload
          case ExecuteQuery => QueryPayload(c.sql)
          case IntrospectSchema => SchemaPayload
          case ConfigureDatabase => ConfigurePayload(c.dsn))
  }

  /** The stream message as the agent reads it; a message without payload has no kind. */
  datatype ControlMessage = ControlMessage(
    sessionID: string,
    commandID: Option<Uuid>,
    issuedAt: Instant,
    kind: Option<Kind>,
    sql: string,
    dsn: string)

  function FromProto(f: Frame): ControlMessage {
    ControlMessage(f.sessionID, f.commandID, f.issuedAt,
                   match f.payload
                   case NoPayload => None
                   case PingPayload => Some(Ping)
                   case QueryPayload(_) => Some(ExecuteQuery)
                   case SchemaPayload => Some(IntrospectSchema)
                   case ConfigurePayload(_) => Some(ConfigureDatabase),
                   if f.payload.QueryPayload? then f.payload.sql else "",
                   if f.payload.ConfigurePayload? then f.payload.dsn else "")
  }

  /** A command as the session manager makes them: SQL only for a query, a DSN only for a configuration. */
  predicate Plain(c: Command) {
    (c.kind != ExecuteQuery ==> c.sql == "") && (c.kind != ConfigureDatabase ==> c.dsn == "")
  }

  /** Nothing of a command is lost or changed on the wire. */
  lemma CommandSurvivesTheWire(c: Command)
    ensures Plain(c) <==>
            FromProto(CommandToProto(c)) ==
            ControlMessage(c.sessionID, Some(c.commandID), c.issuedAt, Some(c.kind), c.sql, c.dsn)
  {
    match c.kind
    case Ping =>
    case ExecuteQuery =>
    case IntrospectSchema =>
    case ConfigureDatabase =>
  }

  /** Which of its executors the agent was configured with. */
  datatype Executors = Executors(query: bool, schema: bool, configure: bool)
  {
    predicate For(kind: Kind) {
      match kind
      case Ping => true
      case ExecuteQuery => query
      case IntrospectSchema => schema
      case ConfigureDatabase => configure
    }
  }

  /** What an executor came back with: a result, or a failure. */
  datatype Outcome =
    | Answer(columns: seq<string>, rows: seq<map<string, string>>, schema: string, elapsedMS: int,
             databaseUser: string, databaseName: string, error: string, errorCode: string)
    | Failure(message: string, code: string, reason: string, blocked: seq<string>)

  /** The body of a reply for an executor that is not there. */
  function Unconfigured(kind: Kind): (b: Body)
    ensures b.KindOf() == kind
  {
    match kind
    case Ping => PingBody(0)
    case ExecuteQuery => QueryBody([], [], 0, "", "", "query executor is not configured", "", "", [])
    case IntrospectSchema => SchemaBody("", 0, "", "", "schema introspector is not configured")
    case ConfigureDatabase => ConfigureBody(0, "", "", "database configurer is not configured", "")
  }

  /** The body of a reply once the executor has come back. */
  function Executed(kind: Kind, issuedAt: Instant, startedAt: Instant, completedAt: Instant, o: Outcome): (b: Body)
    ensures b.KindOf() == kind
    ensures kind == Ping ==> b.roundTripMS >= 0
  {
    match kind
    case Ping => PingBody(if startedAt - issuedAt < 0 then 0 else startedAt - issuedAt)
    case ExecuteQuery => (
      match o
      case Answer(columns, rows, _, elapsedMS, user, name, _, _) =>
        QueryBody(columns, rows, elapsedMS, user, name, "", "", "", [])
      case Failure(message, code, reason, blocked) =>
        QueryBody([], [], completedAt - startedAt, "", "", message, code, reason, blocked))
    case IntrospectSchema => (
      match o
      case Answer(_, _, schema, elapsedMS, user, name, _, _) => SchemaBody(schema, elapsedMS, user, name, "")
      case Failure(message, _, _, _) => SchemaBody("", completedAt - startedAt, "", "", message))
    case ConfigureDatabase => (
      match o
      case Answer(_, _, _, elapsedMS, user, name, error, errorCode) => ConfigureBody(elapsedMS, user, name, error, errorCode)
      case Failure(message, _, _, _) => ConfigureBody(completedAt - startedAt, "", "", message, ""))
  }

  /** The outcome a caller reads out of a body that came back from an executor. */
  function ReadBack(b: Body): Outcome {
    match b
    case PingBody(_) => Answer([], [], "", 0, "", "", "", "")
    case QueryBody(columns, rows, elapsedMS, user, name, error, code, reason, blocked) =>
      if error == "" then Answer(columns, rows, "", elapsedMS, user, name, "", "") else Failure(error, code, reason, blocked)
    case SchemaBody(schema, elapsedMS, user, name, error) =>
      if error == "" then Answer([], [], schema, elapsedMS, user, name, "", "") else Failure(error, "", "", [])
    case ConfigureBody(elapsedMS, user, name, error, code) => Answer([], [], "", elapsedMS, user, name, error, code)
  }

  /** An executor of the kind has such outcomes: only its own parts are filled in, and a failure says what failed. */
  predicate Fits(kind: Kind, o: Outcome) {
    match kind
    case Ping => o == Answer([], [], "", 0, "", "", "", "")
    case ExecuteQuery => if o.Answer? then o.schema == "" && o.error == "" && o.errorCode == "" else o.message != ""
    case IntrospectSchema =>
      if o.Answer? then o.columns == [] && o.rows == [] && o.error == "" && o.errorCode == ""
      else o.message != "" && o.code == "" && o.reason == "" && o.blocked == []
    case ConfigureDatabase => o.Answer? && o.columns == [] && o.rows == [] && o.schema == ""
  }

  /** Nothing of what an executor returned is lost or mixed up in the reply: the caller reads it back exactly if it fits the kind. */
  lemma OutcomeSurvivesTheReply(kind: Kind, issuedAt: Instant, startedAt: Instant, completedAt: Instant, o: Outcome)
    ensures Fits(kind, o) <==> ReadBack(Executed(kind, issuedAt, startedAt, completedAt, o)) == o
  {
    match kind
    case Ping =>
    case ExecuteQuery =>
    case IntrospectSchema =>
    case ConfigureDatabase =>
  }

  /** What handling a message comes to: the reply to submit, if any, and the text an executor was called with, if one was. */
  datatype Handled = Handled(reply: Option<Result>, called: Option<string>)

  /** The text a command gives its executor: the SQL of a query, the DSN of a configuration. */
  function TextFor(kind: Kind, sql: string, dsn: string): string {
    match kind
    case ExecuteQuery => sql
    case ConfigureDatabase => dsn
    case _ => ""
  }

  /** The executors at one time: what each comes back with for a text. */
  type Executor = (Kind, string) -> Outcome

  /** The handling of one message; the executor of its kind, if configured, is run on the message's own text. */
  function HandleCommand(m: ControlMessage, executors: Executors, startedAt: Instant, completedAt: Instant,
                         run: Executor): (h: Handled)
    ensures h.reply.Some? <==> m.kind.Some? && m.commandID.Some?
    ensures h.reply.Some? ==>
              && h.reply.value.sessionID == m.sessionID
              && Some(h.reply.value.commandID) == m.commandID
              && Some(h.reply.value.body.KindOf()) == m.kind
    ensures h.called.Some? ==>
              && h.reply.Some? && executors.For(m.kind.value)
              && h.called.value == TextFor(m.kind.value, m.sql, m.dsn)
  {
    if m.kind == None || m.commandID == None then Handled(None, None)
    else
      var kind := m.kind.value;
      var text := TextFor(kind, m.sql, m.dsn);
      var body := if executors.For(kind) then Executed(kind, m.issuedAt, startedAt, completedAt, run(kind, text))
                  else Unconfigured(kind);
      Handled(Some(Result(m.sessionID, m.commandID.value, completedAt, body)), if executors.For(kind) then Some(text) else None)
  }

  // ----- what a reply says, kind by kind

  /** A reply carries the IDs of its message and the time the handling ended; a ping's is how long the message was on its way. */
  lemma PingIsTimed(m: ControlMessage, executors: Executors, startedAt: Instant, completedAt: Instant, run: Executor)
    requires m.kind == Some(Ping) && m.commandID.Some?
    ensures var h := HandleCommand(m, executors, startedAt, completedAt, run);
            && h.reply.Some? && h.reply.value.sessionID == m.sessionID && h.reply.value.commandID == m.commandID.value
            && h.reply.value.completedAt == completedAt && h.reply.value.body.PingBody?
            && h.reply.value.body.roundTripMS == if m.issuedAt <= startedAt then startedAt - m.issuedAt else 0
  {
  }

  /** The query executor is run on the SQL of the message, and what it comes back with, rows or failure, is the reply's. */
  lemma QueryIsRun(m: ControlMessage, executors: Executors, startedAt: Instant, completedAt: Instant, run: Executor)
    requires m.kind == Some(ExecuteQuery) && m.commandID.Some? && executors.query
    ensures var h := HandleCommand(m, executors, startedAt, completedAt, run);
            && h.called == Some(m.sql) && h.reply.Some? && h.reply.value.completedAt == completedAt
            && h.reply.value.body.QueryBody?
            && var b, o := h.reply.value.body, run(ExecuteQuery, m.sql);
               if o.Answer? then
                 && b.columns == o.columns && b.rows == o.rows && b.elapsedMS == o.elapsedMS
                 && b.databaseUser == o.databaseUser && b.databaseName == o.databaseName
                 && b.error == "" && b.errorCode == "" && b.errorReason == "" && b.blockedConstructs == []
               else
                 && b.columns == [] && b.rows == [] && b.elapsedMS == completedAt - startedAt
                 && b.databaseUser == "" && b.databaseName == ""
                 && b.error == o.message && b.errorCode == o.code && b.errorReason == o.reason && b.blockedConstructs == o.blocked
  {
  }

  lemma SchemaIsIntrospected(m: ControlMessage, executors: Executors, startedAt: Instant, completedAt: Instant, run: Executor)
    requires m.kind == Some(IntrospectSchema) && m.commandID.Some? && executors.schema
    ensures var h := HandleCommand(m, executors, startedAt, completedAt, run);
            && h.called.Some? && h.reply.Some? && h.reply.value.completedAt == completedAt && h.reply.value.body.SchemaBody?
            && var b, o := h.reply.value.body, run(IntrospectSchema, "");
               if o.Answer? then
                 && b.schema == o.schema && b.elapsedMS == o.elapsedMS
                 && b.databaseUser == o.databaseUser && b.databaseName == o.databaseName && b.error == ""
               else
                 && b.schema == "" && b.elapsedMS == completedAt - startedAt
                 && b.databaseUser == "" && b.databaseName == "" && b.error == o.message
  {
  }

  /** The configurer is run on the DSN of the message; a refusal of its own is passed on with its code. */
  lemma DatabaseIsConfigured(m: ControlMessage, executors: Executors, startedAt: Instant, completedAt: Instant, run: Executor)
    requires m.kind == Some(ConfigureDatabase) && m.commandID.Some? && executors.configure
    ensures var h := HandleCommand(m, executors, startedAt, completedAt, run);
            && h.called == Some(m.dsn) && h.reply.Some? && h.reply.value.completedAt == completedAt
            && h.reply.value.body.ConfigureBody?
            && var b, o := h.reply.value.body, run(ConfigureDatabase, m.dsn);
               if o.Answer? then
                 && b.elapsedMS == o.elapsedMS && b.databaseUser == o.databaseUser && b.databaseName == o.databaseName
                 && b.error == o.error && b.errorCode == o.errorCode
               else
                 && b.elapsedMS == completedAt - startedAt && b.databaseUser == "" && b.databaseName == ""
                 && b.error == o.message && b.errorCode == ""
  {
  }

  /** Without its executor a command is answered with an error that says so, and nothing is run. */
  lemma MissingExecutorIsReported(m: ControlMessage, executors: Executors, startedAt: Instant, completedAt: Instant, run: Executor)
    requires m.kind.Some? && m.commandID.Some?
    ensures var h := HandleCommand(m, executors, startedAt, completedAt, run);
            && h.reply.Some? && h.reply.value.completedAt == completedAt
            && (m.kind.value == ExecuteQuery && !executors.query ==>
                  && h.called == None && h.reply.value.body.QueryBody? && h.reply.value.body.rows == []
                  && h.reply.value.body.error == "query executor is not configured"
                  && ReadBack(h.reply.value.body) == Failure("query executor is not configured", "", "", []))
            && (m.kind.value == IntrospectSchema && !executors.schema ==>
                  && h.called == None && h.reply.value.body.SchemaBody? && h.reply.value.body.schema == ""
                  && h.reply.value.body.error == "schema introspector is not configured"
                  && ReadBack(h.reply.value.body) == Failure("schema introspector is not configured", "", "", []))
            && (m.kind.value == ConfigureDatabase && !executors.configure ==>
                  && h.called == None && h.reply.value.body.ConfigureBody?
                  && h.reply.value.body.error == "database configurer is not configured"
                  && ReadBack(h.reply.value.body) == Answer([], [], "", 0, "", "", "database configurer is not configured", ""))
  {
  }
}
