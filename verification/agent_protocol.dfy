/**
 The agent command protocol as a state machine.

 A step is one hold of the manager's mutex, one channel operation outside it, or one receive from a
 session's command channel.  Any interleaving of callers, submitting agents, timeouts, disconnects and
 re-registrations is a sequence of such steps.  Channel misuse is not ruled out by assumption: a send on a
 closed channel, a send that would block for ever and a second close each put a fault in the state.
 */
module AgentProtocol {
  import opened Common
  import opened AgentModel

  /** A result channel of capacity one, with the sends and closes it has seen. */
  datatype Waiter = Waiter(buffer: seq<Result>, sends: nat, closes: nat)

  const UNUSED := Waiter([], 0, 0)

  datatype Fault = NoFault | SendOnClosed | SendBlocked | CloseOfClosed

  /** An issued command: what was queued, in which session, and the channel its caller waits on. */
  datatype Issued = Issued(command: Command, session: AgentSession, waiter: Handle)

  datatype Stage = Taken | Sent | Done

  /** A Submit that found its waiter: first it holds the waiter, then it has sent, then it has closed. */
  datatype Submit = Submit(tokenID: Uuid, result: Result, waiter: Handle, stage: Stage)

  /** What became of an issued command, seen from the control plane. */
  datatype Fate = Rejected | Pending | Answered(submit: Handle) | Closed | Abandoned

  /** Where the caller of an issued command is. */
  datatype Status = Waiting | Returned(result: Result) | Woken | TimedOut | Refused

  datatype State = State(
    staleAfter: int,
    byToken: map<Uuid, AgentSession>,
    byID: map<string, AgentSession>,
    idents: map<AgentSession, Identity>,
    lives: map<AgentSession, Life>,
    beats: map<AgentSession, Instant>,
    queues: map<AgentSession, seq<Command>>,
    pending: map<AgentSession, map<Key, Handle>>,
    waiters: map<Handle, Waiter>,
    issued: map<Uuid, Issued>,
    fates: map<Uuid, Fate>,
    statuses: map<Uuid, Status>,
    dequeued: set<Uuid>,
    submits: map<Handle, Submit>,
    clock: Instant,
    fault: Fault)

  ghost predicate SessionsShaped(idents: map<AgentSession, Identity>, lives: map<AgentSession, Life>,
                                 beats: map<AgentSession, Instant>, queues: map<AgentSession, seq<Command>>,
                                 pending: map<AgentSession, map<Key, Handle>>)
  {
    lives.Keys == idents.Keys && beats.Keys == idents.Keys && queues.Keys == idents.Keys && pending.Keys == idents.Keys
  }

  ghost predicate IndexShaped(byToken: map<Uuid, AgentSession>, byID: map<string, AgentSession>,
                              idents: map<AgentSession, Identity>)
  {
    (forall t | t in byToken :: byToken[t] in idents) && (forall s | s in byID :: byID[s] in idents)
  }

  ghost predicate CommandsShaped(issued: map<Uuid, Issued>, fates: map<Uuid, Fate>, statuses: map<Uuid, Status>) {
    fates.Keys == issued.Keys && statuses.Keys == issued.Keys
  }

  ghost predicate ChannelsShaped(issued: map<Uuid, Issued>, submits: map<Handle, Submit>, waiters: map<Handle, Waiter>,
                                 idents: map<AgentSession, Identity>)
  {
    && (forall id | id in issued :: issued[id].session in idents && issued[id].waiter in waiters)
    && (forall n | n in submits :: submits[n].waiter in waiters)
  }

  /** All maps about sessions speak of the same sessions, all maps about commands of the same commands. */
  ghost predicate Shaped(st: State) {
    && SessionsShaped(st.idents, st.lives, st.beats, st.queues, st.pending)
    && IndexShaped(st.byToken, st.byID, st.idents)
    && CommandsShaped(st.issued, st.fates, st.statuses)
    && ChannelsShaped(st.issued, st.submits, st.waiters, st.idents)
  }

  ghost predicate HasRecord(st: State, r: AgentSession) {
    r in st.idents && r in st.lives && r in st.beats && r in st.queues && r in st.pending
  }

  // ----- channel operations

  function Worst(a: Fault, b: Fault): Fault { if a == NoFault then b else a }

  function AfterSend(w: Waiter, r: Result): Waiter { w.(buffer := w.buffer + [r], sends := w.sends + 1) }

  function SendFault(w: Waiter): Fault {
    if w.closes > 0 then SendOnClosed else if |w.buffer| >= 1 then SendBlocked else NoFault
  }

  function AfterClose(w: Waiter): Waiter { w.(closes := w.closes + 1) }

  function CloseFault(w: Waiter): Fault { if w.closes > 0 then CloseOfClosed else NoFault }

  predicate DoneOpen(l: Life) { l.doneCloses == 0 }

  function AfterDoneClose(l: Life): Life { l.(doneCloses := l.doneCloses + 1) }

  function DoneFault(l: Life): Fault { if l.doneCloses > 0 then CloseOfClosed else NoFault }

  // ----- lookups made under the mutex

  ghost predicate IsActive(st: State, r: AgentSession, now: Instant) {
    r in st.lives && st.lives[r].active && r in st.beats && now - st.beats[r] <= st.staleAfter
  }

  /** The session found for an agent's token and session ID is there, is the agent's own and is active. */
  ghost predicate OwnSession(st: State, tokenID: Uuid, sessionID: string) {
    sessionID in st.byID && st.byID[sessionID] in st.idents && st.idents[st.byID[sessionID]].tokenID == tokenID
  }

  ghost predicate Located(st: State, tokenID: Uuid, sessionID: string, now: Instant) {
    OwnSession(st, tokenID, sessionID) && IsActive(st, st.byID[sessionID], now)
  }

  ghost function LocateError(st: State, tokenID: Uuid, sessionID: string): Error {
    if OwnSession(st, tokenID, sessionID) then SessionNotActive else SessionNotFound
  }

  ghost predicate Eligible(st: State, tenantID: Uuid, now: Instant, r: AgentSession) {
    r in st.idents && st.idents[r].tenantID == tenantID && IsActive(st, r, now)
  }

  /** `pick` is a latest-connected active session of the tenant among the current sessions of `tokens`. */
  ghost predicate LatestAmong(st: State, tenantID: Uuid, now: Instant, tokens: set<Uuid>, pick: Option<AgentSession>) {
    match pick
    case None => forall t | t in tokens && t in st.byToken :: !Eligible(st, tenantID, now, st.byToken[t])
    case Some(r) =>
      && Eligible(st, tenantID, now, r)
      && st.idents[r].tokenID in st.byToken && st.byToken[st.idents[r].tokenID] == r
      && forall t | t in tokens && t in st.byToken && Eligible(st, tenantID, now, st.byToken[t]) ::
           st.idents[st.byToken[t]].connectedAt <= st.idents[r].connectedAt
  }

  ghost predicate LatestActive(st: State, tenantID: Uuid, now: Instant, pick: Option<AgentSession>) {
    LatestAmong(st, tenantID, now, st.byToken.Keys, pick)
  }

  ghost predicate Resolves(st: State, req: Request, now: Instant, pick: Option<AgentSession>) {
    match req
    case PingRequest(sid) =>
      pick == if sid in st.byID && IsActive(st, st.byID[sid], now) then Some(st.byID[sid]) else None
    case QueryRequest(tenantID, _) => LatestActive(st, tenantID, now, pick)
    case SchemaRequest(tenantID) => LatestActive(st, tenantID, now, pick)
    case ConfigureRequest(tokenID, _) =>
      pick == if tokenID in st.byToken && IsActive(st, st.byToken[tokenID], now)
              then Some(st.byToken[tokenID]) else None
  }

  ghost function ResolveError(st: State, req: Request): Error {
    match req
    case PingRequest(sid) => if sid in st.byID then SessionNotActive else SessionNotFound
    case _ => TenantNotConnected
  }

  // ----- steps

  datatype Step =
    /** The connection time in `who` is read before the mutex is taken; `ref` is the newly allocated record. */
    | Register(ref: AgentSession, who: Identity)
    | Heartbeat(tokenID: Uuid, sessionID: string, at: Instant)
    /** `id` is a fresh command ID and `waiter` a fresh channel. */
    | Issue(req: Request, id: Uuid, waiter: Handle, issuedAt: Instant, pick: Option<AgentSession>)
    | Take(tokenID: Uuid, result: Result, submit: Handle)
    | Send(submit: Handle)
    | Finish(submit: Handle)
    | Receive(commandID: Uuid)
    | Timeout(commandID: Uuid)
    | DisconnectSession(sessionID: string)
    | DisconnectStream(sessionID: string, target: AgentSession)
    | Dequeue(target: AgentSession)

  ghost predicate Enabled(st: State, step: Step, now: Instant) {
    && Shaped(st)
    && st.clock <= now
    && match step
       case Register(ref, _) => ref !in st.idents
       case Heartbeat(_, _, _) => true
       case Issue(req, id, waiter, _, pick) =>
         && id !in st.issued && waiter !in st.waiters && Resolves(st, req, now, pick)
       case Take(_, _, submit) => submit !in st.submits
       case Send(submit) => submit in st.submits && st.submits[submit].stage == Taken
       case Finish(submit) => submit in st.submits && st.submits[submit].stage == Sent
       case Receive(id) => CanReceive(st, id)
       case Timeout(id) => id in st.issued && id in st.statuses && st.statuses[id] == Waiting
       case DisconnectSession(_) => true
       case DisconnectStream(_, _) => true
       case Dequeue(target) => target in st.idents && target in st.queues && st.queues[target] != []
  }

  ghost predicate CanReceive(st: State, id: Uuid) {
    && id in st.issued && st.issued[id].waiter in st.waiters
    && id in st.statuses && st.statuses[id] == Waiting
    && (st.waiters[st.issued[id].waiter].buffer != [] || st.waiters[st.issued[id].waiter].closes > 0)
  }

  /** The fates once session `r`, whose pending entries are `p`, has been closed. */
  ghost function ClosedFates(fates: map<Uuid, Fate>, issued: map<Uuid, Issued>, r: AgentSession,
                             p: map<Key, Handle>): map<Uuid, Fate>
  {
    map id | id in fates ::
      if id in issued && issued[id].session == r && Key(issued[id].command.kind, id) in p then Closed else fates[id]
  }

  ghost function WokenWaiters(waiters: map<Handle, Waiter>, p: map<Key, Handle>): map<Handle, Waiter> {
    map w | w in waiters :: if w in p.Values then AfterClose(waiters[w]) else waiters[w]
  }

  /** Closing a session: it goes inactive for good and every caller waiting on it is woken. */
  ghost function CloseSession(st: State, r: AgentSession, at: Instant): State
    requires r in st.lives && r in st.pending
  {
    var p := st.pending[r];
    st.(lives := st.lives[r := ClosedLife(st.lives[r], at)],
        pending := st.pending[r := map[]],
        waiters := WokenWaiters(st.waiters, p),
        fates := ClosedFates(st.fates, st.issued, r, p),
        fault := Worst(Worst(st.fault, DoneCloseFault(st.lives[r])), WakeFault(st.waiters, p)))
  }

  /** The done channel is closed only where it is still open. */
  function ClosedLife(l: Life, at: Instant): Life {
    var left := l.(active := false, disconnectedAt := if l.active && l.disconnectedAt == None then Some(at) else l.disconnectedAt);
    if DoneOpen(l) then AfterDoneClose(left) else left
  }

  function DoneCloseFault(l: Life): Fault { if DoneOpen(l) then DoneFault(l) else NoFault }

  ghost function WakeFault(waiters: map<Handle, Waiter>, p: map<Key, Handle>): Fault {
    if exists w :: w in p.Values && w in waiters && waiters[w].closes > 0 then CloseOfClosed else NoFault
  }

  /** The session IDs left indexed when `who` replaces a prior session with ID `prior`. */
  ghost function LeftIndexed(byID: map<string, AgentSession>, prior: string, who: Identity): map<string, AgentSession> {
    if prior != who.sessionID then byID - {prior} else byID
  }

  /** The close and un-indexing of the session a token had before it registers again. */
  ghost function Replace(st: State, who: Identity): State
    requires who.tokenID in st.byToken ==> HasRecord(st, st.byToken[who.tokenID])
  {
    if who.tokenID in st.byToken then
      var prior := st.byToken[who.tokenID];
      CloseSession(st, prior, who.connectedAt).(byID := LeftIndexed(st.byID, st.idents[prior].sessionID, who))
    else st
  }

  ghost function Install(st: State, ref: AgentSession, who: Identity): State {
    st.(idents := st.idents[ref := who],
        lives := st.lives[ref := OPEN_LIFE],
        beats := st.beats[ref := who.connectedAt],
        queues := st.queues[ref := []],
        pending := st.pending[ref := map[]],
        byToken := st.byToken[who.tokenID := ref],
        byID := st.byID[who.sessionID := ref])
  }

  ghost function DoRegister(st: State, ref: AgentSession, who: Identity): State
    requires who.tokenID in st.byToken ==> HasRecord(st, st.byToken[who.tokenID])
  {
    if who.sessionID == "" || who.hostname == "" then st else Install(Replace(st, who), ref, who)
  }

  ghost function DoHeartbeat(st: State, tokenID: Uuid, sessionID: string, at: Instant, now: Instant): State {
    st.(beats := if Located(st, tokenID, sessionID, now) then st.beats[st.byID[sessionID] := at] else st.beats)
  }

  ghost function CommandFor(st: State, req: Request, id: Uuid, issuedAt: Instant, r: AgentSession): Command
    requires r in st.idents
  {
    Command(if req.PingRequest? then req.sessionID else st.idents[r].sessionID,
            id, issuedAt, req.KindOf(), req.Sql(), req.Dsn())
  }

  ghost function DoIssue(st: State, c: Command, waiter: Handle, r: AgentSession): State
    requires HasRecord(st, r)
  {
    var id := c.commandID;
    var room := |st.queues[r]| < QUEUE_CAPACITY;
    st.(waiters := st.waiters[waiter := UNUSED],
        issued := st.issued[id := Issued(c, r, waiter)],
        queues := if room then st.queues[r := st.queues[r] + [c]] else st.queues,
        pending := if room then st.pending[r := st.pending[r][Key(c.kind, id) := waiter]] else st.pending,
        fates := st.fates[id := if room then Pending else Rejected],
        statuses := st.statuses[id := if room then Waiting else Refused])
  }

  /** A Submit finds a waiter: the session is the agent's own, is active, and waits for this very command. */
  ghost predicate Accepts(st: State, tokenID: Uuid, result: Result, now: Instant) {
    && Located(st, tokenID, result.sessionID, now)
    && st.byID[result.sessionID] in st.pending
    && Key(result.body.KindOf(), result.commandID) in st.pending[st.byID[result.sessionID]]
  }

  ghost function DoTake(st: State, tokenID: Uuid, result: Result, submit: Handle, r: AgentSession): State
    requires r in st.pending && Key(result.body.KindOf(), result.commandID) in st.pending[r]
  {
    var k := Key(result.body.KindOf(), result.commandID);
    st.(pending := st.pending[r := st.pending[r] - {k}],
        submits := st.submits[submit := Submit(tokenID, result, st.pending[r][k], Taken)],
        fates := if k.commandID in st.fates then st.fates[k.commandID := Answered(submit)] else st.fates)
  }

  ghost function DoSend(st: State, submit: Handle): State
    requires submit in st.submits && st.submits[submit].waiter in st.waiters
  {
    var u := st.submits[submit];
    st.(submits := st.submits[submit := u.(stage := Sent)],
        waiters := st.waiters[u.waiter := AfterSend(st.waiters[u.waiter], u.result)],
        fault := Worst(st.fault, SendFault(st.waiters[u.waiter])))
  }

  ghost function DoFinish(st: State, submit: Handle): State
    requires submit in st.submits && st.submits[submit].waiter in st.waiters
  {
    var u := st.submits[submit];
    st.(submits := st.submits[submit := u.(stage := Done)],
        waiters := st.waiters[u.waiter := AfterClose(st.waiters[u.waiter])],
        fault := Worst(st.fault, CloseFault(st.waiters[u.waiter])))
  }

  ghost function DoReceive(st: State, id: Uuid): State
    requires id in st.issued && st.issued[id].waiter in st.waiters
  {
    var c := st.issued[id].waiter;
    var w := st.waiters[c];
    var full := w.buffer != [];
    st.(waiters := if full then st.waiters[c := w.(buffer := w.buffer[1..])] else st.waiters,
        statuses := st.statuses[id := if full then Returned(w.buffer[0]) else Woken])
  }

  /** The caller gives up; its entry goes only if the session is still the one indexed under that session ID. */
  ghost function DoTimeout(st: State, id: Uuid): State
    requires id in st.issued && st.issued[id].session in st.pending
  {
    var i := st.issued[id];
    var k := Key(i.command.kind, id);
    var found := i.command.sessionID in st.byID && st.byID[i.command.sessionID] == i.session && k in st.pending[i.session];
    st.(statuses := st.statuses[id := TimedOut],
        pending := if found then st.pending[i.session := st.pending[i.session] - {k}] else st.pending,
        fates := if found then st.fates[id := Abandoned] else st.fates)
  }

  ghost function DoDequeue(st: State, target: AgentSession): State
    requires target in st.queues && st.queues[target] != []
  {
    st.(queues := st.queues[target := st.queues[target][1..]],
        dequeued := st.dequeued + {st.queues[target][0].commandID})
  }

  ghost function Effect(st: State, step: Step, now: Instant): State
    requires Enabled(st, step, now)
  {
    match step
    case Register(ref, who) => DoRegister(st, ref, who)
    case Heartbeat(tokenID, sessionID, at) => DoHeartbeat(st, tokenID, sessionID, at, now)
    case Issue(req, id, waiter, issuedAt, pick) =>
      if pick.Some? then DoIssue(st, CommandFor(st, req, id, issuedAt, pick.value), waiter, pick.value) else st
    case Take(tokenID, result, submit) =>
      if Accepts(st, tokenID, result, now) then DoTake(st, tokenID, result, submit, st.byID[result.sessionID]) else st
    case Send(submit) => DoSend(st, submit)
    case Finish(submit) => DoFinish(st, submit)
    case Receive(id) => DoReceive(st, id)
    case Timeout(id) => DoTimeout(st, id)
    case DisconnectSession(sessionID) =>
      if sessionID in st.byID then CloseSession(st, st.byID[sessionID], now) else st
    case DisconnectStream(sessionID, target) =>
      if sessionID in st.byID && st.byID[sessionID] == target then CloseSession(st, target, now) else st
    case Dequeue(target) => DoDequeue(st, target)
  }

  /** The state after a step; the clock remembers the last reading taken under the mutex. */
  ghost function Next(st: State, step: Step, now: Instant): State
    requires Enabled(st, step, now)
  {
    Effect(st, step, now).(clock := now)
  }

  ghost function Initial(staleAfter: int, clock: Instant): State {
    State(staleAfter, map[], map[], map[], map[], map[], map[], map[], map[], map[], map[], map[], {}, map[], clock, NoFault)
  }
}
