/**
 The rules of the agent protocol in terms of the records alone: who is picked for a call, what a registration, heartbeat,
 close and deadline do to a session, and the order in which its commands leave it.
 */
module AgentLaws {
  import opened Common
  import opened AgentModel
  import opened AgentProtocol
  import opened AgentInvariants
  import opened AgentRuns
  import opened AgentSteps
  import opened AgentEndToEnd
  import EdgeAgent

  // ----- the choice of a session

  /**
   A query or schema request of a tenant goes to a session of that very tenant: an open one, heard of within the bound,
   the current one of its token, and connected no earlier than any other such session.
   */
  lemma PickIsOfTenant(st: State, staleAfter: int, clock: Instant, run: seq<Event>, req: Request, id: Uuid, waiter: Handle,
                       issuedAt: Instant, r: AgentSession, now: Instant)
    requires Reachable(st, staleAfter, clock, run) && Enabled(st, Issue(req, id, waiter, issuedAt, Some(r)), now)
    requires req.QueryRequest? || req.SchemaRequest?
    ensures r in st.idents && st.idents[r].tenantID == req.tenantID
    ensures r in st.lives && st.lives[r].active && r in st.beats && now - st.beats[r] <= st.staleAfter
    ensures st.idents[r].tokenID in st.byToken && st.byToken[st.idents[r].tokenID] == r
    ensures forall s | s in st.idents && st.idents[s].tenantID == req.tenantID
                       && s in st.lives && st.lives[s].active && s in st.beats && now - st.beats[s] <= st.staleAfter ::
              st.idents[s].connectedAt <= st.idents[r].connectedAt
  {
    hide Reachable, CommandsShaped, ChannelsShaped, Lifecycle, PendingOwned, IssuedWell, FatesShown, SubmitsMatch, QueuesOwned;
    ReachableInv(st, staleAfter, clock, run);
  }

  /** Such a request finds nobody exactly if no session of its tenant is open and heard of within the bound. */
  lemma PicksNobodyExactly(st: State, staleAfter: int, clock: Instant, run: seq<Event>, req: Request, id: Uuid, waiter: Handle,
                           issuedAt: Instant, pick: Option<AgentSession>, now: Instant)
    requires Reachable(st, staleAfter, clock, run) && Enabled(st, Issue(req, id, waiter, issuedAt, pick), now)
    requires req.QueryRequest? || req.SchemaRequest?
    ensures pick == None <==>
            forall s | s in st.idents && st.idents[s].tenantID == req.tenantID && s in st.lives && s in st.beats ::
              !(st.lives[s].active && now - st.beats[s] <= st.staleAfter)
  {
    hide Reachable, Inv, Shaped;
    ReachableInv(st, staleAfter, clock, run);
    if pick.Some? {
      PickIsOfTenant(st, staleAfter, clock, run, req, id, waiter, issuedAt, pick.value, now);
    } else {
      NobodyIsOpen(st, req.tenantID, now);
    }
  }

  lemma NobodyIsOpen(st: State, tenantID: Uuid, now: Instant)
    requires Inv(st) && LatestActive(st, tenantID, now, None)
    ensures forall s | s in st.idents && st.idents[s].tenantID == tenantID && s in st.lives && s in st.beats ::
              !(st.lives[s].active && now - st.beats[s] <= st.staleAfter)
  {
    hide Shaped, Lifecycle, PendingOwned, IssuedWell, FatesShown, SubmitsMatch, QueuesOwned;
    forall s | s in st.idents && st.idents[s].tenantID == tenantID && s in st.lives && s in st.beats
      ensures !(st.lives[s].active && now - st.beats[s] <= st.staleAfter)
    {
      if st.lives[s].active {
        assert !Eligible(st, tenantID, now, st.byToken[st.idents[s].tokenID]);
      }
    }
  }

  /** A ping goes to the session found under its ID, a configuration to the current one of its token, if open and heard of. */
  lemma PicksAsAsked(st: State, req: Request, id: Uuid, waiter: Handle, issuedAt: Instant, pick: Option<AgentSession>, now: Instant)
    requires Enabled(st, Issue(req, id, waiter, issuedAt, pick), now)
    ensures req.PingRequest? ==>
              if req.sessionID in st.byID && st.byID[req.sessionID] in st.lives && st.byID[req.sessionID] in st.beats
                 && st.lives[st.byID[req.sessionID]].active && now - st.beats[st.byID[req.sessionID]] <= st.staleAfter
              then pick == Some(st.byID[req.sessionID]) else pick == None
    ensures req.ConfigureRequest? ==>
              if req.tokenID in st.byToken && st.byToken[req.tokenID] in st.lives && st.byToken[req.tokenID] in st.beats
                 && st.lives[st.byToken[req.tokenID]].active && now - st.beats[st.byToken[req.tokenID]] <= st.staleAfter
              then pick == Some(st.byToken[req.tokenID]) else pick == None
  {
    hide Shaped;
  }

  /** The session an agent names is its own, open and heard of within the bound; else the two errors tell why not. */
  lemma LocatedExactly(st: State, tokenID: Uuid, sessionID: string, now: Instant)
    ensures Located(st, tokenID, sessionID, now) <==>
            && sessionID in st.byID && st.byID[sessionID] in st.idents && st.idents[st.byID[sessionID]].tokenID == tokenID
            && st.byID[sessionID] in st.lives && st.lives[st.byID[sessionID]].active
            && st.byID[sessionID] in st.beats && now - st.beats[st.byID[sessionID]] <= st.staleAfter
    ensures LocateError(st, tokenID, sessionID) ==
            if sessionID in st.byID && st.byID[sessionID] in st.idents && st.idents[st.byID[sessionID]].tokenID == tokenID
            then SessionNotActive else SessionNotFound
  {
  }

  /** The error of a call that finds no session. */
  lemma CallErrors(st: State, req: Request)
    ensures ResolveError(st, req) ==
            if !req.PingRequest? then TenantNotConnected
            else if req.sessionID in st.byID then SessionNotActive else SessionNotFound
  {
  }

  /**
   A result is accepted exactly if its session is the agent's own, open and heard of within the bound, and the command it
   names is one of that session and of its kind that still waits.
   */
  lemma AcceptsExactly(st: State, staleAfter: int, clock: Instant, run: seq<Event>, tokenID: Uuid, result: Result, now: Instant)
    requires Reachable(st, staleAfter, clock, run)
    ensures Accepts(st, tokenID, result, now) <==>
            && result.sessionID in st.byID && st.byID[result.sessionID] in st.idents
            && st.idents[st.byID[result.sessionID]].tokenID == tokenID
            && st.byID[result.sessionID] in st.lives && st.lives[st.byID[result.sessionID]].active
            && st.byID[result.sessionID] in st.beats && now - st.beats[st.byID[result.sessionID]] <= st.staleAfter
            && result.commandID in st.issued && result.commandID in st.fates
            && st.issued[result.commandID].session == st.byID[result.sessionID]
            && st.issued[result.commandID].command.kind == (match result.body
                                                            case PingBody(_) => Ping
                                                            case QueryBody(_, _, _, _, _, _, _, _, _) => ExecuteQuery
                                                            case SchemaBody(_, _, _, _, _) => IntrospectSchema
                                                            case ConfigureBody(_, _, _, _, _) => ConfigureDatabase)
            && st.fates[result.commandID] == Pending
  {
    hide Reachable, Lifecycle, SubmitsMatch, QueuesOwned, Indexed;
    ReachableInv(st, staleAfter, clock, run);
    if result.commandID in st.issued && result.sessionID in st.byID {
      WaitsExactly(st, result.commandID);
    }
  }

  lemma WaitsExactly(st: State, id: Uuid)
    requires Inv(st) && id in st.issued
    ensures id in st.fates && st.issued[id].session in st.pending
    ensures Key(st.issued[id].command.kind, id) in st.pending[st.issued[id].session] <==> st.fates[id] == Pending
  {
    hide Lifecycle, SubmitsMatch, QueuesOwned, Indexed, PendingOwned, IssuedWell;
    assert FateShown(id, st.fates[id], st.statuses[id], st.waiters[st.issued[id].waiter],
                     Key(st.issued[id].command.kind, id) in st.pending[st.issued[id].session], st.submits);
  }

  // ----- what a step does to a session

  /** An open session has not been disconnected, and a closed one has. */
  ghost predicate Connects(lives: map<AgentSession, Life>) {
    forall r | r in lives :: lives[r].active <==> lives[r].disconnectedAt == None
  }

  /** That is so in every reachable state. */
  lemma OpenIsConnected(st: State, staleAfter: int, clock: Instant, run: seq<Event>)
    requires Reachable(st, staleAfter, clock, run)
    ensures Connects(st.lives)
  {
    hide Inv;
    InitialInv(staleAfter, clock);
    RunKeepsConnected(Initial(staleAfter, clock), run);
  }

  lemma ClosedKeepsConnects(lives: map<AgentSession, Life>, r: AgentSession, at: Instant)
    requires Connects(lives) && r in lives
    ensures Connects(lives[r := ClosedLife(lives[r], at)])
  {
  }

  lemma CloseParts(st: State, r: AgentSession, at: Instant)
    requires r in st.lives && r in st.pending
    ensures var b := CloseSession(st, r, at);
            && b.lives == st.lives[r := ClosedLife(st.lives[r], at)] && b.pending == st.pending[r := map[]]
            && b.byToken == st.byToken && b.byID == st.byID && b.queues == st.queues && b.idents == st.idents
  {
    hide WokenWaiters, ClosedFates, WakeFault, ClosedLife;
  }

  lemma RegisterParts(st: State, ref: AgentSession, who: Identity)
    requires who.tokenID in st.byToken ==> HasRecord(st, st.byToken[who.tokenID])
    requires who.sessionID != "" && who.hostname != ""
    ensures var b := DoRegister(st, ref, who);
            && b.byToken == st.byToken[who.tokenID := ref]
            && who.sessionID in b.byID && b.byID[who.sessionID] == ref
            && b.idents == st.idents[ref := who] && b.beats == st.beats[ref := who.connectedAt]
            && b.queues == st.queues[ref := []] && ref in b.pending && b.pending[ref] == map[]
            && b.lives == if who.tokenID in st.byToken
                          then st.lives[st.byToken[who.tokenID] := ClosedLife(st.lives[st.byToken[who.tokenID]], who.connectedAt)]
                                       [ref := OPEN_LIFE]
                          else st.lives[ref := OPEN_LIFE]
  {
    hide CloseSession, ClosedLife;
    if who.tokenID in st.byToken {
      CloseParts(st, st.byToken[who.tokenID], who.connectedAt);
      CloseSparesBeats(st, st.byToken[who.tokenID], who.connectedAt);
    }
  }

  lemma CloseSparesBeats(st: State, r: AgentSession, at: Instant)
    requires r in st.lives && r in st.pending
    ensures CloseSession(st, r, at).beats == st.beats
  {
    hide WokenWaiters, ClosedFates, WakeFault, ClosedLife;
  }

  lemma TakeSpares(st: State, tokenID: Uuid, result: Result, submit: Handle, now: Instant)
    requires Inv(st) && Enabled(st, Take(tokenID, result, submit), now)
    ensures var b := Next(st, Take(tokenID, result, submit), now); b.lives == st.lives && b.queues == st.queues
  {
    hide Inv, Shaped, Next, Located;
    TakeStep(st, tokenID, result, submit, now);
  }

  lemma SubmitSpares(st: State, step: Step, now: Instant)
    requires Inv(st) && Enabled(st, step, now) && (step.Send? || step.Finish?)
    ensures Next(st, step, now).lives == st.lives && Next(st, step, now).queues == st.queues
  {
    hide Inv, Shaped, Next;
    match step
    case Send(submit) => SendStep(st, submit, now);
    case Finish(submit) => FinishStep(st, submit, now);
  }

  lemma CallerSpares(st: State, step: Step, now: Instant)
    requires Inv(st) && Enabled(st, step, now) && (step.Receive? || step.Timeout? || step.Dequeue? || step.Heartbeat?)
    ensures Next(st, step, now).lives == st.lives
    ensures !step.Dequeue? ==> Next(st, step, now).queues == st.queues
    ensures step.Dequeue? ==>
              && step.target in st.queues && st.queues[step.target] != []
              && Next(st, step, now).queues == st.queues[step.target := st.queues[step.target][1..]]
  {
    hide Inv, Shaped, Next, Located;
    match step
    case Receive(id) => ReceiveStep(st, id, now);
    case Timeout(id) => TimeoutStep(st, id, now);
    case Dequeue(target) => DequeueStep(st, target, now);
    case Heartbeat(tokenID, sessionID, at) => HeartbeatStep(st, tokenID, sessionID, at, now);
  }

  lemma IssueSpares(st: State, req: Request, id: Uuid, waiter: Handle, issuedAt: Instant, pick: Option<AgentSession>, now: Instant)
    requires Inv(st) && Enabled(st, Issue(req, id, waiter, issuedAt, pick), now)
    ensures pick.Some? ==> HasRecord(st, pick.value)
    ensures var b := Next(st, Issue(req, id, waiter, issuedAt, pick), now);
            && b.lives == st.lives
            && b.queues == if pick.Some? && |st.queues[pick.value]| < QUEUE_CAPACITY
                           then st.queues[pick.value := st.queues[pick.value] + [CommandFor(st, req, id, issuedAt, pick.value)]]
                           else st.queues
  {
    hide Inv, Shaped, Next, Resolves, CommandFor;
    IssueStep(st, req, id, waiter, issuedAt, pick, now);
  }

  /** What the locked steps do to lives and queues. */
  lemma LockedMoves(st: State, step: Step, now: Instant)
    requires Inv(st) && Enabled(st, step, now) && (step.Register? || step.DisconnectSession? || step.DisconnectStream?)
    ensures var b := Next(st, step, now);
            match step
            case Register(ref, who) =>
              if who.sessionID == "" || who.hostname == "" then b.lives == st.lives && b.queues == st.queues
              else if who.tokenID in st.byToken then
                && st.byToken[who.tokenID] in st.lives && b.queues == st.queues[ref := []]
                && b.lives == st.lives[st.byToken[who.tokenID] := ClosedLife(st.lives[st.byToken[who.tokenID]], who.connectedAt)]
                                      [ref := OPEN_LIFE]
              else b.lives == st.lives[ref := OPEN_LIFE] && b.queues == st.queues[ref := []]
            case DisconnectSession(sessionID) =>
              && b.queues == st.queues
              && (if sessionID in st.byID then
                    && st.byID[sessionID] in st.lives
                    && b.lives == st.lives[st.byID[sessionID] := ClosedLife(st.lives[st.byID[sessionID]], now)]
                  else b.lives == st.lives)
            case DisconnectStream(sessionID, target) =>
              && b.queues == st.queues
              && (if sessionID in st.byID && st.byID[sessionID] == target then
                    target in st.lives && b.lives == st.lives[target := ClosedLife(st.lives[target], now)]
                  else b.lives == st.lives)
            case _ => true
  {
    hide Inv, Shaped, Next, DoRegister, CloseSession, ClosedLife, Closable;
    match step
    case Register(ref, who) =>
      RegisterStep(st, ref, who, now);
      if who.sessionID != "" && who.hostname != "" {
        RegisterParts(st, ref, who);
      } else {
        BlankRegisters(st, ref, who);
      }
    case DisconnectSession(sessionID) =>
      DisconnectSessionStep(st, sessionID, now);
      if sessionID in st.byID { CloseParts(st, st.byID[sessionID], now); }
    case DisconnectStream(sessionID, target) =>
      DisconnectStreamStep(st, sessionID, target, now);
      if sessionID in st.byID && st.byID[sessionID] == target { CloseParts(st, target, now); }
  }

  lemma BlankRegisters(st: State, ref: AgentSession, who: Identity)
    requires who.tokenID in st.byToken ==> HasRecord(st, st.byToken[who.tokenID])
    requires who.sessionID == "" || who.hostname == ""
    ensures DoRegister(st, ref, who) == st
  {
    hide CloseSession;
  }

  lemma QuietSpares(st: State, step: Step, now: Instant)
    requires Inv(st) && Enabled(st, step, now)
    requires !step.Register? && !step.DisconnectSession? && !step.DisconnectStream?
    ensures Next(st, step, now).lives == st.lives
    ensures !step.Issue? && !step.Dequeue? ==> Next(st, step, now).queues == st.queues
  {
    hide Inv, Enabled, Next, CommandFor;
    match step
    case Issue(req, id, waiter, issuedAt, pick) => IssueSpares(st, req, id, waiter, issuedAt, pick, now);
    case Take(tokenID, result, submit) => TakeSpares(st, tokenID, result, submit, now);
    case Send(_) => SubmitSpares(st, step, now);
    case Finish(_) => SubmitSpares(st, step, now);
    case _ => CallerSpares(st, step, now);
  }

  lemma StepKeepsConnected(st: State, step: Step, now: Instant)
    requires Inv(st) && Enabled(st, step, now) && Connects(st.lives)
    ensures Connects(Next(st, step, now).lives)
  {
    hide Inv, Enabled, Next, ClosedLife, Connects;
    if step.Register? || step.DisconnectSession? || step.DisconnectStream? {
      LockedMoves(st, step, now);
    } else {
      QuietSpares(st, step, now);
    }
    match step
    case Register(ref, who) =>
      if who.tokenID in st.byToken && who.sessionID != "" && who.hostname != "" {
        ClosedKeepsConnects(st.lives, st.byToken[who.tokenID], who.connectedAt);
        OpenedConnects(st.lives[st.byToken[who.tokenID] := ClosedLife(st.lives[st.byToken[who.tokenID]], who.connectedAt)], ref);
      } else {
        OpenedConnects(st.lives, ref);
      }
    case DisconnectSession(sessionID) =>
      if sessionID in st.byID { ClosedKeepsConnects(st.lives, st.byID[sessionID], now); }
    case DisconnectStream(sessionID, target) =>
      if sessionID in st.byID && st.byID[sessionID] == target { ClosedKeepsConnects(st.lives, target, now); }
    case _ =>
  }

  lemma OpenedConnects(lives: map<AgentSession, Life>, ref: AgentSession)
    requires Connects(lives)
    ensures Connects(lives[ref := OPEN_LIFE])
  {
  }

  lemma {:induction false} RunKeepsConnected(st: State, run: seq<Event>)
    requires Inv(st) && CanRun(st, run) && Connects(st.lives)
    ensures Connects(After(st, run).lives)
    decreases |run|
  {
    hide Inv, Enabled, Next, Connects;
    if run == [] {
    } else {
      StepKeepsInv(st, run[0].step, run[0].now);
      StepKeepsConnected(st, run[0].step, run[0].now);
      RunKeepsConnected(Next(st, run[0].step, run[0].now), run[1..]);
    }
  }

  /** Once closed, a session's life is final: whatever follows, it is not opened, closed or disconnected anew. */
  lemma {:induction false} ClosedLifeIsFinal(st: State, run: seq<Event>, r: AgentSession)
    requires Inv(st) && CanRun(st, run) && r in st.lives && !st.lives[r].active
    ensures r in After(st, run).lives && After(st, run).lives[r] == st.lives[r]
    decreases |run|
  {
    hide Inv, Enabled, Next;
    if run == [] {
    } else {
      StepKeepsClosed(st, run[0].step, run[0].now, r);
      StepKeepsInv(st, run[0].step, run[0].now);
      ClosedLifeIsFinal(Next(st, run[0].step, run[0].now), run[1..], r);
    }
  }

  lemma StepKeepsClosed(st: State, step: Step, now: Instant, r: AgentSession)
    requires Inv(st) && Enabled(st, step, now) && r in st.lives && !st.lives[r].active
    ensures r in Next(st, step, now).lives && Next(st, step, now).lives[r] == st.lives[r]
  {
    hide Inv, Next, Enabled, DoneOpen;
    DoneIsClosed(st, r);
    if step.Register? || step.DisconnectSession? || step.DisconnectStream? {
      LockedMoves(st, step, now);
      if step.Register? {
        NewIsNew(st, step.ref, step.who, now, r);
      }
    } else {
      QuietSpares(st, step, now);
    }
  }

  lemma NewIsNew(st: State, ref: AgentSession, who: Identity, now: Instant, r: AgentSession)
    requires Inv(st) && Enabled(st, Register(ref, who), now) && r in st.lives
    ensures r != ref
  {
  }

  lemma DoneIsClosed(st: State, r: AgentSession)
    requires Inv(st) && r in st.lives
    ensures st.lives[r].doneCloses <= 1 && (st.lives[r].active <==> DoneOpen(st.lives[r]))
  {
    hide Shaped, Indexed, PendingOwned, IssuedWell, FatesShown, SubmitsMatch, QueuesOwned;
  }

  lemma ClosedOnce(l: Life, at: Instant)
    requires l.doneCloses <= 1
    ensures var b := ClosedLife(l, at);
            && !b.active && b.doneCloses == 1
            && (l.active && l.disconnectedAt == None ==> b.disconnectedAt == Some(at))
  {
  }

  ghost predicate ClosedAt(a: map<AgentSession, Life>, b: map<AgentSession, Life>, r: AgentSession, at: Instant) {
    && r in a && r in b && !b[r].active && b[r].doneCloses == 1
    && (if a[r].active then b[r].disconnectedAt == Some(at) else b[r] == a[r])
    && b.Keys == a.Keys && forall s | s in a && s != r :: b[s] == a[s]
  }

  lemma ClosesAt(st: State, r: AgentSession, at: Instant)
    requires Inv(st) && r in st.lives && Connects(st.lives)
    ensures ClosedAt(st.lives, st.lives[r := ClosedLife(st.lives[r], at)], r, at)
  {
    hide Inv;
    DoneIsClosed(st, r);
    ClosedOnce(st.lives[r], at);
  }

  /** A registration with session ID and hostname makes a new open session with no commands, current and found at once. */
  lemma RegisteredIsCurrent(st: State, staleAfter: int, clock: Instant, run: seq<Event>, ref: AgentSession, who: Identity,
                            now: Instant)
    requires Reachable(st, staleAfter, clock, run) && Enabled(st, Register(ref, who), now)
    ensures var b := Next(st, Register(ref, who), now);
            if who.sessionID == "" || who.hostname == "" then b == st.(clock := now)
            else
              && b.byToken == st.byToken[who.tokenID := ref]
              && who.sessionID in b.byID && b.byID[who.sessionID] == ref
              && ref in b.idents && b.idents[ref] == who
              && ref in b.lives && b.lives[ref].active && b.lives[ref].doneCloses == 0 && b.lives[ref].disconnectedAt == None
              && ref in b.beats && b.beats[ref] == who.connectedAt
              && ref in b.queues && b.queues[ref] == [] && ref in b.pending && b.pending[ref] == map[]
              && (who.tokenID in st.byToken && st.byToken[who.tokenID] in st.lives ==>
                    var prior := st.byToken[who.tokenID];
                    && prior in b.lives && !b.lives[prior].active
                    && (st.lives[prior].active ==> b.lives[prior].disconnectedAt == Some(who.connectedAt)))
  {
    hide Reachable, Inv, Shaped, Next, DoRegister, ClosedLife, CloseSession, Closable, Connects;
    ReachableInv(st, staleAfter, clock, run);
    OpenIsConnected(st, staleAfter, clock, run);
    RegisterStep(st, ref, who, now);
    if who.sessionID == "" || who.hostname == "" {
      BlankRegisters(st, ref, who);
    } else {
      RegisterParts(st, ref, who);
      if who.tokenID in st.byToken {
        NewIsNew(st, ref, who, now, st.byToken[who.tokenID]);
        ClosesAt(st, st.byToken[who.tokenID], who.connectedAt);
      }
    }
  }

  /** A stream's disconnect closes its session, at that time, if it is the one found under its ID, and no other ever. */
  lemma StreamDisconnectCloses(st: State, staleAfter: int, clock: Instant, run: seq<Event>, sessionID: string,
                               target: AgentSession, now: Instant)
    requires Reachable(st, staleAfter, clock, run) && Enabled(st, DisconnectStream(sessionID, target), now)
    ensures var b := Next(st, DisconnectStream(sessionID, target), now);
            && b.byToken == st.byToken && b.byID == st.byID && b.queues == st.queues
            && (if sessionID in st.byID && st.byID[sessionID] == target
                then ClosedAt(st.lives, b.lives, target, now) && b.pending == st.pending[target := map[]]
                else b == st.(clock := now))
  {
    hide Reachable, Inv, Shaped, Next, CloseSession, ClosedLife, Closable, Connects, ClosedAt;
    ReachableInv(st, staleAfter, clock, run);
    OpenIsConnected(st, staleAfter, clock, run);
    DisconnectStreamStep(st, sessionID, target, now);
    if sessionID in st.byID && st.byID[sessionID] == target {
      CloseParts(st, target, now);
      ClosesAt(st, target, now);
    }
  }

  /** The same of a disconnect by session ID. */
  lemma DisconnectClosesExactly(st: State, staleAfter: int, clock: Instant, run: seq<Event>, sessionID: string, now: Instant)
    requires Reachable(st, staleAfter, clock, run) && Enabled(st, DisconnectSession(sessionID), now)
    ensures var b := Next(st, DisconnectSession(sessionID), now);
            && b.byToken == st.byToken && b.byID == st.byID && b.queues == st.queues
            && (if sessionID in st.byID
                then ClosedAt(st.lives, b.lives, st.byID[sessionID], now) && b.pending == st.pending[st.byID[sessionID] := map[]]
                else b == st.(clock := now))
  {
    hide Reachable, Inv, Shaped, Next, CloseSession, ClosedLife, Closable, Connects, ClosedAt;
    ReachableInv(st, staleAfter, clock, run);
    OpenIsConnected(st, staleAfter, clock, run);
    DisconnectSessionStep(st, sessionID, now);
    if sessionID in st.byID {
      CloseParts(st, st.byID[sessionID], now);
      ClosesAt(st, st.byID[sessionID], now);
    }
  }

  /** A heartbeat is noted, with the time it was sent, exactly for the open session it names, of its own token and heard of in time. */
  lemma HeartbeatMovesExactly(st: State, tokenID: Uuid, sessionID: string, at: Instant, now: Instant)
    requires Enabled(st, Heartbeat(tokenID, sessionID, at), now)
    ensures var b := Next(st, Heartbeat(tokenID, sessionID, at), now);
            && b == st.(beats := b.beats, clock := now)
            && (if && sessionID in st.byID && st.byID[sessionID] in st.idents && st.idents[st.byID[sessionID]].tokenID == tokenID
                   && st.byID[sessionID] in st.lives && st.lives[st.byID[sessionID]].active
                   && st.byID[sessionID] in st.beats && now - st.beats[st.byID[sessionID]] <= st.staleAfter
                then b.beats == st.beats[st.byID[sessionID] := at] else b.beats == st.beats)
  {
    hide Shaped;
  }

  /**
   A deadline that passes is told to the caller; the command stops waiting exactly if its session is still the one found
   under its ID, and is else left for the agent to answer.
   */
  lemma TimeoutAbandonsExactly(st: State, staleAfter: int, clock: Instant, run: seq<Event>, id: Uuid, now: Instant)
    requires Reachable(st, staleAfter, clock, run) && Enabled(st, Timeout(id), now)
    ensures var b := Next(st, Timeout(id), now);
            && id in st.issued && id in st.fates && id in b.statuses && b.statuses[id] == TimedOut && id in b.fates
            && var i := st.issued[id];
               b.fates[id] == if st.fates[id] == Pending && i.command.sessionID in st.byID
                                 && st.byID[i.command.sessionID] == i.session
                              then Abandoned else st.fates[id]
  {
    hide Reachable, Indexed, Lifecycle, PendingOwned, IssuedWell, SubmitsMatch, QueuesOwned, FatesShown;
    ReachableInv(st, staleAfter, clock, run);
    WaitsExactly(st, id);
  }

  // ----- the order of a session's commands

  /** The commands a run accepts for a session: for each call that picks it while fewer than 16 wait. */
  ghost function AcceptedBy(st: State, run: seq<Event>, r: AgentSession): seq<Command>
    requires CanRun(st, run)
    decreases |run|
  {
    if run == [] then []
    else
      (match run[0].step
       case Issue(req, id, _, issuedAt, pick) =>
         if pick == Some(r) && r in st.idents && r in st.queues && |st.queues[r]| < 16 then
           [match req
            case PingRequest(sessionID) => Command(sessionID, id, issuedAt, Ping, "", "")
            case QueryRequest(_, sql) => Command(st.idents[r].sessionID, id, issuedAt, ExecuteQuery, sql, "")
            case SchemaRequest(_) => Command(st.idents[r].sessionID, id, issuedAt, IntrospectSchema, "", "")
            case ConfigureRequest(_, dsn) => Command(st.idents[r].sessionID, id, issuedAt, ConfigureDatabase, "", dsn)]
         else []
       case _ => []) + AcceptedBy(Next(st, run[0].step, run[0].now), run[1..], r)
  }

  /** The commands a run takes out of a session's channel. */
  ghost function TakenBy(st: State, run: seq<Event>, r: AgentSession): seq<Command>
    requires CanRun(st, run)
    decreases |run|
  {
    if run == [] then []
    else
      (if run[0].step == Dequeue(r) && r in st.queues && st.queues[r] != [] then [st.queues[r][0]] else [])
      + TakenBy(Next(st, run[0].step, run[0].now), run[1..], r)
  }

  lemma IssueMovesQueue(st: State, e: Event, r: AgentSession)
    requires Inv(st) && CanRun(st, [e]) && r in st.queues && e.step.Issue?
    ensures r in Next(st, e.step, e.now).queues && Next(st, e.step, e.now).queues[r] == st.queues[r] + AcceptedBy(st, [e], r)
  {
    hide Inv, Enabled, Next;
    IssueSpares(st, e.step.req, e.step.id, e.step.waiter, e.step.issuedAt, e.step.pick, e.now);
    var b := Next(st, e.step, e.now);
    assert [e][1..] == [] && AcceptedBy(b, [], r) == [];
    assert st.queues[r] + [] == st.queues[r];
  }

  lemma TakenLast(st: State, e: Event, r: AgentSession)
    requires Inv(st) && CanRun(st, [e]) && r in st.queues && !e.step.Issue?
    ensures AcceptedBy(st, [e], r) == []
    ensures r in Next(st, e.step, e.now).queues && TakenBy(st, [e], r) + Next(st, e.step, e.now).queues[r] == st.queues[r]
  {
    hide Inv, Enabled, Next, ClosedLife;
    var b := Next(st, e.step, e.now);
    assert [e][1..] == [] && AcceptedBy(b, [], r) == [] && TakenBy(b, [], r) == [];
    if e.step.Dequeue? {
      CallerSpares(st, e.step, e.now);
      assert [st.queues[e.step.target][0]] + st.queues[e.step.target][1..] == st.queues[e.step.target];
    } else if e.step.Register? || e.step.DisconnectSession? || e.step.DisconnectStream? {
      LockedMoves(st, e.step, e.now);
      if e.step.Register? {
        NewHasNoQueue(st, e.step.ref, e.step.who, e.now, r);
      }
    } else {
      QuietSpares(st, e.step, e.now);
    }
  }

  lemma NewHasNoQueue(st: State, ref: AgentSession, who: Identity, now: Instant, r: AgentSession)
    requires Inv(st) && Enabled(st, Register(ref, who), now) && r in st.queues
    ensures r != ref
  {
  }

  lemma StepMovesQueue(st: State, e: Event, later: seq<Event>, r: AgentSession)
    requires Inv(st) && CanRun(st, [e] + later) && r in st.queues
    ensures CanRun(st, [e]) && CanRun(Next(st, e.step, e.now), later) && r in Next(st, e.step, e.now).queues
    ensures st.queues[r] + AcceptedBy(st, [e], r) == TakenBy(st, [e], r) + Next(st, e.step, e.now).queues[r]
  {
    hide Inv, Enabled, Next;
    assert ([e] + later)[1..] == later && [e][1..] == [];
    assert CanRun(Next(st, e.step, e.now), []);
    if e.step.Issue? {
      IssueMovesQueue(st, e, r);
      NothingTaken(st, e, r);
    } else {
      TakenLast(st, e, r);
      assert st.queues[r] + [] == st.queues[r];
    }
  }

  lemma NothingTaken(st: State, e: Event, r: AgentSession)
    requires CanRun(st, [e]) && e.step.Issue?
    ensures TakenBy(st, [e], r) == []
  {
    hide Enabled, Next;
    assert [e][1..] == [] && TakenBy(Next(st, e.step, e.now), [], r) == [];
  }

  lemma FirstThenRest(st: State, e: Event, later: seq<Event>, r: AgentSession)
    requires CanRun(st, [e] + later) && CanRun(st, [e]) && CanRun(Next(st, e.step, e.now), later)
    ensures AcceptedBy(st, [e] + later, r) == AcceptedBy(st, [e], r) + AcceptedBy(Next(st, e.step, e.now), later, r)
    ensures TakenBy(st, [e] + later, r) == TakenBy(st, [e], r) + TakenBy(Next(st, e.step, e.now), later, r)
    ensures After(st, [e] + later) == After(Next(st, e.step, e.now), later)
  {
    hide Enabled, Next;
    assert ([e] + later)[1..] == later && [e][1..] == [];
    var b := Next(st, e.step, e.now);
    assert AcceptedBy(b, [], r) == [] && TakenBy(b, [], r) == [];
  }

  /**
   A session's channel is a queue: over any run the commands that waited, followed by those accepted, in order and as
   asked for, are those taken out, followed by those that wait.
   */
  lemma {:induction false} CommandsLeaveInOrder(st: State, run: seq<Event>, r: AgentSession)
    requires Inv(st) && CanRun(st, run) && r in st.queues
    ensures r in After(st, run).queues
    ensures st.queues[r] + AcceptedBy(st, run, r) == TakenBy(st, run, r) + After(st, run).queues[r]
    decreases |run|
  {
    hide Inv, Enabled, Next;
    if run == [] {
      assert st.queues[r] + [] == [] + st.queues[r];
    } else {
      var e, later := run[0], run[1..];
      assert run == [e] + later;
      StepKeepsInv(st, e.step, e.now);
      StepMovesQueue(st, e, later, r);
      FirstThenRest(st, e, later, r);
      var b := Next(st, e.step, e.now);
      CommandsLeaveInOrder(b, later, r);
      Spliced(st.queues[r], AcceptedBy(st, [e], r), AcceptedBy(b, later, r), TakenBy(st, [e], r), b.queues[r],
                TakenBy(b, later, r), After(b, later).queues[r]);
    }
  }

  // ----- tenants end to end

  lemma MoveKeepsIdents(w: World, m: Move, now: Instant)
    requires WorldInv(w) && CanMove(w, m, now)
    ensures IdentsLast(w.st.idents, Moved(w, m, now).st.idents)
  {
    hide Inv, Enabled, Next;
    match m
    case Manage(step) => StepKeepsIdents(w.st, step, now);
    case Forward(target, sent) => StepKeepsIdents(w.st, Dequeue(target), now);
    case Arrive(entry, submit) => StepKeepsIdents(w.st, ArrivalOf(w, entry, submit), now);
    case _ =>
  }

  lemma StepKeepsIdents(st: State, step: Step, now: Instant)
    requires Inv(st) && Enabled(st, step, now)
    ensures IdentsLast(st.idents, Next(st, step, now).idents)
  {
    hide Inv, Enabled, Next;
    StepEvolves(st, step, now);
  }

  lemma {:induction false} RunKeepsIdents(w: World, run: seq<Happening>)
    requires WorldInv(w) && CanUnfold(w, run)
    ensures IdentsLast(w.st.idents, Unfolded(w, run).st.idents)
    decreases |run|
  {
    hide WorldInv, Moved, CanMove;
    if run == [] {
    } else {
      MoveKeepsWorld(w, run[0].move, run[0].now);
      MoveKeepsIdents(w, run[0].move, run[0].now);
      RunKeepsIdents(Moved(w, run[0].move, run[0].now), run[1..]);
    }
  }

  lemma InvPickIsOfTenant(st: State, req: Request, id: Uuid, waiter: Handle, issuedAt: Instant, r: AgentSession, now: Instant)
    requires Inv(st) && Enabled(st, Issue(req, id, waiter, issuedAt, Some(r)), now) && (req.QueryRequest? || req.SchemaRequest?)
    ensures r in st.idents && st.idents[r].tenantID == req.tenantID
  {
    hide Inv, Shaped;
  }

  /**
   What a tenant asks for is handled by that tenant's agents alone: whatever follows a query or schema request of a tenant,
   its command is handled on a session registered for that tenant, with the very SQL that was asked.
   */
  lemma TenantsAgentHandles(w: World, staleAfter: int, clock: Instant, before: seq<Happening>, req: Request, id: Uuid,
                            waiter: Handle, issuedAt: Instant, r: AgentSession, now: Instant, run: seq<Happening>, k: nat)
    requires Occurs(w, staleAfter, clock, before) && (req.QueryRequest? || req.SchemaRequest?)
    requires CanMove(w, Manage(Issue(req, id, waiter, issuedAt, Some(r))), now)
    requires CanUnfold(Moved(w, Manage(Issue(req, id, waiter, issuedAt, Some(r))), now), run)
    requires var b := Unfolded(Moved(w, Manage(Issue(req, id, waiter, issuedAt, Some(r))), now), run);
             k < |b.log| && b.log[k].reply.commandID == id
    ensures var b := Unfolded(Moved(w, Manage(Issue(req, id, waiter, issuedAt, Some(r))), now), run);
            && b.log[k].stream in b.st.idents && b.st.idents[b.log[k].stream].tenantID == req.tenantID
            && (req.QueryRequest? ==> b.log[k].message.kind == Some(ExecuteQuery) && b.log[k].message.sql == req.sql)
            && (req.SchemaRequest? ==> b.log[k].message.kind == Some(IntrospectSchema))
  {
    hide WorldInv, CanUnfold, Unfolded, Occurs, Enabled, Next, EdgeAgent.HandleCommand;
    OccursInv(w, staleAfter, clock, before);
    var m := Manage(Issue(req, id, waiter, issuedAt, Some(r)));
    var next := Moved(w, m, now);
    WorldIsInv(w);
    InvPickIsOfTenant(w.st, req, id, waiter, issuedAt, r, now);
    MoveKeepsWorld(w, m, now);
    MoveKeepsIdents(w, m, now);
    RunKeepsIdents(next, run);
    AskedIsExecuted(w, req, id, waiter, issuedAt, r, now, run, k);
  }

  lemma WorldIsInv(w: World)
    requires WorldInv(w)
    ensures Inv(w.st)
  {
  }

  // ----- the order on the wire

  /** The messages a run puts on a session's wire. */
  ghost function PutOn(w: World, run: seq<Happening>, r: AgentSession): seq<EdgeAgent.Frame>
    requires CanUnfold(w, run)
    decreases |run|
  {
    if run == [] then []
    else
      PutOnNow(w, run[0].move, r) + PutOn(Moved(w, run[0].move, run[0].now), run[1..], r)
  }

  /** The messages a run takes off it, to be handled or lost. */
  ghost function TakenOff(w: World, run: seq<Happening>, r: AgentSession): seq<EdgeAgent.Frame>
    requires CanUnfold(w, run)
    decreases |run|
  {
    if run == [] then []
    else
      TakenOffNow(w, run[0].move, r) + TakenOff(Moved(w, run[0].move, run[0].now), run[1..], r)
  }

  ghost function PutOnNow(w: World, m: Move, r: AgentSession): seq<EdgeAgent.Frame> {
    if m == Forward(r, true) && r in w.st.queues && w.st.queues[r] != [] then [EdgeAgent.CommandToProto(w.st.queues[r][0])] else []
  }

  ghost function TakenOffNow(w: World, m: Move, r: AgentSession): seq<EdgeAgent.Frame> {
    match m
    case Handle(target, _) => if target == r && r in w.wires && w.wires[r] != [] then [w.wires[r][0]] else []
    case Lose(target) => if target == r && r in w.wires then w.wires[r] else []
    case _ => []
  }

  lemma MoveMovesWire(w: World, m: Move, now: Instant, r: AgentSession)
    requires CanMove(w, m, now) && r in w.wires
    ensures r in Moved(w, m, now).wires
    ensures w.wires[r] + PutOnNow(w, m, r) == TakenOffNow(w, m, r) + Moved(w, m, now).wires[r]
  {
    hide Next, Shaped, HandledWith, EdgeAgent.FromProto, EdgeAgent.CommandToProto, Located, Accepts, Resolves;
    assert w.wires[r] + [] == w.wires[r] == [] + w.wires[r];
    if w.wires[r] != [] {
      assert [w.wires[r][0]] + w.wires[r][1..] == w.wires[r];
    }
  }

  /** A session's wire keeps its order: what was on it, followed by what is put on, is what comes off, followed by what is left. */
  lemma {:induction false} WireKeepsOrder(w: World, run: seq<Happening>, r: AgentSession)
    requires CanUnfold(w, run) && r in w.wires
    ensures r in Unfolded(w, run).wires
    ensures w.wires[r] + PutOn(w, run, r) == TakenOff(w, run, r) + Unfolded(w, run).wires[r]
    decreases |run|
  {
    hide CanMove, Moved;
    if run == [] {
      assert w.wires[r] + [] == [] + w.wires[r];
    } else {
      var m, now := run[0].move, run[0].now;
      var b := Moved(w, m, now);
      MoveMovesWire(w, m, now, r);
      WireKeepsOrder(b, run[1..], r);
      Spliced(w.wires[r], PutOnNow(w, m, r), PutOn(b, run[1..], r), TakenOffNow(w, m, r), b.wires[r],
              TakenOff(b, run[1..], r), Unfolded(b, run[1..]).wires[r]);
    }
  }

  lemma Spliced<T>(queue: seq<T>, a: seq<T>, as': seq<T>, t: seq<T>, between: seq<T>, ts: seq<T>, left: seq<T>)
    requires queue + a == t + between && between + as' == ts + left
    ensures queue + (a + as') == (t + ts) + left
  {
    assert queue + (a + as') == queue + a + as' && t + between + as' == t + (between + as');
    assert t + (ts + left) == (t + ts) + left;
  }

  // ----- results end to end

  /** The message of a log entry, and the reply it drew. */
  lemma EntryIsHandled(w: World, staleAfter: int, clock: Instant, run: seq<Happening>, k: nat)
    requires Occurs(w, staleAfter, clock, run) && k < |w.log|
    ensures var e := w.log[k];
            && e.reply.commandID in w.st.issued
            && var c := w.st.issued[e.reply.commandID].command;
               && e.message == EdgeAgent.ControlMessage(c.sessionID, Some(e.reply.commandID), c.issuedAt, Some(c.kind), c.sql, c.dsn)
               && Some(e.reply) ==
                  EdgeAgent.HandleCommand(e.message, e.running.executors, e.running.startedAt, e.running.completedAt,
                                          e.running.run).reply
  {
    hide EdgeAgent.HandleCommand;
    OccursInv(w, staleAfter, clock, run);
    HandledOnceAsIssued(w, staleAfter, clock, run, k);
    assert EntryOwned(w.log[k], w.st.issued, w.st.dequeued);
  }

  /**
   A result a call returned is what the agent's executor came back with, field by field, for the command's own SQL or DSN
   at its one handling; a failure is the executor's, or says that there is none; a ping is the time it took to arrive.
   */
  lemma ReturnedBodyIsTheAgents(w: World, staleAfter: int, clock: Instant, run: seq<Happening>, id: Uuid, result: Result)
    returns (k: nat)
    requires Occurs(w, staleAfter, clock, run)
    requires id in w.st.issued && id in w.st.statuses && w.st.statuses[id] == Returned(result)
    ensures k < |w.log| && w.log[k].reply == result && w.log[k].stream == w.st.issued[id].session
    ensures var c, x, b := w.st.issued[id].command, w.log[k].running, result.body;
            && result.sessionID == c.sessionID && result.commandID == id && result.completedAt == x.completedAt
            && match c.kind
               case Ping => b.PingBody? && b.roundTripMS == if c.issuedAt <= x.startedAt then x.startedAt - c.issuedAt else 0
               case ExecuteQuery =>
                 && b.QueryBody?
                 && (if !x.executors.query then b.rows == [] && b.error == "query executor is not configured"
                     else
                       var o := x.run(ExecuteQuery, c.sql);
                       if o.Answer? then
                         && b.columns == o.columns && b.rows == o.rows && b.elapsedMS == o.elapsedMS
                         && b.databaseUser == o.databaseUser && b.databaseName == o.databaseName && b.error == ""
                       else
                         && b.rows == [] && b.elapsedMS == x.completedAt - x.startedAt && b.error == o.message
                         && b.errorCode == o.code && b.errorReason == o.reason && b.blockedConstructs == o.blocked)
               case IntrospectSchema =>
                 && b.SchemaBody?
                 && (if !x.executors.schema then b.schema == "" && b.error == "schema introspector is not configured"
                     else
                       var o := x.run(IntrospectSchema, "");
                       if o.Answer? then
                         && b.schema == o.schema && b.elapsedMS == o.elapsedMS
                         && b.databaseUser == o.databaseUser && b.databaseName == o.databaseName && b.error == ""
                       else b.schema == "" && b.elapsedMS == x.completedAt - x.startedAt && b.error == o.message)
               case ConfigureDatabase =>
                 && b.ConfigureBody?
                 && (if !x.executors.configure then b.error == "database configurer is not configured"
                     else
                       var o := x.run(ConfigureDatabase, c.dsn);
                       if o.Answer? then
                         && b.elapsedMS == o.elapsedMS && b.databaseUser == o.databaseUser && b.databaseName == o.databaseName
                         && b.error == o.error && b.errorCode == o.errorCode
                       else b.elapsedMS == x.completedAt - x.startedAt && b.error == o.message && b.errorCode == "")
  {
    hide Occurs, BodyFor, EdgeAgent.HandleCommand;
    ReturnedResultWasExecuted(w, staleAfter, clock, run, id, result);
    var l :| 0 <= l < |w.log| && w.log[l].reply == result && result.commandID == id && w.log[l].stream == w.st.issued[id].session;
    k := l;
    EntryIsHandled(w, staleAfter, clock, run, k);
    var c, x, m := w.st.issued[id].command, w.log[k].running, w.log[k].message;
    EdgeAgent.MissingExecutorIsReported(m, x.executors, x.startedAt, x.completedAt, x.run);
    match c.kind {
    case Ping => EdgeAgent.PingIsTimed(m, x.executors, x.startedAt, x.completedAt, x.run);
    case ExecuteQuery =>
      if x.executors.query { EdgeAgent.QueryIsRun(m, x.executors, x.startedAt, x.completedAt, x.run); }
    case IntrospectSchema =>
      if x.executors.schema { EdgeAgent.SchemaIsIntrospected(m, x.executors, x.startedAt, x.completedAt, x.run); }
    case ConfigureDatabase =>
      if x.executors.configure { EdgeAgent.DatabaseIsConfigured(m, x.executors, x.startedAt, x.completedAt, x.run); }
    }
  }
}
