/** The session manager, method by method: each mutex hold or channel operation is one step of the protocol. */
module AgentSessions {
  import opened Common
  import opened AgentModel
  import opened AgentProtocol
  import opened AgentInvariants
  import opened AgentSteps
  import opened AgentWalk

  const DEFAULT_STALE_AFTER := 25_000

  ghost function Picked(session: AgentSession?): Option<AgentSession> {
    if session == null then None else Some(session)
  }

  datatype Lookup = Found(session: AgentSession) | Missing(error: Error)

  /** The record `s` holds what the protocol state says of it. */
  ghost predicate RecordLinked(s: AgentSession, idents: map<AgentSession, Identity>, lives: map<AgentSession, Life>,
                               beats: map<AgentSession, Instant>, queues: map<AgentSession, seq<Command>>,
                               pending: map<AgentSession, map<Key, Handle>>)
    reads s
  {
    && s in idents && idents[s] == s.Who()
    && s in lives && lives[s] == s.How()
    && s in beats && beats[s] == s.lastHeartbeatAt
    && s in queues && queues[s] == s.commands
    && s in pending && pending[s] == s.pending
  }

  /** The two states say the same of the record `s`. */
  ghost predicate Agree(a: State, b: State, s: AgentSession) {
    && (s in a.lives ==> s in b.lives && b.lives[s] == a.lives[s])
    && (s in a.beats ==> s in b.beats && b.beats[s] == a.beats[s])
    && (s in a.queues ==> s in b.queues && b.queues[s] == a.queues[s])
    && (s in a.pending ==> s in b.pending && b.pending[s] == a.pending[s])
  }

  lemma StillLinked(s: AgentSession, a: State, b: State)
    requires RecordLinked(s, a.idents, a.lives, a.beats, a.queues, a.pending)
    requires (s in a.idents ==> s in b.idents && b.idents[s] == a.idents[s]) && Agree(a, b, s)
    ensures RecordLinked(s, b.idents, b.lives, b.beats, b.queues, b.pending)
  {
  }

  lemma NowLinked(s: AgentSession, st: State)
    requires s in st.idents && st.idents[s] == s.Who()
    requires s in st.lives && st.lives[s] == s.How()
    requires s in st.beats && st.beats[s] == s.lastHeartbeatAt
    requires s in st.queues && st.queues[s] == s.commands
    requires s in st.pending && st.pending[s] == s.pending
    ensures RecordLinked(s, st.idents, st.lives, st.beats, st.queues, st.pending)
  {
  }

  lemma InstallParts(st: State, ref: AgentSession, who: Identity)
    ensures var b := Install(st, ref, who);
            && b.staleAfter == st.staleAfter && b.waiters == st.waiters
            && b.byToken == st.byToken[who.tokenID := ref] && b.byID == st.byID[who.sessionID := ref]
            && b.idents == st.idents[ref := who]
            && ref in b.lives && b.lives[ref] == OPEN_LIFE && ref in b.beats && b.beats[ref] == who.connectedAt
            && ref in b.queues && b.queues[ref] == [] && ref in b.pending && b.pending[ref] == map[]
  {
  }

  lemma InstallAgrees(st: State, ref: AgentSession, who: Identity, s: AgentSession)
    requires s != ref
    ensures Agree(st, Install(st, ref, who), s)
    ensures s in st.idents ==> s in Install(st, ref, who).idents && Install(st, ref, who).idents[s] == st.idents[s]
  {
  }

  class AgentSessionManager {
    const staleAfter: int
    var byToken: map<Uuid, AgentSession>
    var byID: map<string, AgentSession>
    /** The result channels, which live outside the manager's records. */
    var waiters: map<Handle, Waiter>
    /** The protocol state, with the history the records do not keep. */
    ghost var model: State

    /** The manager and its records hold what the protocol state says. */
    ghost predicate Linked()
      reads this, model.idents.Keys
    {
      && staleAfter == model.staleAfter
      && byToken == model.byToken && byID == model.byID && waiters == model.waiters
      && (forall t | t in byToken :: byToken[t] in model.idents)
      && (forall s | s in byID :: byID[s] in model.idents)
      && forall s | s in model.idents :: RecordLinked(s, model.idents, model.lives, model.beats, model.queues, model.pending)
    }

    ghost predicate Valid()
      reads this, model.idents.Keys
    {
      Linked() && Inv(model)
    }

    constructor (staleAfter: int, ghost now: Instant)
      ensures Valid() && model == Initial(if staleAfter <= 0 then 25_000 else staleAfter, now)
    {
      this.staleAfter := if staleAfter <= 0 then DEFAULT_STALE_AFTER else staleAfter;
      byToken, byID, waiters := map[], map[], map[];
      model := Initial(if staleAfter <= 0 then DEFAULT_STALE_AFTER else staleAfter, now);
      new;
      InitialInv(this.staleAfter, now);
    }

    /** Whether the session's flag is up and its last heartbeat recent enough. */
    predicate IsActiveLocked(session: AgentSession, now: Instant)
      reads this, session
    {
      session.active && now - session.lastHeartbeatAt <= staleAfter
    }

    /** The active session of a token under a session ID, or why there is none. */
    function SessionLocked(tokenID: Uuid, sessionID: string, now: Instant): Lookup
      reads this, byID.Values
    {
      if sessionID !in byID || byID[sessionID].tokenID != tokenID then Missing(SessionNotFound)
      else if !IsActiveLocked(byID[sessionID], now) then Missing(SessionNotActive)
      else Found(byID[sessionID])
    }

    lemma LookupIsLocated(tokenID: Uuid, sessionID: string, now: Instant)
      requires Linked()
      ensures SessionLocked(tokenID, sessionID, now) ==
              if Located(model, tokenID, sessionID, now) then Found(byID[sessionID])
              else Missing(LocateError(model, tokenID, sessionID))
      ensures Located(model, tokenID, sessionID, now) ==> byID == model.byID && byID[sessionID] in model.idents
    {
    }

    /** Notes what a step did to the part of the protocol state that no record holds. */
    ghost method Note(st: State)
      requires Linked()
      requires st == model.(issued := st.issued, fates := st.fates, statuses := st.statuses, dequeued := st.dequeued,
                            submits := st.submits, clock := st.clock, fault := st.fault)
      modifies this`model
      ensures Linked() && model == st
    {
      model := st;
    }

    /** A change to one record keeps the link if the protocol state follows it. */
    twostate lemma Relink(session: AgentSession)
      requires old(Linked()) && session in old(model.idents)
      requires model.idents == old(model.idents) && model.staleAfter == old(model.staleAfter)
      requires byToken == model.byToken == old(byToken) && byID == model.byID == old(byID) && waiters == model.waiters
      requires forall s | s in old(model.idents) && s != session :: unchanged(s) && Agree(old(model), model, s)
      requires RecordLinked(session, model.idents, model.lives, model.beats, model.queues, model.pending)
      ensures Linked()
    {
      hide RecordLinked, Agree;
      forall s | s in model.idents
        ensures RecordLinked(s, model.idents, model.lives, model.beats, model.queues, model.pending)
      {
        if s != session {
          assert old(RecordLinked(s, model.idents, model.lives, model.beats, model.queues, model.pending));
          StillLinked(s, old(model), model);
        }
      }
    }

    lemma RecordsRead(session: AgentSession)
      requires Linked() && session in model.idents
      ensures session.Who() == model.idents[session]
      ensures session in model.lives && model.lives[session] == session.How()
      ensures session in model.beats && model.beats[session] == session.lastHeartbeatAt
      ensures session in model.queues && model.queues[session] == session.commands
      ensures session in model.pending && model.pending[session] == session.pending
    {
    }

    method SetHeartbeat(session: AgentSession, at: Instant)
      requires Linked() && session in model.idents
      modifies session`lastHeartbeatAt, this`model
      ensures Linked() && model == old(model).(beats := old(model).beats[session := at])
    {
      hide RecordLinked;
      RecordsRead(session);
      session.lastHeartbeatAt := at;
      model := model.(beats := model.beats[session := at]);
      NowLinked(session, model);
      Relink(session);
    }

    method MarkHeartbeat(tokenID: Uuid, sessionID: string, at: Instant, now: Instant) returns (err: Option<Error>)
      requires Valid() && model.clock <= now
      modifies this`model, model.idents.Keys
      ensures Valid()
      ensures var step := Heartbeat(tokenID, sessionID, at);
              Enabled(old(model), step, now) && model == Next(old(model), step, now)
      ensures err == if Located(old(model), tokenID, sessionID, now) then None
                     else Some(LocateError(old(model), tokenID, sessionID))
    {
      hide Inv, Enabled, Next, Linked;
      HeartbeatStep(model, tokenID, sessionID, at, now);
      LookupIsLocated(tokenID, sessionID, now);
      match SessionLocked(tokenID, sessionID, now) {
      case Missing(error) => err := Some(error);
      case Found(session) =>
        SetHeartbeat(session, at);
        err := None;
      }
      Note(model.(clock := now));
    }

    // ----- the two channel operations that can go wrong

    method SendTo(waiter: Handle, result: Result)
      requires waiter in waiters && SendFault(waiters[waiter]) == NoFault
      modifies this`waiters
      ensures waiters == old(waiters)[waiter := AfterSend(old(waiters)[waiter], result)]
    {
      waiters := waiters[waiter := AfterSend(waiters[waiter], result)];
    }

    method CloseChannel(waiter: Handle)
      requires waiter in waiters && CloseFault(waiters[waiter]) == NoFault
      modifies this`waiters
      ensures waiters == old(waiters)[waiter := AfterClose(old(waiters)[waiter])]
    {
      waiters := waiters[waiter := AfterClose(waiters[waiter])];
    }

    // ----- closing

    /** Empties the pending map entry by entry and closes each waiter taken out of it. */
    method WakePending(session: AgentSession)
      requires Closable(session.pending, waiters)
      modifies session`pending, this`waiters
      ensures session.pending == map[] && waiters == WokenWaiters(old(waiters), old(session.pending))
    {
      hide WokenWaiters, Closable;
      ghost var p, before := session.pending, waiters;
      WakeNone(before);
      ghost var done: map<Key, Handle> := map[];
      while session.pending != map[]
        invariant forall k | k in done :: k in p && done[k] == p[k]
        invariant forall k | k in session.pending :: k in p && k !in done && session.pending[k] == p[k]
        invariant forall k | k in p :: k in done || k in session.pending
        invariant waiters == WokenWaiters(before, done)
        decreases |session.pending|
      {
        var k := AnyOf(session.pending.Keys);
        var waiter := session.pending[k];
        NextIsNew(p, done, before, k);
        WakeOneMore(before, done, k, waiter);
        session.pending := session.pending - {k};
        CloseChannel(waiter);
        done := done[k := waiter];
      }
      assert done == p;
    }

    method CloseDone(session: AgentSession)
      requires DoneFault(session.How()) == NoFault
      modifies session`doneCloses
      ensures session.How() == AfterDoneClose(old(session.How()))
    {
      session.doneCloses := session.doneCloses + 1;
    }

    method MarkClosed(session: AgentSession, at: Instant)
      modifies session`active, session`disconnectedAt, session`doneCloses
      ensures session.How() == ClosedLife(old(session.How()), at)
    {
      if session.active {
        session.active := false;
        if session.disconnectedAt == None {
          session.disconnectedAt := Some(at);
        }
      }
      if session.doneCloses == 0 {
        CloseDone(session);
      }
    }

    method SetClosed(session: AgentSession, at: Instant)
      requires Linked() && session in model.idents && session in model.lives
      modifies session`active, session`disconnectedAt, session`doneCloses, this`model
      ensures Linked() && model == old(model).(lives := old(model).lives[session := ClosedLife(old(model).lives[session], at)])
    {
      hide ClosedLife, RecordLinked;
      RecordsRead(session);
      MarkClosed(session, at);
      model := model.(lives := model.lives[session := ClosedLife(model.lives[session], at)]);
      NowLinked(session, model);
      Relink(session);
    }

    method WakeLocked(session: AgentSession)
      requires Linked() && session in model.idents && session in model.pending && Closable(model.pending[session], model.waiters)
      modifies session`pending, this`waiters, this`model
      ensures Linked()
      ensures model == old(model).(pending := old(model).pending[session := map[]],
                                   waiters := WokenWaiters(old(model).waiters, old(model).pending[session]))
    {
      hide WokenWaiters, Closable, RecordLinked;
      RecordsRead(session);
      WakePending(session);
      model := model.(pending := model.pending[session := map[]], waiters := WokenWaiters(model.waiters, model.pending[session]));
      NowLinked(session, model);
      Relink(session);
    }

    method CloseSessionLocked(session: AgentSession, at: Instant)
      requires Linked() && session in model.idents && HasRecord(model, session)
      requires Closable(model.pending[session], model.waiters)
      modifies session`active, session`disconnectedAt, session`doneCloses, session`pending, this`waiters, this`model
      ensures Linked() && model == CloseSession(old(model), session, at)
    {
      hide Linked;
      ghost var closed := CloseSession(model, session, at);
      SetClosed(session, at);
      WakeLocked(session);
      Note(closed);
    }

    method DisconnectSession(sessionID: string, now: Instant)
      requires Valid() && model.clock <= now
      modifies this, model.idents.Keys
      ensures Valid()
      ensures var step := AgentProtocol.DisconnectSession(sessionID);
              Enabled(old(model), step, now) && model == Next(old(model), step, now)
    {
      hide Inv, Enabled, Next;
      DisconnectSessionStep(model, sessionID, now);
      if sessionID in byID {
        CloseSessionLocked(byID[sessionID], now);
      }
      Note(model.(clock := now));
    }

    /** The disconnect handle that RegisterSession gave out with `target`. */
    method DisconnectRegisteredSession(sessionID: string, target: AgentSession, now: Instant)
      requires Valid() && model.clock <= now
      modifies this, model.idents.Keys
      ensures Valid()
      ensures var step := DisconnectStream(sessionID, target);
              Enabled(old(model), step, now) && model == Next(old(model), step, now)
    {
      hide Inv, Enabled, Next;
      DisconnectStreamStep(model, sessionID, target, now);
      if sessionID in byID && byID[sessionID] == target {
        CloseSessionLocked(target, now);
      }
      Note(model.(clock := now));
    }

    // ----- registering

    method UnindexLocked(sessionID: string, newSessionID: string, ghost who: Identity)
      requires Linked() && who.sessionID == newSessionID
      modifies this`byID, this`model
      ensures Linked() && model == old(model).(byID := LeftIndexed(old(model).byID, sessionID, who))
    {
      if sessionID != newSessionID {
        byID := byID - {sessionID};
      }
      model := model.(byID := byID);
    }

    /** The prior session of the token, if any, is closed and no longer found by its ID. */
    method ReplaceLocked(tokenID: Uuid, sessionID: string, at: Instant, ghost who: Identity)
      requires Linked() && who.tokenID == tokenID && who.sessionID == sessionID && who.connectedAt == at
      requires tokenID in model.byToken ==>
                 && HasRecord(model, model.byToken[tokenID])
                 && Closable(model.pending[model.byToken[tokenID]], model.waiters)
      modifies this, model.idents.Keys
      ensures Linked() && model == Replace(old(model), who)
    {
      if tokenID in byToken {
        var existing := byToken[tokenID];
        RecordsRead(existing);
        CloseSessionLocked(existing, at);
        UnindexLocked(existing.sessionID, sessionID, who);
      }
    }

    method InstallLocked(session: AgentSession)
      requires Linked() && session !in model.idents
      requires session.How() == OPEN_LIFE && session.commands == [] && session.pending == map[]
      requires session.lastHeartbeatAt == session.connectedAt
      modifies this`byToken, this`byID, this`model
      ensures Linked() && model == Install(old(model), session, session.Who())
    {
      hide RecordLinked, Agree, Install;
      InstallParts(model, session, session.Who());
      byToken := byToken[session.tokenID := session];
      byID := byID[session.sessionID := session];
      model := Install(model, session, session.Who());
      forall s | s in model.idents
        ensures RecordLinked(s, model.idents, model.lives, model.beats, model.queues, model.pending)
      {
        if s != session {
          assert old(RecordLinked(s, model.idents, model.lives, model.beats, model.queues, model.pending));
          InstallAgrees(old(model), session, session.Who(), s);
          StillLinked(s, old(model), model);
        } else {
          NowLinked(session, model);
        }
      }
    }

    /** `readAt` is the clock reading made before the mutex is taken. */
    method RegisterSession(tenantID: Uuid, tokenID: Uuid, sessionID: string, hostname: string, readAt: Instant)
      returns (session: AgentSession?, err: Option<Error>)
      requires Valid()
      modifies this, model.idents.Keys
      ensures Valid()
      ensures err == if sessionID == "" then Some(InvalidSessionID) else if hostname == "" then Some(InvalidHostname) else None
      ensures err != None ==> session == null && model == old(model)
      ensures err == None ==>
                && session != null && fresh(session)
                && var step := Register(session, Identity(sessionID, tenantID, tokenID, hostname, readAt));
                   Enabled(old(model), step, old(model).clock) && model == Next(old(model), step, old(model).clock)
    {
      hide Inv, Enabled, Next, Linked;
      if sessionID == "" {
        return null, Some(InvalidSessionID);
      }
      if hostname == "" {
        return null, Some(InvalidHostname);
      }
      var created := new AgentSession(tenantID, tokenID, sessionID, hostname, readAt);
      ghost var who := Identity(sessionID, tenantID, tokenID, hostname, readAt);
      RegisterStep(model, created, who, model.clock);
      ReplaceLocked(tokenID, sessionID, readAt, who);
      InstallLocked(created);
      return created, None;
    }

    // ----- calling an agent

    lemma UsableIsLatest(tenantID: Uuid, now: Instant, current: AgentSession?, at: Uuid)
      requires Linked() && Inv(model)
      requires current == null ==> forall t | t in byToken :: !Usable(byToken[t], tenantID, now, staleAfter)
      requires current != null ==>
                 && at in byToken && byToken[at] == current && Usable(current, tenantID, now, staleAfter)
                 && forall t | t in byToken && Usable(byToken[t], tenantID, now, staleAfter) ::
                      byToken[t].connectedAt <= current.connectedAt
      ensures LatestActive(model, tenantID, now, Picked(current))
    {
      hide RecordLinked, IssuedWell, QueuesOwned, SubmitsMatch, Lifecycle, PendingOwned, FatesShown, ChannelsShaped, CommandsShaped;
      forall t | t in byToken
        ensures Eligible(model, tenantID, now, byToken[t]) == Usable(byToken[t], tenantID, now, staleAfter)
        ensures byToken[t] in model.idents && model.idents[byToken[t]].connectedAt == byToken[t].connectedAt
      {
        RecordsRead(byToken[t]);
      }
    }

    /** The latest-connected active session of the tenant; the map is walked in an arbitrary order. */
    method ActiveTenantSessionLocked(tenantID: Uuid, now: Instant) returns (current: AgentSession?)
      requires Valid()
      ensures LatestActive(model, tenantID, now, Picked(current))
      ensures current != null ==> current in model.idents
    {
      hide Inv, RecordLinked, LatestActive;
      ghost var at;
      current, at := LatestUsable(byToken, tenantID, now, staleAfter);
      UsableIsLatest(tenantID, now, current, at);
    }

    lemma ActiveIsActive(session: AgentSession, now: Instant)
      requires Linked() && session in model.idents
      ensures IsActiveLocked(session, now) == IsActive(model, session, now)
    {
      RecordsRead(session);
    }

    /** How each of the four calls finds its session, and the error it gives when there is none. */
    method ResolveLocked(req: Request, now: Instant) returns (pick: AgentSession?, err: Option<Error>)
      requires Valid()
      ensures Resolves(model, req, now, Picked(pick))
      ensures pick != null ==> pick in model.idents
      ensures err == if pick == null then Some(ResolveError(model, req)) else None
    {
      hide Inv, LatestActive, RecordLinked;
      pick, err := null, None;
      match req {
      case PingRequest(sid) =>
        if sid !in byID {
          err := Some(SessionNotFound);
        } else {
          ActiveIsActive(byID[sid], now);
          if IsActiveLocked(byID[sid], now) { pick := byID[sid]; } else { err := Some(SessionNotActive); }
        }
      case QueryRequest(tenantID, _) =>
        pick := ActiveTenantSessionLocked(tenantID, now);
        err := if pick == null then Some(TenantNotConnected) else None;
      case SchemaRequest(tenantID) =>
        pick := ActiveTenantSessionLocked(tenantID, now);
        err := if pick == null then Some(TenantNotConnected) else None;
      case ConfigureRequest(tokenID, _) =>
        if tokenID in byToken {
          ActiveIsActive(byToken[tokenID], now);
        }
        if tokenID in byToken && IsActiveLocked(byToken[tokenID], now) { pick := byToken[tokenID]; }
        else { err := Some(TenantNotConnected); }
      }
    }

    /** Notes the waiter and queues the command, or takes the waiter back if the queue is full. */
    method OfferLocked(session: AgentSession, c: Command, waiter: Handle) returns (accepted: bool)
      requires Key(c.kind, c.commandID) !in session.pending
      modifies session`pending, session`commands
      ensures accepted == (|old(session.commands)| < QUEUE_CAPACITY)
      ensures session.commands == if accepted then old(session.commands) + [c] else old(session.commands)
      ensures session.pending == if accepted then old(session.pending)[Key(c.kind, c.commandID) := waiter] else old(session.pending)
    {
      session.pending := session.pending[Key(c.kind, c.commandID) := waiter];
      if |session.commands| < QUEUE_CAPACITY {
        session.commands := session.commands + [c];
        accepted := true;
      } else {
        session.pending := session.pending - {Key(c.kind, c.commandID)};
        accepted := false;
      }
    }

    /** The protocol state follows the session's queue and pending entries, and the channels. */
    ghost method SyncQueue(session: AgentSession)
      requires byToken == model.byToken && byID == model.byID && staleAfter == model.staleAfter
      requires forall t | t in byToken :: byToken[t] in model.idents
      requires forall s | s in byID :: byID[s] in model.idents
      requires forall s | s in model.idents && s != session ::
                 RecordLinked(s, model.idents, model.lives, model.beats, model.queues, model.pending)
      requires session in model.idents && model.idents[session] == session.Who()
      requires session in model.lives && model.lives[session] == session.How()
      requires session in model.beats && model.beats[session] == session.lastHeartbeatAt
      modifies this`model
      ensures Linked()
      ensures model == old(model).(queues := old(model).queues[session := session.commands],
                                   pending := old(model).pending[session := session.pending], waiters := waiters)
    {
      hide RecordLinked;
      model := model.(queues := model.queues[session := session.commands],
                      pending := model.pending[session := session.pending], waiters := waiters);
      NowLinked(session, model);
      forall s | s in model.idents && s != session
        ensures RecordLinked(s, model.idents, model.lives, model.beats, model.queues, model.pending)
      {
        StillLinked(s, old(model), model);
      }
    }

    method EnqueueLocked(session: AgentSession, c: Command, waiter: Handle) returns (accepted: bool)
      requires Linked() && session in model.idents && HasRecord(model, session)
      requires Key(c.kind, c.commandID) !in model.pending[session]
      modifies session`pending, session`commands, this`waiters, this`model
      ensures Linked() && model == DoIssue(old(model), c, waiter, session)
      ensures accepted == (|old(model).queues[session]| < QUEUE_CAPACITY)
    {
      hide RecordLinked, DoIssue;
      RecordsRead(session);
      waiters := waiters[waiter := UNUSED];
      accepted := OfferLocked(session, c, waiter);
      SyncQueue(session);
      IssueParts(old(model), c, waiter, session);
      Note(DoIssue(old(model), c, waiter, session));
    }

    /**
     What Ping, ExecuteQuery, IntrospectSchema and ConfigureDatabase do under the mutex: find the session, note the
     waiter, queue the command.  `id` is a fresh command ID and `waiter` a fresh channel.
     */
    method Call(req: Request, id: Uuid, waiter: Handle, issuedAt: Instant, now: Instant)
      returns (session: AgentSession?, err: Option<Error>)
      requires Valid() && model.clock <= now && id !in model.issued && waiter !in model.waiters
      modifies this, model.idents.Keys
      ensures Valid()
      ensures var step := Issue(req, id, waiter, issuedAt, Picked(session));
              Enabled(old(model), step, now) && model == Next(old(model), step, now)
      ensures session == null ==> err == Some(ResolveError(old(model), req))
      ensures session != null ==>
                && session in old(model).queues
                && err == if |old(model).queues[session]| < QUEUE_CAPACITY then None else Some(CommandRejected)
    {
      hide Inv, Enabled, Next, Resolves, RecordLinked, ResolveError;
      session, err := ResolveLocked(req, now);
      IssueStep(model, req, id, waiter, issuedAt, Picked(session), now);
      if session != null {
        RecordsRead(session);
        var command := Command(if req.PingRequest? then req.sessionID else session.sessionID,
                               id, issuedAt, req.KindOf(), req.Sql(), req.Dsn());
        var accepted := EnqueueLocked(session, command, waiter);
        err := if accepted then None else Some(CommandRejected);
      }
      Note(model.(clock := now));
    }

    // ----- submitting a result

    /** Takes an entry out of the session's pending map; there need not be one. */
    method DeletePending(session: AgentSession, k: Key)
      requires Linked() && session in model.idents && session in model.pending
      modifies session`pending, this`model
      ensures Linked() && model == old(model).(pending := old(model).pending[session := old(model).pending[session] - {k}])
    {
      hide RecordLinked;
      RecordsRead(session);
      session.pending := session.pending - {k};
      model := model.(pending := model.pending[session := model.pending[session] - {k}]);
      NowLinked(session, model);
      Relink(session);
    }

    /** The part of a Submit made under the mutex: the waiter is taken out of the pending map. */
    method SubmitTake(tokenID: Uuid, result: Result, ghost submit: Handle, now: Instant)
      returns (waiter: Handle, err: Option<Error>)
      requires Valid() && model.clock <= now && submit !in model.submits
      modifies this`model, model.idents.Keys
      ensures Valid()
      ensures var step := Take(tokenID, result, submit);
              Enabled(old(model), step, now) && model == Next(old(model), step, now)
      ensures err == if Accepts(old(model), tokenID, result, now) then None
                     else if Located(old(model), tokenID, result.sessionID, now) then Some(CommandNotFound)
                     else Some(LocateError(old(model), tokenID, result.sessionID))
      ensures err == None ==> submit in model.submits && model.submits[submit] == Submit(tokenID, result, waiter, Taken)
    {
      hide Inv, Enabled, Next, Linked, RecordLinked;
      TakeStep(model, tokenID, result, submit, now);
      LookupIsLocated(tokenID, result.sessionID, now);
      waiter, err := 0, None;
      match SessionLocked(tokenID, result.sessionID, now) {
      case Missing(error) => err := Some(error);
      case Found(session) =>
        RecordsRead(session);
        var k := Key(result.body.KindOf(), result.commandID);
        if k in session.pending {
          waiter := session.pending[k];
          ghost var taken := DoTake(model, tokenID, result, submit, session);
          DeletePending(session, k);
          Note(taken);
        } else {
          err := Some(CommandNotFound);
        }
      }
      Note(model.(clock := now));
    }

    /** The protocol state follows a change to the channels. */
    ghost method SyncWaiters(st: State)
      requires staleAfter == model.staleAfter && byToken == model.byToken && byID == model.byID
      requires forall t | t in byToken :: byToken[t] in model.idents
      requires forall s | s in byID :: byID[s] in model.idents
      requires forall s | s in model.idents :: RecordLinked(s, model.idents, model.lives, model.beats, model.queues, model.pending)
      requires st == model.(waiters := waiters, statuses := st.statuses, submits := st.submits, fault := st.fault)
      modifies this`model
      ensures Linked() && model == st
    {
      hide RecordLinked;
      model := st;
    }

    /** The send of a Submit, made outside the mutex; it meets an open channel with room. */
    method SubmitSend(ghost submit: Handle, result: Result, waiter: Handle)
      requires Valid() && submit in model.submits
      requires model.submits[submit] == Submit(model.submits[submit].tokenID, result, waiter, Taken)
      modifies this`waiters, this`model
      ensures Valid()
      ensures var step := Send(submit);
              Enabled(old(model), step, old(model).clock) && model == Next(old(model), step, old(model).clock)
    {
      hide Inv, Enabled, Next, RecordLinked;
      SendStep(model, submit, model.clock);
      SendTo(waiter, result);
      SyncWaiters(DoSend(model, submit));
    }

    /** The close that ends a Submit, made outside the mutex; it meets an open channel. */
    method SubmitFinish(ghost submit: Handle, waiter: Handle)
      requires Valid() && submit in model.submits
      requires model.submits[submit].waiter == waiter && model.submits[submit].stage == Sent
      modifies this`waiters, this`model
      ensures Valid()
      ensures var step := Finish(submit);
              Enabled(old(model), step, old(model).clock) && model == Next(old(model), step, old(model).clock)
    {
      hide Inv, Enabled, Next, RecordLinked;
      FinishStep(model, submit, model.clock);
      CloseChannel(waiter);
      SyncWaiters(DoFinish(model, submit));
    }

    // ----- the end of a call

    method ReceiveFrom(waiter: Handle) returns (result: Option<Result>)
      requires waiter in waiters
      modifies this`waiters
      ensures var w := old(waiters)[waiter];
              if w.buffer != []
              then result == Some(w.buffer[0]) && waiters == old(waiters)[waiter := w.(buffer := w.buffer[1..])]
              else result == None && waiters == old(waiters)
    {
      var w := waiters[waiter];
      if w.buffer != [] {
        result := Some(w.buffer[0]);
        waiters := waiters[waiter := w.(buffer := w.buffer[1..])];
      } else {
        result := None;
      }
    }

    /** The caller's receive: a result, or the news that the session was closed. */
    method Receive(ghost id: Uuid, waiter: Handle) returns (result: Option<Result>, err: Option<Error>)
      requires Valid() && CanReceive(model, id) && model.issued[id].waiter == waiter
      modifies this`waiters, this`model
      ensures Valid()
      ensures var step := AgentProtocol.Receive(id);
              Enabled(old(model), step, old(model).clock) && model == Next(old(model), step, old(model).clock)
      ensures id in model.statuses && model.statuses[id] == if result.Some? then Returned(result.value) else Woken
      ensures err == if result.Some? then None else Some(SessionNotActive)
    {
      hide Inv, Enabled, Next, RecordLinked, DoReceive;
      ReceiveStep(model, id, model.clock);
      ReceiveParts(model, id);
      result := ReceiveFrom(waiter);
      err := if result.Some? then None else Some(SessionNotActive);
      SyncWaiters(DoReceive(model, id));
    }

    /** The caller's deadline: its entry goes if the session is still the one found under the command's session ID. */
    method Timeout(c: Command, session: AgentSession)
      requires Valid() && c.commandID in model.issued && c.commandID in model.statuses
      requires model.issued[c.commandID].command == c && model.issued[c.commandID].session == session
      requires model.statuses[c.commandID] == Waiting
      modifies this`model, model.idents.Keys
      ensures Valid()
      ensures var step := AgentProtocol.Timeout(c.commandID);
              Enabled(old(model), step, old(model).clock) && model == Next(old(model), step, old(model).clock)
    {
      hide Inv, Enabled, Next, RecordLinked;
      TimeoutStep(model, c.commandID, model.clock);
      ghost var gone := DoTimeout(model, c.commandID);
      if c.sessionID in byID && byID[c.sessionID] == session {
        TimeoutPending(model, c.commandID);
        DeletePending(session, Key(c.kind, c.commandID));
      }
      Note(gone);
    }

    /** The stream loop takes the next command out of its session's channel. */
    method TakeCommand(target: AgentSession) returns (c: Command)
      requires Valid() && target in model.idents && target.commands != []
      modifies target`commands, this`model
      ensures Valid()
      ensures var step := Dequeue(target);
              Enabled(old(model), step, old(model).clock) && model == Next(old(model), step, old(model).clock)
      ensures c == old(target.commands)[0]
    {
      hide Inv, Enabled, Next, RecordLinked;
      RecordsRead(target);
      DequeueStep(model, target, model.clock);
      c := target.commands[0];
      target.commands := target.commands[1..];
      model := DoDequeue(model, target);
      NowLinked(target, model);
      Relink(target);
    }

    // ----- what the manager tells about a session

    /**
     The latest-connected session of the tenant, stale or closed ones included, and whether it is online.
     The clock is read once here.
     */
    method LatestSessionForTenant(tenantID: Uuid, now: Instant) returns (selected: AgentSession?, online: bool)
      requires Linked()
      ensures selected == null <==> forall t | t in byToken :: byToken[t].tenantID != tenantID
      ensures selected != null ==>
                && selected in byToken.Values && selected.tenantID == tenantID
                && forall t | t in byToken && byToken[t].tenantID == tenantID :: byToken[t].connectedAt <= selected.connectedAt
      ensures online <==> selected != null && IsActive(model, selected, now)
    {
      hide RecordLinked, IsActive, IsActiveLocked;
      selected, online := null, false;
      var rest := byToken.Keys;
      while rest != {}
        invariant rest <= byToken.Keys
        invariant selected == null <==> forall t | t in byToken && t !in rest :: byToken[t].tenantID != tenantID
        invariant selected != null ==>
                    && selected in byToken.Values && selected.tenantID == tenantID
                    && forall t | t in byToken && t !in rest && byToken[t].tenantID == tenantID ::
                         byToken[t].connectedAt <= selected.connectedAt
        invariant online <==> selected != null && IsActive(model, selected, now)
        decreases |rest|
      {
        var t := AnyOf(rest);
        rest := rest - {t};
        var session := byToken[t];
        ActiveIsActive(session, now);
        if session.tenantID == tenantID && (selected == null || session.connectedAt > selected.connectedAt) {
          selected, online := session, IsActiveLocked(session, now);
        }
      }
    }
  }
}
