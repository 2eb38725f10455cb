/** What follows for whole runs of the agent protocol: any interleaving, of any length. */
module AgentRuns {
  import opened Common
  import opened AgentModel
  import opened AgentProtocol
  import opened AgentInvariants

  datatype Event = Event(step: Step, now: Instant)

  ghost predicate CanRun(st: State, run: seq<Event>)
    decreases |run|
  {
    run == [] || (Enabled(st, run[0].step, run[0].now) && CanRun(Next(st, run[0].step, run[0].now), run[1..]))
  }

  ghost function After(st: State, run: seq<Event>): State
    requires CanRun(st, run)
    decreases |run|
  {
    if run == [] then st else After(Next(st, run[0].step, run[0].now), run[1..])
  }

  // ----- what no step undoes

  ghost predicate IdentsLast(a: map<AgentSession, Identity>, b: map<AgentSession, Identity>) {
    forall r | r in a :: r in b && b[r] == a[r]
  }

  ghost predicate ClosedLast(a: map<AgentSession, Life>, b: map<AgentSession, Life>) {
    forall r | r in a :: r in b && (b[r].active ==> a[r].active)
  }

  /** A session that is no longer its token's current one, or no longer found by its ID, never is again. */
  ghost predicate UnindexedLast(idents: map<AgentSession, Identity>,
                                byTokenA: map<Uuid, AgentSession>, byIDA: map<string, AgentSession>,
                                byTokenB: map<Uuid, AgentSession>, byIDB: map<string, AgentSession>)
  {
    && (forall r | r in idents && (idents[r].tokenID !in byTokenA || byTokenA[idents[r].tokenID] != r) ::
          idents[r].tokenID !in byTokenB || byTokenB[idents[r].tokenID] != r)
    && (forall r | r in idents && (idents[r].sessionID !in byIDA || byIDA[idents[r].sessionID] != r) ::
          idents[r].sessionID !in byIDB || byIDB[idents[r].sessionID] != r)
  }

  ghost predicate IssuedLast(a: map<Uuid, Issued>, b: map<Uuid, Issued>) {
    forall id | id in a :: id in b && b[id] == a[id]
  }

  ghost predicate FatesLast(a: map<Uuid, Fate>, b: map<Uuid, Fate>) {
    forall id | id in a && a[id] != Pending :: id in b && b[id] == a[id]
  }

  ghost predicate StatusesLast(a: map<Uuid, Status>, b: map<Uuid, Status>) {
    forall id | id in a && a[id] != Waiting :: id in b && b[id] == a[id]
  }

  ghost predicate SubmitsLast(a: map<Handle, Submit>, b: map<Handle, Submit>) {
    forall n | n in a :: n in b && b[n] == a[n].(stage := b[n].stage)
  }

  /** Seen at clock reading `now`, the session is closed or its last heartbeat is too old. */
  ghost predicate StaleAt(st: State, r: AgentSession, now: Instant) {
    r in st.lives && r in st.beats && (!st.lives[r].active || now - st.beats[r] > st.staleAfter)
  }

  ghost predicate StaleLast(a: State, b: State) {
    forall r | r in a.lives && StaleAt(a, r, a.clock) :: StaleAt(b, r, b.clock)
  }

  ghost predicate BeatsLast(a: map<AgentSession, Instant>, b: map<AgentSession, Instant>) {
    forall r | r in a :: r in b && b[r] == a[r]
  }

  ghost predicate Lasts(a: State, b: State) {
    && a.staleAfter == b.staleAfter && a.dequeued <= b.dequeued
    && IdentsLast(a.idents, b.idents)
    && ClosedLast(a.lives, b.lives)
    && UnindexedLast(a.idents, a.byToken, a.byID, b.byToken, b.byID)
    && IssuedLast(a.issued, b.issued)
    && FatesLast(a.fates, b.fates)
    && StatusesLast(a.statuses, b.statuses)
    && SubmitsLast(a.submits, b.submits)
  }

  ghost predicate Evolves(a: State, b: State) {
    Lasts(a, b) && StaleLast(a, b) && a.clock <= b.clock
  }

  // ----- one step

  lemma LastsReflexive(st: State)
    ensures Lasts(st, st) && BeatsLast(st.beats, st.beats)
  {
  }

  lemma CloseLasts(st: State, r: AgentSession, at: Instant)
    requires Shaped(st) && r in st.idents && PendingOwned(st.pending, st.issued, st.fates)
    ensures Lasts(st, CloseSession(st, r, at)) && BeatsLast(st.beats, CloseSession(st, r, at).beats)
  {
    LastsReflexive(st);
  }

  lemma InstallUnindexed(idents: map<AgentSession, Identity>, byToken: map<Uuid, AgentSession>,
                         byID: map<string, AgentSession>, ref: AgentSession, who: Identity)
    requires ref !in idents
    ensures UnindexedLast(idents, byToken, byID, byToken[who.tokenID := ref], byID[who.sessionID := ref])
  {
  }

  lemma InstallLasts(st: State, ref: AgentSession, who: Identity)
    requires ref !in st.idents && ref !in st.lives && ref !in st.beats
    ensures Lasts(st, Install(st, ref, who)) && BeatsLast(st.beats, Install(st, ref, who).beats)
  {
    hide UnindexedLast, IssuedLast, FatesLast, StatusesLast, SubmitsLast;
    InstallUnindexed(st.idents, st.byToken, st.byID, ref, who);
    LastsReflexive(st);
  }

  lemma ReplaceLasts(st: State, who: Identity)
    requires Shaped(st) && PendingOwned(st.pending, st.issued, st.fates)
    ensures Lasts(st, Replace(st, who)) && BeatsLast(st.beats, Replace(st, who).beats)
  {
    LastsReflexive(st);
    if who.tokenID in st.byToken {
      CloseLasts(st, st.byToken[who.tokenID], who.connectedAt);
    }
  }

  lemma IssuedLasts(st: State, c: Command, i: Issued, fate: Fate, status: Status)
    requires CommandsShaped(st.issued, st.fates, st.statuses) && c.commandID !in st.issued
    ensures IssuedLast(st.issued, st.issued[c.commandID := i])
    ensures FatesLast(st.fates, st.fates[c.commandID := fate])
    ensures StatusesLast(st.statuses, st.statuses[c.commandID := status])
  {
  }

  lemma IssueLasts(st: State, c: Command, waiter: Handle, r: AgentSession)
    requires Shaped(st) && r in st.idents && c.commandID !in st.issued
    ensures Lasts(st, DoIssue(st, c, waiter, r)) && BeatsLast(st.beats, DoIssue(st, c, waiter, r).beats)
  {
    LastsReflexive(st);
    if |st.queues[r]| < QUEUE_CAPACITY {
      IssuedLasts(st, c, Issued(c, r, waiter), Pending, Waiting);
    } else {
      IssuedLasts(st, c, Issued(c, r, waiter), Rejected, Refused);
    }
  }

  lemma TakeLasts(st: State, tokenID: Uuid, result: Result, submit: Handle, r: AgentSession)
    requires Shaped(st) && Takeable(st, tokenID, result, submit, r) && PendingOwned(st.pending, st.issued, st.fates)
    ensures Lasts(st, DoTake(st, tokenID, result, submit, r)) && BeatsLast(st.beats, DoTake(st, tokenID, result, submit, r).beats)
  {
    LastsReflexive(st);
  }

  lemma AdvanceLasts(st: State, submit: Handle)
    requires Shaped(st) && submit in st.submits
    ensures Lasts(st, DoSend(st, submit)) && BeatsLast(st.beats, DoSend(st, submit).beats)
    ensures Lasts(st, DoFinish(st, submit)) && BeatsLast(st.beats, DoFinish(st, submit).beats)
  {
    LastsReflexive(st);
  }

  lemma StatusLasts(statuses: map<Uuid, Status>, id: Uuid, status: Status)
    requires id in statuses && statuses[id] == Waiting
    ensures StatusesLast(statuses, statuses[id := status])
  {
  }

  lemma ReceiveLasts(st: State, id: Uuid)
    requires Shaped(st) && id in st.issued && st.statuses[id] == Waiting
    ensures Lasts(st, DoReceive(st, id)) && BeatsLast(st.beats, DoReceive(st, id).beats)
  {
    LastsReflexive(st);
    var w := st.waiters[st.issued[id].waiter];
    if w.buffer != [] {
      StatusLasts(st.statuses, id, Returned(w.buffer[0]));
    } else {
      StatusLasts(st.statuses, id, Woken);
    }
  }

  lemma TimeoutLasts(st: State, id: Uuid)
    requires Shaped(st) && id in st.issued && st.statuses[id] == Waiting && PendingOwned(st.pending, st.issued, st.fates)
    ensures Lasts(st, DoTimeout(st, id)) && BeatsLast(st.beats, DoTimeout(st, id).beats)
  {
    hide UnindexedLast, IssuedLast, SubmitsLast, IdentsLast, ClosedLast;
    LastsReflexive(st);
  }

  lemma DequeueLasts(st: State, target: AgentSession)
    requires Shaped(st) && target in st.idents && st.queues[target] != []
    ensures Lasts(st, DoDequeue(st, target)) && BeatsLast(st.beats, DoDequeue(st, target).beats)
  {
    LastsReflexive(st);
  }

  lemma LastsTransitive(a: State, b: State, c: State)
    requires Lasts(a, b) && Lasts(b, c)
    ensures Lasts(a, c)
  {
  }

  lemma RegisterLasts(st: State, ref: AgentSession, who: Identity)
    requires Shaped(st) && ref !in st.idents && PendingOwned(st.pending, st.issued, st.fates)
    ensures Lasts(st, DoRegister(st, ref, who)) && BeatsLast(st.beats, DoRegister(st, ref, who).beats)
  {
    hide Lasts, BeatsLast;
    LastsReflexive(st);
    ReplaceShaped(st, who);
    ReplaceLasts(st, who);
    InstallLasts(Replace(st, who), ref, who);
    LastsTransitive(st, Replace(st, who), Install(Replace(st, who), ref, who));
  }

  lemma LockedStepLasts(st: State, step: Step, now: Instant)
    requires Inv(st) && Enabled(st, step, now)
    requires step.Register? || step.Issue? || step.DisconnectSession? || step.DisconnectStream?
    ensures Lasts(st, Effect(st, step, now)) && BeatsLast(st.beats, Effect(st, step, now).beats)
  {
    hide Lasts, BeatsLast, Lifecycle, PendingOwned, IssuedWell, FatesShown, SubmitsMatch, QueuesOwned, ChannelsShaped, CommandsShaped,
         CloseSession, DoRegister, DoIssue;
    LastsReflexive(st);
    match step
    case Register(ref, who) => RegisterLasts(st, ref, who);
    case Issue(req, id, waiter, issuedAt, pick) =>
      if pick.Some? { IssueLasts(st, CommandFor(st, req, id, issuedAt, pick.value), waiter, pick.value); }
    case DisconnectSession(sessionID) =>
      if sessionID in st.byID { CloseLasts(st, st.byID[sessionID], now); }
    case DisconnectStream(sessionID, target) =>
      if sessionID in st.byID && st.byID[sessionID] == target { CloseLasts(st, target, now); }
  }

  lemma TakeStepLasts(st: State, step: Step, now: Instant)
    requires Inv(st) && Enabled(st, step, now) && step.Take?
    ensures Lasts(st, Effect(st, step, now)) && BeatsLast(st.beats, Effect(st, step, now).beats)
  {
    if Accepts(st, step.tokenID, step.result, now) {
      AcceptedIsTakeable(st, step.tokenID, step.result, step.submit, now);
      TakeLasts(st, step.tokenID, step.result, step.submit, st.byID[step.result.sessionID]);
    } else {
      LastsReflexive(st);
    }
  }

  lemma SubmitStepLasts(st: State, step: Step, now: Instant)
    requires Inv(st) && Enabled(st, step, now) && (step.Send? || step.Finish?)
    ensures Lasts(st, Effect(st, step, now)) && BeatsLast(st.beats, Effect(st, step, now).beats)
  {
    AdvanceLasts(st, step.submit);
  }

  lemma CallerStepLasts(st: State, step: Step, now: Instant)
    requires Inv(st) && Enabled(st, step, now) && (step.Receive? || step.Timeout? || step.Dequeue?)
    ensures Lasts(st, Effect(st, step, now)) && BeatsLast(st.beats, Effect(st, step, now).beats)
  {
    hide Lasts, BeatsLast, FatesShown, SubmitsMatch, QueuesOwned, IssuedWell, Lifecycle, Indexed;
    match step
    case Receive(id) => ReceiveLasts(st, id);
    case Timeout(id) => TimeoutLasts(st, id);
    case Dequeue(target) => DequeueLasts(st, target);
  }

  lemma HeartbeatLasts(st: State, tokenID: Uuid, sessionID: string, at: Instant, now: Instant)
    ensures Lasts(st, DoHeartbeat(st, tokenID, sessionID, at, now).(clock := now))
  {
    LastsReflexive(st);
  }

  /** A heartbeat moves the last heartbeat of an active session only. */
  lemma HeartbeatStale(st: State, tokenID: Uuid, sessionID: string, at: Instant, now: Instant)
    requires st.clock <= now
    ensures StaleLast(st, DoHeartbeat(st, tokenID, sessionID, at, now).(clock := now))
  {
  }

  lemma StaleKept(st: State, b: State)
    requires ClosedLast(st.lives, b.lives) && BeatsLast(st.beats, b.beats)
    requires st.clock <= b.clock && st.staleAfter == b.staleAfter
    ensures StaleLast(st, b)
  {
  }

  /** Only a heartbeat changes when a session was last heard of. */
  lemma StepBeats(st: State, step: Step, now: Instant)
    requires Inv(st) && Enabled(st, step, now) && !step.Heartbeat?
    ensures Lasts(st, Next(st, step, now)) && BeatsLast(st.beats, Next(st, step, now).beats)
  {
    hide Inv;
    if step.Take? {
      TakeStepLasts(st, step, now);
    } else if step.Send? || step.Finish? {
      SubmitStepLasts(st, step, now);
    } else if step.Receive? || step.Timeout? || step.Dequeue? {
      CallerStepLasts(st, step, now);
    } else {
      LockedStepLasts(st, step, now);
    }
  }

  /** No step undoes anything. */
  lemma StepEvolves(st: State, step: Step, now: Instant)
    requires Inv(st) && Enabled(st, step, now)
    ensures Evolves(st, Next(st, step, now))
  {
    if step.Heartbeat? {
      HeartbeatLasts(st, step.tokenID, step.sessionID, step.at, now);
      HeartbeatStale(st, step.tokenID, step.sessionID, step.at, now);
    } else {
      StepBeats(st, step, now);
      StaleKept(st, Next(st, step, now));
    }
  }

  lemma EvolvesTransitive(a: State, b: State, c: State)
    requires Evolves(a, b) && Evolves(b, c)
    ensures Evolves(a, c)
  {
    LastsTransitive(a, b, c);
  }

  // ----- every run

  /** Every run keeps the invariant and undoes nothing. */
  lemma {:induction false} RunKeepsInv(st: State, run: seq<Event>)
    requires Inv(st) && CanRun(st, run)
    ensures Inv(After(st, run)) && Evolves(st, After(st, run))
    decreases |run|
  {
    hide Inv;
    if run == [] {
      LastsReflexive(st);
    } else {
      var next := Next(st, run[0].step, run[0].now);
      StepKeepsInv(st, run[0].step, run[0].now);
      StepEvolves(st, run[0].step, run[0].now);
      RunKeepsInv(next, run[1..]);
      EvolvesTransitive(st, next, After(next, run[1..]));
    }
  }

  ghost predicate Reachable(st: State, staleAfter: int, clock: Instant, run: seq<Event>) {
    CanRun(Initial(staleAfter, clock), run) && st == After(Initial(staleAfter, clock), run)
  }

  lemma ReachableInv(st: State, staleAfter: int, clock: Instant, run: seq<Event>)
    requires Reachable(st, staleAfter, clock, run)
    ensures Inv(st)
  {
    InitialInv(staleAfter, clock);
    RunKeepsInv(Initial(staleAfter, clock), run);
  }

  // ----- what a reader of the protocol wants to know

  /**
   In every interleaving no send meets a closed or full channel and no channel is closed twice; each waiter sees
   at most one value and one close, and belongs to one command.
   */
  lemma ChannelsAreUsedOnce(st: State, staleAfter: int, clock: Instant, run: seq<Event>)
    requires Reachable(st, staleAfter, clock, run)
    ensures st.fault == NoFault
    ensures forall id | id in st.issued ::
              && st.issued[id].waiter in st.waiters
              && st.waiters[st.issued[id].waiter].sends <= 1
              && st.waiters[st.issued[id].waiter].closes <= 1
              && |st.waiters[st.issued[id].waiter].buffer| <= st.waiters[st.issued[id].waiter].sends
    ensures forall a, b | a in st.issued && b in st.issued && st.issued[a].waiter == st.issued[b].waiter :: a == b
  {
    hide Reachable, Indexed, Lifecycle, PendingOwned, SubmitsMatch, QueuesOwned, SessionsShaped, IndexShaped;
    ReachableInv(st, staleAfter, clock, run);
  }

  /**
   A command waits in a pending map exactly while it is pending, then in one map of one session, with its waiter
   open and empty; once rejected, answered, closed or abandoned it is in none.
   */
  lemma PendingMeansOpenEmptyAndUnique(st: State, staleAfter: int, clock: Instant, run: seq<Event>, r: AgentSession, k: Key)
    requires Reachable(st, staleAfter, clock, run)
    requires r in st.pending && k.commandID in st.issued
    ensures k.commandID in st.fates
    ensures k in st.pending[r] <==>
            && st.fates[k.commandID] == Pending
            && st.issued[k.commandID].session == r
            && st.issued[k.commandID].command.kind == k.kind
    ensures k in st.pending[r] ==>
            && st.pending[r][k] == st.issued[k.commandID].waiter
            && st.pending[r][k] in st.waiters && st.waiters[st.pending[r][k]] == UNUSED
  {
    ReachableInv(st, staleAfter, clock, run);
  }

  /**
   Each issued command has one fate, which settles what went through its waiter: rejected, abandoned and pending
   commands leave it untouched, a closed session closes it once with nothing in it, and an accepted Submit sends its
   one value and closes it.
   */
  lemma EachCommandHasOneFate(st: State, staleAfter: int, clock: Instant, run: seq<Event>, id: Uuid)
    requires Reachable(st, staleAfter, clock, run) && id in st.issued
    ensures id in st.fates && id in st.statuses && st.issued[id].waiter in st.waiters
    ensures var w := st.waiters[st.issued[id].waiter];
            match st.fates[id]
            case Rejected => w == UNUSED && st.statuses[id] == Refused
            case Pending => w == UNUSED && (st.statuses[id] == Waiting || st.statuses[id] == TimedOut)
            case Abandoned => w == UNUSED && st.statuses[id] == TimedOut
            case Closed => w == AfterClose(UNUSED) && !st.statuses[id].Returned?
            case Answered(n) => n in st.submits && st.submits[n].result.commandID == id && AnswerShown(st.statuses[id], w, st.submits[n])
  {
    hide CommandsShaped, Indexed, Lifecycle, PendingOwned, IssuedWell, SubmitsMatch, QueuesOwned;
    ReachableInv(st, staleAfter, clock, run);
    assert FateShown(id, st.fates[id], st.statuses[id], st.waiters[st.issued[id].waiter],
                     Key(st.issued[id].command.kind, id) in st.pending[st.issued[id].session], st.submits);
  }

  /** A session found under an ID is the current one of its token, and no session has a blank ID. */
  lemma IndexesAgree(st: State, staleAfter: int, clock: Instant, run: seq<Event>)
    requires Reachable(st, staleAfter, clock, run)
    ensures forall s | s in st.byID ::
              && st.byID[s] in st.idents && st.idents[st.byID[s]].sessionID == s && s != ""
              && st.idents[st.byID[s]].tokenID in st.byToken && st.byToken[st.idents[st.byID[s]].tokenID] == st.byID[s]
    ensures forall r | r in st.lives && st.lives[r].active ::
              r in st.idents && st.idents[r].tokenID in st.byToken && st.byToken[st.idents[r].tokenID] == r
  {
    hide CommandsShaped, ChannelsShaped, Lifecycle, PendingOwned, IssuedWell, FatesShown, SubmitsMatch, QueuesOwned;
    ReachableInv(st, staleAfter, clock, run);
  }

  /**
   A call that returned a result got it from the one accepted Submit for its own command ID, which carried the
   session ID the command was sent with, a body of its kind, and the token of the session it went to.
   */
  lemma ReturnedResultIsItsOwn(st: State, staleAfter: int, clock: Instant, run: seq<Event>, id: Uuid, result: Result)
    requires Reachable(st, staleAfter, clock, run)
    requires id in st.issued && id in st.statuses && st.statuses[id] == Returned(result)
    ensures result.commandID == id
    ensures result.sessionID == st.issued[id].command.sessionID
    ensures result.body.KindOf() == st.issued[id].command.kind
    ensures st.issued[id].session in st.idents
    ensures exists n | n in st.submits ::
              && st.submits[n].result == result
              && st.submits[n].tokenID == st.idents[st.issued[id].session].tokenID
              && forall m | m in st.submits && st.submits[m].result.commandID == id :: m == n
  {
    hide Reachable, Indexed, Lifecycle, QueuesOwned, SessionsShaped, IndexShaped;
    ReachableInv(st, staleAfter, clock, run);
    var n := st.fates[id].submit;
    assert n in st.submits && st.submits[n].result == result;
    forall m | m in st.submits && st.submits[m].result.commandID == id
      ensures m == n
    {
      assert st.fates[id] == Answered(m);
    }
  }

  lemma AnsweredIsNotAccepted(st: State, tokenID: Uuid, result: Result, now: Instant)
    requires Shaped(st) && PendingOwned(st.pending, st.issued, st.fates)
    requires result.commandID in st.fates && st.fates[result.commandID] != Pending
    ensures !Accepts(st, tokenID, result, now)
  {
  }

  lemma AcceptedIsAnswered(st: State, tokenID: Uuid, result: Result, submit: Handle, now: Instant)
    requires Inv(st) && Enabled(st, Take(tokenID, result, submit), now) && Accepts(st, tokenID, result, now)
    ensures var b := Next(st, Take(tokenID, result, submit), now);
            Inv(b) && result.commandID in b.fates && b.fates[result.commandID] == Answered(submit)
  {
    StepKeepsInv(st, Take(tokenID, result, submit), now);
  }

  /** A command ID is accepted once: after that no Submit for it succeeds, from any agent, for any session, ever. */
  lemma NoSecondAccept(st: State, tokenID: Uuid, result: Result, submit: Handle, now: Instant, run: seq<Event>,
                       tokenID': Uuid, result': Result, now': Instant)
    requires Inv(st) && Enabled(st, Take(tokenID, result, submit), now) && Accepts(st, tokenID, result, now)
    requires CanRun(Next(st, Take(tokenID, result, submit), now), run)
    requires result'.commandID == result.commandID
    ensures Shaped(After(Next(st, Take(tokenID, result, submit), now), run))
    ensures !Accepts(After(Next(st, Take(tokenID, result, submit), now), run), tokenID', result', now')
  {
    hide Indexed, Lifecycle, PendingOwned, IssuedWell, FatesShown, SubmitsMatch, QueuesOwned, SessionsShaped, IndexShaped,
         CommandsShaped, ChannelsShaped;
    var next := Next(st, Take(tokenID, result, submit), now);
    AcceptedIsAnswered(st, tokenID, result, submit, now);
    RunKeepsInv(next, run);
    AnsweredIsNotAccepted(After(next, run), tokenID', result', now');
  }

  /** A caller whose session is closed can move: its waiter is closed or holds its value, or the value is on its way. */
  ghost predicate Released(st: State, id: Uuid)
    requires Shaped(st) && id in st.issued
  {
    st.statuses[id] == Waiting ==>
      CanReceive(st, id) || exists n :: n in st.submits && st.submits[n].result.commandID == id && st.submits[n].stage == Taken
  }

  lemma InactiveReleases(st: State, r: AgentSession, id: Uuid)
    requires Shaped(st) && r in st.idents && !st.lives[r].active
    requires Lifecycle(st.lives, st.pending)
    requires FatesShown(st.issued, st.fates, st.statuses, st.waiters, st.pending, st.submits)
    requires id in st.issued && st.issued[id].session == r
    ensures Released(st, id)
  {
    assert FateShown(id, st.fates[id], st.statuses[id], st.waiters[st.issued[id].waiter], false, st.submits);
  }

  /** Once closed, a session stays closed and empty for ever, and no caller is left behind on it. */
  lemma ClosedForGood(st: State, run: seq<Event>, r: AgentSession, id: Uuid)
    requires Inv(st) && CanRun(st, run) && r in st.idents && !st.lives[r].active
    requires id in After(st, run).issued && After(st, run).issued[id].session == r
    ensures var later := After(st, run);
            && Shaped(later) && r in later.idents
            && !later.lives[r].active && later.lives[r].doneCloses == 1 && later.pending[r] == map[]
            && Released(later, id)
  {
    hide PendingOwned, IssuedWell, SubmitsMatch, QueuesOwned, Indexed, IndexShaped, UnindexedLast, FatesLast, StatusesLast,
         SubmitsLast, StaleLast, FatesShown;
    RunKeepsInv(st, run);
    InactiveReleases(After(st, run), r, id);
  }

  /** A session replaced by a newer one of its token is closed, and nothing finds it by token or by ID again. */
  lemma ReplacedIsUnreachable(st: State, run: seq<Event>, r: AgentSession)
    requires Inv(st) && CanRun(st, run) && r in st.idents && st.byToken[st.idents[r].tokenID] != r
    ensures var later := After(st, run);
            && r in later.lives && !later.lives[r].active
            && (forall t | t in later.byToken :: later.byToken[t] != r)
            && (forall s | s in later.byID :: later.byID[s] != r)
  {
    RunKeepsInv(st, run);
  }

  /**
   In every reachable state the done channel of every session was closed at most once, and is open exactly while the
   session is active: under any mix of replacement, disconnect by ID and stream disconnect.
   */
  lemma DoneIsClosedOnce(st: State, staleAfter: int, clock: Instant, run: seq<Event>, r: AgentSession)
    requires Reachable(st, staleAfter, clock, run) && r in st.lives
    ensures st.fault == NoFault
    ensures st.lives[r].doneCloses <= 1
    ensures st.lives[r].active <==> st.lives[r].doneCloses == 0
    ensures !st.lives[r].active ==> r in st.pending && st.pending[r] == map[]
  {
    hide SessionsShaped, IndexShaped, CommandsShaped, ChannelsShaped, Indexed, PendingOwned, IssuedWell, FatesShown,
         SubmitsMatch, QueuesOwned;
    ReachableInv(st, staleAfter, clock, run);
  }

  /** It takes the check before the close: a second disconnect finds done closed already, and would close it again. */
  lemma SecondDisconnectFindsDoneClosed(st: State, sessionID: string, now: Instant, once: State, later: Instant)
    requires Inv(st) && sessionID in st.byID && Enabled(st, DisconnectSession(sessionID), now) && now <= later
    requires once == Next(st, DisconnectSession(sessionID), now)
    ensures sessionID in once.byID && once.byID[sessionID] in once.lives
    ensures DoneFault(once.lives[once.byID[sessionID]]) == CloseOfClosed
    ensures Enabled(once, DisconnectSession(sessionID), later)
    ensures Next(once, DisconnectSession(sessionID), later).lives == once.lives
    ensures Next(once, DisconnectSession(sessionID), later).fault == NoFault
  {
    hide SessionsShaped, IndexShaped, CommandsShaped, ChannelsShaped, Indexed, PendingOwned, IssuedWell, FatesShown,
         SubmitsMatch, QueuesOwned, Effect;
    DisconnectCloses(st, sessionID, now);
    DisconnectCloses(once, sessionID, later);
    var r := once.byID[sessionID];
    assert ClosedLife(once.lives[r], later) == once.lives[r];
    assert once.lives[r := once.lives[r]] == once.lives;
  }

  lemma DisconnectCloses(st: State, sessionID: string, now: Instant)
    requires Inv(st) && sessionID in st.byID && st.clock <= now
    ensures Enabled(st, DisconnectSession(sessionID), now) && st.byID[sessionID] in st.lives
    ensures var b := Next(st, DisconnectSession(sessionID), now);
            var r := st.byID[sessionID];
            Inv(b) && b.byID == st.byID && b.lives == st.lives[r := ClosedLife(st.lives[r], now)] && b.clock == now
  {
    hide Lifecycle, PendingOwned, IssuedWell, FatesShown, SubmitsMatch, QueuesOwned, CommandsShaped, ChannelsShaped,
         WokenWaiters, ClosedFates, WakeFault, ClosedLife, Indexed;
    StepKeepsInv(st, DisconnectSession(sessionID), now);
  }

  lemma CloseSparesOthers(st: State, target: AgentSession, at: Instant, r: AgentSession, id: Uuid)
    requires Shaped(st) && PendingOwned(st.pending, st.issued, st.fates) && IssuedWell(st.issued, st.idents)
    requires target in st.idents && r in st.idents && r != target && id in st.issued && st.issued[id].session == r
    ensures Shaped(CloseSession(st, target, at))
    ensures SameFor(st, CloseSession(st, target, at), r, id)
  {
    CloseShaped(st, target, at);
    WokenAreOwn(st.pending, st.issued, st.fates, st.idents, target, id);
  }

  /** Session `r` and its command `id` are as they were. */
  ghost predicate SameFor(a: State, b: State, r: AgentSession, id: Uuid)
    requires Shaped(a) && Shaped(b) && r in a.idents && id in a.issued
  {
    && r in b.idents && id in b.issued && b.issued[id] == a.issued[id]
    && b.lives[r] == a.lives[r] && b.beats[r] == a.beats[r] && b.pending[r] == a.pending[r] && b.queues[r] == a.queues[r]
    && b.fates[id] == a.fates[id] && b.statuses[id] == a.statuses[id]
    && b.waiters[a.issued[id].waiter] == a.waiters[a.issued[id].waiter]
  }

  /** The disconnect handle of a stream touches no session but the one it was issued for, and no index. */
  lemma HandleSparesOthers(st: State, sessionID: string, target: AgentSession, now: Instant, r: AgentSession, id: Uuid)
    requires Inv(st) && Enabled(st, DisconnectStream(sessionID, target), now)
    requires r in st.idents && r != target && id in st.issued && st.issued[id].session == r
    ensures Shaped(Next(st, DisconnectStream(sessionID, target), now))
    ensures SameFor(st, Next(st, DisconnectStream(sessionID, target), now), r, id)
    ensures Next(st, DisconnectStream(sessionID, target), now).byToken == st.byToken
    ensures Next(st, DisconnectStream(sessionID, target), now).byID == st.byID
  {
    if sessionID in st.byID && st.byID[sessionID] == target {
      CloseSparesOthers(st, target, now, r, id);
    }
  }

  /** The handle of a replaced session does nothing at all, however late it fires. */
  lemma LateHandleDoesNothing(st: State, run: seq<Event>, target: AgentSession, sessionID: string, now: Instant)
    requires Inv(st) && CanRun(st, run) && target in st.idents && st.byToken[st.idents[target].tokenID] != target
    requires Enabled(After(st, run), DisconnectStream(sessionID, target), now)
    ensures Next(After(st, run), DisconnectStream(sessionID, target), now) == After(st, run).(clock := now)
  {
    hide Inv;
    ReplacedIsUnreachable(st, run, target);
  }

  /** Staleness is absorbing: a session not active at one reading of the clock is never active at a later one. */
  lemma StaleForGood(st: State, run: seq<Event>, r: AgentSession, now: Instant)
    requires Inv(st) && CanRun(st, run) && r in st.idents && !IsActive(st, r, st.clock)
    requires After(st, run).clock <= now
    ensures Shaped(After(st, run)) && r in After(st, run).idents
    ensures !IsActive(After(st, run), r, now)
  {
    hide FatesShown, SubmitsMatch, QueuesOwned, IssuedWell, Lifecycle, PendingOwned, ChannelsShaped, CommandsShaped, Indexed,
         UnindexedLast, FatesLast, StatusesLast, SubmitsLast, IssuedLast;
    RunKeepsInv(st, run);
    assert StaleAt(st, r, st.clock);
  }

  // ----- heartbeats that arrive in time

  datatype Beat = Beat(sent: Instant, received: Instant)

  /** Heartbeats sent at most `interval` apart and received at most `delay` after they were sent. */
  ghost predicate Punctual(last: Instant, beats: seq<Beat>, interval: int, delay: int)
    decreases |beats|
  {
    beats == [] ||
    (&& beats[0].sent - last <= interval
     && 0 <= beats[0].received - beats[0].sent <= delay
     && Punctual(beats[0].sent, beats[1..], interval, delay))
  }

  /** The session's heartbeats in the run are the given ones, each processed when it is received, none overdue. */
  ghost predicate OnSchedule(run: seq<Event>, who: Identity, beats: seq<Beat>)
    decreases |run|
  {
    run == [] ||
    (&& beats != []
     && run[0].now <= beats[0].received
     && if OwnBeat(run[0].step, who)
        then run[0].now == beats[0].received && run[0].step.at == beats[0].sent && OnSchedule(run[1..], who, beats[1..])
        else OnSchedule(run[1..], who, beats))
  }

  /** The session is the one found under its ID. */
  ghost predicate Found(st: State, r: AgentSession) {
    r in st.idents && st.idents[r].sessionID in st.byID && st.byID[st.idents[r].sessionID] == r
  }

  /** The session is open and still the one found under its ID. */
  ghost predicate Connected(st: State, r: AgentSession) { r in st.lives && st.lives[r].active && Found(st, r) }

  ghost predicate NeverStale(st: State, run: seq<Event>, r: AgentSession)
    requires CanRun(st, run)
    decreases |run|
  {
    run == [] ||
    (&& (Connected(st, r) ==> !StaleAt(st, r, run[0].now))
     && NeverStale(Next(st, run[0].step, run[0].now), run[1..], r))
  }

  lemma ConnectedBefore(a: State, b: State, r: AgentSession)
    requires Evolves(a, b) && r in a.idents && r in a.lives && Connected(b, r)
    ensures Connected(a, r)
  {
  }

  predicate OwnBeat(step: Step, who: Identity) {
    step.Heartbeat? && step.tokenID == who.tokenID && step.sessionID == who.sessionID
  }

  lemma HeartbeatMovesOwn(st: State, who: Identity, at: Instant, now: Instant, r: AgentSession)
    requires Shaped(st) && Indexed(st.byToken, st.byID, st.idents, st.lives)
    requires Connected(st, r) && !StaleAt(st, r, now)
    ensures var b := DoHeartbeat(st, who.tokenID, who.sessionID, at, now);
            r in b.beats && b.beats[r] ==
              if who.tokenID == st.idents[r].tokenID && who.sessionID == st.idents[r].sessionID then at else st.beats[r]
  {
    if who.tokenID == st.idents[r].tokenID && who.sessionID == st.idents[r].sessionID {
      assert Located(st, who.tokenID, who.sessionID, now);
    } else if Located(st, who.tokenID, who.sessionID, now) {
      assert st.byID[who.sessionID] != r;
    }
  }

  lemma FoundHeardThroughStep(st: State, step: Step, now: Instant, r: AgentSession)
    requires Inv(st) && Enabled(st, step, now) && Connected(st, r) && !StaleAt(st, r, now) && r in st.beats
    ensures var b := Next(st, step, now);
            r in b.beats && b.beats[r] == if OwnBeat(step, st.idents[r]) then step.at else st.beats[r]
  {
    hide FatesShown, SubmitsMatch, QueuesOwned, IssuedWell, Lifecycle, PendingOwned, ChannelsShaped, CommandsShaped;
    if step.Heartbeat? {
      HeartbeatMovesOwn(st, st.idents[r].(tokenID := step.tokenID, sessionID := step.sessionID), step.at, now, r);
    } else {
      StepBeats(st, step, now);
    }
  }

  /** A connected session's last heartbeat moves only by its own heartbeats. */
  lemma OwnBeatsOnly(st: State, step: Step, now: Instant, r: AgentSession)
    requires Inv(st) && Enabled(st, step, now) && r in st.idents && !StaleAt(st, r, now)
    requires Connected(Next(st, step, now), r)
    ensures Connected(st, r) && r in Next(st, step, now).beats
    ensures Next(st, step, now).beats[r] == if OwnBeat(step, st.idents[r]) then step.at else st.beats[r]
  {
    hide FatesShown, SubmitsMatch, QueuesOwned, IssuedWell, Lifecycle, PendingOwned, ChannelsShaped, CommandsShaped, Indexed, Next;
    StepEvolves(st, step, now);
    ConnectedBefore(st, Next(st, step, now), r);
    FoundHeardThroughStep(st, step, now, r);
  }

  /** `last` is when the session, if connected, was last heard of. */
  ghost predicate LastHeard(st: State, r: AgentSession, last: Instant) {
    r in st.beats && (Connected(st, r) ==> st.beats[r] == last)
  }

  lemma HeardThroughStep(st: State, step: Step, now: Instant, r: AgentSession, last: Instant)
    requires Inv(st) && Enabled(st, step, now) && r in st.idents && LastHeard(st, r, last) && now - last <= st.staleAfter
    ensures Inv(Next(st, step, now)) && r in Next(st, step, now).idents
    ensures Next(st, step, now).staleAfter == st.staleAfter && Next(st, step, now).idents[r] == st.idents[r]
    ensures LastHeard(Next(st, step, now), r, if OwnBeat(step, st.idents[r]) then step.at else last)
  {
    hide FatesShown, SubmitsMatch, QueuesOwned, IssuedWell, Lifecycle, PendingOwned, ChannelsShaped, CommandsShaped, Indexed,
         UnindexedLast, FatesLast, StatusesLast, SubmitsLast, IssuedLast, StaleLast;
    StepKeepsInv(st, step, now);
    StepEvolves(st, step, now);
    if Connected(Next(st, step, now), r) {
      ConnectedBefore(st, Next(st, step, now), r);
      OwnBeatsOnly(st, step, now, r);
    }
  }

  /**
   With heartbeats at most `interval` apart and delivered within `delay`, where the two together do not exceed
   the staleness bound, a connected session is active at every step of every run.
   */
  lemma {:induction false} PunctualIsNeverStale(st: State, run: seq<Event>, r: AgentSession, last: Instant, beats: seq<Beat>,
                                                interval: int, delay: int)
    requires Inv(st) && CanRun(st, run) && r in st.idents && LastHeard(st, r, last)
    requires Punctual(last, beats, interval, delay) && interval + delay <= st.staleAfter
    requires OnSchedule(run, st.idents[r], beats)
    ensures NeverStale(st, run, r)
    decreases |run|
  {
    hide Inv;
    if run != [] {
      var e := run[0];
      HeardThroughStep(st, e.step, e.now, r, last);
      if OwnBeat(e.step, st.idents[r]) {
        PunctualIsNeverStale(Next(st, e.step, e.now), run[1..], r, beats[0].sent, beats[1..], interval, delay);
      } else {
        PunctualIsNeverStale(Next(st, e.step, e.now), run[1..], r, last, beats, interval, delay);
      }
    }
  }

  // ----- sessions that are no longer found under their ID

  lemma UnfoundMissesHeartbeat(st: State, tokenID: Uuid, sessionID: string, at: Instant, now: Instant, r: AgentSession)
    requires Indexed(st.byToken, st.byID, st.idents, st.lives) && r in st.beats && !Found(st, r)
    ensures var b := DoHeartbeat(st, tokenID, sessionID, at, now); r in b.beats && b.beats[r] == st.beats[r]
  {
  }

  lemma UnfoundThroughStep(st: State, step: Step, now: Instant, r: AgentSession)
    requires Inv(st) && Enabled(st, step, now) && r in st.idents && r in st.beats && !Found(st, r)
    ensures var b := Next(st, step, now);
            Inv(b) && r in b.idents && r in b.beats && !Found(b, r) && b.beats[r] == st.beats[r] && b.staleAfter == st.staleAfter
  {
    hide SessionsShaped, IndexShaped, CommandsShaped, ChannelsShaped, Lifecycle, PendingOwned, IssuedWell, FatesShown,
         SubmitsMatch, QueuesOwned, IssuedLast, FatesLast, StatusesLast, SubmitsLast, StaleLast, ClosedLast, DoHeartbeat;
    StepKeepsInv(st, step, now);
    StepEvolves(st, step, now);
    if step.Heartbeat? {
      UnfoundMissesHeartbeat(st, step.tokenID, step.sessionID, step.at, now, r);
    } else {
      StepBeats(st, step, now);
    }
  }

  /** A session not found under its ID is never heard of again, whatever heartbeats arrive. */
  lemma {:induction false} UnfoundIsNotHeard(st: State, run: seq<Event>, r: AgentSession)
    requires Inv(st) && CanRun(st, run) && r in st.idents && r in st.beats && !Found(st, r)
    ensures var b := After(st, run);
            r in b.idents && r in b.beats && !Found(b, r) && b.beats[r] == st.beats[r] && b.staleAfter == st.staleAfter
    decreases |run|
  {
    hide Inv, Found, Enabled, Next;
    if run == [] {
    } else {
      UnfoundThroughStep(st, run[0].step, run[0].now, r);
      UnfoundIsNotHeard(Next(st, run[0].step, run[0].now), run[1..], r);
    }
  }

  /** So it is stale, though open, exactly once its last heartbeat is more than the bound ago. */
  lemma UnfoundGoesStale(st: State, run: seq<Event>, r: AgentSession, now: Instant)
    requires Inv(st) && CanRun(st, run) && r in st.idents && r in st.beats && !Found(st, r)
    requires r in After(st, run).lives && After(st, run).lives[r].active
    ensures StaleAt(After(st, run), r, now) <==> now - st.beats[r] > st.staleAfter
  {
    hide Inv;
    UnfoundIsNotHeard(st, run, r);
  }

  lemma CloseSparesLife(st: State, prior: AgentSession, at: Instant, r: AgentSession)
    requires prior in st.lives && prior in st.pending && r in st.lives && r != prior
    ensures var b := CloseSession(st, prior, at);
            r in b.lives && b.lives[r] == st.lives[r] && b.byID == st.byID && b.idents == st.idents && b.beats == st.beats
  {
  }

  lemma ReplaceSparesLife(st: State, who: Identity, r: AgentSession)
    requires Shaped(st) && r in st.lives && (who.tokenID in st.byToken ==> st.byToken[who.tokenID] != r)
    ensures var b := Replace(st, who); r in b.lives && b.lives[r] == st.lives[r] && b.idents == st.idents
  {
    hide CommandsShaped, ChannelsShaped, CloseSession;
    if who.tokenID in st.byToken {
      CloseSparesLife(st, st.byToken[who.tokenID], who.connectedAt, r);
    }
  }

  /** It happens: another token that registers a session under the same ID leaves the open one there unfound, and open. */
  lemma AnotherTokenHidesSession(st: State, ref: AgentSession, who: Identity, r: AgentSession, now: Instant)
    requires Inv(st) && Enabled(st, Register(ref, who), now) && Connected(st, r)
    requires who.sessionID == st.idents[r].sessionID && who.tokenID != st.idents[r].tokenID && who.hostname != ""
    ensures var b := Next(st, Register(ref, who), now);
            r in b.lives && b.lives[r].active && !Found(b, r)
  {
    hide CommandsShaped, ChannelsShaped, Lifecycle, PendingOwned, IssuedWell, FatesShown, SubmitsMatch, QueuesOwned, Replace;
    ReplaceSparesLife(st, who, r);
  }

  /** At every step of the run the session, while open, is not stale. */
  ghost predicate OpenNeverStale(st: State, run: seq<Event>, r: AgentSession)
    requires CanRun(st, run)
    decreases |run|
  {
    run == [] ||
    (&& (Open(st, r) ==> !StaleAt(st, r, run[0].now))
     && OpenNeverStale(Next(st, run[0].step, run[0].now), run[1..], r))
  }

  /**
   Whenever in the run the open session is not found under its ID, it was hidden no longer than the bound after it was last
   heard of: at `heard`, until a heartbeat of its own agent finds it.
   */
  ghost predicate HiddenBriefly(st: State, run: seq<Event>, r: AgentSession, who: Identity, heard: Instant)
    requires CanRun(st, run)
    decreases |run|
  {
    run == [] ||
    (&& (Open(st, r) && !Found(st, r) ==> run[0].now - heard <= st.staleAfter)
     && HiddenBriefly(Next(st, run[0].step, run[0].now), run[1..], r, who, HeardBy(st, run[0].step, r, who, heard)))
  }

  ghost predicate Open(st: State, r: AgentSession) { r in st.lives && st.lives[r].active }

  ghost function HeardBy(st: State, step: Step, r: AgentSession, who: Identity, heard: Instant): Instant {
    if OwnBeat(step, who) && Found(st, r) then step.at else heard
  }

  lemma ClosedStaysClosed(st: State, step: Step, now: Instant, r: AgentSession)
    requires Inv(st) && Enabled(st, step, now) && r in st.idents && Open(Next(st, step, now), r)
    ensures Open(st, r)
  {
    hide Inv, FatesLast, StatusesLast, SubmitsLast, IssuedLast, StaleLast, UnindexedLast, Next, Enabled;
    StepEvolves(st, step, now);
    assert Shaped(st) by { InvIsShaped(st); }
  }

  lemma InvIsShaped(st: State)
    requires Inv(st)
    ensures Shaped(st)
  {
  }

  /** An open session is last heard of by its own heartbeats while it is found, and at no other time. */
  lemma OpenHeardThroughStep(st: State, step: Step, now: Instant, r: AgentSession, heard: Instant)
    requires Inv(st) && Enabled(st, step, now) && r in st.idents && r in st.beats && (Open(st, r) ==> st.beats[r] == heard)
    requires Connected(st, r) ==> !StaleAt(st, r, now)
    ensures var b := Next(st, step, now);
            r in b.beats && (Open(b, r) ==> b.beats[r] == HeardBy(st, step, r, st.idents[r], heard))
  {
    hide Inv, Enabled, Next, Found;
    if Open(Next(st, step, now), r) {
      ClosedStaysClosed(st, step, now, r);
      if Found(st, r) {
        FoundHeardThroughStep(st, step, now, r);
      } else {
        UnfoundThroughStep(st, step, now, r);
      }
    } else {
      BeatsStay(st, step, now, r);
    }
  }

  lemma BeatsStay(st: State, step: Step, now: Instant, r: AgentSession)
    requires Inv(st) && Enabled(st, step, now) && r in st.idents
    ensures r in Next(st, step, now).beats
  {
    hide Inv, Next, Enabled;
    StepKeepsInv(st, step, now);
    StepEvolves(st, step, now);
    InvIsShaped(Next(st, step, now));
  }

  /** At one time: only an open session that is not found can be stale, and is once `heard` is too long ago. */
  lemma StaleOnlyUnfound(st: State, r: AgentSession, last: Instant, heard: Instant, now: Instant)
    requires LastHeard(st, r, last) && now - last <= st.staleAfter && (Open(st, r) ==> st.beats[r] == heard)
    ensures (Open(st, r) ==> !StaleAt(st, r, now)) <==> (Open(st, r) && !Found(st, r) ==> now - heard <= st.staleAfter)
    ensures r in st.beats && (Connected(st, r) ==> !StaleAt(st, r, now))
  {
  }

  /** Punctual heartbeats that are not overdue: the next step comes within the bound of the last one. */
  lemma NextIsInTime(e: Event, later: seq<Event>, who: Identity, last: Instant, beats: seq<Beat>, interval: int, delay: int)
    requires Punctual(last, beats, interval, delay) && OnSchedule([e] + later, who, beats)
    ensures e.now - last <= interval + delay
    ensures if OwnBeat(e.step, who) then beats != [] && e.step.at == beats[0].sent
               && Punctual(beats[0].sent, beats[1..], interval, delay) && OnSchedule(later, who, beats[1..])
            else OnSchedule(later, who, beats)
  {
    assert ([e] + later)[1..] == later;
  }

  /**
   With punctual heartbeats an open session is active at every step of a run exactly if whenever it is no longer found
   under its ID it was last heard of, while it was, within the bound.
   */
  lemma {:induction false} PunctualOpenIsStaleOnlyUnfound(st: State, run: seq<Event>, r: AgentSession, last: Instant,
                                                          beats: seq<Beat>, interval: int, delay: int, heard: Instant)
    requires Inv(st) && CanRun(st, run) && r in st.idents && LastHeard(st, r, last)
    requires Open(st, r) ==> st.beats[r] == heard
    requires Punctual(last, beats, interval, delay) && interval + delay <= st.staleAfter
    requires OnSchedule(run, st.idents[r], beats)
    ensures OpenNeverStale(st, run, r) <==> HiddenBriefly(st, run, r, st.idents[r], heard)
    decreases |run|
  {
    hide Inv, Enabled, Next, Found, StaleAt, LastHeard, Open, Connected, Punctual, OnSchedule, HeardBy;
    if run != [] {
      var e := run[0];
      assert run == [e] + run[1..];
      NextIsInTime(e, run[1..], st.idents[r], last, beats, interval, delay);
      StaleOnlyUnfound(st, r, last, heard, e.now);
      HeardThroughStep(st, e.step, e.now, r, last);
      OpenHeardThroughStep(st, e.step, e.now, r, heard);
      var own := OwnBeat(e.step, st.idents[r]);
      PunctualOpenIsStaleOnlyUnfound(Next(st, e.step, e.now), run[1..], r, if own then e.step.at else last,
                                     if own then beats[1..] else beats, interval, delay,
                                     HeardBy(st, e.step, r, st.idents[r], heard));
    }
  }
}
