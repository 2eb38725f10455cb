/** What every step of the agent protocol keeps, and what follows for whole runs. */
module AgentInvariants {
  import opened Common
  import opened AgentModel
  import opened AgentProtocol

  /**
   A session found by ID carries that ID and is the current session of its token; so is every active session.  No
   session has a blank ID.
   */
  ghost predicate Indexed(byToken: map<Uuid, AgentSession>, byID: map<string, AgentSession>,
                          idents: map<AgentSession, Identity>, lives: map<AgentSession, Life>)
  {
    && (forall t | t in byToken :: byToken[t] in idents && idents[byToken[t]].tokenID == t)
    && (forall s | s in byID ::
          && byID[s] in idents && idents[byID[s]].sessionID == s
          && idents[byID[s]].tokenID in byToken && byToken[idents[byID[s]].tokenID] == byID[s])
    && (forall r | r in lives ::
          && r in idents && idents[r].sessionID != "" && idents[r].tokenID in byToken
          && (lives[r].active ==> byToken[idents[r].tokenID] == r))
  }

  /** Active holds exactly while done is open, done is closed at most once, and an inactive session waits for nothing. */
  ghost predicate Lifecycle(lives: map<AgentSession, Life>, pending: map<AgentSession, map<Key, Handle>>) {
    forall r | r in lives ::
      && r in pending
      && lives[r].active == DoneOpen(lives[r]) && lives[r].doneCloses <= 1
      && lives[r].active == (lives[r].disconnectedAt == None)
      && (!lives[r].active ==> pending[r] == map[])
  }

  /** Every pending entry belongs to the issued command it names, in the session that command went to. */
  ghost predicate PendingOwned(pending: map<AgentSession, map<Key, Handle>>, issued: map<Uuid, Issued>, fates: map<Uuid, Fate>) {
    forall r, k | r in pending && k in pending[r] ::
      && k.commandID in issued && k.commandID in fates
      && issued[k.commandID].session == r
      && issued[k.commandID].command.kind == k.kind
      && issued[k.commandID].waiter == pending[r][k]
      && fates[k.commandID] == Pending
  }

  /** Commands are recorded under their own ID, with the ID of the session they went to; no two share a waiter. */
  ghost predicate IssuedWell(issued: map<Uuid, Issued>, idents: map<AgentSession, Identity>) {
    && (forall id | id in issued ::
          && issued[id].command.commandID == id
          && issued[id].session in idents
          && issued[id].command.sessionID == idents[issued[id].session].sessionID)
    && (forall a, b | a in issued && b in issued && issued[a].waiter == issued[b].waiter :: a == b)
  }

  /**
   The one fate a command has fixes what went through its waiter, whether the waiter is in a pending map
   (`waits`), and what its caller may hold.
   */
  ghost predicate FateShown(id: Uuid, fate: Fate, status: Status, w: Waiter, waits: bool, submits: map<Handle, Submit>) {
    match fate
    case Rejected => w == UNUSED && !waits && status == Refused
    case Pending => w == UNUSED && waits && (status == Waiting || status == TimedOut)
    case Abandoned => w == UNUSED && !waits && status == TimedOut
    case Closed => w == AfterClose(UNUSED) && !waits && (status == Waiting || status == TimedOut || status == Woken)
    case Answered(n) =>
      && !waits
      && n in submits
      && submits[n].result.commandID == id
      && AnswerShown(status, w, submits[n])
  }

  predicate AnswerShown(status: Status, w: Waiter, u: Submit) {
    && w.sends == (if u.stage == Taken then 0 else 1)
    && w.closes == (if u.stage == Done then 1 else 0)
    && w.buffer == (if u.stage == Taken || status == Returned(u.result) then [] else [u.result])
    && (status == Waiting || status == TimedOut || (status == Returned(u.result) && u.stage != Taken))
  }

  ghost predicate FatesShown(issued: map<Uuid, Issued>, fates: map<Uuid, Fate>, statuses: map<Uuid, Status>,
                             waiters: map<Handle, Waiter>, pending: map<AgentSession, map<Key, Handle>>,
                             submits: map<Handle, Submit>)
  {
    forall id | id in issued ::
      && id in fates && id in statuses && issued[id].waiter in waiters && issued[id].session in pending
      && FateShown(id, fates[id], statuses[id], waiters[issued[id].waiter],
                   Key(issued[id].command.kind, id) in pending[issued[id].session], submits)
  }

  /** An accepted Submit carries the command's own ID, session ID and kind, and its session's token. */
  ghost predicate SubmitsMatch(submits: map<Handle, Submit>, issued: map<Uuid, Issued>, fates: map<Uuid, Fate>,
                               idents: map<AgentSession, Identity>)
  {
    forall n | n in submits ::
      var id := submits[n].result.commandID;
      && id in issued && id in fates && issued[id].session in idents
      && fates[id] == Answered(n)
      && issued[id].waiter == submits[n].waiter
      && issued[id].command.sessionID == submits[n].result.sessionID
      && issued[id].command.kind == submits[n].result.body.KindOf()
      && idents[issued[id].session].tokenID == submits[n].tokenID
  }

  /** A queue holds only commands issued to its session, as issued, each once, none of them taken out before. */
  ghost predicate QueuesOwned(queues: map<AgentSession, seq<Command>>, issued: map<Uuid, Issued>, dequeued: set<Uuid>) {
    && (forall r, i | r in queues && 0 <= i < |queues[r]| ::
          var c := queues[r][i];
          && c.commandID in issued
          && issued[c.commandID].command == c
          && issued[c.commandID].session == r
          && c.commandID !in dequeued)
    && (forall r, i, j | r in queues && 0 <= i < j < |queues[r]| :: queues[r][i].commandID != queues[r][j].commandID)
    && (forall r | r in queues :: |queues[r]| <= QUEUE_CAPACITY)
    && (forall id | id in dequeued :: id in issued)
  }

  ghost predicate Inv(st: State) {
    && Shaped(st)
    && Indexed(st.byToken, st.byID, st.idents, st.lives)
    && Lifecycle(st.lives, st.pending)
    && PendingOwned(st.pending, st.issued, st.fates)
    && IssuedWell(st.issued, st.idents)
    && FatesShown(st.issued, st.fates, st.statuses, st.waiters, st.pending, st.submits)
    && SubmitsMatch(st.submits, st.issued, st.fates, st.idents)
    && QueuesOwned(st.queues, st.issued, st.dequeued)
    && st.fault == NoFault
  }

  // ----- the start

  lemma InitialInv(staleAfter: int, clock: Instant)
    ensures Inv(Initial(staleAfter, clock))
  {
  }

  // ----- closing a session: the parts it touches

  lemma CloseIndexed(byToken: map<Uuid, AgentSession>, byID: map<string, AgentSession>,
                     idents: map<AgentSession, Identity>, lives: map<AgentSession, Life>, r: AgentSession, at: Instant)
    requires Indexed(byToken, byID, idents, lives) && r in lives
    ensures Indexed(byToken, byID, idents, lives[r := ClosedLife(lives[r], at)])
  {
  }

  lemma CloseLifecycle(lives: map<AgentSession, Life>, pending: map<AgentSession, map<Key, Handle>>, r: AgentSession, at: Instant)
    requires Lifecycle(lives, pending) && r in lives
    ensures Lifecycle(lives[r := ClosedLife(lives[r], at)], pending[r := map[]])
  {
  }

  lemma ClosePending(pending: map<AgentSession, map<Key, Handle>>, issued: map<Uuid, Issued>, fates: map<Uuid, Fate>, r: AgentSession)
    requires PendingOwned(pending, issued, fates) && r in pending
    ensures PendingOwned(pending[r := map[]], issued, ClosedFates(fates, issued, r, pending[r]))
  {
  }

  /** A waiter is among those a closing session wakes exactly when its command is pending there. */
  lemma WokenAreOwn(pending: map<AgentSession, map<Key, Handle>>, issued: map<Uuid, Issued>, fates: map<Uuid, Fate>,
                    idents: map<AgentSession, Identity>, r: AgentSession, id: Uuid)
    requires PendingOwned(pending, issued, fates) && IssuedWell(issued, idents) && r in pending && id in issued
    ensures issued[id].waiter in pending[r].Values <==>
            issued[id].session == r && Key(issued[id].command.kind, id) in pending[r]
  {
    if issued[id].waiter in pending[r].Values {
      var k :| k in pending[r] && pending[r][k] == issued[id].waiter;
      assert k.commandID == id;
    }
  }

  lemma CloseFates(st: State, r: AgentSession)
    requires PendingOwned(st.pending, st.issued, st.fates) && IssuedWell(st.issued, st.idents) && r in st.pending
    requires FatesShown(st.issued, st.fates, st.statuses, st.waiters, st.pending, st.submits)
    ensures FatesShown(st.issued, ClosedFates(st.fates, st.issued, r, st.pending[r]), st.statuses,
                       WokenWaiters(st.waiters, st.pending[r]), st.pending[r := map[]], st.submits)
    ensures forall w | w in st.pending[r].Values :: w in st.waiters && st.waiters[w].closes == 0
  {
    var p := st.pending[r];
    forall id | id in st.issued
      ensures FateShown(id, ClosedFates(st.fates, st.issued, r, p)[id], st.statuses[id],
                        WokenWaiters(st.waiters, p)[st.issued[id].waiter],
                        Key(st.issued[id].command.kind, id) in st.pending[r := map[]][st.issued[id].session], st.submits)
    {
      WokenAreOwn(st.pending, st.issued, st.fates, st.idents, r, id);
    }
    forall w | w in p.Values
      ensures w in st.waiters && st.waiters[w].closes == 0
    {
      var k :| k in p && p[k] == w;
      assert st.issued[k.commandID].waiter == w;
    }
  }

  lemma CloseSubmits(submits: map<Handle, Submit>, issued: map<Uuid, Issued>, fates: map<Uuid, Fate>,
                     idents: map<AgentSession, Identity>, pending: map<AgentSession, map<Key, Handle>>, r: AgentSession)
    requires PendingOwned(pending, issued, fates) && r in pending
    requires SubmitsMatch(submits, issued, fates, idents)
    ensures SubmitsMatch(submits, issued, ClosedFates(fates, issued, r, pending[r]), idents)
  {
  }

  lemma CloseShaped(st: State, r: AgentSession, at: Instant)
    requires Shaped(st) && r in st.idents
    ensures Shaped(CloseSession(st, r, at))
  {
  }

  lemma CloseKeepsInv(st: State, r: AgentSession, at: Instant)
    requires Inv(st) && r in st.idents
    ensures Inv(CloseSession(st, r, at))
  {
    CloseShaped(st, r, at);
    CloseIndexed(st.byToken, st.byID, st.idents, st.lives, r, at);
    CloseLifecycle(st.lives, st.pending, r, at);
    ClosePending(st.pending, st.issued, st.fates, r);
    CloseFates(st, r);
    CloseSubmits(st.submits, st.issued, st.fates, st.idents, st.pending, r);
  }

  // ----- registering a session

  /** Once the prior session of the token is replaced, nothing stands in the way of a new one. */
  ghost predicate Vacant(byToken: map<Uuid, AgentSession>, byID: map<string, AgentSession>,
                         idents: map<AgentSession, Identity>, lives: map<AgentSession, Life>, who: Identity)
  {
    && (forall s | s in byID && byID[s] in idents && s != who.sessionID :: idents[byID[s]].tokenID != who.tokenID)
    && (who.tokenID in byToken && byToken[who.tokenID] in lives ==> !lives[byToken[who.tokenID]].active)
  }

  lemma UnindexMakesVacant(byToken: map<Uuid, AgentSession>, byID: map<string, AgentSession>,
                           idents: map<AgentSession, Identity>, lives: map<AgentSession, Life>, who: Identity)
    requires Indexed(byToken, byID, idents, lives)
    requires who.tokenID in byToken && byToken[who.tokenID] in lives && !lives[byToken[who.tokenID]].active
    ensures var left := LeftIndexed(byID, idents[byToken[who.tokenID]].sessionID, who);
            Indexed(byToken, left, idents, lives) && Vacant(byToken, left, idents, lives, who)
  {
  }

  lemma ReplaceShaped(st: State, who: Identity)
    requires Shaped(st)
    ensures Shaped(Replace(st, who)) && Replace(st, who).idents == st.idents
  {
    if who.tokenID in st.byToken {
      CloseShaped(st, st.byToken[who.tokenID], who.connectedAt);
    }
  }

  lemma ClosedIsInactive(st: State, r: AgentSession, at: Instant)
    requires Shaped(st) && r in st.idents
    ensures HasRecord(st, r)
    ensures var closed := CloseSession(st, r, at);
            && closed.byToken == st.byToken && closed.byID == st.byID && closed.idents == st.idents
            && r in closed.lives && !closed.lives[r].active
  {
  }

  lemma ReplaceMakesVacant(st: State, who: Identity)
    requires Inv(st)
    ensures var b := Replace(st, who); Inv(b) && Vacant(b.byToken, b.byID, b.idents, b.lives, who) && b.idents == st.idents
  {
    hide SessionsShaped, Lifecycle, PendingOwned, IssuedWell, FatesShown, SubmitsMatch, QueuesOwned, CommandsShaped, ChannelsShaped,
         CloseSession;
    ReplaceShaped(st, who);
    if who.tokenID in st.byToken {
      var prior := st.byToken[who.tokenID];
      ClosedIsInactive(st, prior, who.connectedAt);
      var closed := CloseSession(st, prior, who.connectedAt);
      CloseKeepsInv(st, prior, who.connectedAt);
      UnindexMakesVacant(closed.byToken, closed.byID, closed.idents, closed.lives, who);
    }
  }

  lemma InstallIndexed(byToken: map<Uuid, AgentSession>, byID: map<string, AgentSession>,
                       idents: map<AgentSession, Identity>, lives: map<AgentSession, Life>, ref: AgentSession, who: Identity)
    requires Indexed(byToken, byID, idents, lives) && Vacant(byToken, byID, idents, lives, who) && ref !in idents
    requires who.sessionID != ""
    ensures Indexed(byToken[who.tokenID := ref], byID[who.sessionID := ref], idents[ref := who], lives[ref := OPEN_LIFE])
  {
  }

  lemma InstallPending(st: State, ref: AgentSession)
    requires Lifecycle(st.lives, st.pending) && PendingOwned(st.pending, st.issued, st.fates) && ref !in st.pending
    ensures Lifecycle(st.lives[ref := OPEN_LIFE], st.pending[ref := map[]])
    ensures PendingOwned(st.pending[ref := map[]], st.issued, st.fates)
  {
  }

  lemma InstallFates(st: State, ref: AgentSession)
    requires FatesShown(st.issued, st.fates, st.statuses, st.waiters, st.pending, st.submits) && ref !in st.pending
    ensures FatesShown(st.issued, st.fates, st.statuses, st.waiters, st.pending[ref := map[]], st.submits)
  {
  }

  lemma InstallIdents(st: State, ref: AgentSession, who: Identity)
    requires IssuedWell(st.issued, st.idents) && SubmitsMatch(st.submits, st.issued, st.fates, st.idents) && ref !in st.idents
    ensures IssuedWell(st.issued, st.idents[ref := who])
    ensures SubmitsMatch(st.submits, st.issued, st.fates, st.idents[ref := who])
  {
  }

  lemma InstallQueues(queues: map<AgentSession, seq<Command>>, issued: map<Uuid, Issued>, dequeued: set<Uuid>, ref: AgentSession)
    requires QueuesOwned(queues, issued, dequeued) && ref !in queues
    ensures QueuesOwned(queues[ref := []], issued, dequeued)
  {
  }

  lemma InstallShaped(st: State, ref: AgentSession, who: Identity)
    requires Shaped(st) && ref !in st.idents
    ensures Shaped(Install(st, ref, who))
  {
  }

  lemma InstallKeepsInv(st: State, ref: AgentSession, who: Identity)
    requires Inv(st) && ref !in st.idents && Vacant(st.byToken, st.byID, st.idents, st.lives, who) && who.sessionID != ""
    ensures Inv(Install(st, ref, who))
  {
    InstallShaped(st, ref, who);
    InstallIndexed(st.byToken, st.byID, st.idents, st.lives, ref, who);
    InstallPending(st, ref);
    InstallFates(st, ref);
    InstallIdents(st, ref, who);
    InstallQueues(st.queues, st.issued, st.dequeued, ref);
  }

  lemma CurrentHasRecord(st: State, tokenID: Uuid)
    requires SessionsShaped(st.idents, st.lives, st.beats, st.queues, st.pending) && IndexShaped(st.byToken, st.byID, st.idents)
    ensures tokenID in st.byToken ==> HasRecord(st, st.byToken[tokenID])
  {
  }

  lemma RegisterKeepsInv(st: State, ref: AgentSession, who: Identity)
    requires Inv(st) && ref !in st.idents
    ensures Inv(DoRegister(st, ref, who))
  {
    hide Vacant, SessionsShaped, IndexShaped, CommandsShaped, ChannelsShaped, Indexed, Lifecycle, PendingOwned, IssuedWell,
         FatesShown, SubmitsMatch, QueuesOwned;
    CurrentHasRecord(st, who.tokenID);
    ReplaceMakesVacant(st, who);
    if who.sessionID != "" {
      InstallKeepsInv(Replace(st, who), ref, who);
    }
  }

  // ----- issuing a command

  ghost predicate Issuable(st: State, c: Command, waiter: Handle, r: AgentSession) {
    && r in st.idents && r in st.lives && r in st.pending && r in st.queues && st.lives[r].active
    && c.commandID !in st.issued && c.commandID !in st.fates && waiter !in st.waiters
    && c.sessionID == st.idents[r].sessionID
  }

  lemma IssueWell(st: State, c: Command, waiter: Handle, r: AgentSession)
    requires Issuable(st, c, waiter, r) && IssuedWell(st.issued, st.idents)
    requires ChannelsShaped(st.issued, st.submits, st.waiters, st.idents)
    ensures IssuedWell(st.issued[c.commandID := Issued(c, r, waiter)], st.idents)
  {
  }

  /** The pending maps after a command of fate `fate` was issued to `r`. */
  ghost function IssuedPending(pending: map<AgentSession, map<Key, Handle>>, c: Command, waiter: Handle, r: AgentSession,
                               fate: Fate): map<AgentSession, map<Key, Handle>>
    requires r in pending
  {
    if fate == Pending then pending[r := pending[r][Key(c.kind, c.commandID) := waiter]] else pending
  }

  lemma IssuePending(st: State, c: Command, waiter: Handle, r: AgentSession, fate: Fate)
    requires Issuable(st, c, waiter, r) && (fate == Pending || fate == Rejected)
    requires Lifecycle(st.lives, st.pending) && PendingOwned(st.pending, st.issued, st.fates)
    ensures Lifecycle(st.lives, IssuedPending(st.pending, c, waiter, r, fate))
    ensures PendingOwned(IssuedPending(st.pending, c, waiter, r, fate),
                         st.issued[c.commandID := Issued(c, r, waiter)], st.fates[c.commandID := fate])
  {
  }

  lemma IssueFates(st: State, c: Command, waiter: Handle, r: AgentSession, fate: Fate)
    requires Issuable(st, c, waiter, r) && (fate == Pending || fate == Rejected)
    requires PendingOwned(st.pending, st.issued, st.fates)
    requires FatesShown(st.issued, st.fates, st.statuses, st.waiters, st.pending, st.submits)
    ensures FatesShown(st.issued[c.commandID := Issued(c, r, waiter)], st.fates[c.commandID := fate],
                       st.statuses[c.commandID := if fate == Pending then Waiting else Refused],
                       st.waiters[waiter := UNUSED], IssuedPending(st.pending, c, waiter, r, fate), st.submits)
  {
  }

  lemma IssueSubmits(st: State, c: Command, waiter: Handle, r: AgentSession, fate: Fate)
    requires Issuable(st, c, waiter, r)
    requires SubmitsMatch(st.submits, st.issued, st.fates, st.idents)
    ensures SubmitsMatch(st.submits, st.issued[c.commandID := Issued(c, r, waiter)], st.fates[c.commandID := fate], st.idents)
  {
  }

  lemma IssueQueues(st: State, c: Command, waiter: Handle, r: AgentSession)
    requires Issuable(st, c, waiter, r)
    requires QueuesOwned(st.queues, st.issued, st.dequeued)
    ensures QueuesOwned(if |st.queues[r]| < QUEUE_CAPACITY then st.queues[r := st.queues[r] + [c]] else st.queues,
                        st.issued[c.commandID := Issued(c, r, waiter)], st.dequeued)
  {
  }

  lemma IssueCommandsShaped(st: State, c: Command, waiter: Handle, r: AgentSession, fate: Fate, status: Status)
    requires CommandsShaped(st.issued, st.fates, st.statuses)
    requires ChannelsShaped(st.issued, st.submits, st.waiters, st.idents) && r in st.idents
    ensures var issued := st.issued[c.commandID := Issued(c, r, waiter)];
            && CommandsShaped(issued, st.fates[c.commandID := fate], st.statuses[c.commandID := status])
            && ChannelsShaped(issued, st.submits, st.waiters[waiter := UNUSED], st.idents)
  {
  }

  lemma QueuedShaped(st: State, r: AgentSession, q: seq<Command>, p: map<Key, Handle>)
    requires SessionsShaped(st.idents, st.lives, st.beats, st.queues, st.pending) && r in st.idents
    ensures SessionsShaped(st.idents, st.lives, st.beats, st.queues[r := q], st.pending[r := p])
  {
  }

  lemma QueuedIssueShaped(st: State, c: Command, waiter: Handle, r: AgentSession)
    requires Shaped(st) && r in st.idents && |st.queues[r]| < QUEUE_CAPACITY
    ensures Shaped(DoIssue(st, c, waiter, r))
  {
    IssueCommandsShaped(st, c, waiter, r, Pending, Waiting);
    QueuedShaped(st, r, st.queues[r] + [c], st.pending[r][Key(c.kind, c.commandID) := waiter]);
  }

  lemma QueuedKeepsInv(st: State, c: Command, waiter: Handle, r: AgentSession)
    requires Inv(st) && Issuable(st, c, waiter, r) && |st.queues[r]| < QUEUE_CAPACITY
    ensures Inv(DoIssue(st, c, waiter, r))
  {
    hide SessionsShaped, IndexShaped, CommandsShaped, ChannelsShaped, Indexed, Lifecycle, PendingOwned, IssuedWell, FatesShown,
         SubmitsMatch, QueuesOwned;
    QueuedIssueShaped(st, c, waiter, r);
    IssueWell(st, c, waiter, r);
    IssuePending(st, c, waiter, r, Pending);
    IssueFates(st, c, waiter, r, Pending);
    IssueSubmits(st, c, waiter, r, Pending);
    IssueQueues(st, c, waiter, r);
  }

  lemma RejectedKeepsInv(st: State, c: Command, waiter: Handle, r: AgentSession)
    requires Inv(st) && Issuable(st, c, waiter, r) && |st.queues[r]| >= QUEUE_CAPACITY
    ensures Inv(DoIssue(st, c, waiter, r))
  {
    hide SessionsShaped, IndexShaped, CommandsShaped, ChannelsShaped, Indexed, Lifecycle, PendingOwned, IssuedWell, FatesShown,
         SubmitsMatch, QueuesOwned;
    IssueCommandsShaped(st, c, waiter, r, Rejected, Refused);
    IssueWell(st, c, waiter, r);
    IssuePending(st, c, waiter, r, Rejected);
    IssueFates(st, c, waiter, r, Rejected);
    IssueSubmits(st, c, waiter, r, Rejected);
    IssueQueues(st, c, waiter, r);
  }

  // ----- submitting a result

  ghost predicate Takeable(st: State, tokenID: Uuid, result: Result, submit: Handle, r: AgentSession) {
    && r in st.idents && r in st.pending && submit !in st.submits
    && st.idents[r].sessionID == result.sessionID && st.idents[r].tokenID == tokenID
    && Key(result.body.KindOf(), result.commandID) in st.pending[r]
  }

  lemma AcceptedIsTakeable(st: State, tokenID: Uuid, result: Result, submit: Handle, now: Instant)
    requires Shaped(st) && Indexed(st.byToken, st.byID, st.idents, st.lives)
    requires Accepts(st, tokenID, result, now) && submit !in st.submits
    ensures Takeable(st, tokenID, result, submit, st.byID[result.sessionID])
  {
  }

  lemma TakePending(pending: map<AgentSession, map<Key, Handle>>, issued: map<Uuid, Issued>, fates: map<Uuid, Fate>,
                    lives: map<AgentSession, Life>, r: AgentSession, k: Key, fate: Fate)
    requires r in pending && k in pending[r]
    requires Lifecycle(lives, pending) && PendingOwned(pending, issued, fates)
    ensures Lifecycle(lives, pending[r := pending[r] - {k}])
    ensures PendingOwned(pending[r := pending[r] - {k}], issued, fates[k.commandID := fate])
  {
  }

  lemma TakeFates(st: State, tokenID: Uuid, result: Result, submit: Handle, r: AgentSession)
    requires Takeable(st, tokenID, result, submit, r)
    requires PendingOwned(st.pending, st.issued, st.fates)
    requires FatesShown(st.issued, st.fates, st.statuses, st.waiters, st.pending, st.submits)
    ensures var k := Key(result.body.KindOf(), result.commandID);
            FatesShown(st.issued, st.fates[k.commandID := Answered(submit)], st.statuses, st.waiters,
                       st.pending[r := st.pending[r] - {k}],
                       st.submits[submit := Submit(tokenID, result, st.pending[r][k], Taken)])
  {
  }

  lemma TakeSubmits(st: State, tokenID: Uuid, result: Result, submit: Handle, r: AgentSession)
    requires Takeable(st, tokenID, result, submit, r)
    requires PendingOwned(st.pending, st.issued, st.fates) && IssuedWell(st.issued, st.idents)
    requires SubmitsMatch(st.submits, st.issued, st.fates, st.idents)
    ensures var k := Key(result.body.KindOf(), result.commandID);
            SubmitsMatch(st.submits[submit := Submit(tokenID, result, st.pending[r][k], Taken)],
                         st.issued, st.fates[k.commandID := Answered(submit)], st.idents)
  {
  }

  lemma TakeShaped(st: State, tokenID: Uuid, result: Result, submit: Handle, r: AgentSession)
    requires Shaped(st) && Takeable(st, tokenID, result, submit, r) && PendingOwned(st.pending, st.issued, st.fates)
    ensures Shaped(DoTake(st, tokenID, result, submit, r))
  {
  }

  lemma TakeKeepsInv(st: State, tokenID: Uuid, result: Result, submit: Handle, r: AgentSession)
    requires Inv(st) && Takeable(st, tokenID, result, submit, r)
    ensures Inv(DoTake(st, tokenID, result, submit, r))
  {
    TakeShaped(st, tokenID, result, submit, r);
    TakePending(st.pending, st.issued, st.fates, st.lives, r, Key(result.body.KindOf(), result.commandID), Answered(submit));
    TakeFates(st, tokenID, result, submit, r);
    TakeSubmits(st, tokenID, result, submit, r);
  }

  /** Moving a submit on leaves what it carries alone. */
  lemma AdvanceSubmits(submits: map<Handle, Submit>, issued: map<Uuid, Issued>, fates: map<Uuid, Fate>,
                       idents: map<AgentSession, Identity>, submit: Handle, stage: Stage)
    requires SubmitsMatch(submits, issued, fates, idents) && submit in submits
    ensures SubmitsMatch(submits[submit := submits[submit].(stage := stage)], issued, fates, idents)
  {
  }

  /** A send finds its waiter open and empty, a close finds it open with the value sent; neither disturbs another command. */
  lemma AdvanceFates(st: State, submit: Handle)
    requires submit in st.submits && st.submits[submit].stage != Done && st.submits[submit].waiter in st.waiters
    requires SubmitsMatch(st.submits, st.issued, st.fates, st.idents) && IssuedWell(st.issued, st.idents)
    requires FatesShown(st.issued, st.fates, st.statuses, st.waiters, st.pending, st.submits)
    ensures var u := st.submits[submit];
            var w := st.waiters[u.waiter];
            if u.stage == Taken then
              && SendFault(w) == NoFault
              && FatesShown(st.issued, st.fates, st.statuses, st.waiters[u.waiter := AfterSend(w, u.result)], st.pending,
                            st.submits[submit := u.(stage := Sent)])
            else
              && CloseFault(w) == NoFault
              && FatesShown(st.issued, st.fates, st.statuses, st.waiters[u.waiter := AfterClose(w)], st.pending,
                            st.submits[submit := u.(stage := Done)])
  {
  }

  lemma AdvanceShaped(st: State, submit: Handle)
    requires Shaped(st) && submit in st.submits
    ensures Shaped(DoSend(st, submit)) && Shaped(DoFinish(st, submit))
  {
  }

  lemma SendKeepsInv(st: State, submit: Handle)
    requires Inv(st) && submit in st.submits && st.submits[submit].stage == Taken
    ensures Inv(DoSend(st, submit))
  {
    AdvanceShaped(st, submit);
    AdvanceFates(st, submit);
    AdvanceSubmits(st.submits, st.issued, st.fates, st.idents, submit, Sent);
  }

  lemma FinishKeepsInv(st: State, submit: Handle)
    requires Inv(st) && submit in st.submits && st.submits[submit].stage == Sent
    ensures Inv(DoFinish(st, submit))
  {
    AdvanceShaped(st, submit);
    AdvanceFates(st, submit);
    AdvanceSubmits(st.submits, st.issued, st.fates, st.idents, submit, Done);
  }

  // ----- receiving, giving up, taking from the queue

  lemma ReceiveFates(st: State, id: Uuid)
    requires id in st.issued && id in st.statuses && st.statuses[id] == Waiting && st.issued[id].waiter in st.waiters
    requires st.waiters[st.issued[id].waiter].buffer != [] || st.waiters[st.issued[id].waiter].closes > 0
    requires IssuedWell(st.issued, st.idents)
    requires FatesShown(st.issued, st.fates, st.statuses, st.waiters, st.pending, st.submits)
    ensures var w := st.waiters[st.issued[id].waiter];
            if w.buffer != [] then
              FatesShown(st.issued, st.fates, st.statuses[id := Returned(w.buffer[0])],
                         st.waiters[st.issued[id].waiter := w.(buffer := w.buffer[1..])], st.pending, st.submits)
            else
              FatesShown(st.issued, st.fates, st.statuses[id := Woken], st.waiters, st.pending, st.submits)
  {
  }

  lemma ReceiveShaped(st: State, id: Uuid)
    requires Shaped(st) && id in st.issued
    ensures Shaped(DoReceive(st, id))
  {
  }

  lemma TimeoutShaped(st: State, id: Uuid)
    requires Shaped(st) && id in st.issued
    ensures Shaped(DoTimeout(st, id))
  {
  }

  lemma ReceiveKeepsInv(st: State, id: Uuid)
    requires Inv(st) && id in st.issued && CanReceive(st, id)
    ensures Inv(DoReceive(st, id))
  {
    ReceiveShaped(st, id);
    ReceiveFates(st, id);
  }

  lemma TimeoutFates(st: State, id: Uuid, abandon: bool)
    requires id in st.issued && id in st.statuses && st.statuses[id] == Waiting
    requires PendingOwned(st.pending, st.issued, st.fates)
    requires FatesShown(st.issued, st.fates, st.statuses, st.waiters, st.pending, st.submits)
    requires abandon ==> Key(st.issued[id].command.kind, id) in st.pending[st.issued[id].session]
    ensures var i := st.issued[id];
            if abandon then
              FatesShown(st.issued, st.fates[id := Abandoned], st.statuses[id := TimedOut], st.waiters,
                         st.pending[i.session := st.pending[i.session] - {Key(i.command.kind, id)}], st.submits)
            else
              FatesShown(st.issued, st.fates, st.statuses[id := TimedOut], st.waiters, st.pending, st.submits)
  {
  }

  lemma AbandonSubmits(st: State, id: Uuid)
    requires id in st.fates && st.fates[id] == Pending
    requires SubmitsMatch(st.submits, st.issued, st.fates, st.idents)
    ensures SubmitsMatch(st.submits, st.issued, st.fates[id := Abandoned], st.idents)
  {
  }

  lemma TimeoutKeepsInv(st: State, id: Uuid)
    requires Inv(st) && id in st.issued && st.statuses[id] == Waiting
    ensures Inv(DoTimeout(st, id))
  {
    var i := st.issued[id];
    var k := Key(i.command.kind, id);
    var abandon := i.command.sessionID in st.byID && st.byID[i.command.sessionID] == i.session && k in st.pending[i.session];
    TimeoutShaped(st, id);
    TimeoutFates(st, id, abandon);
    if abandon {
      TakePending(st.pending, st.issued, st.fates, st.lives, i.session, k, Abandoned);
      AbandonSubmits(st, id);
    }
  }

  lemma DequeueQueues(queues: map<AgentSession, seq<Command>>, issued: map<Uuid, Issued>, dequeued: set<Uuid>, target: AgentSession)
    requires QueuesOwned(queues, issued, dequeued) && target in queues && queues[target] != []
    ensures QueuesOwned(queues[target := queues[target][1..]], issued, dequeued + {queues[target][0].commandID})
  {
  }

  lemma DequeueShaped(st: State, target: AgentSession)
    requires Shaped(st) && target in st.idents && st.queues[target] != []
    ensures Shaped(DoDequeue(st, target))
  {
  }

  lemma DequeueKeepsInv(st: State, target: AgentSession)
    requires Inv(st) && target in st.idents && st.queues[target] != []
    ensures Inv(DoDequeue(st, target))
  {
    DequeueShaped(st, target);
    DequeueQueues(st.queues, st.issued, st.dequeued, target);
  }

  // ----- every step

  lemma HeartbeatKeepsInv(st: State, r: AgentSession, at: Instant)
    requires Inv(st) && r in st.idents
    ensures Inv(st.(beats := st.beats[r := at]))
  {
  }

  lemma ResolvedIsIssuable(st: State, req: Request, id: Uuid, waiter: Handle, issuedAt: Instant, r: AgentSession, now: Instant)
    requires Shaped(st) && Indexed(st.byToken, st.byID, st.idents, st.lives)
    requires id !in st.issued && waiter !in st.waiters && Resolves(st, req, now, Some(r))
    ensures r in st.idents && Issuable(st, CommandFor(st, req, id, issuedAt, r), waiter, r)
  {
  }

  lemma IssueKeepsInv(st: State, req: Request, id: Uuid, waiter: Handle, issuedAt: Instant, r: AgentSession, now: Instant)
    requires Inv(st) && id !in st.issued && waiter !in st.waiters && Resolves(st, req, now, Some(r))
    ensures Inv(DoIssue(st, CommandFor(st, req, id, issuedAt, r), waiter, r))
  {
    ResolvedIsIssuable(st, req, id, waiter, issuedAt, r, now);
    if |st.queues[r]| < QUEUE_CAPACITY {
      QueuedKeepsInv(st, CommandFor(st, req, id, issuedAt, r), waiter, r);
    } else {
      RejectedKeepsInv(st, CommandFor(st, req, id, issuedAt, r), waiter, r);
    }
  }

  lemma LockedStepKeepsInv(st: State, step: Step, now: Instant)
    requires Inv(st) && Enabled(st, step, now)
    requires step.Register? || step.Heartbeat? || step.Issue? || step.DisconnectSession? || step.DisconnectStream?
    ensures Inv(Effect(st, step, now))
  {
    hide Inv;
    match step
    case Register(ref, who) => RegisterKeepsInv(st, ref, who);
    case Heartbeat(tokenID, sessionID, at) =>
      if Located(st, tokenID, sessionID, now) { HeartbeatKeepsInv(st, st.byID[sessionID], at); }
    case Issue(req, id, waiter, issuedAt, pick) =>
      if pick.Some? { IssueKeepsInv(st, req, id, waiter, issuedAt, pick.value, now); }
    case DisconnectSession(sessionID) =>
      if sessionID in st.byID { CloseKeepsInv(st, st.byID[sessionID], now); }
    case DisconnectStream(sessionID, target) =>
      if sessionID in st.byID && st.byID[sessionID] == target { CloseKeepsInv(st, target, now); }
  }

  lemma AcceptedKeepsInv(st: State, tokenID: Uuid, result: Result, submit: Handle, now: Instant)
    requires Inv(st) && Accepts(st, tokenID, result, now) && submit !in st.submits
    ensures Inv(DoTake(st, tokenID, result, submit, st.byID[result.sessionID]))
  {
    AcceptedIsTakeable(st, tokenID, result, submit, now);
    TakeKeepsInv(st, tokenID, result, submit, st.byID[result.sessionID]);
  }

  lemma SubmitStepKeepsInv(st: State, step: Step, now: Instant)
    requires Inv(st) && Enabled(st, step, now) && (step.Take? || step.Send? || step.Finish?)
    ensures Inv(Effect(st, step, now))
  {
    hide Inv;
    match step
    case Take(tokenID, result, submit) => if Accepts(st, tokenID, result, now) { AcceptedKeepsInv(st, tokenID, result, submit, now); }
    case Send(submit) => SendKeepsInv(st, submit);
    case Finish(submit) => FinishKeepsInv(st, submit);
  }

  lemma CallerStepKeepsInv(st: State, step: Step, now: Instant)
    requires Inv(st) && Enabled(st, step, now) && (step.Receive? || step.Timeout? || step.Dequeue?)
    ensures Inv(Effect(st, step, now))
  {
    hide Inv;
    match step
    case Receive(id) => ReceiveKeepsInv(st, id);
    case Timeout(id) => TimeoutKeepsInv(st, id);
    case Dequeue(target) => DequeueKeepsInv(st, target);
  }

  /** Every step keeps the invariant. */
  lemma StepKeepsInv(st: State, step: Step, now: Instant)
    requires Inv(st) && Enabled(st, step, now)
    ensures Inv(Next(st, step, now))
  {
    hide Effect, SessionsShaped, IndexShaped, CommandsShaped, ChannelsShaped, Indexed, Lifecycle, PendingOwned, IssuedWell, FatesShown,
         SubmitsMatch, QueuesOwned;
    if step.Take? || step.Send? || step.Finish? {
      SubmitStepKeepsInv(st, step, now);
    } else if step.Receive? || step.Timeout? || step.Dequeue? {
      CallerStepKeepsInv(st, step, now);
    } else {
      LockedStepKeepsInv(st, step, now);
    }
  }
}
