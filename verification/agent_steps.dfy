/** One protocol step at a time: that the step is enabled, what it does to the state, that the invariant survives it. */
module AgentSteps {
  import opened Common
  import opened AgentModel
  import opened AgentProtocol
  import opened AgentInvariants

  lemma SameEntry<K, V>(m: map<K, V>, k: K)
    requires k in m
    ensures m[k := m[k]] == m
  {
  }

  lemma IssueParts(st: State, c: Command, waiter: Handle, r: AgentSession)
    requires HasRecord(st, r)
    ensures var b := DoIssue(st, c, waiter, r);
            var room := |st.queues[r]| < QUEUE_CAPACITY;
            && b == st.(queues := b.queues, pending := b.pending, waiters := b.waiters,
                        issued := b.issued, fates := b.fates, statuses := b.statuses)
            && b.queues == st.queues[r := if room then st.queues[r] + [c] else st.queues[r]]
            && b.pending == st.pending[r := if room then st.pending[r][Key(c.kind, c.commandID) := waiter] else st.pending[r]]
            && b.waiters == st.waiters[waiter := UNUSED]
  {
    SameEntry(st.queues, r);
    SameEntry(st.pending, r);
  }

  lemma TimeoutPending(st: State, id: Uuid)
    requires id in st.issued && st.issued[id].session in st.pending
    requires st.issued[id].command.sessionID in st.byID && st.byID[st.issued[id].command.sessionID] == st.issued[id].session
    ensures var r := st.issued[id].session;
            DoTimeout(st, id).pending == st.pending[r := st.pending[r] - {Key(st.issued[id].command.kind, id)}]
  {
    var r, k := st.issued[id].session, Key(st.issued[id].command.kind, id);
    if k !in st.pending[r] {
      assert st.pending[r] - {k} == st.pending[r];
      SameEntry(st.pending, r);
    }
  }

  /** Closing `p`'s waiters one after the other is possible: each is a channel of its own, and open. */
  ghost predicate Closable(p: map<Key, Handle>, waiters: map<Handle, Waiter>) {
    && (forall k | k in p :: p[k] in waiters && waiters[p[k]].closes == 0)
    && (forall k, l | k in p && l in p && p[k] == p[l] :: k == l)
  }

  lemma HeartbeatStep(st: State, tokenID: Uuid, sessionID: string, at: Instant, now: Instant)
    requires Inv(st) && st.clock <= now
    ensures var step := Heartbeat(tokenID, sessionID, at);
            && Enabled(st, step, now) && Inv(Next(st, step, now))
            && Next(st, step, now) == DoHeartbeat(st, tokenID, sessionID, at, now).(clock := now)
  {
    StepKeepsInv(st, Heartbeat(tokenID, sessionID, at), now);
  }

  lemma IssueStep(st: State, req: Request, id: Uuid, waiter: Handle, issuedAt: Instant, pick: Option<AgentSession>, now: Instant)
    requires Inv(st) && st.clock <= now && id !in st.issued && waiter !in st.waiters && Resolves(st, req, now, pick)
    ensures pick.Some? ==> HasRecord(st, pick.value) && Key(req.KindOf(), id) !in st.pending[pick.value]
    ensures var step := Issue(req, id, waiter, issuedAt, pick);
            && Enabled(st, step, now) && Inv(Next(st, step, now))
            && Next(st, step, now) ==
                 (if pick.Some? then DoIssue(st, CommandFor(st, req, id, issuedAt, pick.value), waiter, pick.value) else st).(clock := now)
  {
    hide IssuedWell, QueuesOwned, SubmitsMatch, Lifecycle, FatesShown, ChannelsShaped, CommandsShaped;
    StepKeepsInv(st, Issue(req, id, waiter, issuedAt, pick), now);
    if pick.Some? {
      ResolvedIsIssuable(st, req, id, waiter, issuedAt, pick.value, now);
    }
  }

  lemma TakeStep(st: State, tokenID: Uuid, result: Result, submit: Handle, now: Instant)
    requires Inv(st) && st.clock <= now && submit !in st.submits
    ensures var step := Take(tokenID, result, submit);
            && Enabled(st, step, now) && Inv(Next(st, step, now))
            && Next(st, step, now) ==
                 (if Accepts(st, tokenID, result, now)
                  then DoTake(st, tokenID, result, submit, st.byID[result.sessionID]) else st).(clock := now)
  {
    StepKeepsInv(st, Take(tokenID, result, submit), now);
  }

  lemma SendStep(st: State, submit: Handle, now: Instant)
    requires Inv(st) && st.clock <= now && submit in st.submits && st.submits[submit].stage == Taken
    ensures var w := st.submits[submit].waiter;
            w in st.waiters && SendFault(st.waiters[w]) == NoFault && st.fault == NoFault
    ensures var step := Send(submit);
            && Enabled(st, step, now) && Inv(Next(st, step, now))
            && Next(st, step, now) == DoSend(st, submit).(clock := now)
  {
    hide Indexed, Lifecycle, PendingOwned, IssuedWell, QueuesOwned, SessionsShaped, IndexShaped, CommandsShaped;
    StepKeepsInv(st, Send(submit), now);
  }

  lemma FinishStep(st: State, submit: Handle, now: Instant)
    requires Inv(st) && st.clock <= now && submit in st.submits && st.submits[submit].stage == Sent
    ensures var w := st.submits[submit].waiter;
            w in st.waiters && CloseFault(st.waiters[w]) == NoFault && st.fault == NoFault
    ensures var step := Finish(submit);
            && Enabled(st, step, now) && Inv(Next(st, step, now))
            && Next(st, step, now) == DoFinish(st, submit).(clock := now)
  {
    hide Indexed, Lifecycle, PendingOwned, IssuedWell, QueuesOwned, SessionsShaped, IndexShaped, CommandsShaped;
    StepKeepsInv(st, Finish(submit), now);
  }

  lemma ReceiveParts(st: State, id: Uuid)
    requires CanReceive(st, id)
    ensures var w := st.waiters[st.issued[id].waiter];
            var b := DoReceive(st, id);
            && id in b.statuses
            && b == st.(waiters := b.waiters, statuses := b.statuses)
            && if w.buffer != []
               then b.waiters == st.waiters[st.issued[id].waiter := w.(buffer := w.buffer[1..])] && b.statuses[id] == Returned(w.buffer[0])
               else b.waiters == st.waiters && b.statuses[id] == Woken
  {
  }

  lemma ReceiveStep(st: State, id: Uuid, now: Instant)
    requires Inv(st) && st.clock <= now && CanReceive(st, id)
    ensures var step := Receive(id);
            && Enabled(st, step, now) && Inv(Next(st, step, now))
            && Next(st, step, now) == DoReceive(st, id).(clock := now)
  {
    hide Indexed, Lifecycle, PendingOwned, IssuedWell, SubmitsMatch, QueuesOwned, FatesShown;
    StepKeepsInv(st, Receive(id), now);
  }

  lemma TimeoutStep(st: State, id: Uuid, now: Instant)
    requires Inv(st) && st.clock <= now && id in st.issued && id in st.statuses && st.statuses[id] == Waiting
    ensures HasRecord(st, st.issued[id].session) && st.issued[id].command.commandID == id
    ensures var step := Timeout(id);
            && Enabled(st, step, now) && Inv(Next(st, step, now))
            && Next(st, step, now) == DoTimeout(st, id).(clock := now)
  {
    hide Indexed, Lifecycle, PendingOwned, FatesShown, SubmitsMatch, QueuesOwned;
    StepKeepsInv(st, Timeout(id), now);
  }

  /** Closing a session never closes a channel twice. */
  lemma SessionIsClosable(st: State, r: AgentSession)
    requires Inv(st) && r in st.idents
    ensures HasRecord(st, r) && Closable(st.pending[r], st.waiters)
  {
    hide CommandsShaped, ChannelsShaped, Indexed, Lifecycle, SubmitsMatch, QueuesOwned;
    forall k, l | k in st.pending[r] && l in st.pending[r] && st.pending[r][k] == st.pending[r][l]
      ensures k == l
    {
      assert st.issued[k.commandID].waiter == st.issued[l.commandID].waiter;
    }
    forall k | k in st.pending[r]
      ensures st.pending[r][k] in st.waiters && st.waiters[st.pending[r][k]].closes == 0
    {
      assert st.issued[k.commandID].waiter == st.pending[r][k];
    }
  }

  lemma WakeNone(waiters: map<Handle, Waiter>)
    ensures WokenWaiters(waiters, map[]) == waiters
  {
  }

  lemma NextIsNew(p: map<Key, Handle>, done: map<Key, Handle>, waiters: map<Handle, Waiter>, k: Key)
    requires Closable(p, waiters) && (forall l | l in done :: l in p && done[l] == p[l]) && k in p && k !in done
    ensures p[k] !in done.Values && p[k] in waiters && waiters[p[k]].closes == 0
  {
  }

  lemma WakeOneMore(waiters: map<Handle, Waiter>, done: map<Key, Handle>, k: Key, w: Handle)
    requires w in waiters && w !in done.Values && k !in done
    ensures w in WokenWaiters(waiters, done) && WokenWaiters(waiters, done)[w] == waiters[w]
    ensures WokenWaiters(waiters, done)[w := AfterClose(waiters[w])] == WokenWaiters(waiters, done[k := w])
  {
    var next := done[k := w];
    assert next[k] == w;
    forall v | v in waiters
      ensures v in next.Values <==> v == w || v in done.Values
    {
      if v in done.Values {
        var l :| l in done && done[l] == v;
        assert next[l] == v;
      }
    }
  }

  lemma RegisterStep(st: State, ref: AgentSession, who: Identity, now: Instant)
    requires Inv(st) && st.clock <= now && ref !in st.idents
    ensures who.tokenID in st.byToken ==>
              HasRecord(st, st.byToken[who.tokenID]) && Closable(st.pending[st.byToken[who.tokenID]], st.waiters)
    ensures var step := Register(ref, who);
            && Enabled(st, step, now) && Inv(Next(st, step, now))
            && Next(st, step, now) == DoRegister(st, ref, who).(clock := now)
  {
    StepKeepsInv(st, Register(ref, who), now);
    if who.tokenID in st.byToken {
      SessionIsClosable(st, st.byToken[who.tokenID]);
    }
  }

  lemma DisconnectSessionStep(st: State, sessionID: string, now: Instant)
    requires Inv(st) && st.clock <= now
    ensures sessionID in st.byID ==> HasRecord(st, st.byID[sessionID]) && Closable(st.pending[st.byID[sessionID]], st.waiters)
    ensures var step := DisconnectSession(sessionID);
            && Enabled(st, step, now) && Inv(Next(st, step, now))
            && Next(st, step, now) ==
                 (if sessionID in st.byID then CloseSession(st, st.byID[sessionID], now) else st).(clock := now)
  {
    StepKeepsInv(st, DisconnectSession(sessionID), now);
    if sessionID in st.byID {
      SessionIsClosable(st, st.byID[sessionID]);
    }
  }

  lemma DisconnectStreamStep(st: State, sessionID: string, target: AgentSession, now: Instant)
    requires Inv(st) && st.clock <= now
    ensures sessionID in st.byID && st.byID[sessionID] == target ==> HasRecord(st, target) && Closable(st.pending[target], st.waiters)
    ensures var step := DisconnectStream(sessionID, target);
            && Enabled(st, step, now) && Inv(Next(st, step, now))
            && Next(st, step, now) ==
                 (if sessionID in st.byID && st.byID[sessionID] == target then CloseSession(st, target, now) else st).(clock := now)
  {
    StepKeepsInv(st, DisconnectStream(sessionID, target), now);
    if sessionID in st.byID && st.byID[sessionID] == target {
      SessionIsClosable(st, target);
    }
  }

  lemma DequeueStep(st: State, target: AgentSession, now: Instant)
    requires Inv(st) && st.clock <= now && target in st.idents && target in st.queues && st.queues[target] != []
    ensures var step := Dequeue(target);
            && Enabled(st, step, now) && Inv(Next(st, step, now))
            && Next(st, step, now) == DoDequeue(st, target).(clock := now)
  {
    hide CommandsShaped, ChannelsShaped, Indexed, Lifecycle, PendingOwned, FatesShown, SubmitsMatch, QueuesOwned, IssuedWell;
    StepKeepsInv(st, Dequeue(target), now);
  }
}
