/**
 The agent protocol from the caller to the agent and back: the session manager, the handler's stream loop, the
 wire, and the agent's handling of commands.  Messages and replies may be lost at any point; a reply may arrive
 more than once; several streams and sessions may be open at a time.
 */
module AgentEndToEnd {
  import opened Common
  import opened AgentModel
  import opened AgentProtocol
  import opened AgentInvariants
  import opened AgentRuns
  import opened AgentSteps
  import opened EdgeAgent

  /** What the agent handled a message with: which executors it has, what they come back with at that time, and when. */
  datatype Running = Running(executors: Executors, startedAt: Instant, completedAt: Instant, run: Executor)

  function HandledWith(m: ControlMessage, w: Running): Handled {
    HandleCommand(m, w.executors, w.startedAt, w.completedAt, w.run)
  }

  /** One command handled by the agent, what it was handled with, and the reply it made. */
  datatype Execution = Execution(stream: AgentSession, message: ControlMessage, running: Running, reply: Result)

  datatype World = World(st: State, wires: map<AgentSession, seq<Frame>>, log: seq<Execution>)

  datatype Move =
    /** Any step of the session manager but the two below. */
    | Manage(step: Step)
    /** The stream loop takes a command out of its session's channel and sends it; the send may fail. */
    | Forward(target: AgentSession, sent: bool)
    /** What was on the wire is lost. */
    | Lose(target: AgentSession)
    /** The agent takes a message off its stream and handles it. */
    | Handle(target: AgentSession, running: Running)
    /** A reply the agent made arrives, under the token of the agent that made it. */
    | Arrive(entry: nat, submit: Handle)

  ghost function Opened(w: World, step: Step): map<AgentSession, seq<Frame>> {
    if step.Register? then w.wires[step.ref := [Ack(step.who.sessionID)]] else w.wires
  }

  ghost function ArrivalOf(w: World, entry: nat, submit: Handle): Step
    requires entry < |w.log| && w.log[entry].stream in w.st.idents
  {
    Take(w.st.idents[w.log[entry].stream].tokenID, w.log[entry].reply, submit)
  }

  ghost predicate CanMove(w: World, m: Move, now: Instant) {
    match m
    case Manage(step) =>
      !step.Dequeue? && !step.Take? && Enabled(w.st, step, now) && (step.Register? ==> step.ref !in w.wires)
    case Forward(target, _) => target in w.wires && Enabled(w.st, Dequeue(target), now)
    case Lose(target) => target in w.wires
    case Handle(target, _) => target in w.wires && w.wires[target] != []
    case Arrive(entry, submit) =>
      entry < |w.log| && w.log[entry].stream in w.st.idents && Enabled(w.st, ArrivalOf(w, entry, submit), now)
  }

  ghost function Moved(w: World, m: Move, now: Instant): World
    requires CanMove(w, m, now)
  {
    match m
    case Manage(step) => w.(st := Next(w.st, step, now), wires := Opened(w, step))
    case Forward(target, sent) =>
      w.(st := Next(w.st, Dequeue(target), now),
         wires := if sent then w.wires[target := w.wires[target] + [CommandToProto(w.st.queues[target][0])]] else w.wires)
    case Lose(target) => w.(wires := w.wires[target := []])
    case Handle(target, running) =>
      var message := FromProto(w.wires[target][0]);
      var h := HandledWith(message, running);
      w.(wires := w.wires[target := w.wires[target][1..]],
         log := if h.reply.Some? then w.log + [Execution(target, message, running, h.reply.value)] else w.log)
    case Arrive(entry, submit) => w.(st := Next(w.st, ArrivalOf(w, entry, submit), now))
  }

  // ----- what every move keeps

  predicate InLog(log: seq<Execution>, id: Uuid) { exists k | 0 <= k < |log| :: log[k].reply.commandID == id }

  /** A message on a wire is an acknowledgement, or a command of that session as issued, taken out and not yet handled. */
  ghost predicate FrameOwned(f: Frame, r: AgentSession, issued: map<Uuid, Issued>, dequeued: set<Uuid>,
                             log: seq<Execution>)
  {
    f.commandID.Some? ==>
      var id := f.commandID.value;
      && id in issued && id in dequeued && !InLog(log, id)
      && issued[id].session == r && f == CommandToProto(issued[id].command)
  }

  ghost predicate WiresOwned(wires: map<AgentSession, seq<Frame>>, issued: map<Uuid, Issued>, dequeued: set<Uuid>,
                             log: seq<Execution>)
  {
    forall r, i | r in wires && 0 <= i < |wires[r]| :: FrameOwned(wires[r][i], r, issued, dequeued, log)
  }

  predicate Apart(wire: seq<Frame>) {
    forall i, j | 0 <= i < j < |wire| && wire[i].commandID.Some? :: wire[i].commandID != wire[j].commandID
  }

  ghost predicate WiresApart(wires: map<AgentSession, seq<Frame>>) {
    forall r | r in wires :: Apart(wires[r])
  }

  /** A log entry is a command of its session, handled as issued and answered for. */
  ghost predicate EntryOwned(e: Execution, issued: map<Uuid, Issued>, dequeued: set<Uuid>) {
    var id := e.reply.commandID;
    && id in issued && id in dequeued
    && issued[id].session == e.stream
    && e.message == FromProto(CommandToProto(issued[id].command))
    && Some(e.reply) == HandledWith(e.message, e.running).reply
    && e.reply.sessionID == issued[id].command.sessionID
    && e.reply.body.KindOf() == issued[id].command.kind
  }

  ghost predicate LogOwned(log: seq<Execution>, issued: map<Uuid, Issued>, dequeued: set<Uuid>) {
    && (forall k | 0 <= k < |log| :: EntryOwned(log[k], issued, dequeued))
    && (forall k, l | 0 <= k < l < |log| :: log[k].reply.commandID != log[l].reply.commandID)
  }

  ghost predicate FromLog(log: seq<Execution>, result: Result) { exists k | 0 <= k < |log| :: log[k].reply == result }

  ghost predicate SubmitsFromLog(submits: map<Handle, Submit>, log: seq<Execution>) {
    forall n | n in submits :: FromLog(log, submits[n].result)
  }

  ghost predicate PlainIssued(issued: map<Uuid, Issued>) {
    forall id | id in issued :: Plain(issued[id].command)
  }

  ghost predicate WorldInv(w: World) {
    && Inv(w.st)
    && WiresOwned(w.wires, w.st.issued, w.st.dequeued, w.log)
    && WiresApart(w.wires)
    && LogOwned(w.log, w.st.issued, w.st.dequeued)
    && SubmitsFromLog(w.st.submits, w.log)
    && PlainIssued(w.st.issued)
  }

  /** Later states of the manager know what earlier ones knew. */
  lemma OwnedLasts(w: World, issued: map<Uuid, Issued>, dequeued: set<Uuid>)
    requires IssuedLast(w.st.issued, issued) && w.st.dequeued <= dequeued
    requires WiresOwned(w.wires, w.st.issued, w.st.dequeued, w.log) && LogOwned(w.log, w.st.issued, w.st.dequeued)
    ensures WiresOwned(w.wires, issued, dequeued, w.log) && LogOwned(w.log, issued, dequeued)
  {
    forall k | 0 <= k < |w.log|
      ensures EntryOwned(w.log[k], issued, dequeued)
    {
      assert EntryOwned(w.log[k], w.st.issued, w.st.dequeued);
    }
    forall r, i | r in w.wires && 0 <= i < |w.wires[r]|
      ensures FrameOwned(w.wires[r][i], r, issued, dequeued, w.log)
    {
      assert FrameOwned(w.wires[r][i], r, w.st.issued, w.st.dequeued, w.log);
    }
  }

  /** No other step issues a command or accepts a result. */
  ghost predicate Quiet(a: State, b: State) { b.issued == a.issued && b.submits == a.submits }

  lemma RegisterIsQuiet(st: State, ref: AgentSession, who: Identity)
    requires who.tokenID in st.byToken ==> HasRecord(st, st.byToken[who.tokenID])
    ensures Quiet(st, DoRegister(st, ref, who))
  {
    hide WokenWaiters, ClosedFates;
  }

  lemma CloseIsQuiet(st: State, r: AgentSession, at: Instant)
    requires r in st.lives && r in st.pending
    ensures Quiet(st, CloseSession(st, r, at))
  {
    hide WokenWaiters, ClosedFates;
  }

  lemma LockedIsQuiet(st: State, step: Step, now: Instant)
    requires Inv(st) && Enabled(st, step, now)
    requires step.Register? || step.Heartbeat? || step.DisconnectSession? || step.DisconnectStream?
    ensures Quiet(st, Next(st, step, now))
  {
    hide Inv, Shaped, Next, DoRegister, CloseSession, Located, Closable;
    match step
    case Register(ref, who) =>
      RegisterStep(st, ref, who, now);
      RegisterIsQuiet(st, ref, who);
    case Heartbeat(tokenID, sessionID, at) => HeartbeatStep(st, tokenID, sessionID, at, now);
    case DisconnectSession(sessionID) =>
      DisconnectSessionStep(st, sessionID, now);
      if sessionID in st.byID { CloseIsQuiet(st, st.byID[sessionID], now); }
    case DisconnectStream(sessionID, target) =>
      DisconnectStreamStep(st, sessionID, target, now);
      if sessionID in st.byID && st.byID[sessionID] == target { CloseIsQuiet(st, target, now); }
  }

  lemma CallerIsQuiet(st: State, step: Step, now: Instant)
    requires Inv(st) && Enabled(st, step, now) && (step.Receive? || step.Timeout? || step.Dequeue?)
    ensures Quiet(st, Next(st, step, now))
  {
    hide Inv, Shaped, Next;
    match step
    case Receive(id) => ReceiveStep(st, id, now);
    case Timeout(id) => TimeoutStep(st, id, now);
    case Dequeue(target) => DequeueStep(st, target, now);
  }

  /** Only a Take adds a submit, and it adds the one it carries. */
  lemma SubmitSteps(st: State, step: Step, now: Instant, log: seq<Execution>)
    requires Enabled(st, step, now) && SubmitsFromLog(st.submits, log)
    requires step.Send? || step.Finish? || (step.Take? && FromLog(log, step.result))
    ensures Next(st, step, now).issued == st.issued && SubmitsFromLog(Next(st, step, now).submits, log)
  {
    hide SessionsShaped, IndexShaped, CommandsShaped, ChannelsShaped, Located, FromLog;
  }

  lemma PlainCommandFor(st: State, req: Request, id: Uuid, issuedAt: Instant, r: AgentSession)
    requires r in st.idents
    ensures Plain(CommandFor(st, req, id, issuedAt, r))
  {
  }

  lemma IssuedParts(st: State, c: Command, waiter: Handle, r: AgentSession)
    requires HasRecord(st, r)
    ensures DoIssue(st, c, waiter, r).issued == st.issued[c.commandID := Issued(c, r, waiter)]
    ensures DoIssue(st, c, waiter, r).submits == st.submits
  {
  }

  /** Only an Issue adds a command, and it is a plain one. */
  lemma IssueSteps(st: State, step: Step, now: Instant)
    requires Inv(st) && Enabled(st, step, now) && step.Issue? && PlainIssued(st.issued)
    ensures PlainIssued(Next(st, step, now).issued) && Next(st, step, now).submits == st.submits
  {
    hide Inv, Shaped, Next, Resolves, DoIssue, Plain, CommandFor;
    IssueStep(st, step.req, step.id, step.waiter, step.issuedAt, step.pick, now);
    if step.pick.Some? {
      PlainCommandFor(st, step.req, step.id, step.issuedAt, step.pick.value);
      IssuedParts(st, CommandFor(st, step.req, step.id, step.issuedAt, step.pick.value), step.waiter, step.pick.value);
    }
  }

  lemma StepIssuedAndSubmits(st: State, step: Step, now: Instant, log: seq<Execution>)
    requires Inv(st) && Enabled(st, step, now) && SubmitsFromLog(st.submits, log) && PlainIssued(st.issued)
    requires step.Take? ==> FromLog(log, step.result)
    ensures SubmitsFromLog(Next(st, step, now).submits, log) && PlainIssued(Next(st, step, now).issued)
  {
    hide Inv, Enabled, Next, SubmitsFromLog, PlainIssued;
    if step.Issue? {
      IssueSteps(st, step, now);
    } else if step.Take? || step.Send? || step.Finish? {
      SubmitSteps(st, step, now, log);
    } else if step.Receive? || step.Timeout? || step.Dequeue? {
      CallerIsQuiet(st, step, now);
    } else {
      LockedIsQuiet(st, step, now);
    }
  }

  lemma StepKeepsWorld(w: World, step: Step, now: Instant)
    requires WorldInv(w) && Enabled(w.st, step, now)
    requires step.Take? ==> FromLog(w.log, step.result)
    ensures WorldInv(w.(st := Next(w.st, step, now)))
  {
    StepKeepsInv(w.st, step, now);
    StepEvolves(w.st, step, now);
    OwnedLasts(w, Next(w.st, step, now).issued, Next(w.st, step, now).dequeued);
    StepIssuedAndSubmits(w.st, step, now, w.log);
  }

  lemma OpenedOwned(w: World, r: AgentSession, sessionID: string)
    requires WiresOwned(w.wires, w.st.issued, w.st.dequeued, w.log) && WiresApart(w.wires)
    ensures WiresOwned(w.wires[r := [Ack(sessionID)]], w.st.issued, w.st.dequeued, w.log)
    ensures WiresApart(w.wires[r := [Ack(sessionID)]])
  {
  }

  lemma ManageKeepsWorld(w: World, step: Step, now: Instant)
    requires WorldInv(w) && CanMove(w, Manage(step), now)
    ensures WorldInv(Moved(w, Manage(step), now))
  {
    StepKeepsWorld(w, step, now);
    if step.Register? {
      OpenedOwned(w.(st := Next(w.st, step, now)), step.ref, step.who.sessionID);
    }
  }

  /** The command taken out is on no wire and in no log entry before. */
  lemma ForwardOwned(w: World, target: AgentSession, dequeued: set<Uuid>)
    requires WiresOwned(w.wires, w.st.issued, w.st.dequeued, w.log) && WiresApart(w.wires)
    requires LogOwned(w.log, w.st.issued, w.st.dequeued) && QueuesOwned(w.st.queues, w.st.issued, w.st.dequeued)
    requires target in w.wires && target in w.st.queues && w.st.queues[target] != []
    requires dequeued == w.st.dequeued + {w.st.queues[target][0].commandID}
    ensures var wires := w.wires[target := w.wires[target] + [CommandToProto(w.st.queues[target][0])]];
            WiresOwned(wires, w.st.issued, dequeued, w.log) && WiresApart(wires)
  {
    var c := w.st.queues[target][0];
    var wires := w.wires[target := w.wires[target] + [CommandToProto(c)]];
    assert c.commandID !in w.st.dequeued;
    forall r, i | r in wires && 0 <= i < |wires[r]|
      ensures FrameOwned(wires[r][i], r, w.st.issued, dequeued, w.log)
    {
      if r == target && i == |w.wires[target]| {
        assert wires[r][i] == CommandToProto(c);
      } else {
        assert wires[r][i] == w.wires[r][i];
        assert FrameOwned(w.wires[r][i], r, w.st.issued, w.st.dequeued, w.log);
      }
    }
    forall i | 0 <= i < |w.wires[target]|
      ensures w.wires[target][i].commandID != Some(c.commandID)
    {
      assert FrameOwned(w.wires[target][i], target, w.st.issued, w.st.dequeued, w.log);
    }
  }

  lemma DequeueEffect(st: State, target: AgentSession, now: Instant)
    requires Enabled(st, Dequeue(target), now)
    ensures var b := Next(st, Dequeue(target), now);
            b.issued == st.issued && b.dequeued == st.dequeued + {st.queues[target][0].commandID}
  {
  }

  lemma ForwardKeepsWorld(w: World, target: AgentSession, sent: bool, now: Instant)
    requires WorldInv(w) && CanMove(w, Forward(target, sent), now)
    ensures WorldInv(Moved(w, Forward(target, sent), now))
  {
    StepKeepsWorld(w, Dequeue(target), now);
    DequeueEffect(w.st, target, now);
    if sent {
      ForwardOwned(w, target, Next(w.st, Dequeue(target), now).dequeued);
    }
  }

  /** A handled command leaves the wire as it enters the log, and is on no other wire. */
  lemma HandleOwned(w: World, target: AgentSession, e: Execution)
    requires WiresOwned(w.wires, w.st.issued, w.st.dequeued, w.log) && WiresApart(w.wires)
    requires LogOwned(w.log, w.st.issued, w.st.dequeued)
    requires target in w.wires && w.wires[target] != []
    requires w.wires[target][0].commandID == Some(e.reply.commandID) && EntryOwned(e, w.st.issued, w.st.dequeued)
    ensures WiresOwned(w.wires[target := w.wires[target][1..]], w.st.issued, w.st.dequeued, w.log + [e])
    ensures LogOwned(w.log + [e], w.st.issued, w.st.dequeued)
  {
    var id := e.reply.commandID;
    var wires := w.wires[target := w.wires[target][1..]];
    assert FrameOwned(w.wires[target][0], target, w.st.issued, w.st.dequeued, w.log);
    forall r, i | r in wires && 0 <= i < |wires[r]|
      ensures FrameOwned(wires[r][i], r, w.st.issued, w.st.dequeued, w.log + [e])
    {
      var j := if r == target then i + 1 else i;
      assert wires[r][i] == w.wires[r][j];
      assert FrameOwned(w.wires[r][j], r, w.st.issued, w.st.dequeued, w.log);
      assert w.wires[r][j].commandID != Some(id);
    }
  }

  lemma HandledEntryOwned(w: World, target: AgentSession, running: Running)
    requires WiresOwned(w.wires, w.st.issued, w.st.dequeued, w.log) && PlainIssued(w.st.issued)
    requires target in w.wires && w.wires[target] != []
    ensures var message := FromProto(w.wires[target][0]);
            var h := HandledWith(message, running);
            h.reply.Some? ==>
              && w.wires[target][0].commandID == Some(h.reply.value.commandID)
              && EntryOwned(Execution(target, message, running, h.reply.value), w.st.issued, w.st.dequeued)
  {
    var f := w.wires[target][0];
    assert FrameOwned(f, target, w.st.issued, w.st.dequeued, w.log);
    if f.commandID.Some? {
      CommandSurvivesTheWire(w.st.issued[f.commandID.value].command);
    }
  }

  lemma DroppedOwned(w: World, target: AgentSession, left: seq<Frame>)
    requires WiresOwned(w.wires, w.st.issued, w.st.dequeued, w.log) && WiresApart(w.wires)
    requires target in w.wires && (left == [] || (w.wires[target] != [] && left == w.wires[target][1..]))
    ensures WiresOwned(w.wires[target := left], w.st.issued, w.st.dequeued, w.log) && WiresApart(w.wires[target := left])
  {
    var wires := w.wires[target := left];
    forall r, i | r in wires && 0 <= i < |wires[r]|
      ensures FrameOwned(wires[r][i], r, w.st.issued, w.st.dequeued, w.log)
    {
      var j := if r == target then i + 1 else i;
      assert wires[r][i] == w.wires[r][j];
    }
  }

  lemma LogGrows(submits: map<Handle, Submit>, log: seq<Execution>, e: Execution)
    requires SubmitsFromLog(submits, log)
    ensures SubmitsFromLog(submits, log + [e])
  {
    forall n | n in submits
      ensures FromLog(log + [e], submits[n].result)
    {
      var k :| 0 <= k < |log| && log[k].reply == submits[n].result;
      assert (log + [e])[k] == log[k];
    }
  }

  lemma HandleKeepsWorld(w: World, target: AgentSession, running: Running, now: Instant)
    requires WorldInv(w) && CanMove(w, Handle(target, running), now)
    ensures WorldInv(Moved(w, Handle(target, running), now))
  {
    hide Inv, WiresOwned, WiresApart, LogOwned, SubmitsFromLog, PlainIssued, EntryOwned, HandledWith, FromProto;
    var message := FromProto(w.wires[target][0]);
    var h := HandledWith(message, running);
    HandledEntryOwned(w, target, running);
    DroppedOwned(w, target, w.wires[target][1..]);
    if h.reply.Some? {
      HandleOwned(w, target, Execution(target, message, running, h.reply.value));
      LogGrows(w.st.submits, w.log, Execution(target, message, running, h.reply.value));
    }
  }

  /** Every move of the whole system keeps the invariant. */
  lemma MoveKeepsWorld(w: World, m: Move, now: Instant)
    requires WorldInv(w) && CanMove(w, m, now)
    ensures WorldInv(Moved(w, m, now))
  {
    match m
    case Manage(step) => ManageKeepsWorld(w, step, now);
    case Forward(target, sent) => ForwardKeepsWorld(w, target, sent, now);
    case Lose(target) => DroppedOwned(w, target, []);
    case Handle(target, running) => HandleKeepsWorld(w, target, running, now);
    case Arrive(entry, submit) => StepKeepsWorld(w, ArrivalOf(w, entry, submit), now);
  }

  // ----- every run of the whole system

  datatype Happening = Happening(move: Move, now: Instant)

  ghost predicate CanUnfold(w: World, run: seq<Happening>)
    decreases |run|
  {
    run == [] || (CanMove(w, run[0].move, run[0].now) && CanUnfold(Moved(w, run[0].move, run[0].now), run[1..]))
  }

  ghost function Unfolded(w: World, run: seq<Happening>): World
    requires CanUnfold(w, run)
    decreases |run|
  {
    if run == [] then w else Unfolded(Moved(w, run[0].move, run[0].now), run[1..])
  }

  ghost function Start(staleAfter: int, clock: Instant): World { World(Initial(staleAfter, clock), map[], []) }

  lemma StepKeepsIssued(st: State, step: Step, now: Instant)
    requires Inv(st) && Enabled(st, step, now)
    ensures IssuedLast(st.issued, Next(st, step, now).issued)
  {
    hide Inv, Enabled, Next;
    StepEvolves(st, step, now);
  }

  lemma MoveKeepsIssued(w: World, m: Move, now: Instant)
    requires WorldInv(w) && CanMove(w, m, now)
    ensures IssuedLast(w.st.issued, Moved(w, m, now).st.issued)
  {
    hide Inv, Enabled, Next;
    match m
    case Manage(step) => StepKeepsIssued(w.st, step, now);
    case Forward(target, sent) => StepKeepsIssued(w.st, Dequeue(target), now);
    case Arrive(entry, submit) => StepKeepsIssued(w.st, ArrivalOf(w, entry, submit), now);
    case _ =>
  }

  lemma {:induction false} RunKeepsWorld(w: World, run: seq<Happening>)
    requires WorldInv(w) && CanUnfold(w, run)
    ensures WorldInv(Unfolded(w, run)) && IssuedLast(w.st.issued, Unfolded(w, run).st.issued)
    decreases |run|
  {
    if run == [] {
    } else {
      hide WorldInv, Moved, CanMove;
      MoveKeepsWorld(w, run[0].move, run[0].now);
      MoveKeepsIssued(w, run[0].move, run[0].now);
      RunKeepsWorld(Moved(w, run[0].move, run[0].now), run[1..]);
    }
  }

  ghost predicate Occurs(w: World, staleAfter: int, clock: Instant, run: seq<Happening>) {
    CanUnfold(Start(staleAfter, clock), run) && w == Unfolded(Start(staleAfter, clock), run)
  }

  lemma OccursInv(w: World, staleAfter: int, clock: Instant, run: seq<Happening>)
    requires Occurs(w, staleAfter, clock, run)
    ensures WorldInv(w)
  {
    InitialInv(staleAfter, clock);
    RunKeepsWorld(Start(staleAfter, clock), run);
  }

  /**
   In every run each command is handled at most once, while it is neither queued nor on any wire any more, and
   handled exactly as it was issued: same session ID, kind, SQL and DSN.
   */
  lemma HandledOnceAsIssued(w: World, staleAfter: int, clock: Instant, run: seq<Happening>, k: nat)
    requires Occurs(w, staleAfter, clock, run) && k < |w.log|
    ensures var id := w.log[k].reply.commandID;
            && id in w.st.issued
            && (forall l | 0 <= l < |w.log| && w.log[l].reply.commandID == id :: l == k)
            && (forall r, i | r in w.wires && 0 <= i < |w.wires[r]| :: w.wires[r][i].commandID != Some(id))
            && (forall r, i | r in w.st.queues && 0 <= i < |w.st.queues[r]| :: w.st.queues[r][i].commandID != id)
            && var c := w.st.issued[id].command;
               w.log[k].message == ControlMessage(c.sessionID, Some(id), c.issuedAt, Some(c.kind), c.sql, c.dsn)
  {
    OccursInv(w, staleAfter, clock, run);
    var id := w.log[k].reply.commandID;
    assert EntryOwned(w.log[k], w.st.issued, w.st.dequeued);
    CommandSurvivesTheWire(w.st.issued[id].command);
    forall r, i | r in w.wires && 0 <= i < |w.wires[r]|
      ensures w.wires[r][i].commandID != Some(id)
    {
      assert FrameOwned(w.wires[r][i], r, w.st.issued, w.st.dequeued, w.log);
    }
  }

  /** The body of the reply to a command: what the agent's executor comes back with for the command's own text. */
  function BodyFor(c: Command, w: Running): Body {
    if w.executors.For(c.kind)
    then Executed(c.kind, c.issuedAt, w.startedAt, w.completedAt, w.run(c.kind, TextFor(c.kind, c.sql, c.dsn)))
    else Unconfigured(c.kind)
  }

  lemma HandledAsIssued(c: Command, w: Running)
    requires Plain(c)
    ensures var h := HandledWith(FromProto(CommandToProto(c)), w);
            && h.reply == Some(Result(c.sessionID, c.commandID, w.completedAt, BodyFor(c, w)))
            && h.called == if w.executors.For(c.kind) then Some(TextFor(c.kind, c.sql, c.dsn)) else None
  {
    CommandSurvivesTheWire(c);
  }

  /**
   A call that returned a result got what the agent replied when it handled that very command, its one handling: the
   value of the agent's executor, as it was then, at the command's own SQL or DSN.
   */
  lemma ReturnedResultWasExecuted(w: World, staleAfter: int, clock: Instant, run: seq<Happening>, id: Uuid, result: Result)
    requires Occurs(w, staleAfter, clock, run)
    requires id in w.st.issued && id in w.st.statuses && w.st.statuses[id] == Returned(result)
    ensures exists k :: 0 <= k < |w.log| && w.log[k].reply == result && result.commandID == id
                        && w.log[k].stream == w.st.issued[id].session
                        && result.body == BodyFor(w.st.issued[id].command, w.log[k].running)
                        && forall l | 0 <= l < |w.log| && w.log[l].reply.commandID == id :: l == k
  {
    hide BodyFor, HandledWith, Indexed, Lifecycle, PendingOwned, QueuesOwned;
    OccursInv(w, staleAfter, clock, run);
    assert FateShown(id, w.st.fates[id], w.st.statuses[id], w.st.waiters[w.st.issued[id].waiter],
                     Key(w.st.issued[id].command.kind, id) in w.st.pending[w.st.issued[id].session], w.st.submits);
    var n := w.st.fates[id].submit;
    assert FromLog(w.log, w.st.submits[n].result);
    var k :| 0 <= k < |w.log| && w.log[k].reply == w.st.submits[n].result;
    assert EntryOwned(w.log[k], w.st.issued, w.st.dequeued);
    HandledAsIssued(w.st.issued[id].command, w.log[k].running);
  }

  lemma CallIssues(st: State, req: Request, id: Uuid, waiter: Handle, issuedAt: Instant, r: AgentSession, now: Instant)
    requires Inv(st) && Enabled(st, Issue(req, id, waiter, issuedAt, Some(r)), now)
    ensures var b := Next(st, Issue(req, id, waiter, issuedAt, Some(r)), now);
            id in b.issued && b.issued[id].session == r
            && b.issued[id].command.sql == req.Sql() && b.issued[id].command.dsn == req.Dsn()
            && b.issued[id].command.kind == req.KindOf()
  {
    hide Inv, Shaped, Next, Resolves, DoIssue;
    IssueStep(st, req, id, waiter, issuedAt, Some(r), now);
    IssuedParts(st, CommandFor(st, req, id, issuedAt, r), waiter, r);
  }

  /**
   The agent runs exactly what the caller asked for: whatever follows a call, its command is handled on the session it
   went to, and if an executor is called for it, with the caller's SQL or DSN.
   */
  lemma AskedIsExecuted(w: World, req: Request, id: Uuid, waiter: Handle, issuedAt: Instant, r: AgentSession, now: Instant,
                        run: seq<Happening>, k: nat)
    requires WorldInv(w) && CanMove(w, Manage(Issue(req, id, waiter, issuedAt, Some(r))), now)
    requires CanUnfold(Moved(w, Manage(Issue(req, id, waiter, issuedAt, Some(r))), now), run)
    requires var b := Unfolded(Moved(w, Manage(Issue(req, id, waiter, issuedAt, Some(r))), now), run);
             k < |b.log| && b.log[k].reply.commandID == id
    ensures var b := Unfolded(Moved(w, Manage(Issue(req, id, waiter, issuedAt, Some(r))), now), run);
            && b.log[k].stream == r
            && b.log[k].message.kind == Some(req.KindOf())
            && b.log[k].message.sql == req.Sql() && b.log[k].message.dsn == req.Dsn()
            && HandledWith(b.log[k].message, b.log[k].running).called ==
                 if b.log[k].running.executors.For(req.KindOf()) then Some(TextFor(req.KindOf(), req.Sql(), req.Dsn())) else None
  {
    var m := Manage(Issue(req, id, waiter, issuedAt, Some(r)));
    CallIssues(w.st, req, id, waiter, issuedAt, r, now);
    MoveKeepsWorld(w, m, now);
    RunKeepsWorld(Moved(w, m, now), run);
    var b := Unfolded(Moved(w, m, now), run);
    assert EntryOwned(b.log[k], b.st.issued, b.st.dequeued);
    CommandSurvivesTheWire(b.st.issued[id].command);
    HandledAsIssued(b.st.issued[id].command, b.log[k].running);
  }
}
