# Verified model of the mission control plane and edge agent

A control plane keeps sessions with remote agents that sit next to customer databases. Callers send commands (ping,
query, schema introspection, database configuration) through it to an agent and wait for the one result; operators take
a workspace through onboarding; questions become SQL that is guarded, run and accounted for. This project models the
logic of those parts in Dafny and proves what they promise, for all inputs, all interleavings and all runs.

- **Agent commands.** `agent_model.dfy` has the records, `agent_protocol.dfy` the protocol as a state machine whose steps
  are single mutex holds and single channel operations, `agent_invariants.dfy` and `agent_runs.dfy` what every step and
  every run keeps. `agent_sessions.dfy` is the session manager, a class over mutable session records; each of its methods
  is proved to be one protocol step (with `agent_steps.dfy` and `agent_walk.dfy`). Sending on a closed channel, blocking
  on a full one and closing twice, a caller's channel or a session's done channel, are faults of the model, proved never
  to happen. `edge_agent.dfy` and `agent_end_to_end.dfy` add the stream loop, a wire that loses messages, and the agent;
  `agent_laws.dfy` states the rules of choice, order and effect in terms of the records alone.
- **SQL guard.** `sql_scanner.dfy` is the quote lexer, by sections 9.1.1, 9.2 and 9.7 of the MySQL 8.0 Reference Manual;
  `sql_guard.dfy` the checks on the statement's tree, the row limit and the verdict.
- **Onboarding.** `onboarding.dfy` has the steps and their evidence, `onboarding_fields.dfy` what each request leaves in the
  record field by field, `slug.dfy` the install slug and the quoting of names.
- **Circuit breaker.** `breaker.dfy`, with any number of overlapping calls.
- **Schemas and semantic layers.** `schema_normalize.dfy`, `semantic_store.dfy`, `semantic_content.dfy`.
- **Questions and reconnects.** `query_pipeline.dfy`, `reconnect.dfy`.

Clocks are integers, read once per mutex hold. Fresh command IDs, channels and row IDs, and the answers of other
components, are parameters. Where a promise turns out to hold only under a condition, the exact condition is stated and
proved both ways, and a lemma gives a case outside it: `PunctualOpenIsStaleOnlyUnfound` with `AnotherTokenHidesSession`,
`OneProbeExactly` with `ProbeAmongLateCalls`, `OneNormalFormExactly`, `CaptureTwice` with `SlowClockStoresTwice`,
`HydrateFollowsSchemaExactly` with `ShiftedSchemasMixColumns`, `OwnDescriptionExactly` with
`DottedTablesMixDescriptions`, `InRangeExactly` with `TwoFailuresStray`, and `RunIsWelcomedExactly` and
`RunIsConfirmedExactly` with `OnlineAgentSkipsWelcome` and `LaterSaveUnsaysLanguage` for a step number past
the first, which need mean neither that the questions of the welcome step are answered nor that it was confirmed.

## Model

| member | source | states |
|---|---|---|
| AgentRuns.ChannelsAreUsedOnce | internal/controlplane/controller/agent.go:279-366 | In every interleaving no Submit sends on a closed or full channel and none is closed twice; each waiter gets at most one value and one close, and no two commands share a waiter. |
| AgentRuns.EachCommandHasOneFate | internal/controlplane/controller/agent.go:279-366 | Each issued command is in exactly one of rejected, pending, answered, closed, abandoned, and that fate settles what went through its waiter and what its caller may hold. |
| AgentRuns.PendingMeansOpenEmptyAndUnique | internal/controlplane/controller/agent.go:493-539 | A command is in a pending map exactly while it is pending, then in one map of the one session it was issued to, with its own waiter, open and empty. |
| AgentRuns.ReturnedResultIsItsOwn | internal/controlplane/controller/agent.go:368-413 | A call that returned a result got it from the only accepted Submit for its command ID, with its own session ID and kind and its session's token. |
| AgentRuns.NoSecondAccept | internal/controlplane/controller/agent.go:368-413 | After a Submit for a command ID was accepted, none for that ID is ever accepted again, from any token, for any session, after any run, reconnects under the same session ID included. |
| AgentRuns.IndexesAgree | internal/controlplane/controller/agent.go:193-249 | In every reachable state a session found under an ID carries it and is the current session of its token; so is every active session; no session ID is blank. Unique session IDs are not assumed. |
| AgentRuns.ReplacedIsUnreachable | internal/controlplane/controller/agent.go:193-249 | A session replaced by a newer one of its token is closed and is never found again by token or by ID. |
| AgentRuns.HandleSparesOthers | internal/controlplane/controller/agent.go:646-665 | A stream's disconnect handle leaves every other session, its commands and both indexes as they are. |
| AgentRuns.LateHandleDoesNothing | internal/controlplane/controller/agent.go:646-665 | The disconnect handle of a replaced session changes nothing, however late it fires. |
| AgentRuns.DoneIsClosedOnce | internal/controlplane/controller/agent.go:755-802 | In every reachable state the done channel of every session was closed at most once, and is open exactly while the session is active, under any mix of replacement, disconnect by ID and stream disconnect. |
| AgentRuns.SecondDisconnectFindsDoneClosed | internal/controlplane/controller/agent.go:635-644 | A second disconnect by ID finds done closed already: the check before the close is what keeps it from being closed twice, and the session is left as it was. |
| AgentRuns.ClosedForGood | internal/controlplane/controller/agent.go:755-802 | A closed session stays inactive, with done closed once and nothing pending, for ever, and each caller on it can receive, or its value is on the way. |
| AgentRuns.StaleForGood | internal/controlplane/controller/agent.go:736-753 | A session not active at one reading of the clock is not active at any later one, whatever heartbeats arrive. |
| AgentRuns.PunctualIsNeverStale | internal/edgeagent/controller/agent.go:384-408 | With heartbeats at most I apart and delivered within D, I+D at most the staleness bound, an open session found under its ID is active at every step of every run. |
| AgentRuns.AnotherTokenHidesSession | internal/controlplane/controller/agent.go:193-249 | Another token that registers the same session ID leaves the open session there open, and no longer found under its ID. |
| AgentRuns.UnfoundGoesStale | internal/controlplane/controller/agent.go:253-277 | A session not found under its ID is never heard of again: while open, it is stale after any run exactly if its last heartbeat is more than the bound ago. |
| AgentRuns.PunctualOpenIsStaleOnlyUnfound | internal/controlplane/controller/agent.go:736-753 | With the same heartbeats any open session is active at every step of a run exactly if, whenever it is not found under its ID, its last own heartbeat that still found it was sent within the bound. |
| AgentRuns.RunKeepsInv | internal/controlplane/controller/agent.go:177-251 | Every run of steps keeps the protocol invariant and undoes nothing: identities, closings, fates, accepted Submits, staleness. |
| AgentLaws.PickIsOfTenant | internal/controlplane/controller/agent.go:804-821 | In every reachable state a query or schema request of a tenant picks a session of that tenant, open, heard of within the bound, the current one of its token, and connected no earlier than any other such session. |
| AgentLaws.PicksNobodyExactly | internal/controlplane/controller/agent.go:804-821 | It picks nobody exactly if no session of the tenant is open and heard of within the bound. |
| AgentLaws.PicksAsAsked | internal/controlplane/controller/agent.go:312-366 | A ping picks the session found under its ID, a configuration the current one of its token, exactly if open and heard of within the bound. |
| AgentLaws.AcceptsExactly | internal/controlplane/controller/agent.go:368-413 | A result is accepted exactly if its session is found under its ID, is the agent's own, open and heard of in time, and its command went to that session, is of its kind and still pending. |
| AgentLaws.RegisteredIsCurrent | internal/controlplane/controller/agent.go:177-251 | A registration with both names makes a new open session with no commands, heard of when it connected, current for its token and found under its ID, and disconnects the prior one then; without them only the clock moves. |
| AgentLaws.HeartbeatMovesExactly | internal/controlplane/controller/agent.go:253-277 | A heartbeat sets the last heartbeat, to the time it carries, exactly of the open session it names, of its own token and heard of in time, and changes nothing else. |
| AgentLaws.StreamDisconnectCloses | internal/controlplane/controller/agent.go:646-665 | The stream's disconnect closes exactly its session if that is the one found under its ID, at that time and with nothing left pending; else it changes nothing. |
| AgentLaws.DisconnectClosesExactly | internal/controlplane/controller/agent.go:635-644 | The same of a disconnect by ID and the session found under it. |
| AgentLaws.ClosedLifeIsFinal | internal/controlplane/controller/agent.go:755-802 | Once closed, a session's life is final in every run, its disconnection time included. |
| AgentLaws.TimeoutAbandonsExactly | internal/controlplane/controller/agent.go:530-538 | A deadline abandons its command exactly if that still waits and its session is the one found under its ID; the caller is told in any case. |
| AgentLaws.CommandsLeaveInOrder | internal/controlplane/handler/agent.go:99-139 | Over any run the commands waiting for a session, followed by those accepted for it, spelled out from the requests while fewer than 16 wait, are those taken out followed by those left, in order. |
| AgentLaws.WireKeepsOrder | internal/controlplane/handler/agent.go:99-139 | A session's wire keeps its order over any run: what was on it and what is put on it come off, handled or lost, in that order. |
| AgentInvariants.StepKeepsInv | internal/controlplane/controller/agent.go:177-251 | Every step, in any order, keeps the protocol invariant. |
| AgentInvariants.CloseKeepsInv | internal/controlplane/controller/agent.go:755-802 | Closing a session keeps the invariant: its waiters were open, its commands get the fate closed, others keep theirs. |
| AgentInvariants.AdvanceFates | internal/controlplane/controller/agent.go:301-309 | A Submit's send finds its waiter open and empty and its close finds it open, and neither touches another command. |
| AgentSessions.AgentSessionManager.constructor | internal/controlplane/controller/agent.go:153-175 | A new manager is in the initial protocol state, with a staleness bound of 25 seconds where none is set. |
| AgentSessions.AgentSessionManager.RegisterSession | internal/controlplane/controller/agent.go:177-251 | The registration is one protocol step: the token's prior session is closed and un-indexed, the new record installed; blank IDs and hostnames are refused without effect. |
| AgentSessions.AgentSessionManager.MarkHeartbeat | internal/controlplane/controller/agent.go:253-277 | The heartbeat is one protocol step, and is refused with the error the lookup gives. |
| AgentSessions.AgentSessionManager.Call | internal/controlplane/controller/agent.go:493-539 | The mutex hold shared by the four calls is one protocol step: the session found, waiter noted, command queued or rejected when 16 are waiting. |
| AgentSessions.AgentSessionManager.ActiveTenantSessionLocked | internal/controlplane/controller/agent.go:804-821 | The walk over the tokens, in any order, finds a latest-connected active session of the tenant, or none if there is none. |
| AgentSessions.AgentSessionManager.SubmitTake | internal/controlplane/controller/agent.go:368-392 | The locked part of a Submit is one protocol step; the error says whether the session is unknown, not active, or waits for no such command. |
| AgentSessions.AgentSessionManager.SubmitSend | internal/controlplane/controller/agent.go:301-306 | The send of a Submit is one protocol step and meets an open, empty channel. |
| AgentSessions.AgentSessionManager.SubmitFinish | internal/controlplane/controller/agent.go:308 | The close of a Submit is one protocol step and meets an open channel. |
| AgentSessions.AgentSessionManager.Receive | internal/controlplane/controller/agent.go:524-529 | The caller's receive is one protocol step: the value sent, or an error when the waiter was closed without one. |
| AgentSessions.AgentSessionManager.Timeout | internal/controlplane/controller/agent.go:530-538 | The caller's deadline is one protocol step: its entry goes only if its session is still the indexed one. |
| AgentSessions.AgentSessionManager.CloseSessionLocked | internal/controlplane/controller/agent.go:755-802 | The loop over the pending entries comes to the closed state of the protocol and closes no channel twice. |
| AgentSessions.AgentSessionManager.WakePending | internal/controlplane/controller/agent.go:785-801 | Emptying the pending maps entry by entry closes each waiter in them once and no other. |
| AgentSessions.AgentSessionManager.DisconnectSession | internal/controlplane/controller/agent.go:635-644 | The disconnect by ID is one protocol step. |
| AgentSessions.AgentSessionManager.DisconnectRegisteredSession | internal/controlplane/controller/agent.go:646-665 | The stream's disconnect handle is one protocol step, without effect unless its session is the one indexed. |
| AgentSessions.AgentSessionManager.TakeCommand | internal/controlplane/handler/agent.go:118-121 | The stream loop's receive from the command channel is one protocol step. |
| AgentSessions.AgentSessionManager.LatestSessionForTenant | internal/controlplane/controller/agent.go:689-715 | The latest-connected current session of the tenant, stale ones included, online exactly if active. |
| AgentSteps.SessionIsClosable | internal/controlplane/controller/agent.go:785-801 | The waiters pending in a session are all different and all open, so closing them one after the other is safe. |
| AgentWalk.LatestUsable | internal/controlplane/controller/agent.go:804-821 | The loop that picks a session finds a usable one of the tenant connected no earlier than any other, or there is none. |
| AgentEndToEnd.HandledOnceAsIssued | internal/controlplane/handler/agent.go:99-139 | With the stream loop, the wire and the agent in place, each command is handled at most once, with its own session ID, kind, SQL and DSN, and is then neither queued nor on a wire. |
| AgentEndToEnd.ReturnedResultWasExecuted | internal/edgeagent/controller/agent.go:410-444 | A returned result is the reply the agent made when it handled that very command, its one handling, on the session it was issued to, and its body is the value of the agent's executor at the command's own SQL or DSN. |
| AgentEndToEnd.AskedIsExecuted | internal/edgeagent/controller/agent.go:446-543 | Whatever follows a call, its command is handled on the session it went to, and the executor of its kind, if there is one, is called with exactly the caller's SQL or DSN. |
| AgentEndToEnd.HandledAsIssued | internal/edgeagent/controller/agent.go:410-543 | Sent over the wire and handled, a command has the executor called with its own SQL or DSN and is answered with its own IDs and that executor's outcome. |
| AgentEndToEnd.MoveKeepsWorld | internal/controlplane/handler/agent.go:99-139 | Every move of manager, stream loop, wire and agent, losses and repeated replies included, keeps the end-to-end invariant. |
| AgentLaws.TenantsAgentHandles | internal/controlplane/controller/agent.go:493-539 | Whatever follows a query or schema request of a tenant, its command is handled on a session registered for that tenant, with the very SQL asked. |
| AgentLaws.ReturnedBodyIsTheAgents | internal/edgeagent/controller/agent.go:410-663 | A returned result is, field by field, what the agent's executor came back with for the command's own SQL or DSN, a failure and a missing executor included; a ping's round trip is the time it took to arrive, or 0. |
| EdgeAgent.CommandSurvivesTheWire | internal/edgeagent/gateway/controlplane/client.go:161-174 | Encoding a command for the stream and reading it back gives the same command exactly when it carries SQL only for a query and a DSN only for a configuration. |
| EdgeAgent.OutcomeSurvivesTheReply | internal/edgeagent/controller/agent.go:446-663 | Read back from a reply, the outcome is the executor's exactly if it fits the kind of the command: nothing of it is lost or mixed up. |
| EdgeAgent.HandleCommand | internal/edgeagent/controller/agent.go:410-444 | A reply is made exactly for a message with a kind and echoes its session and command ID; the executor runs only if configured, with the message's own SQL or DSN, and its outcome is what the body carries. |
| EdgeAgent.Executed | internal/edgeagent/controller/agent.go:446-543 | The body of a reply is of the command's kind, and a ping's round trip is never negative. |
| SqlScanner.ScanOutsideQuotes | internal/sqlguard/sqlguard.go:268-365 | The loop hands the callback a prefix of the specified fragments and stops exactly at the first one it flags or at a comment. |
| SqlScanner.StopsAtComment | internal/sqlguard/sqlguard.go:290-318 | The scan stops exactly when a comment opener starts at a position outside quotes. |
| SqlScanner.CallbackNeverFinds | internal/sqlguard/sqlguard.go:238-244 | No fragment ever contains a comment opener, so the callback of the comment check can never return true. |
| SqlScanner.HasCommentToken | internal/sqlguard/sqlguard.go:238-244 | The verdict is true exactly when a comment opener starts outside quotes. |
| SqlScanner.ScanReadsLayout | internal/sqlguard/sqlguard.go:268-365 | However a comment-free text is laid out in runs and well-escaped spans, the scan goes through exactly its runs, in order; an unfinished span yields none. |
| SqlScanner.FragmentsAreOutsideRuns | internal/sqlguard/sqlguard.go:268-365 | A comment-free text has a layout from which it can be put together again, and the fragments are its runs, whichever sound layout is taken. |
| SqlScanner.QuotedContentIsInert | internal/sqlguard/sqlguard.go:319-357 | Replacing the body of a quoted span by any other well-escaped body changes neither what the scan finds nor the comment verdict. |
| SqlScanner.OutsideQuotesUpper | internal/sqlguard/sqlguard.go:258-266 | The result is the upper case of the concatenated fragments. |
| SqlScanner.DetectRawDeniedPattern | internal/sqlguard/sqlguard.go:246-256 | Denied exactly when the upper-cased outside text contains one of the three INTO patterns. |
| SqlScanner.QuotedContentIsNotDenied | internal/sqlguard/sqlguard.go:246-256 | No quoted body can bring the INTO verdict about or hide it. |
| SqlScanner.WritesOutExactly | internal/sqlguard/sqlguard.go:246-256 | The patterns, spelled out: the text has INTO OUTFILE, INTO DUMPFILE or INTO @ behind a space somewhere in it. |
| SqlScanner.CommentsAreFound | internal/sqlguard/sqlguard.go:290-318 | A comment starts behind any plain text with a hash sign, a slash and star, or two dashes and one of six spaces. |
| SqlScanner.OthersAreNoComments | internal/sqlguard/sqlguard.go:290-318 | Plain text has none, and neither has a slash or two dashes with another plain character behind. |
| SqlScanner.QuotedIsPassedOver | internal/sqlguard/sqlguard.go:319-357 | Between any of the three quotes everything is passed over, the quote itself if doubled or, but for backticks, behind a backslash; the scan goes on behind the closing quote. |
| SqlScanner.UnclosedHidesTheRest | internal/sqlguard/sqlguard.go:319-357 | A quote never closed hides the rest of the text. |
| SqlGuard.DeniedIffSomeSelectOffends | internal/sqlguard/sqlguard.go:110-149 | The walk denies a tree exactly when some SELECT at any depth writes INTO or locks rows for update. |
| SqlGuard.Accept | internal/sqlguard/sqlguard.go:110-153 | The visitor's walk comes to the denial of the first offending node in pre-order, and stops there. |
| SqlGuard.GuardVisitor.Enter | internal/sqlguard/sqlguard.go:114-149 | A node is denied if it writes INTO or locks rows, a denial once made stays, and a denial skips what is below. |
| SqlGuard.IsAggregatedSelect | internal/sqlguard/sqlguard.go:209-236 | True exactly with a non-empty GROUP BY or a select field that is an aggregate inside any number of parentheses. |
| SqlGuard.NeedsLimitInjection | internal/sqlguard/sqlguard.go:187-207 | A limit is needed exactly for a SELECT without limit and aggregation, or a set operation without limit. |
| SqlGuard.UniqueConstructs | internal/sqlguard/sqlguard.go:167-185 | The loop keeps the first occurrence of every non-empty item, in order. |
| SqlGuard.FirstOccurrencesGrow | internal/sqlguard/sqlguard.go:167-185 | More items only add behind what is there. |
| SqlGuard.Validate | internal/sqlguard/sqlguard.go:30-108 | The verdict is OK exactly for one parsed statement of an allowed kind, clean of outside comments and INTO, with no offending SELECT; the rewritten text has the limit exactly when rows are unbounded; a refusal names the first failed check. |
| SqlGuard.PassedIsReadOnly | internal/sqlguard/sqlguard.go:30-153 | A text that passes is one SELECT, set operation or SHOW; no SELECT at any depth has INTO, and each has no lock, no-lock, or one of the three share locks. |
| SqlGuard.UpdatingIsRefused | internal/sqlguard/sqlguard.go:114-149 | A SELECT at any depth with INTO or one of the four locks for update has its text refused, and nothing is written back. |
| SqlGuard.PassedIsLimited | internal/sqlguard/sqlguard.go:187-236 | A text that passes is its statement written back, with LIMIT 1000 exactly for a SELECT with no limit, no GROUP BY item and no aggregate field in any number of parentheses, and a set operation with no limit. |
| SqlGuard.RefusedByName | internal/sqlguard/sqlguard.go:30-185 | A refused text is told the first check it fails, by the construct's name. |
| Onboarding.RunKeeps | internal/controlplane/controller/onboarding.go:182-634 | In every serial run, backward moves included, a step implies its evidence and the token rules hold; from step 6 on the step never falls, database, schema and semantic fields stay, and completion is written once, at step 7. |
| Onboarding.RequestKeeps | internal/controlplane/controller/onboarding.go:182-634 | Every single request, failed writes included, keeps the same. |
| Onboarding.CommandNeverShownWhenConnected | internal/controlplane/controller/onboarding.go:797-822 | No run shows the install command, which carries the plaintext token, while an agent is on record as connected. |
| Onboarding.RequestSkipsExactly | internal/controlplane/controller/onboarding.go:182-249 | A request leaves a record past step 1 without the name or the language the welcome step asks for exactly if it is a member's look, with an agent online and the write succeeding, at a workspace still at step 1 that lacks one of them, or an owner's unconfirmed save of another language between steps 2 and 5. |
| Onboarding.RunIsWelcomedExactly | internal/controlplane/controller/onboarding.go:182-634 | Throughout a serial run a step from 2 on means a workspace name and that language exactly if no request of the run is such a one. |
| Onboarding.RunIsConfirmedExactly | internal/controlplane/controller/onboarding.go:182-776 | Throughout a serial run a step from 2 on means that the welcome step was confirmed before exactly if no look found an agent online before the confirmation. |
| Onboarding.OnlineAgentSkipsWelcome | internal/controlplane/controller/onboarding.go:716-776 | It happens: an agent already online takes a fresh workspace from step 1 to step 3 with no workspace name. |
| Onboarding.LaterSaveUnsaysLanguage | internal/controlplane/controller/onboarding.go:182-249 | And so does the second case: an auto-save at step 3 replaces the confirmed language and leaves the step as it is. |
| Onboarding.OnboardingController.RefreshAgentConnection | internal/controlplane/controller/onboarding.go:716-776 | The field-by-field refresh writes the refreshed record exactly when something changed. |
| Onboarding.OnboardingController.PersistState | internal/controlplane/controller/onboarding.go:860-880 | A write stores the record for its tenant only, or fails and stores nothing. |
| Onboarding.OnboardingController.LoadRecord | internal/controlplane/controller/onboarding.go:690-714 | A missing record reads as a fresh one at step 1, and step 0 as step 1. |
| Onboarding.OnboardingController.GetState | internal/controlplane/controller/onboarding.go:162-180 | The stored record, the view and the error are those of the specified outcome; other tenants' records are untouched. |
| Onboarding.OnboardingController.SaveWelcome | internal/controlplane/controller/onboarding.go:182-249 | As specified, with the same errors in the same order, a failed listing of the invites for the view included; other tenants untouched. |
| Onboarding.OnboardingController.EnsureInstallBundle | internal/controlplane/controller/onboarding.go:251-320 | As specified, over its up to three writes and with a token issued only if there is none. |
| Onboarding.OnboardingController.GetAgentConnectionStatus | internal/controlplane/controller/onboarding.go:322-346 | As specified; refused before step 2. |
| Onboarding.OnboardingController.ConfigureDatabase | internal/controlplane/controller/onboarding.go:348-460 | As specified: blank connection and failed configuration go back to step 3, success goes to step 4. |
| Onboarding.OnboardingController.RunSchemaIntrospection | internal/controlplane/controller/onboarding.go:462-506 | As specified; success goes to step 5. |
| Onboarding.OnboardingController.MarkSemanticApproved | internal/controlplane/controller/onboarding.go:508-561 | As specified; only an approved layer goes to step 6. |
| Onboarding.OnboardingController.CompleteStarterStep | internal/controlplane/controller/onboarding.go:563-594 | As specified; from step 6 to step 7. |
| Onboarding.OnboardingController.CompleteOnboarding | internal/controlplane/controller/onboarding.go:596-634 | As specified; an earlier completion time is kept. |
| Onboarding.OnboardingController.CreateInvites | internal/controlplane/controller/onboarding.go:636-671 | As specified; a failed listing of the invites fails the request after they were created. |
| OnboardingFields.WelcomeStores | internal/controlplane/controller/onboarding.go:182-249 | Name, slug and language given are stored, the rest of the record stays; step 2 once confirmed; each refusal has its condition and stores nothing. |
| OnboardingFields.LookStores | internal/controlplane/controller/onboarding.go:716-776 | A look stores token and session of the agent online and forgets the plaintext, or forgets the session, and nothing else. |
| OnboardingFields.BundleStores | internal/controlplane/controller/onboarding.go:251-320 | A bundle stores slug and start of waiting if there are none, and the token issued with its plaintext if none is known, between two such looks. |
| OnboardingFields.BundleFails | internal/controlplane/controller/onboarding.go:251-320 | It is refused before step 2 and from step 6 on, and fails without a token it needs, a write or the listing. |
| OnboardingFields.DatabaseStores | internal/controlplane/controller/onboarding.go:348-460 | Host, name, port, user and password are each the given value, else the stored, else the default; a refusal adds its error and goes to step 3, a verification its time, user and name and goes to step 4; nothing else changes. |
| OnboardingFields.SchemaStores | internal/controlplane/controller/onboarding.go:462-506 | The version captured and its three counts are stored, at step 5; nothing else changes. |
| OnboardingFields.SemanticStores | internal/controlplane/controller/onboarding.go:508-561 | The approved layer and its approval time, or now, are stored, at step 6; nothing else changes. |
| OnboardingFields.EndStores | internal/controlplane/controller/onboarding.go:563-671 | The last steps change the step and, once, the completion time; inviting changes nothing. |
| OnboardingFields.RolesAreHeld | internal/controlplane/controller/onboarding.go:182-206 | A stranger is denied, a member may only look; nothing is stored for either. |
| OnboardingFields.FreshIsEmpty | internal/controlplane/controller/onboarding.go:690-714 | A workspace without a record is at step 1 with every field empty. |
| Breaker.CountAndProbe | internal/controlplane/gateway/llm/breaker.go:44-124 | Under any overlap of calls the failure count stays below three, and a probe in flight is the last one admitted, not yet ended, in the half-open phase. |
| Breaker.IdleBreakerAdmits | internal/controlplane/gateway/llm/breaker.go:44-67 | With no call under way the next call is admitted exactly unless the breaker is open and still cooling. |
| Breaker.OneProbeExactly | internal/controlplane/gateway/llm/breaker.go:44-107 | The half-open phase that begins when a call is let through is certain never to have two probes out at once exactly if no other call is still under way. |
| Breaker.OneProbeIfAlone | internal/controlplane/gateway/llm/breaker.go:44-107 | In a half-open phase entered with no other call under way there is never more than one call at all. |
| Breaker.LateCancelAdmitsSecondProbe | internal/controlplane/gateway/llm/breaker.go:83-86 | In any other it takes one cancellation: that of any other call while a probe is out admits a second one. |
| Breaker.ProbeAmongLateCalls | internal/controlplane/gateway/llm/breaker.go:44-124 | A run that reaches such a state: four calls under way, three of them fail, a fifth probes. |
| Breaker.TripsOnThirdTransient | internal/controlplane/gateway/llm/breaker.go:99-106 | With one caller at a time the breaker opens from closed exactly when the last three non-cancelled outcomes since it closed are transient failures. |
| Breaker.ProbeDecides | internal/controlplane/gateway/llm/breaker.go:69-107 | A probe's outcome decides the phase: transient reopens, cancellation leaves half-open, anything else closes. |
| Breaker.OpensForThirtySeconds | internal/controlplane/gateway/llm/breaker.go:109-124 | Only a transient failure opens the breaker, and it admits again exactly from thirty seconds later on. |
| Breaker.LeavingMoves | internal/controlplane/gateway/llm/breaker.go:69-124 | After any overlap of calls a call's end closes the breaker afresh, frees the probe's place, opens it from half-open or as the third counted failure, or counts one more, late failures while it is open included. |
| Breaker.ProviderBreaker.BeforeCall | internal/controlplane/gateway/llm/breaker.go:44-67 | Admission and the new state are as specified. |
| Breaker.ProviderBreaker.AfterCall | internal/controlplane/gateway/llm/breaker.go:69-107 | The new state is as specified for each outcome. |
| Breaker.ProviderBreaker.TripLocked | internal/controlplane/gateway/llm/breaker.go:109-124 | Open, with no failures counted, for thirty seconds from now. |
| SchemaNormalize.ComparatorsOrder | internal/controlplane/controller/schema.go:157-206 | Each of the four comparators is a strict total order on distinct keys. |
| SchemaNormalize.OneSortExactly | internal/controlplane/controller/schema.go:157-207 | For each comparator, all sorts of a list agree, stable or not, exactly if any two elements with one key are the same element. |
| SchemaNormalize.OneNormalFormExactly | internal/controlplane/controller/schema.go:157-207 | A schema has one normal form, whatever sort is used, exactly if in each of its four lists rows with one key are the same row. |
| SchemaNormalize.NormalFormIsCanonical | internal/controlplane/controller/schema.go:157-207 | Under that condition two listings of the same schema have one normal form. |
| SchemaNormalize.NormalizingIsIdempotent | internal/controlplane/controller/schema.go:157-207 | Normalising is a permutation, and under the same condition normalising again changes nothing. |
| SchemaNormalize.NormalizeSchemaBlob | internal/controlplane/controller/schema.go:157-207 | The result is sorted list by list and holds the same elements. |
| SchemaNormalize.NormalFormIsOrdered | internal/controlplane/controller/schema.go:157-178 | In a normal form tables are ordered by schema and name, columns besides by position. |
| SchemaNormalize.KeysAreOrdered | internal/controlplane/controller/schema.go:180-206 | Primary and foreign keys are ordered by schema, table, constraint and position. |
| SchemaNormalize.SchemaController.Capture | internal/controlplane/controller/schema.go:81-150 | A version is added exactly if there is none or the latest one's hash differs; counts, names and times are those of the capture or of the latest version. |
| SchemaNormalize.SchemaController.LatestByTenant | internal/controlplane/repository/schema.go:28-60 | The version captured last, and of those the one created last; none only if there is none. |
| SchemaNormalize.CaptureTwice | internal/controlplane/controller/schema.go:81-150 | Of a schema captured and then captured again in another order, the first is stored exactly if the latest version has another hash; the second adds nothing exactly if the first added nothing or is later than every version before it. |
| SchemaNormalize.SlowClockStoresTwice | internal/controlplane/controller/schema.go:129-150 | Otherwise it does: captured twice by an agent whose clock is behind the latest version, a changed schema is stored twice. |
| SchemaNormalize.ReorderedCaptureHasSameHash | internal/controlplane/controller/schema.go:98-127 | A capture that differs only in order, with the same effective database name, has the same normal form and hash. |
| SemanticStore.RunKeepsOneLive | internal/controlplane/repository/semantic_layer.go:173-268 | In every run of the two transactions a schema version of a tenant has at most one draft and one approved layer. |
| SemanticStore.ApprovalLeavesOnlyTarget | internal/controlplane/repository/semantic_layer.go:212-268 | Approval leaves its target the only live layer of its schema version and touches no other schema version. |
| SemanticStore.DraftBecomesCurrent | internal/controlplane/repository/semantic_layer.go:173-210 | A new draft is the one live draft of its schema version from then on; the approved layer beside it and the live layers of every other schema version and tenant stay the ones they were. |
| SemanticStore.ApprovalBecomesTheAnswer | internal/controlplane/repository/semantic_layer.go:212-268 | An approved layer is the one live approved layer of its schema version, with no draft beside it; the live layers of every other schema version and tenant stay the ones they were. |
| SemanticStore.SavedDraftIsFound | internal/controlplane/repository/semantic_layer.go:173-210 | A saved draft is the live draft of its schema version, with the very content, tenant, version and time, unapproved, until that version is drafted or approved again, whatever else goes on. |
| SemanticStore.ApprovedLayerIsFound | internal/controlplane/repository/semantic_layer.go:212-268 | An approved layer is found with its draft's content and with the time and user of the approval, likewise. |
| SemanticStore.ContentStays | internal/controlplane/repository/semantic_layer.go:173-268 | No run of transactions changes the content, owner, version or time of a layer. |
| SemanticStore.TenantSemanticLayerRepository.CreateDraftVersion | internal/controlplane/repository/semantic_layer.go:173-210 | The table after the transaction, with the unique indexes kept by every statement in it. |
| SemanticStore.TenantSemanticLayerRepository.Approve | internal/controlplane/repository/semantic_layer.go:212-268 | The table after the transaction, none for an unknown layer, with the unique indexes kept by every statement in it. |
| SemanticStore.TenantSemanticLayerRepository.LatestBySchemaVersion | internal/controlplane/repository/semantic_layer.go:38-82 | The one draft, or the one approved layer, of the schema version. |
| SemanticStore.Get | internal/controlplane/controller/semantic_layer.go:150-211 | The draft is shown if there is one, else the approved layer; the approved one is the baseline exactly beside a draft. |
| SemanticStore.ResolvePromptContext | internal/controlplane/controller/query_prepare.go:218-287 | A question uses the approved layer if there is one, else the draft, else the raw schema. |
| SemanticStore.PageAndQuestionsAgree | internal/controlplane/controller/query_prepare.go:218-287 | Questions use the baseline where one is shown, else the layer shown; raw schema exactly where a draft is needed. |
| SemanticStore.ApproveLayer | internal/controlplane/controller/semantic_layer.go:350-385 | Unknown and archived layers are refused, an approved one is left alone, a draft is approved. |
| SemanticContent.FqTableCoincides | internal/controlplane/controller/semantic_layer.go:584-586 | Two tables have one full name exactly if they are the same or a piece ending in a dot moves from the name of one to the schema of the other. |
| SemanticContent.OneSchemaTellsTables | internal/edgeagent/introspect/introspect.go:100-160 | Within one schema, which is what an introspection lists, full table names are the same exactly for the same table, dots or not. |
| SemanticContent.FqColumnCoincides | internal/controlplane/controller/semantic_layer.go:588-590 | Two columns have one full name exactly if they are the same up to such a shift, across schema, table and column. |
| SemanticContent.OneSchemaColumnsCoincide | internal/controlplane/controller/semantic_layer.go:588-590 | Within one schema that takes a table name with a dot: the names coincide exactly for the same column or a shift between table and column name. |
| SemanticContent.DotFreeNamesAreTold | internal/controlplane/controller/semantic_layer.go:584-590 | Without dots in schema names, and for columns in table names, full names are the same exactly for the same table or column. |
| SemanticContent.HydrateFollowsSchemaExactly | internal/controlplane/controller/semantic_layer.go:436-496 | A table of a drafted layer has the schema's metadata, and just its own columns, in order and with their metadata, exactly if no column of another table has its full name. |
| SemanticContent.OneSchemaHydratesRight | internal/controlplane/controller/semantic_layer.go:436-496 | So it does in a blob of one schema, dotted or not, and wherever no schema name has a dot. |
| SemanticContent.EachColumnInOneTable | internal/controlplane/controller/semantic_layer.go:436-496 | With distinct tables, a column of the schema is listed in the drafted layer under its own table and under no other that has only its own names. |
| SemanticContent.ShiftedSchemasMixColumns | internal/controlplane/controller/semantic_layer.go:436-496 | Otherwise not: two schemas one of which begins with the other and a dot put a column under a table of the other. |
| SemanticContent.DraftedByLastFull | internal/controlplane/controller/semantic_layer.go:436-496 | A drafted column is told the last description the generated content gives under its full name. |
| SemanticContent.EditedByLastFull | internal/controlplane/controller/semantic_layer.go:498-540 | An edited column is told the last description the edit gives under its full name, or keeps its own. |
| SemanticContent.MergedColumnByLast | internal/controlplane/controller/semantic_layer.go:498-540 | Each column of a merge has the description last edited under its full name, or its own. |
| SemanticContent.MergedTableByLast | internal/controlplane/controller/semantic_layer.go:498-540 | Each table of a merge has the description last edited under its full name, or its own. |
| SemanticContent.DraftedTableByLast | internal/controlplane/controller/semantic_layer.go:436-496 | Each drafted table has the description last generated under its full name, trimmed, or none. |
| SemanticContent.DraftKeepsNotes | internal/controlplane/controller/semantic_layer.go:542-570 | Of the generated entities and metrics exactly those with a name are kept, in place, name and description trimmed. |
| SemanticContent.SourceTablesAreTidied | internal/controlplane/controller/semantic_layer.go:572-582 | Of source tables exactly the blank ones are left out, the others trimmed, in order. |
| SemanticContent.OwnDescriptionExactly | internal/controlplane/controller/semantic_layer.go:436-540 | So whatever the texts, a column is told its own description exactly if the last entry under its full name is its own. |
| SemanticContent.OnePlainSchemaTellsOwn | internal/controlplane/controller/semantic_layer.go:436-540 | In one schema, dotted or not, whose table names have no dot every description goes to its own column, in an edit and in a draft. |
| SemanticContent.DottedTablesMixDescriptions | internal/controlplane/controller/semantic_layer.go:436-540 | Otherwise not, within one schema already: the description of column b.c of table a goes to column c of table a.b. |
| SemanticContent.HydrateSemanticLayerFromSchema | internal/controlplane/controller/semantic_layer.go:436-496 | The loops over maps and slices come to the specified layer. |
| SemanticContent.GroupColumns | internal/controlplane/controller/semantic_layer.go:458-483 | One pass groups the columns by full table name, keeping their order. |
| SemanticContent.MergeEditableDescriptions | internal/controlplane/controller/semantic_layer.go:498-540 | The loops come to the specified merge. |
| SemanticContent.MergeChangesDescriptionsOnly | internal/controlplane/controller/semantic_layer.go:498-540 | A merge changes descriptions and nothing else. |
| SemanticContent.LastEditWins | internal/controlplane/controller/semantic_layer.go:498-540 | One edit after another is the edit of both together, the last description of a name winning. |
| SemanticContent.MergeIsIdempotent | internal/controlplane/controller/semantic_layer.go:498-540 | The same edit again changes nothing. |
| SemanticContent.MergeKeepsValidity | internal/controlplane/controller/semantic_layer.go:415-434 | An edited content is valid exactly when the content it came from is. |
| SemanticContent.ValidateSemanticLayerContent | internal/controlplane/controller/semantic_layer.go:415-434 | True exactly for a content with tables, all with non-blank names and with columns, all named. |
| SemanticContent.Update | internal/controlplane/controller/semantic_layer.go:297-348 | An update fails exactly for an unknown, archived or unreadable layer or when the store does: the check after the merge cannot fail. |
| Reconnect.Run | internal/edgeagent/controller/agent.go:293-326 | For any base and cap: before session i the loop sleeps on the base after a success, else on the delay held after the failures since, as 64-bit registers give it, with the jitter drawn for it. |
| Reconnect.InRangeExactly | internal/edgeagent/controller/agent.go:293-326 | In every history that delay stays between base and cap exactly if no base doubled some number of times lies at 2^62 ns or more and below the cap. |
| Reconnect.ClosedFormExactly | internal/edgeagent/controller/agent.go:319-324 | Under the same condition, and no other, the delay held after k failures is the base doubled k times, capped. |
| Reconnect.TwoFailuresStray | internal/edgeagent/controller/agent.go:319-324 | Otherwise not: base 2^62 under a cap of one more is negative after one failure. |
| Reconnect.SleepsInRangeExactly | internal/edgeagent/controller/agent.go:293-326 | In every history and for every draw the delay slept is at least the base delay and less than a fifth, or one, above it, that being between base and cap, exactly if besides the cap and a fifth of it together are at most 2^63 ns. |
| Reconnect.Jitter | internal/edgeagent/controller/agent.go:665-674 | The delay is at least the base and less than a fifth, or one, above it. |
| Reconnect.JitterSpansTheFifth | internal/edgeagent/controller/agent.go:665-674 | Every delay from the base to just below a fifth more is drawn for some number. |
| Reconnect.ConfiguredDefaults | internal/edgeagent/controller/agent.go:249-259 | Without settings the loop runs from one second to thirty; a cap below the base is refused. |
| Slug.SlugifyWorkspaceName | internal/controlplane/controller/onboarding.go:893-915 | The one-pass loop writes the name's maximal runs of letters and digits joined by single dashes, or the fallback. |
| Slug.SlugIsIdempotent | internal/controlplane/controller/onboarding.go:893-915 | The slug of a name with a letter or digit is its own slug, whatever the fallback. |
| Slug.SlugKeepsLettersAndDigits | internal/controlplane/controller/onboarding.go:893-915 | A slug has exactly the lower-cased letters and digits of the name, in order, with single dashes between some of them; a name without any has the fallback or workspace. |
| Slug.EscapedIdentifierIsOneSpan | internal/controlplane/controller/onboarding.go:947-949 | Between backticks an escaped name is one quoted span of the guard's scanner that ends at the last backtick; undoing the doubling gives the trimmed name. |
| Slug.SetupSQLReadsAsMeant | internal/controlplane/controller/onboarding.go:932-945 | Whatever the database name, the text of the setup SQL outside quotes is the same. |
| Slug.SetupSQLText | internal/controlplane/controller/onboarding.go:932-949 | The setup SQL, word by word; none without a name or a password. |
| Slug.GeneratedPasswordIsEscaped | internal/controlplane/controller/onboarding.go:917-923 | A generated password can stand between single quotes as it is. |
| QueryPipeline.QueryController.ExecuteAskQuestionPipeline | internal/controlplane/controller/query_pipeline.go:18-187 | For any bound: the attempts on record, the SQL sent, the prompts (each with the SQL and error before it), exactly one completion, and the error returned. |
| QueryPipeline.QueryController.TryOnce | internal/controlplane/controller/query_pipeline.go:33-182 | One turn of the loop: what goes on record, what the agent is sent, how the turn ends. |
| QueryPipeline.OnlyGuardedSQLIsSent | internal/controlplane/controller/query_pipeline.go:61-101 | Everything sent to the agent is the guard's rewriting of a statement it passed in that attempt. |
| QueryPipeline.OnlyAcceptableSQLIsSent | internal/controlplane/controller/query_pipeline.go:61-101 | With the SQL guard of this model, everything sent is an acceptable statement generated in the run, as written back, with the row limit exactly where nothing else bounds its rows. |
| QueryPipeline.LastAttemptDecides | internal/controlplane/controller/query_pipeline.go:113-182 | Nothing is tried after a success, an unreachable agent or a denied query; a run succeeds by its last attempt or not at all. |
| QueryPipeline.TriesAgainExactly | internal/controlplane/controller/query_pipeline.go:33-182 | An attempt is made exactly if it is within the bound and every one before generated a statement that the guard did not pass or that failed on the agent without being denied. |
| QueryPipeline.SucceedsExactly | internal/controlplane/controller/query_pipeline.go:33-187 | A run succeeds exactly if some round within the bound passes and comes back with rows after only such rounds; it is completed with that statement as generated and as sent, and its rows. |
| QueryPipeline.FailsAsLastAttempt | internal/controlplane/controller/query_pipeline.go:33-187 | A run that fails is completed with stage and message of its last attempt, and returns the error of what ended it. |
| QueryPipeline.AttemptsOnRecord | internal/controlplane/controller/query_pipeline.go:33-182 | Each attempt is on record with its stage, statement and message, by what it came to. |
| QueryPipeline.PromptsCarryTheLastError | internal/controlplane/controller/query_pipeline.go:33-60 | Each prompt but the first carries the statement and recorded error of the attempt before. |
| QueryPipeline.EveryPassedIsSent | internal/controlplane/controller/query_pipeline.go:61-101 | Every statement past the guard is sent, as rewritten, in the order of the attempts. |
| QueryPipeline.ErrorsOnRecord | internal/controlplane/controller/query_pipeline.go:33-187 | Exactly the last attempt of a succeeded run has no error on record, and no attempt of a failed one. |
| QueryPipeline.QueryController.AskQuestion | internal/controlplane/controller/query_prepare.go:37-102 | Preparation and loop: no completion without a row, one completion with one, a failed preparation included. |
| QueryPipeline.AskAndAccount | internal/controlplane/controller/query_prepare.go:37-177 | Over any series of questions every run row created gets exactly one completion call. |
| QueryPipeline.QueryController.CompleteFailedQueryRun | internal/controlplane/controller/query_pipeline.go:283-307 | One failure completion for a run, none for the nil run. |
| QueryPipeline.ErrorStageFromAttempts | internal/controlplane/controller/query_pipeline.go:321-328 | The last stage that is not blank. |
| QueryPipeline.LastAttemptError | internal/controlplane/controller/query_pipeline.go:330-337 | The last error that is not blank. |

## Left out

- AgentSessions.AgentSessionManager.Call: the four calls and the four Submits differ only in kind and payload and are one method each, with a request or result carrying the kind; the four pending maps are one map keyed by kind and command ID.
- AgentSessions.AgentSessionManager.LatestSessionForTenant: reads the clock once, where the source reads it for each session of the tenant.
- AgentRuns.ClosedForGood: says a waiting caller can move, not that the scheduler lets it; no liveness of threads is modelled.
- AgentRuns.PunctualOpenIsStaleOnlyUnfound: its heartbeats are those of the session's own agent; when another token reuses a session ID is not bounded.
- Session snapshots' token labels and agent versions, session listing, ping time limits and logging.
- AgentEndToEnd.HandledOnceAsIssued: the agent is the honest one of this repository; other agents are covered by the protocol alone. Audit records of the agent are not modelled.
- AgentLaws.ReturnedBodyIsTheAgents: times are whole milliseconds, and a message without a time of issue, which the manager never sends, is not told apart.
- SqlGuard.Validate: the parser and the writing back of a tree are functions given from outside, and nothing is claimed about the text a limit is appended to; the names of refused statement kinds are carried by the tree.
- SqlScanner.OutsideQuotesUpper: upper-casing is any map of single characters; text that is not valid UTF-8 is not modelled.
- SqlScanner.ScanOutsideQuotes: the flag for keeping quoted width has no effect in the source and is dropped.
- Onboarding.RunKeeps: is about serial runs; overlapping requests read and write the record without a lock and are not covered.
- Onboarding requests carry what other components answer; the encoding of the payload, the locale of messages, the checks on invite addresses (given as one answer) and the choice between a token's and a tenant's session are left out, as is a token ID that does not parse.
- Breaker.CountAndProbe: provider names and the classification of errors as transient are outside; an outcome is one of four.
- SchemaNormalize.SchemaController.Capture: encoding and hashing are one function of the blob; a different blob with the same hash is not excluded.
- SchemaNormalize.CaptureTwice: takes the creation times of a tenant's versions, read from the database clock, to be distinct; with ties the store may return either version as the latest.
- SchemaNormalize.NormalizeSchemaBlob: the library's sort is represented by an insertion sort, of which only what any sort promises is used.
- SemanticStore.TenantSemanticLayerRepository.Approve: transactions are atomic; history listing and decoding errors are left out.
- SemanticContent.HydrateSemanticLayerFromSchema: the model's draft is given decoded; prompts and output schemas are left out.
- QueryPipeline.QueryController.ExecuteAskQuestionPipeline: summaries, warnings, example retrieval and timings are left out; error messages are taken not to be blank; the source's bound of two attempts is any bound here.
- Slug.SlugifyWorkspaceName: lower-casing is any map of single characters; idempotence asks that it leave slug characters alone.
- The language-model router, transport, generated code, configuration, token hashing, the web interface and all other repositories are not part of this model.
