/**
 The onboarding steps of a workspace: its record, the operations on it, and what every serial run of them keeps.
 What other components answer (who is asking, which agent is online, the token issued, what a configuration or a
 capture came to, whether a write succeeds) is part of each request.
 */
module Onboarding {
  import opened Common
  import opened Text

  const WELCOME := 1
  const AGENT_INSTALL := 2
  const DATABASE := 3
  const SCHEMA := 4
  const SEMANTIC := 5
  const STARTER := 6
  const DONE := 7
  const LANGUAGE := "ko"
  const DEFAULT_DB_PORT := 3306
  const DEFAULT_DB_USER := "okta_ai_ro"

  datatype Payload = Payload(
    primaryLanguage: string, workspaceName: string, installSlug: string,
    agentTokenID: string, agentTokenPlain: string, agentWaitStarted: Option<Instant>,
    agentSessionID: string, agentConnectedAt: Option<Instant>,
    databaseHost: string, databasePort: int, databaseName: string, databaseUsername: string, generatedPassword: string,
    dbVerifiedAt: Option<Instant>, dbErrorCode: string, dbErrorMessage: string,
    schemaVersionID: string, schemaTableCount: int, schemaColumnCount: int, schemaFKCount: int,
    semanticLayerID: string, semanticApproved: Option<Instant>)

  const EMPTY := Payload("", "", "", "", "", None, "", None, "", 0, "", "", "", None, "", "", "", 0, 0, 0, "", None)

  datatype Record = Record(step: int, payload: Payload, completedAt: Option<Instant>)

  datatype Role = Owner | Member | Stranger

  datatype Error =
    | AccessDenied | OwnerRequired | InvalidStep | StepLocked | InvalidWorkspaceName | PrimaryLanguageRequired
    | InvalidSemanticLayer | InvalidInvite | External

  /** The agent session that is online for the workspace. */
  datatype Snapshot = Snapshot(tokenID: string, sessionID: string, connectedAt: Instant)

  datatype Configured =
    | ConfigureFailed
    | Refused(errorCode: string, message: string)
    | Verified(completedAt: Option<Instant>, databaseUser: string, databaseName: string)

  datatype Captured = Captured(versionID: string, tables: int, columns: int, foreignKeys: int)

  /** What is known of a semantic layer: unknown ID, failed lookup, or a layer and whether it is approved. */
  datatype LayerFound = NoLayer | LookupFailed | Layer(approved: bool, approvedAt: Option<Instant>)

  /** `up` flags say whether the writes of a request succeed, in the order it makes them. */
  datatype Request =
    | GetState(snap: Option<Snapshot>, up: bool)
    | SaveWelcome(name: string, slug: string, language: string, confirm: bool, autoSave: bool, renamed: bool, up: bool)
    | EnsureInstallBundle(slug: string, now: Instant, snap1: Option<Snapshot>, up1: bool, issued: Option<(string, string)>, up2: bool,
                          snap2: Option<Snapshot>, up3: bool)
    | GetAgentConnectionStatus(snap: Option<Snapshot>, up: bool)
    | ConfigureDatabase(host: string, port: int, database: string, connection: string, password: Option<string>,
                        configured: Configured, now: Instant, up: bool)
    | RunSchemaIntrospection(captured: Option<Captured>, up: bool)
    | MarkSemanticApproved(layerID: string, layer: LayerFound, now: Instant, up: bool)
    | CompleteStarterStep(up: bool)
    | CompleteOnboarding(now: Instant, up: bool)
    | CreateInvites(valid: bool, created: bool)

  /** What a request leaves stored, what it shows, and the error it ends with. */
  datatype Outcome = Outcome(stored: Option<Record>, shown: Option<Record>, err: Option<Error>)

  function Fail(stored: Option<Record>, e: Error): Outcome { Outcome(stored, None, Some(e)) }

  function Show(stored: Option<Record>, r: Record): Outcome { Outcome(stored, Some(r), None) }

  function Persisted(stored: Option<Record>, r: Record, up: bool): Outcome {
    if up then Show(Some(r), r) else Fail(stored, External)
  }

  function Loaded(stored: Option<Record>): Record {
    match stored
    case None => Record(WELCOME, EMPTY, None)
    case Some(r) => if r.step == 0 then r.(step := WELCOME) else r
  }

  function MaxStep(a: int, b: int): int { if a > b then a else b }

  /** The record in the light of the agent that is online, or of none being so. */
  function Refreshed(r: Record, snap: Option<Snapshot>): Record {
    match snap
    case Some(s) =>
      Record(MaxStep(r.step, DATABASE),
             r.payload.(agentTokenID := s.tokenID, agentSessionID := s.sessionID, agentConnectedAt := Some(s.connectedAt),
                        agentTokenPlain := ""),
             r.completedAt)
    case None => r.(payload := r.payload.(agentSessionID := "", agentConnectedAt := None))
  }

  /** Only a record that the refresh changes is written. */
  function RefreshedOutcome(stored: Option<Record>, r: Record, snap: Option<Snapshot>, up: bool): Outcome {
    if Refreshed(r, snap) == r then Show(stored, r) else Persisted(stored, Refreshed(r, snap), up)
  }

  function Welcomed(stored: Option<Record>, q: Request): Outcome
    requires q.SaveWelcome?
  {
    var r := Loaded(stored);
    var name := TrimSpace(q.name);
    var p := r.payload.(workspaceName := FirstNonEmpty(name, r.payload.workspaceName),
                        installSlug := if name != "" then q.slug else r.payload.installSlug,
                        primaryLanguage := FirstNonEmpty(q.language, r.payload.primaryLanguage));
    if r.step >= STARTER then Fail(stored, StepLocked)
    else if !q.autoSave && name == "" then Fail(stored, InvalidWorkspaceName)
    else if q.confirm && q.language != LANGUAGE then Fail(stored, PrimaryLanguageRequired)
    else if !q.confirm then Persisted(stored, r.(payload := p), q.up)
    else if p.workspaceName == "" then Fail(stored, InvalidWorkspaceName)
    else if !q.renamed then Fail(stored, External)
    else Persisted(stored, r.(payload := p, step := AGENT_INSTALL), q.up)
  }

  /** The payload with its token, a new one being issued only if there is none. */
  function Tokened(p: Payload, issued: Option<(string, string)>): Payload
    requires p.agentTokenID == "" ==> issued.Some?
  {
    if p.agentTokenID == "" then p.(agentTokenID := issued.value.0, agentTokenPlain := issued.value.1) else p
  }

  /** The end of a bundle: a token if there is none, the write, and another look at the agent. */
  function BundleEnded(stored: Option<Record>, r: Record, q: Request): Outcome
    requires q.EnsureInstallBundle?
  {
    if r.payload.agentTokenID == "" && q.issued == None then Fail(stored, External)
    else
      var b := Persisted(stored, r.(payload := Tokened(r.payload, q.issued), step := MaxStep(r.step, AGENT_INSTALL)), q.up2);
      if b.shown == None then b else RefreshedOutcome(b.stored, b.shown.value, q.snap2, q.up3)
  }

  function Bundled(stored: Option<Record>, q: Request): Outcome
    requires q.EnsureInstallBundle?
  {
    var r := Loaded(stored);
    var p := r.payload.(installSlug := FirstNonEmpty(r.payload.installSlug, q.slug),
                        agentWaitStarted := if r.payload.agentWaitStarted.Some? then r.payload.agentWaitStarted else Some(q.now));
    if r.step < AGENT_INSTALL then Fail(stored, InvalidStep)
    else if r.step >= STARTER then Fail(stored, StepLocked)
    else
      var a := RefreshedOutcome(stored, r.(payload := p), q.snap1, q.up1);
      if a.shown == None then a else BundleEnded(a.stored, a.shown.value, q)
  }

  function DatabaseNamed(p: Payload, q: Request): Payload
    requires q.ConfigureDatabase? && (p.generatedPassword == "" ==> q.password.Some?)
  {
    p.(databaseHost := TrimSpace(FirstGiven(q.host, p.databaseHost)),
       databaseName := TrimSpace(FirstGiven(q.database, p.databaseName)),
       databasePort := if q.port > 0 then q.port else if p.databasePort > 0 then p.databasePort else DEFAULT_DB_PORT,
       databaseUsername := FirstNonEmpty(p.databaseUsername, DEFAULT_DB_USER),
       generatedPassword := if p.generatedPassword == "" then q.password.value else p.generatedPassword)
  }

  function DatabaseConfigured(stored: Option<Record>, q: Request): Outcome
    requires q.ConfigureDatabase?
  {
    var r := Loaded(stored);
    if r.step < DATABASE then Fail(stored, InvalidStep)
    else if r.step >= STARTER then Fail(stored, StepLocked)
    else if r.payload.generatedPassword == "" && q.password == None then Fail(stored, External)
    else
      var p := DatabaseNamed(r.payload, q);
      if p.databaseName == "" then Fail(stored, InvalidWorkspaceName)
      else if TrimSpace(q.connection) == "" then Persisted(stored, r.(payload := p, step := DATABASE), q.up)
      else if TrimSpace(p.agentTokenID) == "" then Fail(stored, InvalidStep)
      else
        match q.configured
        case ConfigureFailed => Fail(stored, External)
        case Refused(code, message) =>
          Persisted(stored, r.(payload := p.(dbErrorCode := code, dbErrorMessage := message), step := DATABASE), q.up)
        case Verified(completedAt, user, name) =>
          Persisted(stored, r.(payload := p.(databaseUsername := FirstGiven(user, p.databaseUsername),
                                             databaseName := FirstGiven(name, p.databaseName),
                                             dbVerifiedAt := if completedAt.Some? then completedAt else Some(q.now),
                                             dbErrorCode := "", dbErrorMessage := ""),
                               step := SCHEMA), q.up)
  }

  function SchemaIntrospected(stored: Option<Record>, q: Request): Outcome
    requires q.RunSchemaIntrospection?
  {
    var r := Loaded(stored);
    if r.step < SCHEMA then Fail(stored, InvalidStep)
    else if r.step >= STARTER then Fail(stored, StepLocked)
    else if q.captured == None then Fail(stored, External)
    else
      var c := q.captured.value;
      Persisted(stored, r.(payload := r.payload.(schemaVersionID := c.versionID, schemaTableCount := c.tables,
                                                 schemaColumnCount := c.columns, schemaFKCount := c.foreignKeys),
                           step := SEMANTIC), q.up)
  }

  function SemanticMarked(stored: Option<Record>, q: Request): Outcome
    requires q.MarkSemanticApproved?
  {
    var r := Loaded(stored);
    if r.step < SEMANTIC then Fail(stored, InvalidStep)
    else if r.step >= STARTER then Fail(stored, StepLocked)
    else
      match q.layer
      case NoLayer => Fail(stored, InvalidSemanticLayer)
      case LookupFailed => Fail(stored, External)
      case Layer(approved, approvedAt) =>
        if !approved then Fail(stored, InvalidSemanticLayer)
        else
          Persisted(stored, r.(payload := r.payload.(semanticLayerID := q.layerID,
                                                     semanticApproved := if approvedAt.Some? then approvedAt else Some(q.now)),
                               step := STARTER), q.up)
  }

  function StarterCompleted(stored: Option<Record>, up: bool): Outcome {
    var r := Loaded(stored);
    if r.step < STARTER then Fail(stored, InvalidStep) else Persisted(stored, r.(step := DONE), up)
  }

  function OnboardingCompleted(stored: Option<Record>, now: Instant, up: bool): Outcome {
    var r := Loaded(stored);
    if r.step < DONE then Fail(stored, InvalidStep)
    else Persisted(stored, r.(step := DONE, completedAt := if r.completedAt.Some? then r.completedAt else Some(now)), up)
  }

  /** What an owner's request comes to. */
  function OwnerOutcome(stored: Option<Record>, q: Request): Outcome {
    match q
    case GetState(snap, up) => RefreshedOutcome(stored, Loaded(stored), snap, up)
    case SaveWelcome(_, _, _, _, _, _, _) => Welcomed(stored, q)
    case EnsureInstallBundle(_, _, _, _, _, _, _, _) => Bundled(stored, q)
    case GetAgentConnectionStatus(snap, up) =>
      if Loaded(stored).step < AGENT_INSTALL then Fail(stored, InvalidStep)
      else RefreshedOutcome(stored, Loaded(stored), snap, up)
    case ConfigureDatabase(_, _, _, _, _, _, _, _) => DatabaseConfigured(stored, q)
    case RunSchemaIntrospection(_, _) => SchemaIntrospected(stored, q)
    case MarkSemanticApproved(_, _, _, _) => SemanticMarked(stored, q)
    case CompleteStarterStep(up) => StarterCompleted(stored, up)
    case CompleteOnboarding(now, up) => OnboardingCompleted(stored, now, up)
    case CreateInvites(valid, created) =>
      if Loaded(stored).step < DONE then Fail(stored, InvalidStep)
      else if !valid then Fail(stored, InvalidInvite)
      else if !created then Fail(stored, External)
      else Show(stored, Loaded(stored))
  }

  /** The view is built last, and fails if the invites in it cannot be listed: what was written stays. */
  function Viewed(o: Outcome, listed: bool): Outcome { if o.shown.Some? && !listed then Fail(o.stored, External) else o }

  /** A request with who makes it, and whether the invites can be listed for its view. */
  datatype Asked = Asked(role: Role, q: Request, listed: bool)

  /** Anyone of the workspace may look; only an owner may do more. */
  function OutcomeOf(stored: Option<Record>, a: Asked): Outcome {
    if a.role == Stranger then Fail(stored, AccessDenied)
    else if a.role == Member && !a.q.GetState? then Fail(stored, OwnerRequired)
    else Viewed(OwnerOutcome(stored, a.q), a.listed)
  }

  // ----- what every request keeps

  /** A step stands for what was done to get there. */
  predicate Evidence(r: Record) {
    && WELCOME <= r.step <= DONE
    && (r.step >= DATABASE ==> r.payload.agentTokenID != "")
    && (r.step >= SCHEMA ==> r.payload.dbVerifiedAt.Some? && r.payload.dbErrorCode == "")
    && (r.step >= SEMANTIC ==> r.payload.schemaVersionID != "")
    && (r.step >= STARTER ==> r.payload.semanticLayerID != "" && r.payload.semanticApproved.Some?)
    && (r.completedAt.Some? ==> r.step == DONE)
  }

  /** A token is kept in the clear only until an agent has used it. */
  predicate Hygiene(p: Payload) {
    && (p.agentTokenPlain != "" ==> p.agentSessionID == "" && p.agentConnectedAt == None)
    && (p.agentSessionID != "" <==> p.agentConnectedAt.Some?)
    && (p.agentSessionID != "" ==> p.agentTokenID != "")
  }

  predicate Good(stored: Option<Record>) { stored.Some? ==> Evidence(stored.value) && Hygiene(stored.value.payload) }

  predicate SameDatabase(p: Payload, q: Payload) {
    && q.databaseHost == p.databaseHost && q.databasePort == p.databasePort && q.databaseName == p.databaseName
    && q.databaseUsername == p.databaseUsername && q.generatedPassword == p.generatedPassword
    && q.dbVerifiedAt == p.dbVerifiedAt && q.dbErrorCode == p.dbErrorCode && q.dbErrorMessage == p.dbErrorMessage
  }

  predicate SameSchema(p: Payload, q: Payload) {
    && q.schemaVersionID == p.schemaVersionID && q.schemaTableCount == p.schemaTableCount
    && q.schemaColumnCount == p.schemaColumnCount && q.schemaFKCount == p.schemaFKCount
    && q.semanticLayerID == p.semanticLayerID && q.semanticApproved == p.semanticApproved
  }

  /** From the starter step on nothing goes back, and what was found out on the way stays; completion is for good. */
  predicate Settled(a: Option<Record>, b: Option<Record>) {
    a.Some? ==>
      && b.Some?
      && (a.value.step >= STARTER ==>
            && b.value.step >= a.value.step
            && SameDatabase(a.value.payload, b.value.payload) && SameSchema(a.value.payload, b.value.payload))
      && (a.value.completedAt.Some? ==> b.value.completedAt == a.value.completedAt)
  }

  /** IDs are never blank: the registration of a session refuses an empty session ID, the others are UUIDs. */
  predicate Named(snap: Option<Snapshot>) { snap.Some? ==> snap.value.tokenID != "" && snap.value.sessionID != "" }

  predicate Plausible(q: Request) {
    match q
    case GetState(snap, _) => Named(snap)
    case GetAgentConnectionStatus(snap, _) => Named(snap)
    case EnsureInstallBundle(_, _, snap1, _, issued, _, snap2, _) =>
      Named(snap1) && Named(snap2) && (issued.Some? ==> issued.value.0 != "")
    case RunSchemaIntrospection(captured, _) => captured.Some? ==> captured.value.versionID != ""
    case MarkSemanticApproved(layerID, _, _, _) => layerID != ""
    case _ => true
  }

  lemma RefreshKeeps(r: Record, snap: Option<Snapshot>)
    requires Evidence(r) && Hygiene(r.payload) && Named(snap)
    ensures var b := Refreshed(r, snap);
            Evidence(b) && Hygiene(b.payload) && b.step >= r.step && b.completedAt == r.completedAt
            && SameDatabase(r.payload, b.payload) && SameSchema(r.payload, b.payload)
  {
  }

  lemma LoadedIsGood(stored: Option<Record>)
    requires Good(stored)
    ensures Evidence(Loaded(stored)) && Hygiene(Loaded(stored).payload)
    ensures stored.Some? ==> Loaded(stored) == stored.value
  {
  }

  /** Before the starter step there is nothing settled yet. */
  predicate Early(stored: Option<Record>) { stored.Some? ==> stored.value.step < STARTER && stored.value.completedAt == None }

  /** An outcome that keeps what is to be kept, stored and shown. */
  predicate Keeps(stored: Option<Record>, o: Outcome) {
    Good(o.stored) && Settled(stored, o.stored) && (o.shown.Some? ==> Good(o.shown))
  }

  lemma EarlyPersists(stored: Option<Record>, r: Record, up: bool)
    requires Good(stored) && Early(stored) && Good(Some(r))
    ensures Keeps(stored, Persisted(stored, r, up))
  {
  }

  lemma EarlyRefreshes(stored: Option<Record>, r: Record, snap: Option<Snapshot>, up: bool)
    requires Good(stored) && Early(stored) && Good(Some(r)) && Named(snap)
    ensures Keeps(stored, RefreshedOutcome(stored, r, snap, up))
  {
    RefreshKeeps(r, snap);
  }

  lemma RefreshRequestKeeps(stored: Option<Record>, snap: Option<Snapshot>, up: bool)
    requires Good(stored) && Named(snap)
    ensures Keeps(stored, RefreshedOutcome(stored, Loaded(stored), snap, up))
  {
    LoadedIsGood(stored);
    RefreshKeeps(Loaded(stored), snap);
  }

  /** While a bundle is put together the record stays early. */
  lemma RefreshedStaysEarly(stored: Option<Record>, r: Record, snap: Option<Snapshot>, up: bool)
    requires Early(stored) && Early(Some(r))
    ensures var o := RefreshedOutcome(stored, r, snap, up); Early(o.stored) && (o.shown.Some? ==> Early(o.shown))
  {
  }

  lemma TokenedIsGood(r: Record, issued: Option<(string, string)>)
    requires Good(Some(r)) && (r.payload.agentTokenID == "" ==> issued.Some? && issued.value.0 != "")
    ensures Good(Some(r.(payload := Tokened(r.payload, issued), step := MaxStep(r.step, AGENT_INSTALL))))
  {
  }

  lemma BundleKeeps(stored: Option<Record>, q: Request)
    requires Good(stored) && Plausible(q) && q.EnsureInstallBundle?
    ensures Keeps(stored, Bundled(stored, q))
  {
    hide Settled, SameDatabase, SameSchema, Refreshed, RefreshedOutcome, BundleEnded;
    LoadedIsGood(stored);
    SettledReflexive(stored);
    var r := Loaded(stored);
    if AGENT_INSTALL <= r.step < STARTER {
      var p := r.payload.(installSlug := FirstNonEmpty(r.payload.installSlug, q.slug),
                          agentWaitStarted := if r.payload.agentWaitStarted.Some? then r.payload.agentWaitStarted else Some(q.now));
      var a := RefreshedOutcome(stored, r.(payload := p), q.snap1, q.up1);
      EarlyRefreshes(stored, r.(payload := p), q.snap1, q.up1);
      RefreshedStaysEarly(stored, r.(payload := p), q.snap1, q.up1);
      if a.shown.Some? {
        BundleEnds(a.stored, a.shown.value, q);
        SettledTransitive(stored, a.stored, Bundled(stored, q).stored);
      }
    }
  }

  lemma BundleEnds(stored: Option<Record>, r: Record, q: Request)
    requires Good(stored) && Early(stored) && Good(Some(r)) && Early(Some(r)) && Plausible(q) && q.EnsureInstallBundle?
    ensures Keeps(stored, BundleEnded(stored, r, q))
  {
    hide SameDatabase, SameSchema, Refreshed, RefreshedOutcome, Tokened, Hygiene;
    if r.payload.agentTokenID == "" && q.issued == None {
      SettledReflexive(stored);
    } else {
      var t := r.(payload := Tokened(r.payload, q.issued), step := MaxStep(r.step, AGENT_INSTALL));
      TokenedIsGood(r, q.issued);
      EarlyPersists(stored, t, q.up2);
      if q.up2 {
        EarlyRefreshes(Some(t), t, q.snap2, q.up3);
        SettledTransitive(stored, Some(t), RefreshedOutcome(Some(t), t, q.snap2, q.up3).stored);
      }
    }
  }

  lemma SettledReflexive(stored: Option<Record>)
    ensures Settled(stored, stored)
  {
  }

  lemma WelcomeKeeps(stored: Option<Record>, q: Request)
    requires Good(stored) && q.SaveWelcome?
    ensures Keeps(stored, Welcomed(stored, q))
  {
    LoadedIsGood(stored);
  }

  lemma NamedIsGood(r: Record, q: Request)
    requires Good(Some(r)) && q.ConfigureDatabase? && (r.payload.generatedPassword == "" ==> q.password.Some?)
    ensures Good(Some(r.(payload := DatabaseNamed(r.payload, q))))
  {
    hide TrimSpace;
  }

  lemma ConfigureKeeps(stored: Option<Record>, q: Request)
    requires Good(stored) && q.ConfigureDatabase?
    ensures Keeps(stored, DatabaseConfigured(stored, q))
  {
    hide Settled, DatabaseNamed, TrimSpace;
    LoadedIsGood(stored);
    SettledReflexive(stored);
    var r := Loaded(stored);
    if DATABASE <= r.step < STARTER && (r.payload.generatedPassword == "" ==> q.password.Some?) {
      NamedIsGood(r, q);
      var p := DatabaseNamed(r.payload, q);
      EarlyPersists(stored, r.(payload := p, step := DATABASE), q.up);
      match q.configured {
      case ConfigureFailed =>
      case Refused(code, message) =>
        EarlyPersists(stored, r.(payload := p.(dbErrorCode := code, dbErrorMessage := message), step := DATABASE), q.up);
      case Verified(completedAt, user, name) =>
        EarlyPersists(stored, r.(payload := p.(databaseUsername := FirstGiven(user, p.databaseUsername),
                                               databaseName := FirstGiven(name, p.databaseName),
                                               dbVerifiedAt := if completedAt.Some? then completedAt else Some(q.now),
                                               dbErrorCode := "", dbErrorMessage := ""),
                                 step := SCHEMA), q.up);
      }
    }
  }

  lemma SchemaKeeps(stored: Option<Record>, q: Request)
    requires Good(stored) && Plausible(q) && q.RunSchemaIntrospection?
    ensures Keeps(stored, SchemaIntrospected(stored, q))
  {
    LoadedIsGood(stored);
  }

  lemma SemanticKeeps(stored: Option<Record>, q: Request)
    requires Good(stored) && Plausible(q) && q.MarkSemanticApproved?
    ensures Keeps(stored, SemanticMarked(stored, q))
  {
    LoadedIsGood(stored);
  }

  lemma EndKeeps(stored: Option<Record>, now: Instant, up: bool)
    requires Good(stored)
    ensures Keeps(stored, StarterCompleted(stored, up)) && Keeps(stored, OnboardingCompleted(stored, now, up))
  {
    LoadedIsGood(stored);
  }

  lemma NothingKeeps(stored: Option<Record>, e: Error)
    requires Good(stored)
    ensures Keeps(stored, Fail(stored, e)) && Keeps(stored, Show(stored, Loaded(stored)))
  {
  }

  lemma OwnerKeeps(stored: Option<Record>, q: Request)
    requires Good(stored) && Plausible(q)
    ensures Keeps(stored, OwnerOutcome(stored, q))
  {
    hide Keeps, Good, Welcomed, Bundled, DatabaseConfigured, SchemaIntrospected, SemanticMarked, StarterCompleted,
         OnboardingCompleted, RefreshedOutcome;
    match q
    case GetState(snap, up) => RefreshRequestKeeps(stored, snap, up);
    case GetAgentConnectionStatus(snap, up) =>
      RefreshRequestKeeps(stored, snap, up);
      NothingKeeps(stored, InvalidStep);
    case SaveWelcome(_, _, _, _, _, _, _) => WelcomeKeeps(stored, q);
    case EnsureInstallBundle(_, _, _, _, _, _, _, _) => BundleKeeps(stored, q);
    case ConfigureDatabase(_, _, _, _, _, _, _, _) => ConfigureKeeps(stored, q);
    case RunSchemaIntrospection(_, _) => SchemaKeeps(stored, q);
    case MarkSemanticApproved(_, _, _, _) => SemanticKeeps(stored, q);
    case CompleteStarterStep(up) => EndKeeps(stored, 0, up);
    case CompleteOnboarding(now, up) => EndKeeps(stored, now, up);
    case CreateInvites(_, _) =>
      NothingKeeps(stored, InvalidStep);
      NothingKeeps(stored, InvalidInvite);
      NothingKeeps(stored, External);
  }

  /** Every request keeps the evidence for its step and the care of the token, and undoes nothing that is settled. */
  lemma RequestKeeps(stored: Option<Record>, a: Asked)
    requires Good(stored) && Plausible(a.q)
    ensures var o := OutcomeOf(stored, a);
            Good(o.stored) && Settled(stored, o.stored) && (o.shown.Some? ==> Good(o.shown))
  {
    hide Good, Settled, OwnerOutcome;
    OwnerKeeps(stored, a.q);
    NothingKeeps(stored, AccessDenied);
    NothingKeeps(stored, OwnerRequired);
  }

  // ----- every serial run

  function AfterAll(stored: Option<Record>, requests: seq<Asked>): Option<Record>
    decreases |requests|
  {
    if requests == [] then stored else AfterAll(OutcomeOf(stored, requests[0]).stored, requests[1..])
  }

  lemma SettledTransitive(a: Option<Record>, b: Option<Record>, c: Option<Record>)
    requires Settled(a, b) && Settled(b, c)
    ensures Settled(a, c)
  {
  }

  /**
   In every serial run, backward moves included: a step implies its evidence, and from the starter step on the step
   never falls, the database, schema and semantic fields stay as they are, and a completion time is written once.
   */
  lemma {:induction false} RunKeeps(stored: Option<Record>, requests: seq<Asked>)
    requires Good(stored) && forall i | 0 <= i < |requests| :: Plausible(requests[i].q)
    ensures Good(AfterAll(stored, requests)) && Settled(stored, AfterAll(stored, requests))
    decreases |requests|
  {
    if requests == [] {
    } else {
      hide OutcomeOf, Good, Settled;
      var next := OutcomeOf(stored, requests[0]).stored;
      RequestKeeps(stored, requests[0]);
      RunKeeps(next, requests[1..]);
      SettledTransitive(stored, next, AfterAll(next, requests[1..]));
    }
  }

  // ----- what the view shows

  predicate AgentConnected(r: Record) { r.payload.agentSessionID != "" && r.payload.agentConnectedAt.Some? }

  /** The docker command, which carries the token in the clear, is shown. */
  predicate CommandShown(r: Record, controlPlaneURL: string) {
    r.payload.installSlug != "" && r.payload.agentTokenPlain != "" && controlPlaneURL != ""
  }

  /** No run shows the install command, and so the token, while an agent is on record as connected. */
  lemma CommandNeverShownWhenConnected(requests: seq<Asked>, a: Asked, controlPlaneURL: string)
    requires Plausible(a.q) && forall i | 0 <= i < |requests| :: Plausible(requests[i].q)
    ensures var o := OutcomeOf(AfterAll(None, requests), a);
            o.shown.Some? ==> !(CommandShown(o.shown.value, controlPlaneURL) && AgentConnected(o.shown.value))
  {
    hide OutcomeOf;
    RunKeeps(None, requests);
    RequestKeeps(AfterAll(None, requests), a);
  }

  // ----- what a step past the first means

  /** The payload has what the welcome step asks for: a name and the language. */
  predicate Answered(p: Payload) { p.workspaceName != "" && p.primaryLanguage == LANGUAGE }

  /** Past the welcome step the workspace has what that step asks for. */
  predicate Welcome(stored: Option<Record>) { stored.Some? && stored.value.step >= AGENT_INSTALL ==> Answered(stored.value.payload) }

  /** A look at a workspace still at the welcome step while an agent is online for it. */
  predicate LooksEarly(stored: Option<Record>, a: Asked) {
    a.role != Stranger && a.q.GetState? && a.q.snap.Some? && a.q.up && Loaded(stored).step == WELCOME
  }

  /** A save, of another language and without confirmation, after the welcome step. */
  predicate UnsaysLanguage(stored: Option<Record>, a: Asked) {
    && a.role == Owner && a.q.SaveWelcome? && !a.q.confirm && a.q.up
    && (a.q.autoSave || TrimSpace(a.q.name) != "")
    && AGENT_INSTALL <= Loaded(stored).step < STARTER
    && a.q.language != "" && a.q.language != LANGUAGE
  }

  /** What makes a step past the first mean less than it says. */
  predicate SkipsWelcome(stored: Option<Record>, a: Asked) {
    (LooksEarly(stored, a) && !Answered(Loaded(stored).payload)) || UnsaysLanguage(stored, a)
  }

  lemma LookSkipsExactly(stored: Option<Record>, snap: Option<Snapshot>, up: bool)
    requires Good(stored) && Welcome(stored)
    ensures !Welcome(RefreshedOutcome(stored, Loaded(stored), snap, up).stored) <==>
            snap.Some? && up && Loaded(stored).step == WELCOME && !Answered(Loaded(stored).payload)
  {
    LoadedIsGood(stored);
  }

  lemma SaveSkipsExactly(stored: Option<Record>, q: Request)
    requires Good(stored) && Welcome(stored) && q.SaveWelcome?
    ensures !Welcome(Welcomed(stored, q).stored) <==> UnsaysLanguage(stored, Asked(Owner, q, true))
  {
    hide TrimSpace;
    LoadedIsGood(stored);
  }

  lemma LaterLookKeepsAnswers(stored: Option<Record>, r: Record, snap: Option<Snapshot>, up: bool)
    requires Welcome(stored) && Answered(r.payload)
    ensures var o := RefreshedOutcome(stored, r, snap, up);
            Welcome(o.stored) && (o.shown.Some? ==> Answered(o.shown.value.payload))
  {
  }

  lemma BundleKeepsAnswers(stored: Option<Record>, q: Request)
    requires Good(stored) && Welcome(stored) && q.EnsureInstallBundle?
    ensures Welcome(Bundled(stored, q).stored)
  {
    hide RefreshedOutcome;
    LoadedIsGood(stored);
    var r := Loaded(stored);
    if AGENT_INSTALL <= r.step < STARTER {
      var p := r.payload.(installSlug := FirstNonEmpty(r.payload.installSlug, q.slug),
                          agentWaitStarted := if r.payload.agentWaitStarted.Some? then r.payload.agentWaitStarted else Some(q.now));
      var a := RefreshedOutcome(stored, r.(payload := p), q.snap1, q.up1);
      LaterLookKeepsAnswers(stored, r.(payload := p), q.snap1, q.up1);
      if a.shown.Some? && (a.shown.value.payload.agentTokenID != "" || q.issued.Some?) {
        var t := a.shown.value.(payload := Tokened(a.shown.value.payload, q.issued),
                                step := MaxStep(a.shown.value.step, AGENT_INSTALL));
        LaterLookKeepsAnswers(if q.up2 then Some(t) else a.stored, t, q.snap2, q.up3);
      }
    }
  }

  lemma OthersKeepAnswers(stored: Option<Record>, q: Request)
    requires Good(stored) && Welcome(stored) && !q.SaveWelcome?
    requires !q.GetState? && !q.GetAgentConnectionStatus? && !q.EnsureInstallBundle? && !q.ConfigureDatabase?
    ensures Welcome(OwnerOutcome(stored, q).stored)
  {
    LoadedIsGood(stored);
  }

  lemma ConfigureKeepsAnswers(stored: Option<Record>, q: Request)
    requires Good(stored) && Welcome(stored) && q.ConfigureDatabase?
    ensures Welcome(DatabaseConfigured(stored, q).stored)
  {
    hide TrimSpace;
    LoadedIsGood(stored);
  }

  /**
   A request leaves a step past the first without the name or the language exactly if it is an early look at a workspace
   that lacks one of them, or a later save of another language.
   */
  lemma RequestSkipsExactly(stored: Option<Record>, a: Asked)
    requires Good(stored) && Welcome(stored)
    ensures !Welcome(OutcomeOf(stored, a).stored) <==> SkipsWelcome(stored, a)
  {
    hide Good, RefreshedOutcome, Bundled, DatabaseConfigured, Welcomed, TrimSpace;
    var q := a.q;
    match q
    case GetState(snap, up) => LookSkipsExactly(stored, snap, up);
    case GetAgentConnectionStatus(snap, up) => LookSkipsExactly(stored, snap, up);
    case SaveWelcome(_, _, _, _, _, _, _) => SaveSkipsExactly(stored, q);
    case EnsureInstallBundle(_, _, _, _, _, _, _, _) => BundleKeepsAnswers(stored, q);
    case ConfigureDatabase(_, _, _, _, _, _, _, _) => ConfigureKeepsAnswers(stored, q);
    case _ => OthersKeepAnswers(stored, q);
  }

  /** Some request of the run, where it comes, is such a one. */
  predicate SomeSkips(stored: Option<Record>, requests: seq<Asked>)
    decreases |requests|
  {
    requests != [] &&
    (|| SkipsWelcome(stored, requests[0])
     || SomeSkips(OutcomeOf(stored, requests[0]).stored, requests[1..]))
  }

  predicate WelcomeThroughout(stored: Option<Record>, requests: seq<Asked>)
    decreases |requests|
  {
    && Welcome(stored)
    && (requests != [] ==> WelcomeThroughout(OutcomeOf(stored, requests[0]).stored, requests[1..]))
  }

  /** Throughout a serial run a step past the first means a name and the language exactly if no request of it is such a one. */
  lemma {:induction false} RunIsWelcomedExactly(stored: Option<Record>, requests: seq<Asked>)
    requires Good(stored) && Welcome(stored) && forall i | 0 <= i < |requests| :: Plausible(requests[i].q)
    ensures WelcomeThroughout(stored, requests) <==> !SomeSkips(stored, requests)
    decreases |requests|
  {
    if requests != [] {
      hide OutcomeOf, Good, Settled, Welcome, SkipsWelcome;
      var next := OutcomeOf(stored, requests[0]).stored;
      RequestKeeps(stored, requests[0]);
      RequestSkipsExactly(stored, requests[0]);
      if Welcome(next) {
        RunIsWelcomedExactly(next, requests[1..]);
      }
    }
  }

  /** It happens: the first look at a fresh workspace whose agent is online goes straight to the database step. */
  lemma OnlineAgentSkipsWelcome(s: Snapshot)
    requires s.tokenID != "" && s.sessionID != ""
    ensures SkipsWelcome(None, Asked(Owner, GetState(Some(s), true), true))
    ensures var stored := OutcomeOf(None, Asked(Owner, GetState(Some(s), true), true)).stored;
            stored.Some? && stored.value.step == DATABASE && stored.value.payload.workspaceName == "" && AgentConnected(stored.value)
  {
  }

  /** And so does a save at the database step: a name entered and confirmed keeps its step with another language. */
  lemma LaterSaveUnsaysLanguage(stored: Record, language: string)
    requires Good(Some(stored)) && stored.step == DATABASE && Answered(stored.payload) && language != "" && language != LANGUAGE
    ensures var a := Asked(Owner, SaveWelcome("", "", language, false, true, false, true), true);
            && SkipsWelcome(Some(stored), a)
            && OutcomeOf(Some(stored), a).stored == Some(stored.(payload := stored.payload.(primaryLanguage := language)))
  {
    hide TrimSpace, Evidence, Hygiene, Refreshed;
    BlankIsBlank();
    var p := stored.payload.(primaryLanguage := language);
    assert Welcomed(Some(stored), SaveWelcome("", "", language, false, true, false, true)).stored == Some(stored.(payload := p));
  }

  lemma BlankIsBlank()
    ensures TrimSpace("") == ""
  {
  }

  // ----- whether the welcome step was done

  /** An owner's confirmation of name and language that goes through. */
  predicate Confirms(stored: Option<Record>, a: Asked) {
    && a.role == Owner && a.q.SaveWelcome? && a.q.confirm && a.q.language == LANGUAGE && a.q.renamed && a.q.up
    && (TrimSpace(a.q.name) != "" || (a.q.autoSave && Loaded(stored).payload.workspaceName != ""))
    && Loaded(stored).step < STARTER
  }

  /** Only a confirmation and an early look take a workspace past the welcome step. */
  lemma RequestLeavesWelcomeExactly(stored: Option<Record>, a: Asked)
    requires Good(stored) && Loaded(stored).step == WELCOME
    ensures Loaded(OutcomeOf(stored, a).stored).step > WELCOME <==> LooksEarly(stored, a) || Confirms(stored, a)
  {
    hide TrimSpace;
    LoadedIsGood(stored);
  }

  /** At every point of the run a step past the first goes back on a confirmation, one made in the run or before it. */
  predicate ConfirmedThroughout(stored: Option<Record>, requests: seq<Asked>, confirmed: bool)
    decreases |requests|
  {
    && (Loaded(stored).step > WELCOME ==> confirmed)
    && (requests != [] ==>
          ConfirmedThroughout(OutcomeOf(stored, requests[0]).stored, requests[1..], confirmed || Confirms(stored, requests[0])))
  }

  /** Some look of the run comes early and before any confirmation. */
  predicate SomeLookIsEarly(stored: Option<Record>, requests: seq<Asked>, confirmed: bool)
    decreases |requests|
  {
    requests != [] &&
    (|| (!confirmed && LooksEarly(stored, requests[0]))
     || SomeLookIsEarly(OutcomeOf(stored, requests[0]).stored, requests[1..], confirmed || Confirms(stored, requests[0])))
  }

  /**
   Throughout a serial run a step past the first means that the welcome step was done, exactly if no look found an agent
   online before it was.
   */
  lemma {:induction false} RunIsConfirmedExactly(stored: Option<Record>, requests: seq<Asked>, confirmed: bool)
    requires Good(stored) && forall i | 0 <= i < |requests| :: Plausible(requests[i].q)
    requires Loaded(stored).step > WELCOME ==> confirmed
    ensures ConfirmedThroughout(stored, requests, confirmed) <==> !SomeLookIsEarly(stored, requests, confirmed)
    decreases |requests|
  {
    if requests != [] {
      hide OutcomeOf, Settled, Confirms, Plausible;
      var next := OutcomeOf(stored, requests[0]).stored;
      RequestKeeps(stored, requests[0]);
      if !confirmed {
        LoadedIsGood(stored);
        RequestLeavesWelcomeExactly(stored, requests[0]);
      }
      if confirmed || !LooksEarly(stored, requests[0]) {
        RunIsConfirmedExactly(next, requests[1..], confirmed || Confirms(stored, requests[0]));
      }
    }
  }

  // ----- the operations

  class OnboardingController {
    var states: map<Uuid, Record>

    function Stored(tenantID: Uuid): Option<Record>
      reads this
    {
      if tenantID in states then Some(states[tenantID]) else None
    }

    /** The tenant's record is what `stored` says and no other has changed. */
    twostate predicate Became(tenantID: Uuid, stored: Option<Record>)
      reads this
    {
      states == if stored.Some? then old(states)[tenantID := stored.value] else old(states)
    }

    constructor ()
      ensures states == map[]
    {
      states := map[];
    }

    method LoadRecord(tenantID: Uuid) returns (record: Record)
      ensures record == Loaded(Stored(tenantID))
    {
      if tenantID !in states {
        return Record(WELCOME, EMPTY, None);
      }
      record := states[tenantID];
      if record.step == 0 {
        record := record.(step := WELCOME);
      }
    }

    method PersistState(tenantID: Uuid, record: Record, up: bool) returns (shown: Option<Record>, err: Option<Error>)
      modifies this
      ensures var o := Persisted(old(Stored(tenantID)), record, up);
              Stored(tenantID) == o.stored && shown == o.shown && err == o.err
      ensures Became(tenantID, Stored(tenantID))
    {
      if !up {
        SameStored(tenantID);
        return None, Some(External);
      }
      states := states[tenantID := record];
      return Some(record), None;
    }

    lemma SameStored(tenantID: Uuid)
      ensures tenantID in states ==> states[tenantID := states[tenantID]] == states
    {
    }

    method RefreshAgentConnection(tenantID: Uuid, record: Record, snap: Option<Snapshot>, up: bool)
      returns (shown: Option<Record>, err: Option<Error>)
      modifies this
      ensures var o := RefreshedOutcome(old(Stored(tenantID)), record, snap, up);
              Stored(tenantID) == o.stored && shown == o.shown && err == o.err
      ensures Became(tenantID, Stored(tenantID))
    {
      var payload, currentStep, changed := record.payload, record.step, false;
      if snap.Some? {
        var s := snap.value;
        if payload.agentTokenID != s.tokenID {
          payload, changed := payload.(agentTokenID := s.tokenID), true;
        }
        if payload.agentSessionID != s.sessionID {
          payload, changed := payload.(agentSessionID := s.sessionID), true;
        }
        if payload.agentConnectedAt != Some(s.connectedAt) {
          payload, changed := payload.(agentConnectedAt := Some(s.connectedAt)), true;
        }
        if payload.agentTokenPlain != "" {
          payload, changed := payload.(agentTokenPlain := ""), true;
        }
        if currentStep < DATABASE {
          currentStep, changed := DATABASE, true;
        }
      } else {
        if payload.agentSessionID != "" {
          payload, changed := payload.(agentSessionID := ""), true;
        }
        if payload.agentConnectedAt != None {
          payload, changed := payload.(agentConnectedAt := None), true;
        }
      }
      if !changed {
        SameStored(tenantID);
        return Some(record), None;
      }
      shown, err := PersistState(tenantID, Record(currentStep, payload, record.completedAt), up);
    }

    /** The view of what an operation is to show; without its invites it is an error. */
    static method BuildStateView(record: Option<Record>, before: Option<Error>, listed: bool)
      returns (shown: Option<Record>, err: Option<Error>)
      ensures shown == (if listed then record else None) && err == (if record.Some? && !listed then Some(External) else before)
    {
      if record.Some? && !listed {
        return None, Some(External);
      }
      return record, before;
    }

    method GetState(tenantID: Uuid, role: Role, listed: bool, snap: Option<Snapshot>, up: bool)
      returns (shown: Option<Record>, err: Option<Error>)
      modifies this
      ensures var o := OutcomeOf(old(Stored(tenantID)), Asked(role, Request.GetState(snap, up), listed));
              Stored(tenantID) == o.stored && shown == o.shown && err == o.err
      ensures Became(tenantID, Stored(tenantID))
    {
      SameStored(tenantID);
      if role == Stranger {
        return None, Some(AccessDenied);
      }
      var record := LoadRecord(tenantID);
      shown, err := RefreshAgentConnection(tenantID, record, snap, up);
      shown, err := BuildStateView(shown, err, listed);
    }

    method SaveWelcome(tenantID: Uuid, role: Role, listed: bool, q: Request) returns (shown: Option<Record>, err: Option<Error>)
      requires q.SaveWelcome?
      modifies this
      ensures var o := OutcomeOf(old(Stored(tenantID)), Asked(role, q, listed));
              Stored(tenantID) == o.stored && shown == o.shown && err == o.err
      ensures Became(tenantID, Stored(tenantID))
    {
      hide TrimSpace;
      SameStored(tenantID);
      if role == Stranger {
        return None, Some(AccessDenied);
      }
      if role != Owner {
        return None, Some(OwnerRequired);
      }
      var record := LoadRecord(tenantID);
      if record.step >= STARTER {
        return None, Some(StepLocked);
      }
      var trimmedName := TrimSpace(q.name);
      if !q.autoSave && trimmedName == "" {
        return None, Some(InvalidWorkspaceName);
      }
      if q.confirm && q.language != LANGUAGE {
        return None, Some(PrimaryLanguageRequired);
      }
      var payload := record.payload;
      if trimmedName != "" {
        payload := payload.(workspaceName := trimmedName, installSlug := q.slug);
      }
      if q.language != "" {
        payload := payload.(primaryLanguage := q.language);
      }
      var currentStep := record.step;
      if currentStep == 0 {
        currentStep := WELCOME;
      }
      if q.confirm {
        if payload.primaryLanguage != LANGUAGE {
          return None, Some(PrimaryLanguageRequired);
        }
        if payload.workspaceName == "" {
          return None, Some(InvalidWorkspaceName);
        }
        if !q.renamed {
          return None, Some(External);
        }
        currentStep := AGENT_INSTALL;
      }
      shown, err := PersistState(tenantID, Record(currentStep, payload, record.completedAt), q.up);
      shown, err := BuildStateView(shown, err, listed);
    }

    method EndBundle(tenantID: Uuid, record: Record, q: Request) returns (shown: Option<Record>, err: Option<Error>)
      requires q.EnsureInstallBundle?
      modifies this
      ensures var o := BundleEnded(old(Stored(tenantID)), record, q);
              Stored(tenantID) == o.stored && shown == o.shown && err == o.err
      ensures Became(tenantID, Stored(tenantID))
    {
      SameStored(tenantID);
      var payload := record.payload;
      if payload.agentTokenID == "" {
        if q.issued == None {
          return None, Some(External);
        }
        payload := payload.(agentTokenID := q.issued.value.0, agentTokenPlain := q.issued.value.1);
      }
      var currentStep := MaxStep(record.step, AGENT_INSTALL);
      shown, err := PersistState(tenantID, Record(currentStep, payload, record.completedAt), q.up2);
      if shown == None {
        return;
      }
      shown, err := RefreshAgentConnection(tenantID, shown.value, q.snap2, q.up3);
    }

    method EnsureInstallBundle(tenantID: Uuid, role: Role, listed: bool, q: Request)
      returns (shown: Option<Record>, err: Option<Error>)
      requires q.EnsureInstallBundle?
      modifies this
      ensures var o := OutcomeOf(old(Stored(tenantID)), Asked(role, q, listed));
              Stored(tenantID) == o.stored && shown == o.shown && err == o.err
      ensures Became(tenantID, Stored(tenantID))
    {
      SameStored(tenantID);
      if role == Stranger {
        return None, Some(AccessDenied);
      }
      if role != Owner {
        return None, Some(OwnerRequired);
      }
      var record := LoadRecord(tenantID);
      if record.step < AGENT_INSTALL {
        return None, Some(InvalidStep);
      }
      if record.step >= STARTER {
        return None, Some(StepLocked);
      }
      var payload := record.payload;
      if payload.installSlug == "" {
        payload := payload.(installSlug := q.slug);
      }
      if payload.agentWaitStarted == None {
        payload := payload.(agentWaitStarted := Some(q.now));
      }
      shown, err := RefreshAgentConnection(tenantID, record.(payload := payload), q.snap1, q.up1);
      SameStored(tenantID);
      if shown == None {
        return;
      }
      shown, err := EndBundle(tenantID, shown.value, q);
      shown, err := BuildStateView(shown, err, listed);
    }

    method GetAgentConnectionStatus(tenantID: Uuid, role: Role, listed: bool, snap: Option<Snapshot>, up: bool)
      returns (shown: Option<Record>, err: Option<Error>)
      modifies this
      ensures var o := OutcomeOf(old(Stored(tenantID)), Asked(role, Request.GetAgentConnectionStatus(snap, up), listed));
              Stored(tenantID) == o.stored && shown == o.shown && err == o.err
      ensures Became(tenantID, Stored(tenantID))
    {
      SameStored(tenantID);
      if role == Stranger {
        return None, Some(AccessDenied);
      }
      if role != Owner {
        return None, Some(OwnerRequired);
      }
      var record := LoadRecord(tenantID);
      if record.step < AGENT_INSTALL {
        return None, Some(InvalidStep);
      }
      shown, err := RefreshAgentConnection(tenantID, record, snap, up);
      shown, err := BuildStateView(shown, err, listed);
    }

    /** The database fields as asked for, with what was there or a default where nothing was. */
    static method NameDatabase(p: Payload, q: Request) returns (payload: Payload)
      requires q.ConfigureDatabase? && (p.generatedPassword == "" ==> q.password.Some?)
      ensures payload == DatabaseNamed(p, q)
    {
      payload := p.(databaseHost := TrimSpace(FirstGiven(q.host, p.databaseHost)));
      payload := payload.(databaseName := TrimSpace(FirstGiven(q.database, p.databaseName)));
      if q.port > 0 {
        payload := payload.(databasePort := q.port);
      }
      if payload.databasePort <= 0 {
        payload := payload.(databasePort := DEFAULT_DB_PORT);
      }
      if payload.databaseUsername == "" {
        payload := payload.(databaseUsername := DEFAULT_DB_USER);
      }
      if payload.generatedPassword == "" {
        payload := payload.(generatedPassword := q.password.value);
      }
    }

    method ConfigureDatabase(tenantID: Uuid, role: Role, listed: bool, q: Request)
      returns (shown: Option<Record>, err: Option<Error>)
      requires q.ConfigureDatabase?
      modifies this
      ensures var o := OutcomeOf(old(Stored(tenantID)), Asked(role, q, listed));
              Stored(tenantID) == o.stored && shown == o.shown && err == o.err
      ensures Became(tenantID, Stored(tenantID))
    {
      hide TrimSpace, DatabaseNamed;
      SameStored(tenantID);
      if role == Stranger {
        return None, Some(AccessDenied);
      }
      if role != Owner {
        return None, Some(OwnerRequired);
      }
      var record := LoadRecord(tenantID);
      if record.step < DATABASE {
        return None, Some(InvalidStep);
      }
      if record.step >= STARTER {
        return None, Some(StepLocked);
      }
      if record.payload.generatedPassword == "" && q.password == None {
        return None, Some(External);
      }
      var payload := NameDatabase(record.payload, q);
      if payload.databaseName == "" {
        return None, Some(InvalidWorkspaceName);
      }
      if TrimSpace(q.connection) == "" {
        shown, err := PersistState(tenantID, Record(DATABASE, payload, record.completedAt), q.up);
        shown, err := BuildStateView(shown, err, listed);
        return;
      }
      if TrimSpace(payload.agentTokenID) == "" {
        return None, Some(InvalidStep);
      }
      match q.configured {
      case ConfigureFailed => return None, Some(External);
      case Refused(code, message) =>
        payload := payload.(dbErrorCode := code, dbErrorMessage := message);
        shown, err := PersistState(tenantID, Record(DATABASE, payload, record.completedAt), q.up);
      case Verified(completedAt, user, name) =>
        var verifiedAt := if completedAt.Some? then completedAt else Some(q.now);
        payload := payload.(databaseUsername := FirstGiven(user, payload.databaseUsername));
        payload := payload.(databaseName := FirstGiven(name, payload.databaseName));
        payload := payload.(dbVerifiedAt := verifiedAt, dbErrorCode := "", dbErrorMessage := "");
        shown, err := PersistState(tenantID, Record(SCHEMA, payload, record.completedAt), q.up);
      }
      shown, err := BuildStateView(shown, err, listed);
    }

    method RunSchemaIntrospection(tenantID: Uuid, role: Role, listed: bool, q: Request)
      returns (shown: Option<Record>, err: Option<Error>)
      requires q.RunSchemaIntrospection?
      modifies this
      ensures var o := OutcomeOf(old(Stored(tenantID)), Asked(role, q, listed));
              Stored(tenantID) == o.stored && shown == o.shown && err == o.err
      ensures Became(tenantID, Stored(tenantID))
    {
      SameStored(tenantID);
      if role == Stranger {
        return None, Some(AccessDenied);
      }
      if role != Owner {
        return None, Some(OwnerRequired);
      }
      var record := LoadRecord(tenantID);
      if record.step < SCHEMA {
        return None, Some(InvalidStep);
      }
      if record.step >= STARTER {
        return None, Some(StepLocked);
      }
      if q.captured == None {
        return None, Some(External);
      }
      var payload := record.payload;
      payload := payload.(schemaVersionID := q.captured.value.versionID);
      payload := payload.(schemaTableCount := q.captured.value.tables, schemaColumnCount := q.captured.value.columns);
      payload := payload.(schemaFKCount := q.captured.value.foreignKeys);
      shown, err := PersistState(tenantID, Record(SEMANTIC, payload, record.completedAt), q.up);
      shown, err := BuildStateView(shown, err, listed);
    }

    method MarkSemanticApproved(tenantID: Uuid, role: Role, listed: bool, q: Request)
      returns (shown: Option<Record>, err: Option<Error>)
      requires q.MarkSemanticApproved?
      modifies this
      ensures var o := OutcomeOf(old(Stored(tenantID)), Asked(role, q, listed));
              Stored(tenantID) == o.stored && shown == o.shown && err == o.err
      ensures Became(tenantID, Stored(tenantID))
    {
      SameStored(tenantID);
      if role == Stranger {
        return None, Some(AccessDenied);
      }
      if role != Owner {
        return None, Some(OwnerRequired);
      }
      var record := LoadRecord(tenantID);
      if record.step < SEMANTIC {
        return None, Some(InvalidStep);
      }
      if record.step >= STARTER {
        return None, Some(StepLocked);
      }
      if q.layer == NoLayer {
        return None, Some(InvalidSemanticLayer);
      }
      if q.layer == LookupFailed {
        return None, Some(External);
      }
      if !q.layer.approved {
        return None, Some(InvalidSemanticLayer);
      }
      var approvedAt := q.now;
      if q.layer.approvedAt.Some? {
        approvedAt := q.layer.approvedAt.value;
      }
      var payload := record.payload.(semanticLayerID := q.layerID, semanticApproved := Some(approvedAt));
      shown, err := PersistState(tenantID, Record(STARTER, payload, record.completedAt), q.up);
      shown, err := BuildStateView(shown, err, listed);
    }

    method CompleteStarterStep(tenantID: Uuid, role: Role, listed: bool, up: bool)
      returns (shown: Option<Record>, err: Option<Error>)
      modifies this
      ensures var o := OutcomeOf(old(Stored(tenantID)), Asked(role, Request.CompleteStarterStep(up), listed));
              Stored(tenantID) == o.stored && shown == o.shown && err == o.err
      ensures Became(tenantID, Stored(tenantID))
    {
      SameStored(tenantID);
      if role == Stranger {
        return None, Some(AccessDenied);
      }
      if role != Owner {
        return None, Some(OwnerRequired);
      }
      var record := LoadRecord(tenantID);
      if record.step < STARTER {
        return None, Some(InvalidStep);
      }
      shown, err := PersistState(tenantID, record.(step := DONE), up);
      shown, err := BuildStateView(shown, err, listed);
    }

    method CompleteOnboarding(tenantID: Uuid, role: Role, listed: bool, now: Instant, up: bool)
      returns (shown: Option<Record>, err: Option<Error>)
      modifies this
      ensures var o := OutcomeOf(old(Stored(tenantID)), Asked(role, Request.CompleteOnboarding(now, up), listed));
              Stored(tenantID) == o.stored && shown == o.shown && err == o.err
      ensures Became(tenantID, Stored(tenantID))
    {
      SameStored(tenantID);
      if role == Stranger {
        return None, Some(AccessDenied);
      }
      if role != Owner {
        return None, Some(OwnerRequired);
      }
      var record := LoadRecord(tenantID);
      if record.step < DONE {
        return None, Some(InvalidStep);
      }
      var completedAt := now;
      if record.completedAt.Some? {
        completedAt := record.completedAt.value;
      }
      shown, err := PersistState(tenantID, Record(DONE, record.payload, Some(completedAt)), up);
      shown, err := BuildStateView(shown, err, listed);
    }

    method CreateInvites(tenantID: Uuid, role: Role, listed: bool, valid: bool, created: bool)
      returns (shown: Option<Record>, err: Option<Error>)
      ensures var o := OutcomeOf(Stored(tenantID), Asked(role, Request.CreateInvites(valid, created), listed));
              Stored(tenantID) == o.stored && shown == o.shown && err == o.err
    {
      if role == Stranger {
        return None, Some(AccessDenied);
      }
      if role != Owner {
        return None, Some(OwnerRequired);
      }
      var record := LoadRecord(tenantID);
      if record.step < DONE {
        return None, Some(InvalidStep);
      }
      if !valid {
        return None, Some(InvalidInvite);
      }
      if !created {
        return None, Some(External);
      }
      shown, err := BuildStateView(Some(record), None, listed);
    }
  }
}
