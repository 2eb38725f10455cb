/**
 What each onboarding request leaves in the record, field by field: the value the caller or another component gave, where
 it gave one, and every other field as it was; and the error it ends with otherwise.
 */
module OnboardingFields {
  import opened Common
  import opened Text
  import opened Onboarding

  /** The given text, trimmed, if it is not blank; else the other one, trimmed. */
  predicate GivenOr(value: string, given: string, otherwise: string) {
    value == if TrimSpace(given) != "" then TrimSpace(given) else TrimSpace(otherwise)
  }

  lemma FirstGivenIsGiven(given: string, otherwise: string)
    ensures GivenOr(FirstGiven(given, otherwise), given, otherwise)
    ensures GivenOr(TrimSpace(FirstGiven(given, otherwise)), given, otherwise)
  {
    TrimTwice(given);
    TrimTwice(otherwise);
  }

  lemma TrimTwice(s: string)
    ensures TrimSpace(TrimSpace(s)) == TrimSpace(s)
  {
    var t := TrimSpace(s);
    assert "" + t + "" == t;
    TrimSpaceExactly("", t, "");
  }

  /** A workspace without a record is at the first step, and nothing is known of it. */
  lemma FreshIsEmpty(stored: Option<Record>)
    requires Good(stored)
    ensures stored.Some? ==> Loaded(stored) == stored.value
    ensures stored == None ==>
              var r := Loaded(stored);
              && r.step == 1 && r.completedAt == None
              && r.payload.workspaceName == "" && r.payload.primaryLanguage == "" && r.payload.installSlug == ""
              && r.payload.agentTokenID == "" && r.payload.agentTokenPlain == "" && r.payload.agentSessionID == ""
              && r.payload.agentWaitStarted == None && r.payload.agentConnectedAt == None
              && r.payload.databaseHost == "" && r.payload.databaseName == "" && r.payload.databaseUsername == ""
              && r.payload.databasePort == 0 && r.payload.generatedPassword == "" && r.payload.dbVerifiedAt == None
              && r.payload.dbErrorCode == "" && r.payload.dbErrorMessage == "" && r.payload.schemaVersionID == ""
              && r.payload.semanticLayerID == "" && r.payload.semanticApproved == None
  {
    LoadedIsGood(stored);
  }

  /** A request that is refused stores and shows nothing. */
  predicate Refuses(stored: Option<Record>, o: Outcome, e: Error) { o.stored == stored && o.shown == None && o.err == Some(e) }

  /** A stranger may do nothing, a member only look; nothing is stored for either. */
  lemma RolesAreHeld(stored: Option<Record>, a: Asked)
    ensures a.role == Stranger ==>
              Refuses(stored, OutcomeOf(stored, a), AccessDenied)
    ensures a.role == Member && !a.q.GetState? ==>
              Refuses(stored, OutcomeOf(stored, a), OwnerRequired)
    ensures a.role == Member && a.q.GetState? ==> OutcomeOf(stored, a) == OutcomeOf(stored, a.(role := Owner))
  {
  }

  /** A request that is written stores `after`; the view shows it, unless the invites in it cannot be listed. */
  predicate Writes(stored: Option<Record>, o: Outcome, after: Record, up: bool, listed: bool) {
    if !up then o.stored == stored && o.shown == None && o.err == Some(External)
    else
      && o.stored == Some(after)
      && if listed then o.shown == Some(after) && o.err == None else o.shown == None && o.err == Some(External)
  }

  /** The welcome step: the name, its slug and the language given, if they are; step 2 once confirmed. */
  lemma WelcomeStores(stored: Option<Record>, name: string, slug: string, language: string, confirm: bool, autoSave: bool,
                      renamed: bool, up: bool, listed: bool) returns (after: Record)
    ensures var o := OutcomeOf(stored, Asked(Owner, SaveWelcome(name, slug, language, confirm, autoSave, renamed, up), listed));
            var r := Loaded(stored);
            if r.step >= 6 then Refuses(stored, o, StepLocked)
            else if TrimSpace(name) == "" && !autoSave then Refuses(stored, o, InvalidWorkspaceName)
            else if confirm && language != "ko" then Refuses(stored, o, PrimaryLanguageRequired)
            else if confirm && TrimSpace(name) == "" && r.payload.workspaceName == "" then Refuses(stored, o, InvalidWorkspaceName)
            else if confirm && !renamed then Refuses(stored, o, External)
            else
              && Writes(stored, o, after, up, listed)
              && after.step == (if confirm then 2 else r.step) && after.completedAt == r.completedAt
              && after.payload == r.payload.(workspaceName := after.payload.workspaceName, installSlug := after.payload.installSlug,
                                             primaryLanguage := after.payload.primaryLanguage)
              && (if TrimSpace(name) != "" then after.payload.workspaceName == TrimSpace(name) && after.payload.installSlug == slug
                  else after.payload.workspaceName == r.payload.workspaceName && after.payload.installSlug == r.payload.installSlug)
              && after.payload.primaryLanguage == (if language != "" then language else r.payload.primaryLanguage)
  {
    hide TrimSpace;
    var r := Loaded(stored);
    var given := TrimSpace(name) != "";
    after := r.(payload := r.payload.(workspaceName := if given then TrimSpace(name) else r.payload.workspaceName,
                                      installSlug := if given then slug else r.payload.installSlug,
                                      primaryLanguage := if language != "" then language else r.payload.primaryLanguage),
                step := if confirm then 2 else r.step);
  }

  /** The record with the agent that is online put in, or with none. */
  predicate Sees(r: Record, after: Record, snap: Option<Snapshot>) {
    match snap
    case Some(s) =>
      && after.step == (if r.step < 3 then 3 else r.step) && after.completedAt == r.completedAt
      && after.payload == r.payload.(agentTokenID := s.tokenID, agentTokenPlain := "", agentSessionID := s.sessionID,
                                     agentConnectedAt := Some(s.connectedAt))
    case None =>
      && after.step == r.step && after.completedAt == r.completedAt
      && after.payload == r.payload.(agentSessionID := "", agentConnectedAt := None)
  }

  /** A look finds the agent that is online, takes its token and session over, and forgets the plaintext; or forgets the session. */
  lemma LookStores(stored: Option<Record>, status: bool, snap: Option<Snapshot>, up: bool, listed: bool) returns (after: Record)
    ensures var q := if status then GetAgentConnectionStatus(snap, up) else GetState(snap, up);
            var o := OutcomeOf(stored, Asked(Owner, q, listed));
            var r := Loaded(stored);
            if status && r.step < 2 then Refuses(stored, o, InvalidStep)
            else
              && Sees(r, after, snap)
              && (if after == r then
                    && o.stored == stored
                    && if listed then o.shown == Some(r) && o.err == None else o.shown == None && o.err == Some(External)
                  else Writes(stored, o, after, up, listed))
  {
    after := Refreshed(Loaded(stored), snap);
  }

  /**
   The install bundle: a slug and a start of waiting if there are none, and a token, with its plaintext, if none is known
   for the workspace or from an agent online; each look before and after puts in the agent it finds.
   */
  lemma BundleStores(stored: Option<Record>, slug: string, now: Instant, snap1: Option<Snapshot>, issued: (string, string),
                     snap2: Option<Snapshot>) returns (seen: Record, with: Record, after: Record)
    requires 2 <= Loaded(stored).step < 6
    ensures var q := EnsureInstallBundle(slug, now, snap1, true, Some(issued), true, snap2, true);
            var o := OutcomeOf(stored, Asked(Owner, q, true));
            var r := Loaded(stored);
            var begun := r.(payload := r.payload.(installSlug := if r.payload.installSlug != "" then r.payload.installSlug else slug,
                                                  agentWaitStarted := if r.payload.agentWaitStarted.Some?
                                                                      then r.payload.agentWaitStarted else Some(now)));
            && o.err == None && o.stored == Some(after) && o.shown == Some(after)
            && Sees(begun, seen, snap1)
            && with == seen.(payload := seen.payload.(
                         agentTokenID := if seen.payload.agentTokenID == "" then issued.0 else seen.payload.agentTokenID,
                         agentTokenPlain := if seen.payload.agentTokenID == "" then issued.1 else seen.payload.agentTokenPlain))
            && Sees(with, after, snap2)
  {
    hide Good;
    var r := Loaded(stored);
    var begun := r.(payload := r.payload.(installSlug := FirstNonEmpty(r.payload.installSlug, slug),
                                          agentWaitStarted := if r.payload.agentWaitStarted.Some?
                                                              then r.payload.agentWaitStarted else Some(now)));
    seen := Refreshed(begun, snap1);
    with := seen.(payload := Tokened(seen.payload, Some(issued)), step := MaxStep(seen.step, 2));
    after := Refreshed(with, snap2);
  }

  /** It is refused before step 2 and from step 6 on, and fails with what it needs: a token to issue, or a write. */
  lemma BundleFails(stored: Option<Record>, slug: string, now: Instant, snap1: Option<Snapshot>, up1: bool,
                    issued: Option<(string, string)>, up2: bool, snap2: Option<Snapshot>, up3: bool, listed: bool)
    ensures var o := OutcomeOf(stored, Asked(Owner, EnsureInstallBundle(slug, now, snap1, up1, issued, up2, snap2, up3), listed));
            var r := Loaded(stored);
            && (r.step < 2 ==> Refuses(stored, o, InvalidStep))
            && (r.step >= 6 ==> Refuses(stored, o, StepLocked))
            && (2 <= r.step < 6 && issued == None && snap1 == None && r.payload.agentTokenID == "" ==> o.err == Some(External))
            && (2 <= r.step < 6 && (!up2 || !listed) ==> o.err == Some(External))
  {
  }

  /** What a request of the database step says of the database: the caller's values, else the stored ones, else the defaults. */
  predicate DatabaseAsGiven(p: Payload, after: Payload, host: string, port: int, database: string, password: Option<string>) {
    && GivenOr(after.databaseHost, host, p.databaseHost)
    && GivenOr(after.databaseName, database, p.databaseName)
    && after.databasePort == (if port > 0 then port else if p.databasePort > 0 then p.databasePort else 3306)
    && after.databaseUsername == (if p.databaseUsername != "" then p.databaseUsername else "okta_ai_ro")
    && (if p.generatedPassword != "" then after.generatedPassword == p.generatedPassword
        else password.Some? && after.generatedPassword == password.value)
    && after == p.(databaseHost := after.databaseHost, databaseName := after.databaseName, databasePort := after.databasePort,
                   databaseUsername := after.databaseUsername, generatedPassword := after.generatedPassword)
  }

  lemma NamedAsGiven(p: Payload, host: string, port: int, database: string, connection: string, password: Option<string>,
                     configured: Configured, now: Instant, up: bool)
    requires p.generatedPassword == "" ==> password.Some?
    ensures var given := DatabaseNamed(p, ConfigureDatabase(host, port, database, connection, password, configured, now, up));
            DatabaseAsGiven(p, given, host, port, database, password) && given.agentTokenID == p.agentTokenID
  {
    hide TrimSpace, FirstGiven, GivenOr;
    FirstGivenIsGiven(host, p.databaseHost);
    FirstGivenIsGiven(database, p.databaseName);
  }

  /**
   The database step stores the database as given; a configuration the agent verified adds its time, clears the error and
   goes to step 4, with the user and name the agent reports; one it refused adds the error and goes to step 3.
   */
  lemma DatabaseStores(stored: Option<Record>, host: string, port: int, database: string, connection: string,
                       password: Option<string>, configured: Configured, now: Instant, up: bool, listed: bool)
    returns (given: Payload, after: Record)
    ensures var q := ConfigureDatabase(host, port, database, connection, password, configured, now, up);
            var o := OutcomeOf(stored, Asked(Owner, q, listed));
            var r := Loaded(stored);
            if r.step < 3 then Refuses(stored, o, InvalidStep)
            else if r.step >= 6 then Refuses(stored, o, StepLocked)
            else if r.payload.generatedPassword == "" && password == None then Refuses(stored, o, External)
            else
              && DatabaseAsGiven(r.payload, given, host, port, database, password)
              && (if given.databaseName == "" then Refuses(stored, o, InvalidWorkspaceName)
                  else if TrimSpace(connection) == "" then
                    Writes(stored, o, after, up, listed) && after == r.(payload := given, step := 3)
                  else if TrimSpace(r.payload.agentTokenID) == "" then Refuses(stored, o, InvalidStep)
                  else
                    match configured
                    case ConfigureFailed => Refuses(stored, o, External)
                    case Refused(code, message) =>
                      && Writes(stored, o, after, up, listed)
                      && after == r.(payload := given.(dbErrorCode := code, dbErrorMessage := message), step := 3)
                    case Verified(completedAt, user, name) =>
                      && Writes(stored, o, after, up, listed)
                      && after.step == 4 && after.completedAt == r.completedAt
                      && GivenOr(after.payload.databaseUsername, user, given.databaseUsername)
                      && GivenOr(after.payload.databaseName, name, given.databaseName)
                      && after.payload.dbVerifiedAt == (if completedAt.Some? then completedAt else Some(now))
                      && after.payload.dbErrorCode == "" && after.payload.dbErrorMessage == ""
                      && after.payload == given.(databaseUsername := after.payload.databaseUsername,
                                                 databaseName := after.payload.databaseName,
                                                 dbVerifiedAt := after.payload.dbVerifiedAt,
                                                 dbErrorCode := "", dbErrorMessage := ""))
  {
    hide TrimSpace, FirstGiven, GivenOr, DatabaseNamed, DatabaseAsGiven;
    var q := ConfigureDatabase(host, port, database, connection, password, configured, now, up);
    var r := Loaded(stored);
    given, after := r.payload, r;
    if 3 <= r.step < 6 && (r.payload.generatedPassword == "" ==> password.Some?) {
      NamedAsGiven(r.payload, host, port, database, connection, password, configured, now, up);
      given := DatabaseNamed(r.payload, q);
      if TrimSpace(connection) == "" {
        after := r.(payload := given, step := 3);
      } else if configured.Refused? {
        after := r.(payload := given.(dbErrorCode := configured.errorCode, dbErrorMessage := configured.message), step := 3);
      } else if configured.Verified? {
        FirstGivenIsGiven(configured.databaseUser, given.databaseUsername);
        FirstGivenIsGiven(configured.databaseName, given.databaseName);
        after := r.(payload := given.(databaseUsername := FirstGiven(configured.databaseUser, given.databaseUsername),
                                      databaseName := FirstGiven(configured.databaseName, given.databaseName),
                                      dbVerifiedAt := if configured.completedAt.Some? then configured.completedAt else Some(now),
                                      dbErrorCode := "", dbErrorMessage := ""),
                    step := 4);
      }
    }
  }

  /** The schema step stores the version captured and its three counts, and goes to step 5. */
  lemma SchemaStores(stored: Option<Record>, captured: Option<Captured>, up: bool, listed: bool) returns (after: Record)
    ensures var o := OutcomeOf(stored, Asked(Owner, RunSchemaIntrospection(captured, up), listed));
            var r := Loaded(stored);
            if r.step < 4 then Refuses(stored, o, InvalidStep)
            else if r.step >= 6 then Refuses(stored, o, StepLocked)
            else if captured == None then Refuses(stored, o, External)
            else
              && Writes(stored, o, after, up, listed) && after.step == 5 && after.completedAt == r.completedAt
              && after.payload.schemaVersionID == captured.value.versionID
              && after.payload.schemaTableCount == captured.value.tables
              && after.payload.schemaColumnCount == captured.value.columns
              && after.payload.schemaFKCount == captured.value.foreignKeys
              && after.payload == r.payload.(schemaVersionID := after.payload.schemaVersionID,
                                             schemaTableCount := after.payload.schemaTableCount,
                                             schemaColumnCount := after.payload.schemaColumnCount,
                                             schemaFKCount := after.payload.schemaFKCount)
  {
    var r := Loaded(stored);
    after := r;
    if captured.Some? {
      var c := captured.value;
      after := r.(payload := r.payload.(schemaVersionID := c.versionID, schemaTableCount := c.tables,
                                        schemaColumnCount := c.columns, schemaFKCount := c.foreignKeys),
                  step := 5);
    }
  }

  /** The semantic step stores an approved layer and the time it was approved, now if that is not known, and goes to step 6. */
  lemma SemanticStores(stored: Option<Record>, layerID: string, layer: LayerFound, now: Instant, up: bool, listed: bool)
    returns (after: Record)
    ensures var o := OutcomeOf(stored, Asked(Owner, MarkSemanticApproved(layerID, layer, now, up), listed));
            var r := Loaded(stored);
            if r.step < 5 then Refuses(stored, o, InvalidStep)
            else if r.step >= 6 then Refuses(stored, o, StepLocked)
            else
              match layer
              case NoLayer => Refuses(stored, o, InvalidSemanticLayer)
              case LookupFailed => Refuses(stored, o, External)
              case Layer(approved, approvedAt) =>
                if !approved then Refuses(stored, o, InvalidSemanticLayer)
                else
                  && Writes(stored, o, after, up, listed) && after.step == 6 && after.completedAt == r.completedAt
                  && after.payload.semanticLayerID == layerID
                  && after.payload.semanticApproved == (if approvedAt.Some? then approvedAt else Some(now))
                  && after.payload == r.payload.(semanticLayerID := after.payload.semanticLayerID,
                                                 semanticApproved := after.payload.semanticApproved)
  {
    var r := Loaded(stored);
    after := r;
    if layer.Layer? {
      after := r.(payload := r.payload.(semanticLayerID := layerID,
                                        semanticApproved := if layer.approvedAt.Some? then layer.approvedAt else Some(now)),
                  step := 6);
    }
  }

  /** The last steps change nothing but the step and, once, the completion time; inviting changes nothing. */
  lemma EndStores(stored: Option<Record>, now: Instant, up: bool, valid: bool, created: bool, listed: bool)
    ensures var r := Loaded(stored);
            var starter := OutcomeOf(stored, Asked(Owner, CompleteStarterStep(up), listed));
            var complete := OutcomeOf(stored, Asked(Owner, CompleteOnboarding(now, up), listed));
            var invites := OutcomeOf(stored, Asked(Owner, Request.CreateInvites(valid, created), listed));
            && (if r.step < 6 then Refuses(stored, starter, InvalidStep) else Writes(stored, starter, r.(step := 7), up, listed))
            && (if r.step < 7 then Refuses(stored, complete, InvalidStep)
                else Writes(stored, complete,
                            r.(step := 7, completedAt := if r.completedAt.Some? then r.completedAt else Some(now)), up, listed))
            && invites.stored == stored
            && (if r.step < 7 then Refuses(stored, invites, InvalidStep)
                else if !valid then Refuses(stored, invites, InvalidInvite)
                else if !created || !listed then Refuses(stored, invites, External)
                else invites.shown == Some(r) && invites.err == None)
  {
  }
}
