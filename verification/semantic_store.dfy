/** The table of semantic layers, its two transactions, and the choices its readers make between draft and approved. */
module SemanticStore {
  import opened Common

  datatype Status = Draft | Approved | Archived

  datatype Row = Row(tenantID: Uuid, schemaVersionID: Uuid, status: Status, content: string, createdAt: Instant,
                     approvedAt: Option<Instant>, approvedByUserID: Option<string>)

  type Rows = map<Uuid, Row>

  predicate Of(r: Row, tenantID: Uuid, schemaVersionID: Uuid) { r.tenantID == tenantID && r.schemaVersionID == schemaVersionID }

  /** The partial unique indexes of the table: one draft and one approved layer for a schema version of a tenant. */
  ghost predicate OneLive(rows: Rows) {
    forall a, b | a in rows && b in rows && a != b && Of(rows[a], rows[b].tenantID, rows[b].schemaVersionID) ::
      rows[a].status != rows[b].status || rows[a].status == Archived
  }

  /** The rows once those of the schema version with a status in `statuses`, but for row `spared`, are archived. */
  function ArchivedIn(rows: Rows, tenantID: Uuid, schemaVersionID: Uuid, statuses: set<Status>, spared: Option<Uuid>): Rows {
    map id | id in rows ::
      if Of(rows[id], tenantID, schemaVersionID) && rows[id].status in statuses && spared != Some(id)
      then rows[id].(status := Archived) else rows[id]
  }

  function Drafted(rows: Rows, tenantID: Uuid, schemaVersionID: Uuid, content: string, id: Uuid, now: Instant): Rows {
    ArchivedIn(rows, tenantID, schemaVersionID, {Draft}, None)
      [id := Row(tenantID, schemaVersionID, Draft, content, now, None, None)]
  }

  predicate Known(rows: Rows, tenantID: Uuid, id: Uuid) { id in rows && rows[id].tenantID == tenantID }

  function ApprovedRow(r: Row, at: Instant, user: string): Row {
    r.(status := Approved, approvedAt := Some(at), approvedByUserID := Some(user))
  }

  function ApprovedIn(rows: Rows, tenantID: Uuid, id: Uuid, at: Instant, user: string): Rows
    requires Known(rows, tenantID, id)
  {
    ArchivedIn(rows, tenantID, rows[id].schemaVersionID, {Draft, Approved}, Some(id))[id := ApprovedRow(rows[id], at, user)]
  }

  class TenantSemanticLayerRepository {
    var rows: Rows

    constructor ()
      ensures rows == map[]
    {
      rows := map[];
    }

    /** One transaction; `id` is the one the database makes up.  Every statement in it respects the unique indexes. */
    method CreateDraftVersion(tenantID: Uuid, schemaVersionID: Uuid, content: string, id: Uuid, now: Instant) returns (created: Row)
      requires OneLive(rows) && id !in rows
      modifies this
      ensures OneLive(rows)
      ensures rows == Drafted(old(rows), tenantID, schemaVersionID, content, id, now)
      ensures id in rows && created == rows[id]
      ensures created.content == content && created.tenantID == tenantID && created.schemaVersionID == schemaVersionID
      ensures created.status == Draft && created.createdAt == now && created.approvedAt == None && created.approvedByUserID == None
    {
      rows := ArchivedIn(rows, tenantID, schemaVersionID, {Draft}, None);
      assert OneLive(rows);
      created := Row(tenantID, schemaVersionID, Draft, content, now, None, None);
      rows := rows[id := created];
    }

    method Approve(tenantID: Uuid, id: Uuid, approvedAt: Instant, approvedByUserID: string) returns (approved: Option<Row>)
      requires OneLive(rows)
      modifies this
      ensures OneLive(rows)
      ensures approved == None <==> !Known(old(rows), tenantID, id)
      ensures approved == None ==> rows == old(rows)
      ensures approved.Some? ==>
                && rows == ApprovedIn(old(rows), tenantID, id, approvedAt, approvedByUserID)
                && id in rows && approved == Some(rows[id])
                && approved.value.status == Approved && approved.value.content == old(rows)[id].content
                && approved.value.approvedAt == Some(approvedAt) && approved.value.approvedByUserID == Some(approvedByUserID)
    {
      if !(id in rows && rows[id].tenantID == tenantID) {
        return None;
      }
      var target := rows[id];
      rows := ArchivedIn(rows, tenantID, target.schemaVersionID, {Draft, Approved}, Some(id));
      assert OneLive(rows);
      rows := rows[id := rows[id].(status := Approved, approvedAt := Some(approvedAt), approvedByUserID := Some(approvedByUserID))];
      return Some(rows[id]);
    }

    /** Some layer of the schema version with the given status; which one does not matter where there is only one. */
    method LatestBySchemaVersion(tenantID: Uuid, schemaVersionID: Uuid, status: Status) returns (found: Option<Uuid>)
      requires OneLive(rows) && status != Archived
      ensures found == LiveIn(rows, tenantID, schemaVersionID, status)
    {
      found := None;
      var rest := rows.Keys;
      while rest != {}
        invariant rest <= rows.Keys
        invariant found.Some? ==>
                    found.value in rows && Of(rows[found.value], tenantID, schemaVersionID) && rows[found.value].status == status
        invariant found == None ==>
                    forall id | id in rows && id !in rest :: !(Of(rows[id], tenantID, schemaVersionID) && rows[id].status == status)
        decreases |rest|
      {
        var id := AnyOf(rest);
        rest := rest - {id};
        if Of(rows[id], tenantID, schemaVersionID) && rows[id].status == status {
          if found == None || rows[id].createdAt > rows[found.value].createdAt {
            found := Some(id);
          }
        }
      }
      if found.Some? {
        LiveIsUnique(rows, tenantID, schemaVersionID, status, found.value);
      }
    }
  }

  /** The draft, or the approved layer, of a schema version. */
  ghost function LiveIn(rows: Rows, tenantID: Uuid, schemaVersionID: Uuid, status: Status): Option<Uuid> {
    if exists id :: id in rows && Of(rows[id], tenantID, schemaVersionID) && rows[id].status == status then
      var id :| id in rows && Of(rows[id], tenantID, schemaVersionID) && rows[id].status == status;
      Some(id)
    else None
  }

  lemma LiveIsUnique(rows: Rows, tenantID: Uuid, schemaVersionID: Uuid, status: Status, id: Uuid)
    requires OneLive(rows) && status != Archived
    requires id in rows && Of(rows[id], tenantID, schemaVersionID) && rows[id].status == status
    ensures LiveIn(rows, tenantID, schemaVersionID, status) == Some(id)
  {
    var live := LiveIn(rows, tenantID, schemaVersionID, status);
    assert live.Some?;
  }

  // ----- every run of transactions

  datatype Transaction =
    | CreateDraft(tenantID: Uuid, schemaVersionID: Uuid, content: string, id: Uuid, now: Instant)
    | Approval(tenantID: Uuid, id: Uuid, at: Instant, user: string)

  predicate CanDo(rows: Rows, t: Transaction) { t.CreateDraft? ==> t.id !in rows }

  function Done(rows: Rows, t: Transaction): Rows {
    match t
    case CreateDraft(tenantID, schemaVersionID, content, id, now) => Drafted(rows, tenantID, schemaVersionID, content, id, now)
    case Approval(tenantID, id, at, user) => if Known(rows, tenantID, id) then ApprovedIn(rows, tenantID, id, at, user) else rows
  }

  predicate CanRun(rows: Rows, run: seq<Transaction>)
    decreases |run|
  {
    run == [] || (CanDo(rows, run[0]) && CanRun(Done(rows, run[0]), run[1..]))
  }

  function AfterRun(rows: Rows, run: seq<Transaction>): Rows
    decreases |run|
  {
    if run == [] then rows else AfterRun(Done(rows, run[0]), run[1..])
  }

  lemma DraftKeepsOneLive(rows: Rows, tenantID: Uuid, schemaVersionID: Uuid, content: string, id: Uuid, now: Instant)
    requires OneLive(rows) && id !in rows
    ensures OneLive(Drafted(rows, tenantID, schemaVersionID, content, id, now))
  {
  }

  lemma ApprovalKeepsOneLive(rows: Rows, tenantID: Uuid, id: Uuid, at: Instant, user: string)
    requires OneLive(rows) && Known(rows, tenantID, id)
    ensures OneLive(ApprovedIn(rows, tenantID, id, at, user))
  {
  }

  /** In every run of transactions no schema version of a tenant has two drafts or two approved layers. */
  lemma {:induction false} RunKeepsOneLive(rows: Rows, run: seq<Transaction>)
    requires OneLive(rows) && CanRun(rows, run)
    ensures OneLive(AfterRun(rows, run))
    decreases |run|
  {
    if run == [] {
    } else {
      hide OneLive, Drafted, ApprovedIn;
      match run[0] {
      case CreateDraft(tenantID, schemaVersionID, content, id, now) =>
        DraftKeepsOneLive(rows, tenantID, schemaVersionID, content, id, now);
      case Approval(tenantID, id, at, user) => if Known(rows, tenantID, id) { ApprovalKeepsOneLive(rows, tenantID, id, at, user); }
      }
      RunKeepsOneLive(Done(rows, run[0]), run[1..]);
    }
  }

  /** Approval leaves its target the only live layer of its schema version, and touches no other schema version. */
  lemma ApprovalLeavesOnlyTarget(rows: Rows, tenantID: Uuid, id: Uuid, at: Instant, user: string)
    requires Known(rows, tenantID, id)
    ensures var after := ApprovedIn(rows, tenantID, id, at, user);
            && after.Keys == rows.Keys
            && after[id] == ApprovedRow(rows[id], at, user)
            && (forall other | other in rows && other != id ::
                  if Of(rows[other], tenantID, rows[id].schemaVersionID) then after[other] == rows[other].(status := Archived)
                  else after[other] == rows[other])
  {
    forall other | other in rows && rows[other].status == Archived
      ensures rows[other].(status := Archived) == rows[other]
    {
    }
  }

  lemma LiveInAgrees(before: Rows, after: Rows, tenantID: Uuid, schemaVersionID: Uuid, status: Status)
    requires OneLive(before) && status != Archived
    requires forall id | id in before || id in after ::
               (id in before && Of(before[id], tenantID, schemaVersionID) && before[id].status == status) <==>
               (id in after && Of(after[id], tenantID, schemaVersionID) && after[id].status == status)
    ensures LiveIn(after, tenantID, schemaVersionID, status) == LiveIn(before, tenantID, schemaVersionID, status)
  {
    if id :| id in after && Of(after[id], tenantID, schemaVersionID) && after[id].status == status {
      var live := LiveIn(after, tenantID, schemaVersionID, status).value;
      LiveIsUnique(before, tenantID, schemaVersionID, status, live);
    }
  }

  /**
   A new draft is what the page then works on and, until it is approved, changes nothing else: the approved layer beside
   it and the live layers of every other schema version and tenant are the ones there were.
   */
  lemma DraftBecomesCurrent(rows: Rows, tenantID: Uuid, schemaVersionID: Uuid, content: string, id: Uuid, now: Instant,
                            ofTenant: Uuid, ofVersion: Uuid, status: Status)
    requires OneLive(rows) && id !in rows && status != Archived
    ensures LiveIn(Drafted(rows, tenantID, schemaVersionID, content, id, now), ofTenant, ofVersion, status) ==
            if ofTenant == tenantID && ofVersion == schemaVersionID && status == Draft then Some(id)
            else LiveIn(rows, ofTenant, ofVersion, status)
  {
    var after := Drafted(rows, tenantID, schemaVersionID, content, id, now);
    DraftKeepsOneLive(rows, tenantID, schemaVersionID, content, id, now);
    if ofTenant == tenantID && ofVersion == schemaVersionID && status == Draft {
      LiveIsUnique(after, tenantID, schemaVersionID, Draft, id);
    } else {
      LiveInAgrees(rows, after, ofTenant, ofVersion, status);
    }
  }

  /** Approving a draft makes it the approved layer and leaves no draft beside it, again without effect on any other. */
  lemma ApprovalBecomesTheAnswer(rows: Rows, tenantID: Uuid, id: Uuid, at: Instant, user: string,
                                 ofTenant: Uuid, ofVersion: Uuid, status: Status)
    requires OneLive(rows) && Known(rows, tenantID, id) && status != Archived
    ensures LiveIn(ApprovedIn(rows, tenantID, id, at, user), ofTenant, ofVersion, status) ==
            if ofTenant == tenantID && ofVersion == rows[id].schemaVersionID then (if status == Approved then Some(id) else None)
            else LiveIn(rows, ofTenant, ofVersion, status)
  {
    var after := ApprovedIn(rows, tenantID, id, at, user);
    ApprovalKeepsOneLive(rows, tenantID, id, at, user);
    if ofTenant == tenantID && ofVersion == rows[id].schemaVersionID {
      LiveIsUnique(after, tenantID, ofVersion, Approved, id);
    } else {
      LiveInAgrees(rows, after, ofTenant, ofVersion, status);
    }
  }

  // ----- what a run does to a row

  /** No transaction changes what a layer says, whose it is, or when it was made. */
  lemma {:induction false} ContentStays(rows: Rows, run: seq<Transaction>, id: Uuid)
    requires CanRun(rows, run) && id in rows
    ensures var after := AfterRun(rows, run);
            && id in after
            && after[id].content == rows[id].content && after[id].tenantID == rows[id].tenantID
            && after[id].schemaVersionID == rows[id].schemaVersionID && after[id].createdAt == rows[id].createdAt
    decreases |run|
  {
    if run == [] {
    } else {
      ContentStays(Done(rows, run[0]), run[1..], id);
    }
  }

  /** No transaction of the run drafts or approves for the schema version. */
  predicate Elsewhere(rows: Rows, run: seq<Transaction>, tenantID: Uuid, schemaVersionID: Uuid)
    requires CanRun(rows, run)
    decreases |run|
  {
    run == [] ||
    (&& (match run[0]
         case CreateDraft(t, v, _, _, _) => t != tenantID || v != schemaVersionID
         case Approval(t, id, _, _) =>
           t == tenantID && id in rows && rows[id].tenantID == tenantID ==> rows[id].schemaVersionID != schemaVersionID)
     && Elsewhere(Done(rows, run[0]), run[1..], tenantID, schemaVersionID))
  }

  lemma {:induction false} RowStaysElsewhere(rows: Rows, run: seq<Transaction>, id: Uuid)
    requires CanRun(rows, run) && id in rows && Elsewhere(rows, run, rows[id].tenantID, rows[id].schemaVersionID)
    ensures id in AfterRun(rows, run) && AfterRun(rows, run)[id] == rows[id]
    decreases |run|
  {
    if run == [] {
    } else {
      assert Done(rows, run[0])[id] == rows[id];
      RowStaysElsewhere(Done(rows, run[0]), run[1..], id);
    }
  }

  /**
   A draft that was saved is found again: whatever other schema versions go through, it is the live draft of its own, with
   the content, tenant, schema version and time it was made with, and not approved.
   */
  lemma SavedDraftIsFound(rows: Rows, tenantID: Uuid, schemaVersionID: Uuid, content: string, id: Uuid, now: Instant,
                          run: seq<Transaction>)
    requires OneLive(rows) && id !in rows
    requires var drafted := Done(rows, CreateDraft(tenantID, schemaVersionID, content, id, now));
             CanRun(drafted, run) && Elsewhere(drafted, run, tenantID, schemaVersionID)
    ensures var after := AfterRun(Done(rows, CreateDraft(tenantID, schemaVersionID, content, id, now)), run);
            && LiveIn(after, tenantID, schemaVersionID, Draft) == Some(id) && id in after
            && after[id].content == content && after[id].tenantID == tenantID && after[id].schemaVersionID == schemaVersionID
            && after[id].status == Draft && after[id].createdAt == now
            && after[id].approvedAt == None && after[id].approvedByUserID == None
  {
    var drafted := Done(rows, CreateDraft(tenantID, schemaVersionID, content, id, now));
    DraftKeepsOneLive(rows, tenantID, schemaVersionID, content, id, now);
    RunKeepsOneLive(drafted, run);
    RowStaysElsewhere(drafted, run, id);
    LiveIsUnique(AfterRun(drafted, run), tenantID, schemaVersionID, Draft, id);
  }

  /** An approved layer says what its draft said, and by whom and when it was approved, whatever other versions go through. */
  lemma ApprovedLayerIsFound(rows: Rows, tenantID: Uuid, id: Uuid, at: Instant, user: string, run: seq<Transaction>)
    requires OneLive(rows) && id in rows && rows[id].tenantID == tenantID
    requires var approved := Done(rows, Approval(tenantID, id, at, user));
             CanRun(approved, run) && Elsewhere(approved, run, tenantID, rows[id].schemaVersionID)
    ensures var after := AfterRun(Done(rows, Approval(tenantID, id, at, user)), run);
            && LiveIn(after, tenantID, rows[id].schemaVersionID, Approved) == Some(id) && id in after
            && after[id].content == rows[id].content && after[id].createdAt == rows[id].createdAt
            && after[id].status == Approved && after[id].approvedAt == Some(at) && after[id].approvedByUserID == Some(user)
  {
    var approved := Done(rows, Approval(tenantID, id, at, user));
    ApprovalKeepsOneLive(rows, tenantID, id, at, user);
    RunKeepsOneLive(approved, run);
    assert approved[id].schemaVersionID == rows[id].schemaVersionID && approved[id].tenantID == tenantID;
    RowStaysElsewhere(approved, run, id);
    LiveIsUnique(AfterRun(approved, run), tenantID, rows[id].schemaVersionID, Approved, id);
  }

  // ----- the readers

  /** What the semantic-layer page shows: the layer to work on, and the approved one beside a draft. */
  datatype Page = Page(hasSchema: bool, needsDraft: bool, current: Option<Uuid>, baseline: Option<Uuid>)

  datatype Source = FromApproved | FromDraft | FromRawSchema

  method Get(repository: TenantSemanticLayerRepository, tenantID: Uuid, latestSchema: Option<Uuid>) returns (page: Page)
    requires OneLive(repository.rows)
    ensures page.hasSchema == latestSchema.Some?
    ensures latestSchema == None ==> page == Page(false, false, None, None)
    ensures latestSchema.Some? ==>
              var draft := LiveIn(repository.rows, tenantID, latestSchema.value, Draft);
              var approved := LiveIn(repository.rows, tenantID, latestSchema.value, Approved);
              && page.current == (if draft.Some? then draft else approved)
              && page.baseline == (if draft.Some? then approved else None)
              && page.needsDraft == (draft == None && approved == None)
  {
    if latestSchema == None {
      return Page(false, false, None, None);
    }
    page := Page(true, false, None, None);
    var draft := repository.LatestBySchemaVersion(tenantID, latestSchema.value, Draft);
    if draft.Some? {
      page := page.(current := draft);
    }
    var approved := repository.LatestBySchemaVersion(tenantID, latestSchema.value, Approved);
    if approved.Some? {
      if page.current == None {
        page := page.(current := approved);
      } else if page.current != approved {
        page := page.(baseline := approved);
      }
    }
    if page.current == None {
      page := page.(needsDraft := true);
    }
  }

  /** The layer a question is answered with. */
  method ResolvePromptContext(repository: TenantSemanticLayerRepository, tenantID: Uuid, schemaVersionID: Uuid)
    returns (layer: Option<Uuid>, source: Source)
    requires OneLive(repository.rows)
    ensures var draft := LiveIn(repository.rows, tenantID, schemaVersionID, Draft);
            var approved := LiveIn(repository.rows, tenantID, schemaVersionID, Approved);
            && layer == (if approved.Some? then approved else draft)
            && source == (if approved.Some? then FromApproved else if draft.Some? then FromDraft else FromRawSchema)
  {
    var approved := repository.LatestBySchemaVersion(tenantID, schemaVersionID, Approved);
    if approved.Some? {
      return approved, FromApproved;
    }
    var draft := repository.LatestBySchemaVersion(tenantID, schemaVersionID, Draft);
    if draft.Some? {
      return draft, FromDraft;
    }
    return None, FromRawSchema;
  }

  /** The page and the questions agree: questions use the baseline where one is shown, else the layer shown. */
  method PageAndQuestionsAgree(repository: TenantSemanticLayerRepository, tenantID: Uuid, schemaVersionID: Uuid)
    returns (page: Page, layer: Option<Uuid>, source: Source)
    requires OneLive(repository.rows)
    ensures layer == if page.baseline.Some? then page.baseline else page.current
    ensures source == FromRawSchema <==> page.needsDraft
    ensures page.baseline.Some? ==>
              && source == FromApproved && page.current.Some?
              && page.current.value in repository.rows && repository.rows[page.current.value].status == Draft
  {
    page := Get(repository, tenantID, Some(schemaVersionID));
    layer, source := ResolvePromptContext(repository, tenantID, schemaVersionID);
  }

  // ----- the controller's approval

  datatype ApproveError = LayerNotFound | LayerArchived

  /** An archived layer is refused, an approved one is left alone, a draft is approved. */
  method ApproveLayer(repository: TenantSemanticLayerRepository, tenantID: Uuid, id: Uuid, now: Instant, user: string)
    returns (layer: Option<Row>, err: Option<ApproveError>)
    requires OneLive(repository.rows)
    modifies repository
    ensures OneLive(repository.rows)
    ensures err == if !Known(old(repository.rows), tenantID, id) then Some(LayerNotFound)
                   else if old(repository.rows)[id].status == Archived then Some(LayerArchived) else None
    ensures err.Some? ==> layer == None && repository.rows == old(repository.rows)
    ensures err == None ==>
              && repository.rows == (if old(repository.rows)[id].status == Draft
                                     then ApprovedIn(old(repository.rows), tenantID, id, now, user) else old(repository.rows))
              && id in repository.rows && layer == Some(repository.rows[id]) && layer.value.status == Approved
  {
    var rows := repository.rows;
    if !(id in rows && rows[id].tenantID == tenantID) {
      return None, Some(LayerNotFound);
    }
    if rows[id].status == Archived {
      return None, Some(LayerArchived);
    }
    if rows[id].status == Approved {
      return Some(rows[id]), None;
    }
    layer := repository.Approve(tenantID, id, now, user);
    err := None;
  }
}
