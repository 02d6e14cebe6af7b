/**
 * The dashboard, workflow and tenant-management endpoints (app/api/v1/endpoints/admin.py).
 * Each handler takes the store and the caller as resolved by authentication.
 */
module Admin {
  import opened Wrappers
  import opened Http
  import opened Rbac
  import opened TenantModel
  import opened Store
  import opened Workflow

  /** The authenticated caller: uid, e-mail (missing when the token carries none) and role string, trusted as given. */
  datatype CurrentUser = CurrentUser(uid: string, email: Option<string>, role: string)

  predicate Distinct(ids: seq<string>)
  {
    forall i, j :: 0 <= i < j < |ids| ==> ids[i] != ids[j]
  }

  // ---- Dashboard listing ----

  /** One row of "my tenants". */
  datatype TenantSummary = TenantSummary(name: Option<string>, slug: Option<string>, status: string, tenantId: Option<string>)

  /** The row for a document; a missing status reads `draft`. */
  function Summarize(doc: TenantDoc): TenantSummary
  {
    TenantSummary(doc.clientName, doc.slug, doc.approvalStatus.GetOr(Draft), doc.tenantId)
  }

  /**
   * Whether a document is listed for a caller with this role string and these assignments:
   * `super_admin` sees every tenant; any other role sees the tenants whose `tenant_id` field
   * is one of its assignments.
   */
  predicate ListedFor(role: string, assignments: seq<string>, doc: TenantDoc)
  {
    role == "super_admin" || (doc.tenantId.Some? && doc.tenantId.value in assignments)
  }

  /** Whether document `id` is listed for `user`; a caller with no user record sees nothing. */
  ghost predicate Visible(db: Database, user: CurrentUser, id: string)
    reads db
  {
    id in db.tenants && user.uid in db.users && ListedFor(user.role, AssignedIds(db.users[user.uid]), db.tenants[id])
  }

  /**
   * `get_user_tenants`: 403 without `VIEW_DASHBOARD`; otherwise one summary per visible tenant,
   * each exactly once (`ids` are the listed document ids, in listing order).
   */
  method GetUserTenants(db: Database, user: CurrentUser) returns (r: Response<seq<TenantSummary>>, ghost ids: seq<string>)
    ensures r.Raised? <==> !CheckPermission(user.role, ViewDashboard)
    ensures r.Raised? ==> r.error == AccessDenied
    ensures r.Ok? ==> Distinct(ids) && |r.body| == |ids|
    ensures r.Ok? ==> forall id :: id in ids <==> Visible(db, user, id)
    ensures r.Ok? ==> forall i :: 0 <= i < |ids| ==> ids[i] in db.tenants && r.body[i] == Summarize(db.tenants[ids[i]])
    ensures r.Ok? ==> forall i :: 0 <= i < |ids| ==>
      r.body[i].status == (if db.tenants[ids[i]].approvalStatus.None? then Draft else db.tenants[ids[i]].approvalStatus.value)
    ensures r.Ok? && user.uid !in db.users ==> r.body == []
    ensures r.Ok? && user.uid in db.users && user.role != "super_admin" && AssignedIds(db.users[user.uid]) == [] ==> r.body == []
  {
    ids := [];
    if !CheckPermission(user.role, ViewDashboard) {
      return Raised(AccessDenied), ids;
    }
    if user.uid !in db.users {
      return Ok([]), ids;
    }
    var assignedIds := AssignedIds(db.users[user.uid]);
    if user.role != "super_admin" && assignedIds == [] {
      return Ok([]), ids;
    }
    var tenantsList: seq<TenantSummary> := [];
    var remaining := db.tenants.Keys;
    while remaining != {}
      invariant remaining <= db.tenants.Keys
      invariant Distinct(ids) && |tenantsList| == |ids|
      invariant forall id :: id in ids <==> id in db.tenants && id !in remaining && ListedFor(user.role, assignedIds, db.tenants[id])
      invariant forall i :: 0 <= i < |ids| ==> ids[i] in db.tenants && tenantsList[i] == Summarize(db.tenants[ids[i]])
      decreases remaining
    {
      var id :| id in remaining;
      remaining := remaining - {id};
      var t := db.tenants[id];
      if ListedFor(user.role, assignedIds, t) {
        tenantsList := tenantsList + [Summarize(t)];
        ids := ids + [id];
      }
    }
    r := Ok(tenantsList);
  }

  // ---- Approval queue ----

  /** The status whose tenants a role's approval queue holds: only `admin` and `super_admin` have one. */
  function QueueStatus(role: string): (s: Option<string>)
    ensures s == Some(PendingAdmin) <==> role == "admin"
    ensures s == Some(PendingSuperAdmin) <==> role == "super_admin"
    ensures s.None? <==> role != "admin" && role != "super_admin"
  {
    if role == "admin" then Some(PendingAdmin)
    else if role == "super_admin" then Some(PendingSuperAdmin)
    else None
  }

  predicate InQueueOf(role: string, doc: TenantDoc)
  {
    QueueStatus(role).Some? && doc.approvalStatus == QueueStatus(role)
  }

  /** One entry of the approval queue. */
  datatype PendingItem = PendingItem(tenantId: Option<string>, clientName: Option<string>,
                                     modifiedBy: Option<string>, changes: Option<ConfigDict>)

  function PendingEntry(doc: TenantDoc): PendingItem
  {
    PendingItem(doc.tenantId, doc.clientName, doc.lastModifiedBy, doc.pendingConfig)
  }

  /**
   * `list_pending_approvals`: no permission check; an entry for each tenant in the caller's
   * queue, each exactly once, and nothing for a role without a queue.
   */
  method ListPendingApprovals(db: Database, user: CurrentUser) returns (pending: seq<PendingItem>, ghost ids: seq<string>)
    ensures QueueStatus(user.role).None? ==> pending == []
    ensures Distinct(ids) && |pending| == |ids|
    ensures forall id :: id in ids <==> id in db.tenants && InQueueOf(user.role, db.tenants[id])
    ensures forall i :: 0 <= i < |ids| ==> ids[i] in db.tenants && pending[i] == PendingEntry(db.tenants[ids[i]])
  {
    ids := [];
    var targetStatus := QueueStatus(user.role);
    if targetStatus.None? {
      return [], ids;
    }
    pending := [];
    var remaining := db.tenants.Keys;
    while remaining != {}
      invariant remaining <= db.tenants.Keys
      invariant Distinct(ids) && |pending| == |ids|
      invariant forall id :: id in ids <==> id in db.tenants && id !in remaining && db.tenants[id].approvalStatus == targetStatus
      invariant forall i :: 0 <= i < |ids| ==> ids[i] in db.tenants && pending[i] == PendingEntry(db.tenants[ids[i]])
      decreases remaining
    {
      var id :| id in remaining;
      remaining := remaining - {id};
      var t := db.tenants[id];
      if t.approvalStatus == targetStatus {
        pending := pending + [PendingEntry(t)];
        ids := ids + [id];
      }
    }
  }

  /** `list_all_tenants`: 403 without `MANAGE_USERS`, else every stored document exactly once. */
  method ListAllTenants(db: Database, user: CurrentUser) returns (r: Response<seq<TenantDoc>>, ghost ids: seq<string>)
    ensures r.Raised? <==> !CheckPermission(user.role, ManageUsers)
    ensures r.Raised? ==> r.error == PermissionDenied
    ensures r.Ok? ==> Distinct(ids) && |r.body| == |ids|
    ensures r.Ok? ==> forall id :: id in ids <==> id in db.tenants
    ensures r.Ok? ==> forall i :: 0 <= i < |ids| ==> ids[i] in db.tenants && r.body[i] == db.tenants[ids[i]]
  {
    ids := [];
    if !CheckPermission(user.role, ManageUsers) {
      return Raised(PermissionDenied), ids;
    }
    var tenants: seq<TenantDoc> := [];
    var remaining := db.tenants.Keys;
    while remaining != {}
      invariant remaining <= db.tenants.Keys
      invariant Distinct(ids) && |tenants| == |ids|
      invariant forall id :: id in ids <==> id in db.tenants && id !in remaining
      invariant forall i :: 0 <= i < |ids| ==> ids[i] in db.tenants && tenants[i] == db.tenants[ids[i]]
      decreases remaining
    {
      var id :| id in remaining;
      remaining := remaining - {id};
      tenants := tenants + [db.tenants[id]];
      ids := ids + [id];
    }
    r := Ok(tenants);
  }

  // ---- Workflow gates ----

  /** `submit_draft`: 403 without `EDIT_DRAFT`, else the workflow submission of `config.dict()`. */
  method SubmitDraft(db: Database, tenantId: string, config: ChatbotConfig, user: CurrentUser) returns (r: Response<string>)
    modifies db`tenants
    ensures !CheckPermission(user.role, EditDraft) ==> r == Raised(PermissionDenied) && db.tenants == old(db.tenants)
    ensures CheckPermission(user.role, EditDraft) ==>
      Step(r, db.tenants) == Submission(old(db.tenants), tenantId, ConfigToDict(config), user.role, user.email)
  {
    if !CheckPermission(user.role, EditDraft) {
      return Raised(PermissionDenied);
    }
    r := ProcessSubmission(db, tenantId, ConfigToDict(config), user.role, user.email);
  }

  /**
   * `approve_config`: 403 without `SUBMIT_REVIEW` (so `super_user` and `user` are turned away
   * before the engine), else the workflow approval.
   */
  method ApproveConfig(db: Database, tenantId: string, user: CurrentUser) returns (r: Response<ApprovalOutcome>)
    modifies db`tenants
    ensures !CheckPermission(user.role, SubmitReview) ==> r == Raised(PermissionDenied) && db.tenants == old(db.tenants)
    ensures user.role == "super_user" || user.role == "user" ==> r == Raised(PermissionDenied)
    ensures CheckPermission(user.role, SubmitReview) ==>
      Step(r, db.tenants) == Approval(old(db.tenants), tenantId, user.role, user.email)
  {
    if !CheckPermission(user.role, SubmitReview) {
      return Raised(PermissionDenied);
    }
    r := ProcessApproval(db, tenantId, user.role, user.email);
  }

  // ---- Tenant management ----

  /** A request payload with string values; a key that is not there is a missing field. */
  type Payload = map<string, string>

  function Get(payload: Payload, key: string): Option<string>
  {
    if key in payload then Some(payload[key]) else None
  }

  /** Python falsiness of `payload.get(key)`: missing or the empty string. */
  predicate Blank(payload: Payload, key: string)
  {
    key !in payload || payload[key] == ""
  }

  /** The configuration a new tenant starts live with. */
  function InitialConfig(payload: Payload): (c: ChatbotConfig)
    ensures c.botName == Get(payload, "bot_name").GetOr("My Bot")
    ensures c.primaryColor == Get(payload, "primary_color").GetOr("#10B981")
    ensures c.welcomeMessage == Get(payload, "welcome_message").GetOr("Hello! How can we help?")
    ensures c.logoUrl == Some("https://via.placeholder.com/150")
  {
    MakeChatbotConfig(Some(Get(payload, "bot_name").GetOr("My Bot")),
                      Some(Get(payload, "primary_color").GetOr(DefaultPrimaryColor)),
                      Some(Get(payload, "welcome_message").GetOr("Hello! How can we help?")),
                      Some("https://via.placeholder.com/150")).value
  }

  /**
   * Create a tenant: 403 without `MANAGE_USERS`, then 400 for a blank id or slug, then 400 for
   * an id already in use, then a validation failure for a missing client name or caller e-mail; on success the
   * one new document is published with a live config and no draft.
   */
  function Creation(tenants: map<string, TenantDoc>, payload: Payload, user: CurrentUser): (s: Step<string>)
    ensures !CheckPermission(user.role, ManageUsers) ==> s == Step(Raised(PermissionDenied), tenants)
    ensures CheckPermission(user.role, ManageUsers) && (Blank(payload, "tenant_id") || Blank(payload, "slug")) ==>
      s == Step(Raised(IdAndSlugRequired), tenants)
    ensures (CheckPermission(user.role, ManageUsers) && !Blank(payload, "tenant_id") && !Blank(payload, "slug")
             && payload["tenant_id"] in tenants) ==>
      s == Step(Raised(TenantIdExists), tenants)
    ensures (CheckPermission(user.role, ManageUsers) && !Blank(payload, "tenant_id") && !Blank(payload, "slug")
             && payload["tenant_id"] !in tenants && ("client_name" !in payload || user.email.None?)) ==>
      s == Step(Raised(ServerError), tenants)
    ensures s.response.Raised? ==> s.tenants == tenants
    ensures s.response.Ok? <==>
      && CheckPermission(user.role, ManageUsers) && !Blank(payload, "tenant_id") && !Blank(payload, "slug")
      && payload["tenant_id"] !in tenants && "client_name" in payload && user.email.Some?
    ensures s.response.Ok? ==>
      var id := payload["tenant_id"];
      && s.response.body == "/" + payload["slug"]
      && s.tenants.Keys == tenants.Keys + {id}
      && (forall k :: k in tenants ==> s.tenants[k] == tenants[k])
      && s.tenants[id] == TenantDocument(Tenant(id, payload["client_name"], payload["slug"],
                                                Some(InitialConfig(payload)), None, Published, user.email.value))
      && s.tenants[id].approvalStatus == Some(Published)
      && s.tenants[id].liveConfig == Some(ConfigToDict(InitialConfig(payload)))
      && s.tenants[id].pendingConfig.None?
  {
    if !CheckPermission(user.role, ManageUsers) then Step(Raised(PermissionDenied), tenants)
    else if Blank(payload, "tenant_id") || Blank(payload, "slug") then Step(Raised(IdAndSlugRequired), tenants)
    else
      var tenantId, slug := payload["tenant_id"], payload["slug"];
      if tenantId in tenants then Step(Raised(TenantIdExists), tenants)
      else
        match MakeTenant(Some(tenantId), Get(payload, "client_name"), Some(slug), user.email,
                         Some(InitialConfig(payload)), None, Some(Published))
        case None => Step(Raised(ServerError), tenants)
        case Some(t) => Step(Ok("/" + slug), tenants[tenantId := TenantDocument(t)])
  }

  /** `create_tenant`, writing the new document into the store. */
  method CreateTenant(db: Database, payload: Payload, user: CurrentUser) returns (r: Response<string>)
    modifies db`tenants
    ensures Step(r, db.tenants) == Creation(old(db.tenants), payload, user)
  {
    if !CheckPermission(user.role, ManageUsers) {
      return Raised(PermissionDenied);
    }
    var tenantId, slug := Get(payload, "tenant_id"), Get(payload, "slug");
    if tenantId.None? || tenantId.value == "" || slug.None? || slug.value == "" {
      return Raised(IdAndSlugRequired);
    }
    if tenantId.value in db.tenants {
      return Raised(TenantIdExists);
    }
    var initialConfig := InitialConfig(payload);
    var newTenant := MakeTenant(tenantId, Get(payload, "client_name"), slug, user.email,
                                Some(initialConfig), None, Some(Published));
    if newTenant.None? {
      return Raised(ServerError);
    }
    db.tenants := db.tenants[tenantId.value := TenantDocument(newTenant.value)];
    r := Ok("/" + slug.value);
  }

  /** Delete a tenant: 403 without `MANAGE_USERS`, else that one document goes and nothing else changes. */
  function Deletion(tenants: map<string, TenantDoc>, tenantId: string, user: CurrentUser): (s: Step<string>)
    ensures !CheckPermission(user.role, ManageUsers) ==> s == Step(Raised(PermissionDenied), tenants)
    ensures CheckPermission(user.role, ManageUsers) ==> s.response == Ok("Tenant " + tenantId + " offboarded.")
    ensures s.response.Ok? ==> s.tenants.Keys == tenants.Keys - {tenantId}
    ensures s.response.Ok? ==> forall k :: k in s.tenants ==> s.tenants[k] == tenants[k]
  {
    if !CheckPermission(user.role, ManageUsers) then Step(Raised(PermissionDenied), tenants)
    else Step(Ok("Tenant " + tenantId + " offboarded."), tenants - {tenantId})
  }

  /** `delete_tenant`, removing the document from the store (a missing id is not an error). */
  method DeleteTenant(db: Database, tenantId: string, user: CurrentUser) returns (r: Response<string>)
    modifies db`tenants
    ensures Step(r, db.tenants) == Deletion(old(db.tenants), tenantId, user)
  {
    if !CheckPermission(user.role, ManageUsers) {
      return Raised(PermissionDenied);
    }
    db.tenants := db.tenants - {tenantId};
    r := Ok("Tenant " + tenantId + " offboarded.");
  }
}
