/**
 * The approval state machine over the tenant collection (app/services/workflow.py).
 * `Submission` and `Approval` say what one call does to the collection; the methods
 * `ProcessSubmission` and `ProcessApproval` perform it on the store in place.
 */
module Workflow {
  import opened Wrappers
  import opened Http
  import opened Rbac
  import opened TenantModel
  import opened Store

  /** The response of an operation together with the tenant collection after it. */
  datatype Step<+T> = Step(response: Response<T>, tenants: map<string, TenantDoc>)

  /** Which of the two approvals happened: force-publish or escalation to the final stage. */
  datatype ApprovalOutcome = PublishedLive | SentToSuperAdmin

  /** The status a submission routes to: the final stage for a role that may publish, else the admin stage. */
  function NextStatus(role: string): (s: string)
    ensures s == PendingSuperAdmin <==> CheckPermission(role, PublishLive)
    ensures s == PendingAdmin <==> !CheckPermission(role, PublishLive)
  {
    if CheckPermission(role, PublishLive) then PendingSuperAdmin else PendingAdmin
  }

  /**
   * Submit for review (the caller's e-mail, possibly missing, is written as the editor): the permission check comes before the lookup, the current status is
   * never read, and the draft, the status and the editor are the only fields written.
   */
  function Submission(tenants: map<string, TenantDoc>, tenantId: string, config: ConfigDict,
                      role: string, email: Option<string>): (s: Step<string>)
    ensures !CheckPermission(role, EditDraft) ==> s == Step(Raised(EditDenied), tenants)
    ensures CheckPermission(role, EditDraft) && tenantId !in tenants ==> s == Step(Raised(TenantNotFound), tenants)
    ensures s.response.Ok? <==> CheckPermission(role, EditDraft) && tenantId in tenants
    ensures s.response.Ok? ==> s.response.body == NextStatus(role)
    ensures s.response.Ok? ==> s.tenants.Keys == tenants.Keys
    ensures s.response.Ok? ==> forall k :: k in tenants && k != tenantId ==> s.tenants[k] == tenants[k]
    ensures s.response.Ok? ==>
      var before, after := tenants[tenantId], s.tenants[tenantId];
      && after.pendingConfig == Some(config)
      && after.approvalStatus == Some(NextStatus(role))
      && after.lastModifiedBy == email
      && after.liveConfig == before.liveConfig
      && after.tenantId == before.tenantId && after.clientName == before.clientName && after.slug == before.slug
  {
    if !CheckPermission(role, EditDraft) then Step(Raised(EditDenied), tenants)
    else if tenantId !in tenants then Step(Raised(TenantNotFound), tenants)
    else
      var status := NextStatus(role);
      Step(Ok(status), tenants[tenantId := tenants[tenantId].(
        pendingConfig := Some(config), approvalStatus := Some(status), lastModifiedBy := email)])
  }

  /**
   * Approve: the lookup, then the pending-draft check (for every role), then force-publish
   * for a role that may publish, escalation from the admin stage for a role that may approve,
   * and refusal for every other role.
   */
  function Approval(tenants: map<string, TenantDoc>, tenantId: string, role: string, email: Option<string>)
    : (s: Step<ApprovalOutcome>)
    ensures tenantId !in tenants ==> s == Step(Raised(TenantNotFound), tenants)
    ensures tenantId in tenants && !Truthy(tenants[tenantId].pendingConfig) ==> s == Step(Raised(NoPendingChanges), tenants)
    ensures s.response.Raised? ==> s.tenants == tenants
    ensures s.response.Ok? ==> tenantId in tenants && s.tenants.Keys == tenants.Keys
    ensures s.response.Ok? ==> forall k :: k in tenants && k != tenantId ==> s.tenants[k] == tenants[k]
    ensures s.response == Ok(PublishedLive) <==>
      tenantId in tenants && Truthy(tenants[tenantId].pendingConfig) && CheckPermission(role, PublishLive)
    ensures s.response == Ok(PublishedLive) ==>
      var before, after := tenants[tenantId], s.tenants[tenantId];
      && after.liveConfig == before.pendingConfig
      && after.pendingConfig.None?
      && after.approvalStatus == Some(Published)
      && after.lastModifiedBy == email
      && after.tenantId == before.tenantId && after.clientName == before.clientName && after.slug == before.slug
    ensures s.response == Ok(SentToSuperAdmin) <==>
      && tenantId in tenants && Truthy(tenants[tenantId].pendingConfig)
      && !CheckPermission(role, PublishLive) && CheckPermission(role, ApproveToSuper)
      && tenants[tenantId].approvalStatus == Some(PendingAdmin)
    ensures s.response == Ok(SentToSuperAdmin) ==>
      s.tenants[tenantId] == tenants[tenantId].(approvalStatus := Some(PendingSuperAdmin), lastModifiedBy := email)
    ensures s.response == Raised(NotWaitingForAdmin) <==>
      && tenantId in tenants && Truthy(tenants[tenantId].pendingConfig)
      && !CheckPermission(role, PublishLive) && CheckPermission(role, ApproveToSuper)
      && tenants[tenantId].approvalStatus != Some(PendingAdmin)
    ensures s.response == Raised(NoApprovalPrivileges) <==>
      && tenantId in tenants && Truthy(tenants[tenantId].pendingConfig)
      && !CheckPermission(role, PublishLive) && !CheckPermission(role, ApproveToSuper)
  {
    if tenantId !in tenants then Step(Raised(TenantNotFound), tenants)
    else
      var doc := tenants[tenantId];
      if !Truthy(doc.pendingConfig) then Step(Raised(NoPendingChanges), tenants)
      else if CheckPermission(role, PublishLive) then
        Step(Ok(PublishedLive), tenants[tenantId := doc.(
          liveConfig := doc.pendingConfig, pendingConfig := None,
          approvalStatus := Some(Published), lastModifiedBy := email)])
      else if CheckPermission(role, ApproveToSuper) then
        if doc.approvalStatus != Some(PendingAdmin) then Step(Raised(NotWaitingForAdmin), tenants)
        else Step(Ok(SentToSuperAdmin), tenants[tenantId := doc.(
          approvalStatus := Some(PendingSuperAdmin), lastModifiedBy := email)])
      else Step(Raised(NoApprovalPrivileges), tenants)
  }

  /** `get_tenant_doc`: the stored document, or 404. */
  method GetTenantDoc(db: Database, tenantId: string) returns (r: Response<TenantDoc>)
    ensures tenantId in db.tenants <==> r.Ok?
    ensures r.Ok? ==> r.body == db.tenants[tenantId]
    ensures r.Raised? ==> r.error == TenantNotFound
  {
    if tenantId !in db.tenants {
      return Raised(TenantNotFound);
    }
    r := Ok(db.tenants[tenantId]);
  }

  /** `process_submission`, applying its partial update to the stored document in place. */
  method ProcessSubmission(db: Database, tenantId: string, configData: ConfigDict,
                           userRole: string, userEmail: Option<string>) returns (r: Response<string>)
    modifies db`tenants
    ensures Step(r, db.tenants) == Submission(old(db.tenants), tenantId, configData, userRole, userEmail)
  {
    if !CheckPermission(userRole, EditDraft) {
      return Raised(EditDenied);
    }
    var found := GetTenantDoc(db, tenantId);
    if found.Raised? {
      return Raised(found.error);
    }
    var doc := found.body;
    var newStatus := NextStatus(userRole);
    db.tenants := db.tenants[tenantId := doc.(
      pendingConfig := Some(configData), approvalStatus := Some(newStatus), lastModifiedBy := userEmail)];
    r := Ok(newStatus);
  }

  /** `process_approval`, applying its partial update to the stored document in place. */
  method ProcessApproval(db: Database, tenantId: string, userRole: string, userEmail: Option<string>)
    returns (r: Response<ApprovalOutcome>)
    modifies db`tenants
    ensures Step(r, db.tenants) == Approval(old(db.tenants), tenantId, userRole, userEmail)
  {
    var found := GetTenantDoc(db, tenantId);
    if found.Raised? {
      return Raised(found.error);
    }
    var tenant := found.body;
    var currentStatus := tenant.approvalStatus;
    var pendingConfig := tenant.pendingConfig;
    if !Truthy(pendingConfig) {
      return Raised(NoPendingChanges);
    }
    if CheckPermission(userRole, PublishLive) {
      db.tenants := db.tenants[tenantId := tenant.(
        liveConfig := pendingConfig, pendingConfig := None,
        approvalStatus := Some(Published), lastModifiedBy := userEmail)];
      return Ok(PublishedLive);
    } else if CheckPermission(userRole, ApproveToSuper) {
      if currentStatus != Some(PendingAdmin) {
        return Raised(NotWaitingForAdmin);
      }
      db.tenants := db.tenants[tenantId := tenant.(
        approvalStatus := Some(PendingSuperAdmin), lastModifiedBy := userEmail)];
      return Ok(SentToSuperAdmin);
    } else {
      return Raised(NoApprovalPrivileges);
    }
  }
}
