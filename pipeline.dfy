/**
 * Properties of the approval pipeline as a whole: what sequences of workflow calls do, how
 * they move a tenant between the approval queues, and what the demo page shows afterwards.
 */
module Pipeline {
  import opened Wrappers
  import opened Http
  import opened Rbac
  import opened TenantModel
  import opened Store
  import opened Workflow
  import opened Admin
  import opened Demos

  /**
   * The condition the engine leaves behind: a non-empty draft exactly when the tenant waits
   * in one of the two review stages.
   */
  predicate DraftMatchesStatus(doc: TenantDoc)
  {
    Truthy(doc.pendingConfig) <==> doc.approvalStatus == Some(PendingAdmin) || doc.approvalStatus == Some(PendingSuperAdmin)
  }

  /** Every successful engine transition with a non-empty submitted draft leaves that condition holding. */
  lemma EngineEstablishesDraftMatchesStatus(tenants: map<string, TenantDoc>, tenantId: string, config: ConfigDict,
                                            role: string, email: Option<string>)
    requires config != map[]
    ensures var s := Submission(tenants, tenantId, config, role, email);
      s.response.Ok? ==> DraftMatchesStatus(s.tenants[tenantId])
    ensures var s := Approval(tenants, tenantId, role, email);
      s.response.Ok? ==> DraftMatchesStatus(s.tenants[tenantId])
  {
  }

  /** A second force-publish right after the first finds nothing to approve, whoever calls it. */
  lemma DoublePublishFails(tenants: map<string, TenantDoc>, tenantId: string, role: string, email: Option<string>,
                           role2: string, email2: Option<string>)
    requires Approval(tenants, tenantId, role, email).response == Ok(PublishedLive)
    ensures var after := Approval(tenants, tenantId, role, email).tenants;
      Approval(after, tenantId, role2, email2) == Step(Raised(NoPendingChanges), after)
  {
  }

  /** Submission never reads the current status or draft: the outcome is the same whatever they were. */
  lemma SubmissionIgnoresStatus(tenants: map<string, TenantDoc>, tenantId: string, config: ConfigDict,
                                role: string, email: Option<string>, status: Option<string>, draft: Option<ConfigDict>)
    requires tenantId in tenants
    ensures var other := tenants[tenantId := tenants[tenantId].(approvalStatus := status, pendingConfig := draft)];
      var a, b := Submission(other, tenantId, config, role, email), Submission(tenants, tenantId, config, role, email);
      a.response == b.response && (b.response.Ok? ==> a.tenants == b.tenants)
  {
  }

  /** The three-stage path: a contributor submits, an admin escalates, a super admin publishes the submitted config. */
  lemma ContributorDraftReachesLive(tenants: map<string, TenantDoc>, tenantId: string, config: ChatbotConfig,
                                    contributor: Option<string>, admin: Option<string>, superAdmin: Option<string>)
    requires tenantId in tenants
    ensures var s1 := Submission(tenants, tenantId, ConfigToDict(config), "contributor", contributor);
      && s1.response == Ok(PendingAdmin)
      && var s2 := Approval(s1.tenants, tenantId, "admin", admin);
      && s2.response == Ok(SentToSuperAdmin)
      && s2.tenants[tenantId].pendingConfig == Some(ConfigToDict(config))
      && var s3 := Approval(s2.tenants, tenantId, "super_admin", superAdmin);
      && s3.response == Ok(PublishedLive)
      && s3.tenants[tenantId].liveConfig == Some(ConfigToDict(config))
      && s3.tenants[tenantId].pendingConfig.None?
      && s3.tenants[tenantId].approvalStatus == Some(Published)
      && s3.tenants[tenantId].lastModifiedBy == superAdmin
  {
    ConfigToDictFaithful(config, config);
    LowerTiers(ViewDashboard);
    SuperAdminHoldsAll(PublishLive);
    assert !CheckPermission("contributor", PublishLive);
  }

  /** A super admin's own submission skips the admin stage and can be published straight away. */
  lemma SuperAdminDraftPublishes(tenants: map<string, TenantDoc>, tenantId: string, config: ChatbotConfig, email: Option<string>)
    requires tenantId in tenants
    ensures var s1 := Submission(tenants, tenantId, ConfigToDict(config), "super_admin", email);
      && s1.response == Ok(PendingSuperAdmin)
      && var s2 := Approval(s1.tenants, tenantId, "super_admin", email);
      && s2.response == Ok(PublishedLive)
      && s2.tenants[tenantId].liveConfig == Some(ConfigToDict(config))
  {
    ConfigToDictFaithful(config, config);
    SuperAdminHoldsAll(EditDraft);
    SuperAdminHoldsAll(PublishLive);
  }

  /** An admin cannot approve a tenant that is a draft or already waits for the super admin. */
  lemma AdminEscalatesOnlyFromAdminStage(tenants: map<string, TenantDoc>, tenantId: string, email: Option<string>)
    requires tenantId in tenants && Truthy(tenants[tenantId].pendingConfig)
    requires tenants[tenantId].approvalStatus in {Some(Draft), Some(PendingSuperAdmin), Some(Published), None}
    ensures Approval(tenants, tenantId, "admin", email) == Step(Raised(NotWaitingForAdmin), tenants)
  {
  }

  /** A role with neither approval privilege is refused once a draft is pending; a role string the table does not know changes nothing. */
  lemma UnprivilegedApprovalRefused(tenants: map<string, TenantDoc>, tenantId: string, config: ConfigDict,
                                    role: string, email: Option<string>)
    requires tenantId in tenants && Truthy(tenants[tenantId].pendingConfig)
    requires role in {"contributor", "super_user", "user"} || ParseRole(role).None?
    ensures Approval(tenants, tenantId, role, email) == Step(Raised(NoApprovalPrivileges), tenants)
    ensures ParseRole(role).None? ==> Submission(tenants, tenantId, config, role, email).tenants == tenants
  {
  }

  /** The two review queues never share a tenant. */
  lemma QueuesDisjoint(doc: TenantDoc)
    ensures !(InQueueOf("admin", doc) && InQueueOf("super_admin", doc))
  {
  }

  /** A submission puts the tenant in the super admin's queue for a publishing role, else in the admin's. */
  lemma SubmissionRoutesToQueue(tenants: map<string, TenantDoc>, tenantId: string, config: ConfigDict,
                                role: string, email: Option<string>)
    requires Submission(tenants, tenantId, config, role, email).response.Ok?
    ensures var doc := Submission(tenants, tenantId, config, role, email).tenants[tenantId];
      && (InQueueOf("super_admin", doc) <==> CheckPermission(role, PublishLive))
      && (InQueueOf("admin", doc) <==> !CheckPermission(role, PublishLive))
  {
  }

  /** Escalation moves the tenant from the admin's queue to the super admin's; publishing takes it out of every queue. */
  lemma ApprovalMovesBetweenQueues(tenants: map<string, TenantDoc>, tenantId: string, role: string, email: Option<string>, viewer: string)
    requires Approval(tenants, tenantId, role, email).response.Ok?
    ensures var s := Approval(tenants, tenantId, role, email);
      s.response == Ok(SentToSuperAdmin) ==>
        InQueueOf("admin", tenants[tenantId]) && InQueueOf("super_admin", s.tenants[tenantId]) && !InQueueOf("admin", s.tenants[tenantId])
    ensures var s := Approval(tenants, tenantId, role, email);
      s.response == Ok(PublishedLive) ==> !InQueueOf(viewer, s.tenants[tenantId])
  {
  }

  /** After a submission the preview shows the new draft and the public page is unchanged. */
  lemma SubmissionPreviewOnly(tenants: map<string, TenantDoc>, tenantId: string, config: ChatbotConfig,
                              role: string, email: Option<string>)
    requires Submission(tenants, tenantId, ConfigToDict(config), role, email).response.Ok?
    ensures var doc := Submission(tenants, tenantId, ConfigToDict(config), role, email).tenants[tenantId];
      && SelectPage(doc, true) == DemoPage(doc.clientName.GetOr(DefaultClientName), ConfigToDict(config), true)
      && SelectPage(doc, false) == SelectPage(tenants[tenantId], false)
  {
    ConfigToDictFaithful(config, config);
  }

  /** After a publish the public page serves the former draft and the preview has nothing else to show. */
  lemma PublishedDraftGoesLive(tenants: map<string, TenantDoc>, tenantId: string, role: string, email: Option<string>)
    requires Approval(tenants, tenantId, role, email).response == Ok(PublishedLive)
    ensures var doc := Approval(tenants, tenantId, role, email).tenants[tenantId];
      && SelectPage(doc, false).config == tenants[tenantId].pendingConfig.value
      && SelectPage(doc, true) == SelectPage(doc, false)
  {
  }
}
