/** Approval statuses, the chatbot configuration and the tenant record (app/models/tenant.py). */
module TenantModel {
  import opened Wrappers

  // The four approval statuses.
  const Draft: string := "draft"
  const PendingAdmin: string := "pending_admin_review"
  const PendingSuperAdmin: string := "pending_super_admin_review"
  const Published: string := "published"

  lemma StatusesDistinct()
    ensures Draft != PendingAdmin && Draft != PendingSuperAdmin && Draft != Published
    ensures PendingAdmin != PendingSuperAdmin && PendingAdmin != Published
    ensures PendingSuperAdmin != Published
  {
  }

  /** The chatbot configuration; the workflow treats it as a blob it copies between slots. */
  datatype ChatbotConfig = ChatbotConfig(
    botName: string,
    primaryColor: string,
    welcomeMessage: string,
    logoUrl: Option<string>,
    emaTenantId: Option<string>,
    emaProjectId: Option<string>,
    emaPersonaId: Option<string>)

  const DefaultPrimaryColor: string := "#10B981"
  const DefaultWelcomeMessage: string := "Hello! How can I help you?"

  /**
   * Validating construction of a `ChatbotConfig` from keyword arguments; `None` stands for an
   * argument not given. Only `bot_name` is required; the three `ema_*` identifiers, which no
   * caller passes, take their default "".
   */
  function MakeChatbotConfig(botName: Option<string>, primaryColor: Option<string>,
                             welcomeMessage: Option<string>, logoUrl: Option<string>): (r: Option<ChatbotConfig>)
    ensures r.Some? <==> botName.Some?
    ensures r.Some? ==> r.value.botName == botName.value && r.value.logoUrl == logoUrl
    ensures r.Some? && primaryColor.None? ==> r.value.primaryColor == "#10B981"
    ensures r.Some? && primaryColor.Some? ==> r.value.primaryColor == primaryColor.value
    ensures r.Some? && welcomeMessage.None? ==> r.value.welcomeMessage == "Hello! How can I help you?"
    ensures r.Some? && welcomeMessage.Some? ==> r.value.welcomeMessage == welcomeMessage.value
    ensures r.Some? ==> r.value.emaTenantId == Some("") && r.value.emaProjectId == Some("") && r.value.emaPersonaId == Some("")
  {
    match botName
    case None => None
    case Some(name) =>
      Some(ChatbotConfig(name, primaryColor.GetOr(DefaultPrimaryColor), welcomeMessage.GetOr(DefaultWelcomeMessage),
                         logoUrl, Some(""), Some(""), Some("")))
  }

  /** A configuration as stored in a document: field name to string value or null. */
  type ConfigDict = map<string, Option<string>>

  /** `config.dict()`. */
  function ConfigToDict(c: ChatbotConfig): (d: ConfigDict)
  {
    map["bot_name" := Some(c.botName),
        "primary_color" := Some(c.primaryColor),
        "welcome_message" := Some(c.welcomeMessage),
        "logo_url" := c.logoUrl,
        "ema_tenant_id" := c.emaTenantId,
        "ema_project_id" := c.emaProjectId,
        "ema_persona_id" := c.emaPersonaId]
  }

  /** Python truthiness of a stored config: present, not null, and not the empty dict. */
  predicate Truthy(c: Option<ConfigDict>)
  {
    c.Some? && c.value != map[]
  }

  /** The stored form of a configuration is never empty and determines the configuration. */
  lemma ConfigToDictFaithful(c: ChatbotConfig, e: ChatbotConfig)
    ensures Truthy(Some(ConfigToDict(c)))
    ensures ConfigToDict(c) == ConfigToDict(e) ==> c == e
  {
    var d := ConfigToDict(c);
    assert "bot_name" in d;
    if ConfigToDict(c) == ConfigToDict(e) {
      assert d["bot_name"] == ConfigToDict(e)["bot_name"];
      assert d["primary_color"] == ConfigToDict(e)["primary_color"];
      assert d["welcome_message"] == ConfigToDict(e)["welcome_message"];
      assert d["logo_url"] == ConfigToDict(e)["logo_url"];
      assert d["ema_tenant_id"] == ConfigToDict(e)["ema_tenant_id"];
      assert d["ema_project_id"] == ConfigToDict(e)["ema_project_id"];
      assert d["ema_persona_id"] == ConfigToDict(e)["ema_persona_id"];
    }
  }

  /** The tenant record. Its creation timestamp is not modelled. */
  datatype Tenant = Tenant(
    tenantId: string,
    clientName: string,
    slug: string,
    liveConfig: Option<ChatbotConfig>,
    pendingConfig: Option<ChatbotConfig>,
    approvalStatus: string,
    lastModifiedBy: string)

  /**
   * Validating construction of a `Tenant`. For the four required string fields and the two
   * optional configs, `None` stands for an argument not given or given as None; for the status
   * it stands for an argument not given. The string fields are required; the configs default to
   * None and the status to `draft`.
   */
  function MakeTenant(tenantId: Option<string>, clientName: Option<string>, slug: Option<string>,
                      lastModifiedBy: Option<string>, liveConfig: Option<ChatbotConfig>,
                      pendingConfig: Option<ChatbotConfig>, approvalStatus: Option<string>): (r: Option<Tenant>)
    ensures r.Some? <==> tenantId.Some? && clientName.Some? && slug.Some? && lastModifiedBy.Some?
    ensures r.Some? ==> r.value.tenantId == tenantId.value && r.value.clientName == clientName.value
    ensures r.Some? ==> r.value.slug == slug.value && r.value.lastModifiedBy == lastModifiedBy.value
    ensures r.Some? ==> r.value.liveConfig == liveConfig && r.value.pendingConfig == pendingConfig
    ensures r.Some? && approvalStatus.None? ==> r.value.approvalStatus == "draft"
    ensures r.Some? && approvalStatus.Some? ==> r.value.approvalStatus == approvalStatus.value
  {
    if tenantId.None? || clientName.None? || slug.None? || lastModifiedBy.None? then None
    else Some(Tenant(tenantId.value, clientName.value, slug.value, liveConfig, pendingConfig,
                     approvalStatus.GetOr(Draft), lastModifiedBy.value))
  }

  /** A tenant built from its required fields alone is a draft with no configuration. */
  lemma FreshTenantIsDraft(tenantId: string, clientName: string, slug: string, lastModifiedBy: string)
    ensures MakeTenant(Some(tenantId), Some(clientName), Some(slug), Some(lastModifiedBy), None, None, None)
         == Some(Tenant(tenantId, clientName, slug, None, None, Draft, lastModifiedBy))
  {
  }
}
