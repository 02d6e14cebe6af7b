/**
 * The document store the endpoints and the workflow service share, as an in-memory object:
 * the "tenants" and "users" collections, each a map from document id to document.
 */
module Store {
  import opened Wrappers
  import opened TenantModel

  /**
   * A stored tenant document. Every field the code reads with `.get` may be missing;
   * `None` stands for a missing (or null) field. Timestamps are not modelled.
   */
  datatype TenantDoc = TenantDoc(
    tenantId: Option<string>,
    clientName: Option<string>,
    slug: Option<string>,
    liveConfig: Option<ConfigDict>,
    pendingConfig: Option<ConfigDict>,
    approvalStatus: Option<string>,
    lastModifiedBy: Option<string>)

  function ConfigSlot(c: Option<ChatbotConfig>): (d: Option<ConfigDict>)
  {
    match c
    case None => None
    case Some(cfg) => Some(ConfigToDict(cfg))
  }

  /** `tenant.dict()`: a record written as a document has every field present. */
  function TenantDocument(t: Tenant): TenantDoc
  {
    TenantDoc(Some(t.tenantId), Some(t.clientName), Some(t.slug), ConfigSlot(t.liveConfig),
              ConfigSlot(t.pendingConfig), Some(t.approvalStatus), Some(t.lastModifiedBy))
  }

  /** Writing a record as a document loses nothing: distinct tenants give distinct documents. */
  lemma TenantDocumentInjective(t: Tenant, u: Tenant)
    ensures TenantDocument(t) == TenantDocument(u) ==> t == u
  {
    if TenantDocument(t) == TenantDocument(u) {
      if t.liveConfig.Some? && u.liveConfig.Some? {
        ConfigToDictFaithful(t.liveConfig.value, u.liveConfig.value);
      }
      if t.pendingConfig.Some? && u.pendingConfig.Some? {
        ConfigToDictFaithful(t.pendingConfig.value, u.pendingConfig.value);
      }
    }
  }

  /** A stored user document, reduced to the one field the core reads. */
  datatype UserDoc = UserDoc(assignedTenants: Option<seq<string>>)

  /** `assigned_tenants`, read with an empty default; a null field reads as empty too. */
  function AssignedIds(d: UserDoc): seq<string>
  {
    d.assignedTenants.GetOr([])
  }

  class Database {
    var tenants: map<string, TenantDoc>
    var users: map<string, UserDoc>

    constructor (tenants: map<string, TenantDoc>, users: map<string, UserDoc>)
      ensures this.tenants == tenants && this.users == users
    {
      this.tenants := tenants;
      this.users := users;
    }
  }
}
