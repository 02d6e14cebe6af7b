/** Which configuration the public demo page serves (app/api/v1/endpoints/demos.py). */
module Demos {
  import opened Wrappers
  import opened Http
  import opened TenantModel
  import opened Store

  /** What the page template is given; the template itself is not modelled. */
  datatype DemoPage = DemoPage(clientName: string, config: ConfigDict, isPreview: bool)

  /** The placeholder served when the chosen configuration is missing or empty. */
  const SetupRequired: ConfigDict := map[
    "bot_name" := Some("Setup Required"),
    "welcome_message" := Some("This tenant has not been configured yet."),
    "primary_color" := Some("#6B7280")]

  const DefaultClientName: string := "Lumina Demo"

  /**
   * The live config normally; the pending draft in preview mode when there is one, the live
   * config otherwise; the placeholder when the chosen config is empty.
   */
  function SelectPage(doc: TenantDoc, preview: bool): (page: DemoPage)
    ensures page.isPreview <==> preview && Truthy(doc.pendingConfig)
    ensures page.isPreview ==> page.config == doc.pendingConfig.value
    ensures !page.isPreview && Truthy(doc.liveConfig) ==> page.config == doc.liveConfig.value
    ensures !page.isPreview && !Truthy(doc.liveConfig) ==> page.config == SetupRequired
    ensures Truthy(Some(page.config))
    ensures page.clientName == doc.clientName.GetOr("Lumina Demo")
  {
    var usePending := preview && Truthy(doc.pendingConfig);
    var config := if usePending then doc.pendingConfig else doc.liveConfig;
    assert "bot_name" in SetupRequired;
    DemoPage(doc.clientName.GetOr(DefaultClientName), if Truthy(config) then config.value else SetupRequired, usePending)
  }

  /** `render_demo_page`: 404 for a slug no tenant has, else the page of a tenant with that slug. */
  method RenderDemoPage(db: Database, slug: string, preview: bool) returns (r: Response<DemoPage>)
    ensures r.Raised? <==> forall id :: id in db.tenants ==> db.tenants[id].slug != Some(slug)
    ensures r.Raised? ==> r.error == TenantNotFound
    ensures r.Ok? ==> exists id :: id in db.tenants && db.tenants[id].slug == Some(slug)
                                   && r.body == SelectPage(db.tenants[id], preview)
  {
    if forall id :: id in db.tenants ==> db.tenants[id].slug != Some(slug) {
      return Raised(TenantNotFound);
    }
    var id :| id in db.tenants && db.tenants[id].slug == Some(slug);
    r := Ok(SelectPage(db.tenants[id], preview));
  }
}
