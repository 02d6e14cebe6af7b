# Role-gated approval pipeline for tenant chatbot configurations

This project is a Dafny model of the core of the Lumina platform backend. Each tenant has a
live chatbot configuration, which the public demo page serves, and at most one pending draft.
A draft reaches the live slot only through role-gated review stages:

- a fixed permission table maps each of five roles to the actions it may perform;
- the workflow service stores a submitted draft and routes it to the admin or the
  super-admin review stage;
- approval either force-publishes the draft (a role that may publish) or escalates it from
  the admin stage to the super-admin stage (a role that may approve);
- admin endpoints list a user's tenants and a role's approval queue, gate submission and
  approval, and create and delete tenants;
- the demo page chooses between the live config, the draft (in preview mode) and a
  "Setup Required" placeholder.

The document database is replaced by an in-memory object, `Store.Database`. It holds the
`tenants` and `users` collections as maps from document id to document. The endpoints and the
workflow change `tenants` in place.

Modules, one per source file, plus helpers:

- `Rbac`: the roles, the actions, `RbacPolicy` and `CheckPermission`.
- `TenantModel`: the approval statuses, `ChatbotConfig` and `Tenant`, with their defaults.
- `UserModel`: the user model's role values and `User`.
- `Store`: the stored document shapes and the `Database` class.
- `Workflow`: the state machine. `Submission` and `Approval` are functions that say what one
  call does to the tenant map. `ProcessSubmission` and `ProcessApproval` are methods that do
  it in place and are proved equal to those functions.
- `Admin`: the endpoints. `Creation` and `Deletion` specify `CreateTenant` and `DeleteTenant`
  in the same way.
- `Demos`: the demo page's config choice.
- `Pipeline`: lemmas about sequences of calls, the review queues and the demo page.
- `Wrappers` (`Option`) and `Http` (`HttpError`, `Response`, the exact status codes and
  messages the source raises) are helpers.

Roles are strings at the boundary, as in the source. The caller passes any string, and access
checks compare raw strings (`"super_admin"`, `"admin"`). A string outside the five role values
is allowed nothing.

A stored document field that the source reads with `.get` is an `Option`. `None` stands for a
missing or null field. A stored configuration is a `ConfigDict`, a map from field name to string
or null. The source tests it with Python truthiness, which `TenantModel.Truthy` models: the
config must be present and not the empty dict.

Notes on the source:

- `create_tenant` checks that the tenant id is new but does not check that the slug is new.
  So two tenants can share a slug. The demo page then serves one of them
  (`Demos.RenderDemoPage`).
- On `create_tenant`, the default welcome message is "Hello! How can we help?". The
  `ChatbotConfig` default is "Hello! How can I help you?". Both are modelled as written.
- The submit endpoint checks `EDIT_DRAFT` with the message "Permission denied" before the
  workflow checks it again. So the workflow's own 403 message is never reached through that
  endpoint.
- The approve endpoint checks `SUBMIT_REVIEW`, not an approval action. A `contributor` passes
  this gate and is then refused by the workflow (`Pipeline.UnprivilegedApprovalRefused`).

- The "my tenants" listing uses `assigned_tenants` exactly as stored (admin.py:24, 32): no
  trimming, deduplication or existence filtering. It matches the `tenant_id` field of each
  document against that raw list.
- `Tenant` has no archive flag (tenant.py:21-29).
- The caller's e-mail comes from the token and may be missing (auth.py:23). Tenant creation then
  fails validation on `last_modified_by` (a 500), while submission and approval store a null
  editor. `Admin.CurrentUser.email` is therefore an `Option`.

## Model

| member | source | states |
|---|---|---|
| `Rbac.ParseRole` | app/core/rbac.py:5-10 | a string denotes the role whose value it is, and no role when it equals none of the five values |
| `Rbac.AllowedActions` | app/core/rbac.py:65-66 | the table entry of a known role string; the empty list for an unknown one |
| `Rbac.CheckPermission` | app/core/rbac.py:63-67 | allowed exactly when some role with that value lists the action in the table; false for every unknown role string |
| `Rbac.PolicyCoversEveryRole` | app/core/rbac.py:23-61 | every one of the five roles has an entry in the table |
| `Rbac.UnknownRoleDenied` | app/core/rbac.py:65-66 | a role string equal to no role value is denied every action |
| `Rbac.SuperAdminHoldsAll` | app/core/rbac.py:26-34 | `super_admin` holds each of the seven actions |
| `Rbac.OnlySuperAdminPublishesOrManages` | app/core/rbac.py:26-60 | any role string allowed `PUBLISH_LIVE` or `MANAGE_USERS` is `super_admin` |
| `Rbac.LowerTiers` | app/core/rbac.py:37-60 | `admin` may approve and reject but neither publish nor manage users; `super_user` may edit but not submit; `user` holds exactly `VIEW_DASHBOARD` |
| `Rbac.PrivilegeChain` | app/core/rbac.py:26-60 | user ⊆ super_user ⊆ contributor ⊆ admin ⊆ super_admin, action by action |
| `TenantModel.StatusesDistinct` | app/models/tenant.py:5-10 | the four approval statuses are pairwise distinct |
| `TenantModel.MakeChatbotConfig` | app/models/tenant.py:12-19 | construction succeeds exactly when `bot_name` is given; colour and welcome message default to `#10B981` and "Hello! How can I help you?", the `ema_*` ids to "" |
| `TenantModel.ConfigToDictFaithful` | app/models/tenant.py:12-19 | the stored dict of a config is never empty (truthy) and distinct configs give distinct dicts |
| `TenantModel.MakeTenant` | app/models/tenant.py:21-29 | construction succeeds exactly when id, client name, slug and last editor are all given; configs default to None and the status to `draft` |
| `TenantModel.FreshTenantIsDraft` | app/models/tenant.py:25-27 | a tenant built from its required fields alone is a `draft` with no live and no pending config |
| `UserModel.RoleValuesAgree` | app/models/user.py:5-11 | the user model's role enumeration has five distinct values, and a string is one of them exactly when the permission table knows it as a role |
| `UserModel.MakeUser` | app/models/user.py:13-18 | a user can be built exactly when the role is one of the five values; assignments default to empty and `is_active` to true |
| `Store.TenantDocumentInjective` | app/models/tenant.py:21-29 | writing a tenant record as a document loses nothing: distinct records give distinct documents |
| `Workflow.NextStatus` | app/services/workflow.py:32-36 | a submission routes to `pending_super_admin_review` exactly for a role that may publish, and to `pending_admin_review` for every other role |
| `Workflow.Submission` | app/services/workflow.py:18-46 | 403 without `EDIT_DRAFT` before the lookup, then 404 for a missing id, both writing nothing; otherwise only that tenant changes: draft, routed status and editor (the caller's e-mail, possibly missing) set, live config, id, name and slug kept |
| `Workflow.Approval` | app/services/workflow.py:49-83 | 404, then 400 "No pending changes" for every role when the draft is missing or empty; force-publish iff a draft is pending and the role may publish (live := draft, draft cleared, `published`, editor set); escalation iff the role may approve but not publish and the status is `pending_admin_review` (only status and editor change); 400 for another status; 403 for a role with neither privilege; errors write nothing |
| `Workflow.GetTenantDoc` | app/services/workflow.py:10-15 | the stored document when the id is present, 404 "Tenant not found" otherwise |
| `Workflow.ProcessSubmission` | app/services/workflow.py:18-46 | the response and the new tenant map are those of `Submission` on the old map |
| `Workflow.ProcessApproval` | app/services/workflow.py:49-83 | the response and the new tenant map are those of `Approval` on the old map |
| `Admin.GetUserTenants` | app/api/v1/endpoints/admin.py:15-42 | 403 exactly without `VIEW_DASHBOARD`; otherwise each visible tenant listed once (all for `super_admin`, else those whose `tenant_id` is assigned), none without a user record or with no assignments, status `draft` when missing |
| `Admin.QueueStatus` | app/api/v1/endpoints/admin.py:47-52 | `admin` has the admin-review queue, `super_admin` the super-admin-review queue, every other role none |
| `Admin.ListPendingApprovals` | app/api/v1/endpoints/admin.py:44-64 | each tenant whose status is the caller's queue status listed once; nothing for a role without a queue |
| `Admin.ListAllTenants` | app/api/v1/endpoints/admin.py:131-141 | 403 exactly without `MANAGE_USERS`; otherwise every stored document listed once |
| `Admin.SubmitDraft` | app/api/v1/endpoints/admin.py:68-76 | 403 "Permission denied" without `EDIT_DRAFT` and no write; otherwise the workflow submission of the config's stored dict |
| `Admin.ApproveConfig` | app/api/v1/endpoints/admin.py:78-84 | 403 without `SUBMIT_REVIEW` (in particular for `super_user` and `user`) and no write; otherwise the workflow approval |
| `Admin.InitialConfig` | app/api/v1/endpoints/admin.py:162-169 | a new tenant's config takes name, colour and welcome message from the payload or the defaults "My Bot", `#10B981`, "Hello! How can we help?", and the placeholder logo |
| `Admin.Creation` | app/api/v1/endpoints/admin.py:143-185 | 403 without `MANAGE_USERS`, then 400 for a blank id or slug, then 400 for an id in use, then 500 for a missing client name or caller e-mail, all writing nothing; on success exactly one new document, `published`, live config set, no draft, others unchanged |
| `Admin.CreateTenant` | app/api/v1/endpoints/admin.py:143-185 | the response and the new tenant map are those of `Creation` on the old map |
| `Admin.Deletion` | app/api/v1/endpoints/admin.py:187-194 | 403 without `MANAGE_USERS`; otherwise only that id is removed and every other document is unchanged |
| `Admin.DeleteTenant` | app/api/v1/endpoints/admin.py:187-194 | the response and the new tenant map are those of `Deletion` on the old map |
| `Demos.SelectPage` | app/api/v1/endpoints/demos.py:26-52 | preview mode iff preview is asked and a non-empty draft exists, and then the draft is served; otherwise the live config, or the "Setup Required" placeholder when that is empty; the served config is never empty; client name defaults to "Lumina Demo" |
| `Demos.RenderDemoPage` | app/api/v1/endpoints/demos.py:9-53 | 404 exactly when no tenant has the slug; otherwise the page of a tenant with that slug |
| `Pipeline.EngineEstablishesDraftMatchesStatus` | app/services/workflow.py:18-83 | after any successful submission of a non-empty draft, or any successful approval, the tenant has a non-empty draft exactly when it waits in a review stage |
| `Pipeline.DoublePublishFails` | app/services/workflow.py:57-70 | right after a force-publish, a second approval by any role fails with 400 "No pending changes" and writes nothing |
| `Pipeline.SubmissionIgnoresStatus` | app/services/workflow.py:26-45 | the outcome of a submission does not depend on the tenant's current status or draft |
| `Pipeline.ContributorDraftReachesLive` | app/services/workflow.py:32-81 | contributor submission, then admin escalation (draft carried forward), then super-admin approval publishes exactly the submitted config |
| `Pipeline.SuperAdminDraftPublishes` | app/services/workflow.py:32-70 | a super admin's submission goes straight to `pending_super_admin_review` and the next super-admin approval publishes it |
| `Pipeline.AdminEscalatesOnlyFromAdminStage` | app/services/workflow.py:73-75 | an admin's approval of a tenant in `draft`, `pending_super_admin_review`, `published` or with no status fails with 400 and writes nothing |
| `Pipeline.UnprivilegedApprovalRefused` | app/services/workflow.py:82-83 | contributor, super_user, user and unknown roles get 403 on a pending draft; an unknown role's submission writes nothing |
| `Pipeline.QueuesDisjoint` | app/api/v1/endpoints/admin.py:50-51 | no tenant is in both the admin's and the super admin's queue |
| `Pipeline.SubmissionRoutesToQueue` | app/api/v1/endpoints/admin.py:50-54 | a submitted tenant is in the super admin's queue iff the submitter may publish, else in the admin's |
| `Pipeline.ApprovalMovesBetweenQueues` | app/api/v1/endpoints/admin.py:50-54 | escalation moves a tenant from the admin's queue to the super admin's; publishing takes it out of every queue |
| `Pipeline.SubmissionPreviewOnly` | app/api/v1/endpoints/demos.py:27-34 | after a submission the preview page serves the new draft and the public page is unchanged |
| `Pipeline.PublishedDraftGoesLive` | app/api/v1/endpoints/demos.py:27-34 | after a force-publish the public page serves the former draft and the preview shows the same page |

## Left out

- The document database client and its query API (app/db/firestore.py). It is replaced by the maps of `Store.Database`.
- Only the filters of `where` queries are modelled. So is the existence test behind `limit(1)`.
- The `in` query's limit on the number of values is not modelled.
- Admin.GetUserTenants: the order of the listed tenants is left unspecified. The store's default order by document id is not modelled. The same holds for `Admin.ListPendingApprovals` and `Admin.ListAllTenants`.
- Demos.RenderDemoPage: when several tenants share the slug, the contract does not say which one is served. The store would serve the first by document id.
- Token verification and role resolution (app/api/v1/endpoints/auth.py) are outside the model. The caller's uid, e-mail (possibly missing) and role are an input, `Admin.CurrentUser`. The source resolves the role to `contributor` when the user record or its role field is missing. Handlers see only that resolved string.
- User management (app/api/v1/endpoints/admin.py:88-125: listing, onboarding and offboarding users) is outside the core. Onboarding and offboarding also call the identity provider (admin.py:100, 121).
- Request bodies are taken as already parsed. A submitted config arrives as a `ChatbotConfig` value. A create payload is a map from key to string, so JSON values that are not strings are not modelled.
- E-mail format validation of `User` is not modelled.
- `Admin.Creation` models the validation error for a missing `client_name` or caller e-mail as a 500 response. This is the framework's answer to an uncaught exception. The `bot_id` argument is dropped, as the record model ignores unknown fields.
- A missing field and a field stored as null are not told apart in stored documents.
- Stored configuration values are strings or null. Nested values are not modelled.
- Timestamps are left out: `updated_at`, which the workflow writes instead of the model's `last_modified_at`, and `last_modified_at` itself. Escalation writes no timestamp at all.
- Concurrent calls are not modelled. The read-then-update race between concurrent submissions and approvals is left out, and each operation is atomic.
- A partial update also fails in the source when the tenant document disappears between read and write. This is not modelled.
- `REJECT_CHANGES` is in the table but drives no transition anywhere in the code, so the model has none.
- Out of scope as external I/O or side channels: file storage and signed URLs, notifications, audit logging, template rendering, application wiring and the seed script.
