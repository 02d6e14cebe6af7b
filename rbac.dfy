/**
 * The role/action permission table and the single permission check built on it
 * (app/core/rbac.py).
 */
module Rbac {
  import opened Wrappers

  /** The five roles. At the HTTP boundary a role is a string; `RoleValue` is that string. */
  datatype UserRole = SuperAdmin | Admin | Contributor | User | SuperUser

  function RoleValue(r: UserRole): string
  {
    match r
    case SuperAdmin => "super_admin"
    case Admin => "admin"
    case Contributor => "contributor"
    case User => "user"
    case SuperUser => "super_user"
  }

  /**
   * The role a string stands for. The table is keyed by a string enumeration, so
   * looking a plain string up in it finds the member with that value, or nothing.
   */
  function ParseRole(s: string): (r: Option<UserRole>)
    ensures r.Some? ==> RoleValue(r.value) == s
    ensures r.None? ==> forall q :: RoleValue(q) != s
    ensures forall q :: RoleValue(q) == s ==> r == Some(q)
  {
    if s == "super_admin" then Some(SuperAdmin)
    else if s == "admin" then Some(Admin)
    else if s == "contributor" then Some(Contributor)
    else if s == "user" then Some(User)
    else if s == "super_user" then Some(SuperUser)
    else None
  }

  datatype Action =
    | ViewDashboard | EditDraft | SubmitReview | ApproveToSuper
    | PublishLive | RejectChanges | ManageUsers

  /** The fixed table from role to the list of actions it may perform. */
  const RbacPolicy: map<UserRole, seq<Action>> := map[
    SuperAdmin := [ViewDashboard, EditDraft, SubmitReview, ApproveToSuper, PublishLive, RejectChanges, ManageUsers],
    Admin := [ViewDashboard, EditDraft, SubmitReview, ApproveToSuper, RejectChanges],
    Contributor := [ViewDashboard, EditDraft, SubmitReview],
    User := [ViewDashboard],
    SuperUser := [ViewDashboard, EditDraft]
  ]

  /** `RBAC_POLICY.get(role, [])`: the actions listed for a role string, none for an unknown one. */
  function AllowedActions(role: string): (actions: seq<Action>)
    ensures ParseRole(role).None? ==> actions == []
    ensures forall q :: RoleValue(q) == role && q in RbacPolicy ==> actions == RbacPolicy[q]
  {
    match ParseRole(role)
    case None => []
    case Some(q) => if q in RbacPolicy then RbacPolicy[q] else []
  }

  /**
   * `check_permission`: exactly membership of the action in the table entry of the
   * role, and false for every role string the table does not know.
   */
  function CheckPermission(role: string, action: Action): (allowed: bool)
    ensures allowed <==> exists q :: RoleValue(q) == role && q in RbacPolicy && action in RbacPolicy[q]
    ensures ParseRole(role).None? ==> !allowed
  {
    action in AllowedActions(role)
  }

  /** Every role has an explicit entry in the table. */
  lemma PolicyCoversEveryRole(r: UserRole)
    ensures r in RbacPolicy
  {
  }

  /** A role string outside the five values is denied every action. */
  lemma UnknownRoleDenied(role: string, action: Action)
    requires forall q :: RoleValue(q) != role
    ensures !CheckPermission(role, action)
  {
  }

  /** `super_admin` holds all seven actions. */
  lemma SuperAdminHoldsAll(action: Action)
    ensures CheckPermission("super_admin", action)
  {
  }

  /** `super_admin` is the only role string holding `PUBLISH_LIVE` or `MANAGE_USERS`. */
  lemma OnlySuperAdminPublishesOrManages(role: string)
    ensures CheckPermission(role, PublishLive) ==> role == "super_admin"
    ensures CheckPermission(role, ManageUsers) ==> role == "super_admin"
  {
  }

  /** What `admin`, `super_user` and `user` may and may not do. */
  lemma LowerTiers(action: Action)
    ensures CheckPermission("admin", ApproveToSuper) && CheckPermission("admin", RejectChanges)
    ensures !CheckPermission("admin", PublishLive) && !CheckPermission("admin", ManageUsers)
    ensures CheckPermission("super_user", EditDraft) && !CheckPermission("super_user", SubmitReview)
    ensures CheckPermission("user", action) <==> action == ViewDashboard
  {
  }

  /** The table is a chain: user, super_user, contributor, admin, super_admin, each a subset of the next. */
  lemma PrivilegeChain(action: Action)
    ensures CheckPermission("user", action) ==> CheckPermission("super_user", action)
    ensures CheckPermission("super_user", action) ==> CheckPermission("contributor", action)
    ensures CheckPermission("contributor", action) ==> CheckPermission("admin", action)
    ensures CheckPermission("admin", action) ==> CheckPermission("super_admin", action)
  {
  }
}
