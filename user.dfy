/** The user record (app/models/user.py). */
module UserModel {
  import opened Wrappers
  import Rbac

  /** The values of the user model's own role enumeration, in its declaration order. */
  const RoleValues: seq<string> := ["super_admin", "admin", "super_user", "user", "contributor"]

  /** The user model's enumeration has five distinct values, exactly the permission table's roles. */
  lemma RoleValuesAgree(s: string)
    ensures |RoleValues| == 5
    ensures forall i, j :: 0 <= i < j < |RoleValues| ==> RoleValues[i] != RoleValues[j]
    ensures s in RoleValues <==> Rbac.ParseRole(s).Some?
  {
  }

  datatype User = User(
    uid: string,
    email: string,
    role: Rbac.UserRole,
    assignedTenants: seq<string>,
    isActive: bool)

  /**
   * Validating construction of a `User`; `None` stands for an argument not given. The role
   * must be one of the five values; the assignment list defaults to empty and `is_active` to true.
   * E-mail format validation is not modelled.
   */
  function MakeUser(uid: string, email: string, role: string,
                    assignedTenants: Option<seq<string>>, isActive: Option<bool>): (r: Option<User>)
    ensures r.Some? <==> role in RoleValues
    ensures r.Some? ==> r.value.uid == uid && r.value.email == email && Rbac.RoleValue(r.value.role) == role
    ensures r.Some? && assignedTenants.None? ==> r.value.assignedTenants == []
    ensures r.Some? && assignedTenants.Some? ==> r.value.assignedTenants == assignedTenants.value
    ensures r.Some? && isActive.None? ==> r.value.isActive
    ensures r.Some? && isActive.Some? ==> r.value.isActive == isActive.value
  {
    RoleValuesAgree(role);
    match Rbac.ParseRole(role)
    case None => None
    case Some(q) => Some(User(uid, email, q, assignedTenants.GetOr([]), isActive.GetOr(true)))
  }
}
