/** HTTP exceptions raised by the endpoints and the workflow service, and responses. */
module Http {

  /** An `HTTPException(status_code, detail)`. */
  datatype HttpError = HttpError(status: nat, detail: string)

  /** What a handler produces: a body, or the exception it raised. */
  datatype Response<+T> = Ok(body: T) | Raised(error: HttpError)

  // Raised by the workflow service (app/services/workflow.py).
  const TenantNotFound := HttpError(404, "Tenant not found")
  const EditDenied := HttpError(403, "You do not have permission to edit drafts.")
  const NoPendingChanges := HttpError(400, "No pending changes to approve")
  const NotWaitingForAdmin := HttpError(400, "Item is not waiting for Admin review.")
  const NoApprovalPrivileges := HttpError(403, "You do not have approval privileges.")

  // Raised by the admin endpoints (app/api/v1/endpoints/admin.py).
  const AccessDenied := HttpError(403, "Access denied")
  const PermissionDenied := HttpError(403, "Permission denied")
  const IdAndSlugRequired := HttpError(400, "Tenant ID and Slug are required")
  const TenantIdExists := HttpError(400, "Tenant ID already exists")
  /** An uncaught validation error of the record model, answered by the framework. */
  const ServerError := HttpError(500, "Internal Server Error")
}
