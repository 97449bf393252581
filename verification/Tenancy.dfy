/** Tenant identities as every component of the gateway normalises them. */
module Tenancy {

  const DEFAULT_TENANT_ID := "default"

  /** The empty id and the default id name the same tenant. */
  function TenantOf(id: string): (tenant: string)
    ensures tenant != ""
    ensures id != "" ==> tenant == id
    ensures id == "" ==> tenant == "default"
  {
    if id == "" then DEFAULT_TENANT_ID else id
  }
}
