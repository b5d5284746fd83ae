/**
 * The two authorization checks of removeUserPermissions. The permission
 * service behind `context.validatePermissions` is an oracle over the actor's
 * grants: a call passes when some grant matches the resource, the action, the
 * shop scope and one of the accepted legacy roles, and throws otherwise.
 */
module Permissions {
  import opened JsValues

  /** A permission held by the actor; `shopId == None` is an unscoped grant. */
  datatype Grant = Grant(resource: string, action: string, shopId: Option<string>, legacyRole: string)

  const AccountsResource := "reaction:accounts"
  const UpdateAction := "update"
  const AccountsRole := "reaction-accounts"
  const AdminRole := "admin"

  /** `validatePermissions(resource, action, { shopId, legacyRoles })` does not throw. */
  predicate Permits(grants: set<Grant>, resource: string, action: string, shopId: Option<string>, legacyRoles: seq<string>)
    ensures Permits(grants, resource, action, shopId, legacyRoles) <==>
      exists role :: role in legacyRoles && Grant(resource, action, shopId, role) in grants
  {
    exists g | g in grants ::
      g.resource == resource && g.action == action && g.shopId == shopId && g.legacyRole in legacyRoles
  }

  /**
   * Neither check throws. The first one, on the account's shop, applies only
   * to a call that is not internal and edits another user's account; the
   * second one, admin on the request's shop, applies to every call.
   */
  function Authorize(grants: set<Grant>, isInternalCall: bool, userId: string, accountId: string,
                     accountShopId: Option<string>, requestShopId: Option<string>): (ok: bool)
    ensures ok <==>
      (isInternalCall || userId == accountId ||
       Grant(AccountsResource, UpdateAction, accountShopId, AccountsRole) in grants) &&
      Grant(AccountsResource, UpdateAction, requestShopId, AdminRole) in grants
  {
    var ownershipChecked := !isInternalCall && userId != accountId;
    (!ownershipChecked || Permits(grants, AccountsResource, UpdateAction, accountShopId, [AccountsRole])) &&
    Permits(grants, AccountsResource, UpdateAction, requestShopId, [AdminRole])
  }
}
