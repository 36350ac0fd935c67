/**
 * The seller area's layout: once the profile has loaded, a user whose role
 * is not seller is sent to the unauthorized page; the nested page is
 * rendered either way.
 */
module SellerLayout {
  import opened Util
  import opened AuthSlice
  import AdminLayout

  /** The effect's navigation: `user && user.userRole !== ROLES.SELLER`. */
  function SellerGuard(profile: Option<User>): (target: Option<string>)
    ensures target.Some? <==> profile.Some? && profile.value.userRole != Seller
    ensures target.Some? ==> target.value == "/unauthorized"
  {
    if profile.Some? && profile.value.userRole != Seller then Some("/unauthorized") else None
  }

  /**
   * The two layouts treat a missing user differently: the admin guard
   * redirects, the seller guard does not. On a loaded user each admits only its
   * own role, so no user passes both.
   */
  lemma GuardsOnMissingAndLoadedUsers(u: User)
    ensures AdminLayout.AdminGuard(None).Some? && SellerGuard(None).None?
    ensures AdminLayout.AdminGuard(Some(u)).Some? || SellerGuard(Some(u)).Some?
  {
  }
}
