/** The route guard of the admin pages: while the session is loading it
    shows a placeholder; afterwards it renders the protected pages only for
    a user whose roles include "Admin", and redirects everyone else to the
    home page. */
module AdminRoute {
  import opened Common
  import Session

  /** What the guard renders. */
  datatype Outcome = Placeholder | Redirect(to: string) | Children

  const Home: string := "/"
  const AdminRole: string := "Admin"

  /** `roles?.includes("Admin")` of a possibly missing user: false when the
      user or the roles are missing. */
  predicate HasAdminRole(user: Option<User>) {
    user.Some? && user.value.roles.Some? && AdminRole in user.value.roles.value
  }

  /** The guard's decision from the context's `loading` and `user`. */
  function Guard(loading: bool, user: Option<User>): (o: Outcome)
    ensures loading ==> o == Placeholder
    ensures !loading && user.None? ==> o == Redirect(Home)
    ensures !loading && user.Some? && user.value.roles.None? ==> o == Redirect(Home)
    ensures !loading && user.Some? && user.value.roles.Some? ==>
      (o == Children <==> exists k :: 0 <= k < |user.value.roles.value| && user.value.roles.value[k] == "Admin")
    ensures o.Redirect? ==> o.to == Home
  {
    if loading then Placeholder
    else if !HasAdminRole(user) then Redirect(Home)
    else Children
  }

  /** The role test is exact: "admin" and "Administrator" are not "Admin". */
  lemma GuardIsExact(u: User)
    requires u.roles == Some(["admin", "Administrator"])
    ensures Guard(false, Some(u)) == Redirect(Home)
    ensures Guard(false, Some(u.(roles := Some(["admin", "Admin"])))) == Children
  {
    assert "admin" != AdminRole;
    assert "Administrator" != AdminRole;
    assert (["admin", "Admin"])[1] == AdminRole;
  }

  /** After a logout the session has no user, so the guard redirects home. */
  lemma LoggedOutIsRedirected(p: Session.AuthProvider)
    requires p.LoggedOut()
    ensures Guard(Session.Published(p).loading, Session.Published(p).user) == Redirect(Home)
  {
  }
}
