/**
 * The client's protected route: what a page guarded by a list of roles
 * shows, given whether the session is still loading and who is signed in.
 */
module RouteGuard {
  import opened Wrappers
  import opened Accounts

  datatype View = Loading | Redirect(path: string) | Children

  const AdminLogin := "/admin"
  const CustomerLogin := "/customer/login"
  const StaffLogin := "/login"

  /** The login page for a role: admins and customers have their own, everyone else shares one. */
  function LoginFor(role: Role): (path: string)
    ensures path == AdminLogin <==> role == AdminRole
    ensures path == CustomerLogin <==> role == CustomerRole
  {
    if role == AdminRole then AdminLogin
    else if role == CustomerRole then CustomerLogin
    else StaffLogin
  }

  /**
   * Loading first; with nobody signed in, the login page of the route's
   * roles (admin checked before customer); a signed-in user whose role is
   * not allowed goes to the login page of their own role.
   */
  function Guard(loading: bool, user: Option<Role>, allowed: Option<seq<Role>>): (v: View)
    ensures loading ==> v == Loading
    ensures v == Children <==> !loading && user.Some? && (allowed.None? || user.value in allowed.value)
    ensures v.Redirect? ==> v.path in {AdminLogin, CustomerLogin, StaffLogin}
    ensures !loading && user.None? ==>
      v == Redirect(if allowed.Some? && AdminRole in allowed.value then AdminLogin
                    else if allowed.Some? && CustomerRole in allowed.value then CustomerLogin
                    else StaffLogin)
    ensures !loading && user.Some? && v.Redirect? ==> v.path == LoginFor(user.value)
  {
    if loading then Loading
    else if user.None? then
      if allowed.Some? && AdminRole in allowed.value then Redirect(AdminLogin)
      else if allowed.Some? && CustomerRole in allowed.value then Redirect(CustomerLogin)
      else Redirect(StaffLogin)
    else if allowed.Some? && user.value !in allowed.value then Redirect(LoginFor(user.value))
    else Children
  }

  /** Allowing more roles never turns a page away from someone it already let in. */
  lemma GuardMonotone(user: Option<Role>, allowed: seq<Role>, more: seq<Role>)
    requires forall r :: r in allowed ==> r in more
    requires Guard(false, user, Some(allowed)) == Children
    ensures Guard(false, user, Some(more)) == Children
  {
  }
}
