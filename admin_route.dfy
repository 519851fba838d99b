/** `AdminRoute`: the guard in front of the administration pages. */
module AdminRoute {
  import opened Common

  /** What the guard renders. */
  datatype Outcome = Spinner | RedirectToAuth | RedirectToHome | RenderChildren

  /** The guard's decision over the auth hook's `(loading, user, role)`. */
  function Guard(loading: bool, user: Option<AuthUser>, role: Option<Role>): (o: Outcome)
    ensures o == Spinner <==> loading
    ensures o == RedirectToAuth <==> !loading && user.None?
    ensures o == RedirectToHome <==> !loading && user.Some? && role != Some(Admin)
    ensures o == RenderChildren <==> !loading && user.Some? && role == Some(Admin)
  {
    if loading then Spinner
    else if user.None? then RedirectToAuth
    else if role != Some(Admin) then RedirectToHome
    else RenderChildren
  }

  /** While the session is loading, nothing about the user or the role can
      change what is shown. */
  lemma LoadingHidesIdentity(user1: Option<AuthUser>, role1: Option<Role>,
                             user2: Option<AuthUser>, role2: Option<Role>)
    ensures Guard(true, user1, role1) == Guard(true, user2, role2) == Spinner
  {
  }

  /** Only the role decides between the two outcomes for a signed-in user:
      a pending or missing role is sent home like a plain user. */
  lemma NonAdminsSentHome(user: AuthUser)
    ensures Guard(false, Some(user), None) == RedirectToHome
    ensures Guard(false, Some(user), Some(Pending)) == RedirectToHome
    ensures Guard(false, Some(user), Some(User)) == RedirectToHome
    ensures Guard(false, Some(user), Some(Admin)) == RenderChildren
  {
  }
}
