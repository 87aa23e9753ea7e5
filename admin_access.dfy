/**
 * The access rule both admin list pages apply when the signed-in user or
 * the auth loading flag changes.
 */
module AdminAccess {
  import opened Common

  predicate IsAdmin(user: Option<UserRecord>) {
    user.Some? && user.value.role == Some(ADMIN)
  }

  /** Leave for the dashboard, wait for the session, or load the page's data. */
  datatype Access = Redirect | Pending | Load

  /** Once auth has settled, anyone but an admin is sent away; an admin's
      data is loaded even while auth is still loading. */
  function AdminGuard(user: Option<UserRecord>, authLoading: bool): (a: Access)
    ensures a == Load <==> IsAdmin(user)
    ensures a == Redirect <==> !authLoading && !IsAdmin(user)
    ensures a == Pending <==> authLoading && !IsAdmin(user)
  {
    if !authLoading && (user.None? || user.value.role != Some(ADMIN)) then Redirect
    else if user.Some? && user.value.role == Some(ADMIN) then Load
    else Pending
  }
}
