/** The guard for pages that need any logged-in user (profile, report an issue). */
module PrivateRoute {
  import opened Api
  import opened Auth

  /** What a guard renders: the nested route, or a redirect. */
  datatype RouteElement = Outlet | Navigate(to: string, replace: bool)

  function Decide(userInfo: Option<UserInfo>): (r: RouteElement)
    ensures r == Outlet <==> userInfo.Some?
    ensures userInfo.None? ==> r == Navigate("/login", true)
  {
    if userInfo.Some? then Outlet else Navigate("/login", true)
  }

  /** The decision looks only at whether someone is logged in, never at `isAdmin`. */
  lemma IgnoresAdminFlag(u: UserInfo, isAdmin: bool)
    ensures Decide(Some(u)) == Decide(Some(u.(isAdmin := isAdmin))) == Outlet
  {
  }
}

/** The guard for the admin dashboard and its tabs. */
module AdminRoute {
  import opened Api
  import opened Auth
  import PrivateRoute

  function Decide(userInfo: Option<UserInfo>): (r: PrivateRoute.RouteElement)
    ensures r == PrivateRoute.Outlet <==> userInfo.Some? && userInfo.value.isAdmin
    ensures r != PrivateRoute.Outlet ==> r == PrivateRoute.Navigate("/", true)
  {
    if userInfo.Some? && userInfo.value.isAdmin then PrivateRoute.Outlet
    else PrivateRoute.Navigate("/", true)
  }

  /** Whoever the admin guard lets through, the logged-in guard lets through too. */
  lemma AdminIsPrivate(userInfo: Option<UserInfo>)
    ensures Decide(userInfo) == PrivateRoute.Outlet ==> PrivateRoute.Decide(userInfo) == PrivateRoute.Outlet
  {
  }
}
