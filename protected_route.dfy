/** The guard in front of the signed-in pages: a decision on the auth context's
    `(loading, user)` pair. */
module ProtectedRoute {
  import opened Wrappers
  import opened Domain

  datatype RouteView =
    | LoadingPlaceholder
    | Redirect(to: string, replace: bool)
    | RenderChildren

  /** What `ProtectedRoute` renders. */
  function Guard(loading: bool, user: Option<User>): (v: RouteView)
    ensures v.LoadingPlaceholder? <==> loading
    ensures v.Redirect? <==> !loading && user.None?
    ensures v.RenderChildren? <==> !loading && user.Some?
    ensures v.Redirect? ==> v.to == "/login" && v.replace
  {
    if loading then LoadingPlaceholder
    else if user.None? then Redirect("/login", true)
    else RenderChildren
  }
}
