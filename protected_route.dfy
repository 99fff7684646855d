/** The route guard of the client (frontend/src/components/ProtectedRoute.tsx):
    a placeholder while the session is loading, a redirect to the login page
    without a user, and the guarded page otherwise. */
module ProtectedRoute {

  /** What the guard renders. */
  datatype GuardView = Placeholder | Redirect(to: string, replace: bool) | Children

  /** The guard's three-way decision on the session state. */
  function Guard(isLoading: bool, signedIn: bool): (v: GuardView)
    ensures v == Placeholder <==> isLoading
    ensures v == Redirect("/login", true) <==> !isLoading && !signedIn
    ensures v == Children <==> !isLoading && signedIn
  {
    if isLoading then Placeholder
    else if !signedIn then Redirect("/login", true)
    else Children
  }
}
