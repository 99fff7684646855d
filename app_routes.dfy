/** The client's route table (frontend/src/App.tsx): nothing while the
    session loads; the landing, login and register pages only for visitors
    without a session; the API docs for everyone; the dashboard and profile
    behind the route guard; a not-found page for any other path. */
module AppRoutes {
  import opened ProtectedRoute

  datatype Page = Landing | Login | Register | ApiDocs | Dashboard | Profile | NotFound

  /** What the route table renders for a path. */
  datatype Screen = Blank | Loading | Show(page: Page) | Navigate(to: string, replace: bool)

  /** The pages behind the guard. */
  predicate IsProtected(p: Page)
  {
    p == Dashboard || p == Profile
  }

  /** The public pages a signed-in user is sent away from. */
  predicate IsGuestOnly(p: Page)
  {
    p == Landing || p == Login || p == Register
  }

  /** The page registered for a path; "*" catches every other path. */
  function PageAt(path: string): (p: Page)
    ensures p == NotFound <==> path !in {"/", "/login", "/register", "/api-docs", "/dashboard", "/profile"}
  {
    if path == "/" then Landing
    else if path == "/login" then Login
    else if path == "/register" then Register
    else if path == "/api-docs" then ApiDocs
    else if path == "/dashboard" then Dashboard
    else if path == "/profile" then Profile
    else NotFound
  }

  /** A guarded page as the guard renders it. */
  function Guarded(v: GuardView, p: Page): Screen
  {
    match v
    case Placeholder => Loading
    case Redirect(to, replace) => Navigate(to, replace)
    case Children => Show(p)
  }

  /** `AppRoutes`: blank while loading; a signed-in user is redirected from
      the guest-only pages to the dashboard; guarded pages go through the
      guard; the rest render. */
  function Route(path: string, isLoading: bool, signedIn: bool): (s: Screen)
    ensures isLoading <==> s == Blank
    ensures s.Show? && IsProtected(s.page) ==> signedIn
    ensures !isLoading && IsGuestOnly(PageAt(path)) ==>
              s == (if signedIn then Navigate("/dashboard", true) else Show(PageAt(path)))
    ensures !isLoading && PageAt(path) in {ApiDocs, NotFound} ==> s == Show(PageAt(path))
    ensures !isLoading && IsProtected(PageAt(path)) ==>
              s == (if signedIn then Show(PageAt(path)) else Navigate("/login", true))
  {
    if isLoading then Blank
    else
      var p := PageAt(path);
      if IsGuestOnly(p) then (if signedIn then Navigate("/dashboard", true) else Show(p))
      else if IsProtected(p) then Guarded(Guard(isLoading, signedIn), p)
      else Show(p)
  }

  /** The screen after following a redirect, if there is one. */
  function Settle(path: string, isLoading: bool, signedIn: bool): Screen
  {
    match Route(path, isLoading, signedIn)
    case Navigate(to, _) => Route(to, isLoading, signedIn)
    case s => s
  }

  /** Once the session has loaded, every path ends on a page after at most
      one redirect: a visitor without a session who asks for a guarded page
      lands on the login page, a signed-in user who asks for a guest-only
      page lands on the dashboard, and the guard's placeholder never shows
      because the table renders nothing while loading. */
  lemma EveryPathSettles(path: string, signedIn: bool)
    ensures Settle(path, false, signedIn).Show?
    ensures IsProtected(PageAt(path)) && !signedIn ==> Settle(path, false, signedIn) == Show(Login)
    ensures IsGuestOnly(PageAt(path)) && signedIn ==> Settle(path, false, signedIn) == Show(Dashboard)
    ensures forall isLoading :: Route(path, isLoading, signedIn) != Loading
  {
    assert PageAt("/login") == Login;
    assert PageAt("/dashboard") == Dashboard;
  }

  /** No path shows a guarded page without a session. */
  lemma ProtectedNeedsUser(path: string, isLoading: bool)
    ensures Settle(path, isLoading, false) != Show(Dashboard)
    ensures Settle(path, isLoading, false) != Show(Profile)
  {
    assert PageAt("/login") == Login;
  }
}
