/** The three routers (backend/routes/task.js, auth.js, profile.js): for each
    method and path inside a router, the middleware chain that runs, and how
    a chain runs: `protect` stops an unauthenticated request, a validation
    chain only records errors and always passes on, and the handler answers. */
module Routes {
  import opened Common

  datatype Verb = Get | Post | Put | Delete

  /** One middleware or handler of a chain. */
  datatype Step =
    | Protect
    | SearchTasksValidation | CreateTaskValidation | UpdateTaskValidation
    | RegisterValidation | LoginValidation | UpdateProfileValidation
    | GetTasks | CreateTask | GetTask | UpdateTask | DeleteTask
    | Register | Login | Logout
    | GetProfile | UpdateProfile

  predicate IsValidation(s: Step)
  {
    s.SearchTasksValidation? || s.CreateTaskValidation? || s.UpdateTaskValidation?
    || s.RegisterValidation? || s.LoginValidation? || s.UpdateProfileValidation?
  }

  predicate IsHandler(s: Step)
  {
    !s.Protect? && !IsValidation(s)
  }

  /** A path inside a router, as its segments: `[]` is "/", `[x]` is "/x". */
  type Path = seq<string>

  /** The task router: `protect` on every route, then the validation chain
      of the route if it has one, then the handler. "/:id" matches any one
      segment. */
  function TaskRoute(verb: Verb, path: Path): (chain: Option<seq<Step>>)
    ensures chain.Some? <==> (path == [] && verb in {Get, Post}) || (|path| == 1 && verb in {Get, Put, Delete})
  {
    if path == [] then
      match verb
      case Get => Some([Protect, SearchTasksValidation, GetTasks])
      case Post => Some([Protect, CreateTaskValidation, CreateTask])
      case _ => None
    else if |path| == 1 then
      match verb
      case Get => Some([Protect, GetTask])
      case Put => Some([Protect, UpdateTaskValidation, UpdateTask])
      case Delete => Some([Protect, DeleteTask])
      case _ => None
    else None
  }

  /** The auth router: three POST routes; only logout is guarded. */
  function AuthRoute(verb: Verb, path: Path): (chain: Option<seq<Step>>)
    ensures chain.Some? <==> verb == Post && path in {["register"], ["login"], ["logout"]}
  {
    if verb != Post then None
    else if path == ["register"] then Some([RegisterValidation, Register])
    else if path == ["login"] then Some([LoginValidation, Login])
    else if path == ["logout"] then Some([Protect, Logout])
    else None
  }

  /** The profile router: GET and PUT on "/", both guarded. */
  function ProfileRoute(verb: Verb, path: Path): (chain: Option<seq<Step>>)
    ensures chain.Some? <==> path == [] && verb in {Get, Put}
  {
    if path != [] then None
    else
      match verb
      case Get => Some([Protect, GetProfile])
      case Put => Some([Protect, UpdateProfileValidation, UpdateProfile])
      case _ => None
  }

  datatype Outcome = Unauthorized | Handled(handler: Step) | NoHandler

  /** Runs a chain: `protect` answers 401 unless the request is
      authenticated; a validation chain always calls `next`; the first
      handler answers. */
  function Run(chain: seq<Step>, authenticated: bool): Outcome
  {
    if chain == [] then NoHandler
    else if chain[0].Protect? && !authenticated then Unauthorized
    else if IsHandler(chain[0]) then Handled(chain[0])
    else Run(chain[1..], authenticated)
  }

  /** The shape every chain has: an optional guard, then validation steps,
      then exactly one handler, last. */
  predicate WellFormed(chain: seq<Step>)
  {
    && |chain| >= 1
    && IsHandler(chain[|chain| - 1])
    && (forall k :: 0 <= k < |chain| - 1 ==> !IsHandler(chain[k]))
    && (forall k :: 0 < k < |chain| ==> !chain[k].Protect?)
  }

  /** A guarded chain reaches no handler without authentication. */
  predicate Guarded(chain: seq<Step>)
  {
    |chain| >= 1 && chain[0].Protect?
  }

  /** In a well-formed chain, an authenticated request (or any request when
      there is no guard) reaches the chain's handler: validation never stops
      the chain. An unauthenticated request to a guarded chain stops at the
      guard. */
  lemma {:induction false} RunWellFormed(chain: seq<Step>, authenticated: bool)
    requires WellFormed(chain)
    ensures Guarded(chain) && !authenticated ==> Run(chain, authenticated) == Unauthorized
    ensures (authenticated || !Guarded(chain)) ==> Run(chain, authenticated) == Handled(chain[|chain| - 1])
  {
    if |chain| > 1 && !(chain[0].Protect? && !authenticated) {
      var rest := chain[1..];
      assert forall k :: 0 <= k < |rest| - 1 ==> rest[k] == chain[k + 1];
      RunFromHere(rest, authenticated);
    }
  }

  /** Past the guard position, a chain of validation steps ending in a
      handler reaches that handler. */
  lemma {:induction false} RunFromHere(chain: seq<Step>, authenticated: bool)
    requires |chain| >= 1 && IsHandler(chain[|chain| - 1])
    requires forall k :: 0 <= k < |chain| - 1 ==> IsValidation(chain[k])
    ensures Run(chain, authenticated) == Handled(chain[|chain| - 1])
  {
    if |chain| > 1 {
      var rest := chain[1..];
      assert forall k :: 0 <= k < |rest| - 1 ==> rest[k] == chain[k + 1];
      RunFromHere(rest, authenticated);
    }
  }

  /** Every task route is guarded and well formed; the list and create
      routes validate before their handler, and get-one and delete have no
      validation. */
  lemma TaskRoutesGuarded(verb: Verb, path: Path)
    requires TaskRoute(verb, path).Some?
    ensures Guarded(TaskRoute(verb, path).value) && WellFormed(TaskRoute(verb, path).value)
    ensures Run(TaskRoute(verb, path).value, false) == Unauthorized
  {
    RunWellFormed(TaskRoute(verb, path).value, false);
  }

  /** Register and login are reachable without authentication; logout is
      not. */
  lemma AuthRoutesGuards(verb: Verb, path: Path)
    requires AuthRoute(verb, path).Some?
    ensures WellFormed(AuthRoute(verb, path).value)
    ensures Guarded(AuthRoute(verb, path).value) <==> path == ["logout"]
    ensures path == ["register"] ==> Run(AuthRoute(verb, path).value, false) == Handled(Register)
    ensures path == ["login"] ==> Run(AuthRoute(verb, path).value, false) == Handled(Login)
    ensures path == ["logout"] ==> Run(AuthRoute(verb, path).value, false) == Unauthorized
  {
    RunWellFormed(AuthRoute(verb, path).value, false);
  }

  /** No profile route is reachable without authentication, and on PUT the
      guard runs before the validation chain. */
  lemma ProfileRoutesGuarded(verb: Verb, path: Path)
    requires ProfileRoute(verb, path).Some?
    ensures Guarded(ProfileRoute(verb, path).value) && WellFormed(ProfileRoute(verb, path).value)
    ensures Run(ProfileRoute(verb, path).value, false) == Unauthorized
    ensures verb == Put ==> ProfileRoute(verb, path).value == [Protect, UpdateProfileValidation, UpdateProfile]
  {
    RunWellFormed(ProfileRoute(verb, path).value, false);
  }

  /** An authenticated request reaches the handler the table names for it. */
  lemma AuthenticatedReachesHandler(verb: Verb, path: Path)
    ensures TaskRoute(verb, path).Some? ==>
              Run(TaskRoute(verb, path).value, true) == Handled(Last(TaskRoute(verb, path).value))
    ensures ProfileRoute(verb, path).Some? ==>
              Run(ProfileRoute(verb, path).value, true) == Handled(Last(ProfileRoute(verb, path).value))
    ensures AuthRoute(verb, path).Some? ==>
              Run(AuthRoute(verb, path).value, true) == Handled(Last(AuthRoute(verb, path).value))
  {
    if TaskRoute(verb, path).Some? {
      RunWellFormed(TaskRoute(verb, path).value, true);
    }
    if ProfileRoute(verb, path).Some? {
      RunWellFormed(ProfileRoute(verb, path).value, true);
    }
    if AuthRoute(verb, path).Some? {
      RunWellFormed(AuthRoute(verb, path).value, true);
    }
  }

  function Last(chain: seq<Step>): Step
    requires |chain| >= 1
  {
    chain[|chain| - 1]
  }
}
