# Task manager: a Dafny model

This project models a task-manager web application in Dafny 4.11. The
application has an Express/Mongoose back end and a React front end. The
model covers these parts:

- **Back end: the task API.** This is the request validation (express-validator chains), listing with
  filters and pagination, and create, read, update and delete, all scoped to the
  signed-in user. The tasks live in a store of rows (`TaskModel.TaskTable`).
- **Back end: the auth and profile API.** This covers register, login, logout, reading the
  profile and updating it. Emails stay unique across users (`UserModel.UserTable`).
- **Back end: the routers.** Each route runs a middleware chain. Every task
  and profile route, and logout, runs the authentication guard first (`Routes`).
- **Front end:**
  - the task-list hook (`UseTasks`): its query string, its list updaters and its fetch state;
  - the session store backed by `localStorage` (`AuthContext`);
  - the route guard (`ProtectedRoute`) and the route table (`AppRoutes`);
  - the task card (`TaskCard`) and the dashboard (`Dashboard`);
  - the task form dialog (`TaskDialog`).

Outside effects are parameters. This covers validator.js checks, `normalizeEmail`, password hashing and
comparison, JWT signing, `JSON.stringify`/`JSON.parse`, date parsing and
formatting, MongoDB's `$text` matching, the clock and the outcome of each HTTP
request. Oracle records (`Common.Validators`, `AuthController.Crypto`,
`AuthContext.Json`) and function-valued parameters stand in for them. The properties proved
hold for every such function.

An express-validator chain has no `bail()`, so it reports one error for each validator that
fails, in chain order. `.optional()` skips only an absent (`undefined`) value. Sanitizers such as
`trim` and `normalizeEmail` rewrite the value that later steps see. Each
`…Validation` function returns the list of errors. An iff lemma or ensures ties "no
errors" to a plain predicate saying which bodies are acceptable.

The back end keeps its tasks in insertion order. A listing returns them
newest first. `rows` is appended to, so a listing walks it backwards.

The model follows the code as written. For example, the client's session restore stops with `isLoading` still true when the stored user
text cannot be parsed, because the exception escapes the effect before
`setIsLoading(false)` runs. `AuthContext.AuthProvider.Init` models exactly that.

## Model

| member | source | states |
|---|---|---|
| Common.Check | backend/controllers/taskController.js:8-11 | a validator step adds no error when its check passes and exactly one error (field, message) when it fails |
| Common.Trim | backend/controllers/taskController.js:7 | `trim()` never lengthens a value and leaves no white space at either end |
| Common.TrimInfix | backend/controllers/taskController.js:7 | trimming removes only white space, and only at the two ends: the result is an infix of the input flanked by white space |
| Common.IsIntTextExamples | backend/controllers/taskController.js:84-91 | `isInt` accepts leading zeros and a sign, and rejects the empty string, a bare sign, a fraction and an exponent |
| Common.IntValue | backend/controllers/taskController.js:146 | `parseInt` of accepted integer text: the digits' value, non-negative exactly when there is no minus sign or the value is zero |
| Common.TrimNoop | backend/models/Task.js:14 | a value with no white space at its ends is kept unchanged |
| Common.TrimIdempotent | backend/models/Task.js:14 | the schema's `trim` after the validator's `trim()` changes nothing more |
| Common.TrimAllSpace | backend/controllers/taskController.js:7-9 | a value of white space only trims to the empty string, so `notEmpty` rejects it |
| Common.Split | backend/controllers/taskController.js:141 | `split(",")` yields at least one piece and no piece contains the separator |
| Common.JoinSplit | backend/controllers/taskController.js:141 | joining the pieces with the separator gives back the original string |
| Common.BeforeFirst | frontend/src/components/TaskDialog.tsx:74 | `split("T")[0]`: the result contains no separator, is a prefix of the input, and is followed by the separator when shorter |
| TaskModel.ParseStatus | backend/models/Task.js:24-29 | a string accepted as a status is that status's name |
| TaskModel.ParsePriority | backend/models/Task.js:30-35 | a string accepted as a priority is that priority's name |
| TaskModel.StatusRoundTrip | backend/models/Task.js:26 | every status name ("pending", "in-progress", "completed") reads back as its status |
| TaskModel.PriorityRoundTrip | backend/models/Task.js:32 | every priority name ("low", "medium", "high") reads back as its priority |
| TaskModel.ParseStatusComplete | backend/models/Task.js:26 | a string is rejected as a status iff it names no status |
| TaskModel.ParsePriorityComplete | backend/models/Task.js:32 | a string is rejected as a priority iff it names no priority |
| TaskModel.NewTask | backend/models/Task.js:3-54 | a new document takes the schema defaults for what is left out (status pending, priority medium, no tags); title and the given description are trimmed; both timestamps are set to the creation time |
| TaskModel.NewTaskValid | backend/models/Task.js:11-49 | a task made from a title of 1 to 200 characters and a description of at most 1000 characters (after trimming), with at most 10 tags, satisfies the schema |
| TaskModel.TaskTable.constructor | backend/models/Task.js:3-54 | the collection starts empty and valid |
| TaskModel.TaskTable.Insert | backend/controllers/taskController.js:220-228 | `Task.create` appends exactly the one new task under a fresh id; ids stay distinct and every row stays valid |
| TaskModel.TaskTable.Replace | backend/controllers/taskController.js:279-282 | `findByIdAndUpdate` replaces exactly the one row and keeps the store valid |
| TaskModel.TaskTable.Remove | backend/controllers/taskController.js:311 | `findByIdAndDelete` removes exactly that row and keeps the order of the others |
| TaskModel.FindOwned | backend/controllers/taskController.js:180-183 | the `{_id, user}` lookup returns a position only for a task with that id and owner, and none iff no such task exists |
| TaskModel.FindOwnedExact | backend/controllers/taskController.js:180-190 | with distinct ids, another user's task is not found, exactly as if the id were missing (so the reply is 404) |
| TaskController.SharedFieldErrorsSpec | backend/controllers/taskController.js:12-34 | the description, status, priority, dueDate and tags chains report no error iff every field present is acceptable |
| TaskController.CreateTaskValidation | backend/controllers/taskController.js:5-35 | no errors iff the title trims to 1 to 200 characters and the shared fields are acceptable |
| TaskController.UpdateTaskValidation | backend/controllers/taskController.js:37-68 | no errors iff a title that is present trims to 1 to 200 characters and the shared fields are acceptable; an absent title is fine |
| TaskController.ListQueryValidation | backend/controllers/taskController.js:70-92 | no errors iff search is at most 100 characters after trimming, status and priority are enum names, page is an integer of at least 1 and limit an integer from 1 to 100 |
| TaskController.TagList | backend/controllers/taskController.js:141 | the tag filter is one trimmed tag for each comma-separated piece |
| TaskController.Listing | backend/controllers/taskController.js:149-150 | a listing is never longer than the store |
| TaskController.ListingIsReversedFilter | backend/controllers/taskController.js:149-150 | the listing is the store-order filter of the matching rows read backwards: newest first under the default sort |
| TaskController.ListingCounts | backend/controllers/taskController.js:149-156 | each matching row is listed exactly as often as it is stored and nothing else is listed, so `total` counts the matching rows |
| TaskController.ListingMembers | backend/controllers/taskController.js:121-149 | a task is listed iff it is stored and matches every filter |
| TaskController.ListingOwnerOnly | backend/controllers/taskController.js:122 | only the requesting user's stored tasks are listed |
| TaskController.ListingByStatus | backend/controllers/taskController.js:130-132 | with a status filter, every listed task has that status |
| TaskController.ListingByTags | backend/controllers/taskController.js:140-143 | the tag filter keeps exactly the owner's tasks that share a tag with the trimmed pieces |
| TaskController.PageNumber | backend/controllers/taskController.js:116 | the page defaults to 1 and is always at least 1 |
| TaskController.LimitNumber | backend/controllers/taskController.js:117 | the limit defaults to 10 and is always between 1 and 100 |
| TaskController.PageCount | backend/controllers/taskController.js:166 | `ceil(total / limit)` is the fewest pages that hold every match |
| TaskController.Window | backend/controllers/taskController.js:151-152 | a page holds at most `limit` items, taken in order from position `skip`, and is empty past the end |
| TaskController.PastLastPageEmpty | backend/controllers/taskController.js:146-152 | a page number beyond `pages` gives an empty page |
| TaskController.PagesPrefix | backend/controllers/taskController.js:146-152 | the first n pages together are the first n·limit matches |
| TaskController.PagesCoverAll | backend/controllers/taskController.js:146-166 | reading pages 1 to `pages` yields every match exactly once, in order |
| TaskController.TwentyFiveTasksInPagesOfTen | backend/controllers/taskController.js:146-166 | 25 matches with limit 10 make 3 pages of 10, 10 and 5, and page 4 is empty |
| TaskController.GetTasks | backend/controllers/taskController.js:97-173 | an invalid query gets 400 with the errors and no lookup; otherwise 200 with the page of the owner's matches, the total and the page count |
| TaskController.BuildFilter | backend/controllers/taskController.js:121-143 | the query object built step by step is the filter that the listing lemmas speak of |
| TaskController.WindowOwnerOnly | backend/controllers/taskController.js:149-153 | every task on any page is a stored task of the requesting user |
| TaskController.GetTask | backend/controllers/taskController.js:178-199 | 404 iff the user has no task with that id; otherwise 200 with that task |
| TaskController.Skip | backend/controllers/taskController.js:146 | page 1 skips nothing, and page `p` ends exactly where page `p + 1` starts |
| TaskController.CreatedTask | backend/controllers/taskController.js:220-228 | the new task has the given id, the acting user as owner, the body's due date, and both timestamps set to now |
| TaskController.Patched | backend/controllers/taskController.js:270-281 | an update keeps the task's id, owner and creation time, and sets the update time to now |
| TaskController.CreatedTaskValid | backend/controllers/taskController.js:218-228 | an accepted body yields a valid task owned by the requester, with the requested status, priority and tags or their defaults, and the trimmed description or the controller's `description \|\| ""` |
| TaskController.CreateDefaults | backend/controllers/taskController.js:223-227 | a body with only a title yields description "", pending, medium and no tags |
| TaskController.CreateTask | backend/controllers/taskController.js:204-238 | a rejected body gets 400 and stores nothing; otherwise exactly one new task is appended and returned with 201 |
| TaskController.StoreCreated | backend/controllers/taskController.js:220-228 | the task stored is the one built from the body under the next id, and the store stays valid |
| TaskController.UpdateChangesOnlySupplied | backend/controllers/taskController.js:269-282 | an update changes only the fields supplied in the body (plus `updatedAt`); id, owner and creation time are kept |
| TaskController.UpdateKeepsValid | backend/controllers/taskController.js:279-282 | an accepted update of a valid task leaves a valid task |
| TaskController.UpdateTask | backend/controllers/taskController.js:243-292 | 400 and no change on errors; 404 and no change when the user has no such task; otherwise only that row changes, to the patched task, which is returned |
| TaskController.BuildPatch | backend/controllers/taskController.js:269-277 | `updateFields`, built field by field, takes exactly the fields the body supplies |
| TaskController.Without | backend/controllers/taskController.js:311 | deleting never lengthens the collection |
| TaskController.WithoutRemovesOne | backend/controllers/taskController.js:311 | with distinct ids, deleting an id removes exactly that row and keeps the others in order |
| TaskController.WithoutAbsent | backend/controllers/taskController.js:311 | deleting an id that is not stored changes nothing |
| TaskController.DeleteTask | backend/controllers/taskController.js:297-321 | 404 and no change when the user has no such task; otherwise exactly that row is removed and 200 is returned |
| UserModel.FindByEmail | backend/controllers/authController.js:65 | the email lookup returns only a user with that email, and none iff no user has it |
| UserModel.FindById | backend/controllers/profileController.js:29 | the id lookup returns only the user with that id, and none iff there is none |
| UserModel.FindByEmailExact | backend/controllers/authController.js:65-71 | with unique emails, the lookup finds the one user holding the email |
| UserModel.UserTable.Insert | backend/controllers/authController.js:74-78 | `User.create` appends the one new user under a fresh id; emails stay unique |
| UserModel.UserTable.Replace | backend/controllers/profileController.js:82-85 | `findByIdAndUpdate` replaces one user; emails stay unique |
| AuthController.View | backend/controllers/authController.js:88-94 | the user in a reply carries id, name, email, avatar and creation time, and never the password hash |
| AuthController.RegisterValidation | backend/controllers/authController.js:13-32 | no errors iff the name trims to 2 to 50 characters, the email is a non-empty valid email and the password has at least 6 characters |
| AuthController.EmptyRegisterErrors | backend/controllers/authController.js:13-32 | an empty body gets every error of the three chains, in chain order |
| AuthController.LoginValidation | backend/controllers/authController.js:34-43 | no errors iff the email is valid and the password is not empty |
| AuthController.NewUser | backend/controllers/authController.js:74-78 | the created user has the given id, the sanitised email, the hash of the submitted password rather than the password, no avatar, and both timestamps set to now |
| AuthController.Register | backend/controllers/authController.js:48-100 | 400 with the errors; 400 "User already exists with this email" for a taken normalised email, with no change; otherwise exactly one user is appended with the hashed password, and 201 carries a token for the new id |
| AuthController.Login | backend/controllers/authController.js:105-161 | 400 on errors; the same 401 for an unknown email and for a wrong password; 200 only for a stored user whose hash matches, with that user's token and view |
| AuthController.RegisteredUserCanLogIn | backend/controllers/authController.js:74-139 | after registering, the same email finds the new user and the same password matches its stored hash |
| AuthController.Logout | backend/controllers/authController.js:166-171 | logout always answers 200 with no data and no errors |
| ProfileController.ProfileValidation | backend/controllers/profileController.js:5-22 | no errors iff every field present passes its check (name 2 to 50 characters after trimming, a valid email, an avatar URL) |
| ProfileController.ApplyProfile | backend/controllers/profileController.js:64-69 | name and email change only when supplied non-empty, avatar whenever supplied; id, password hash and creation time are kept |
| ProfileController.ValidatedNameReplaces | backend/controllers/profileController.js:6-10 | an empty name is rejected (and an empty avatar too when the URL check rejects ""), so after validation a supplied name is truthy and replaces the stored name, trimmed |
| ProfileController.ProfileOf | backend/controllers/profileController.js:31-41 | the profile view shows the stored fields and no password hash |
| ProfileController.UpdatedOf | backend/controllers/profileController.js:87-97 | the update reply shows the stored fields after the update |
| ProfileController.GetProfile | backend/controllers/profileController.js:27-45 | 200 with the requesting user's own profile |
| ProfileController.UpdateProfile | backend/controllers/profileController.js:50-101 | 400 and no change on errors; 400 "Email already in use" and no change when another user has the new email; otherwise only the requester's row changes, to the applied update, and emails stay unique |
| ProfileController.BuildUpdate | backend/controllers/profileController.js:64-69 | `updateFields`, built field by field, gives the applied update |
| ProfileController.KeepsEmailsUnique | backend/controllers/profileController.js:72-85 | when the lookup found no other holder of the new email, no other user has the updated email |
| Routes.TaskRoute | backend/routes/task.js:16-27 | the task router serves exactly GET and POST on "/" and GET, PUT and DELETE on "/:id" |
| Routes.AuthRoute | backend/routes/auth.js:13-15 | the auth router serves exactly POST register, login and logout |
| Routes.ProfileRoute | backend/routes/profile.js:11-12 | the profile router serves exactly GET and PUT on "/" |
| Routes.RunWellFormed | backend/routes/task.js:16-27 | a guarded chain stops an unauthenticated request; otherwise the chain reaches its handler |
| Routes.TaskRoutesGuarded | backend/routes/task.js:16 | every task route runs `protect` first, so an unauthenticated request never reaches a handler |
| Routes.AuthRoutesGuards | backend/routes/auth.js:13-15 | register and login are open; logout alone is guarded |
| Routes.ProfileRoutesGuarded | backend/routes/profile.js:11-12 | both profile routes are guarded; the update validates before its handler |
| Routes.AuthenticatedReachesHandler | backend/routes/task.js:18-27 | an authenticated request on any route reaches that route's handler |
| UseTasks.QueryParams | frontend/src/hooks/useTasks.ts:40-43 | at most three parameters, none empty, keys in the order search, status, priority |
| UseTasks.QueryParamsLookup | frontend/src/hooks/useTasks.ts:40-43 | each key is sent iff its filter is truthy, and then with the filter's value |
| UseTasks.Prepend | frontend/src/hooks/useTasks.ts:62 | the created task comes first, followed by the old list |
| UseTasks.ReplaceById | frontend/src/hooks/useTasks.ts:67-69 | each task with the id becomes the response, and every other task stays in place |
| UseTasks.RemoveById | frontend/src/hooks/useTasks.ts:74 | exactly the tasks without the id remain |
| UseTasks.RemoveByIdConcat | frontend/src/hooks/useTasks.ts:74 | removal works piecewise, so the remaining tasks keep their order |
| UseTasks.AbsentIdUnchanged | frontend/src/hooks/useTasks.ts:67-74 | both updaters leave a list without the id unchanged |
| UseTasks.DeleteUndoesCreate | frontend/src/hooks/useTasks.ts:60-75 | deleting a just-created task restores the earlier list |
| UseTasks.ReplaceByIdIdempotent | frontend/src/hooks/useTasks.ts:67-69 | applying the same update twice equals applying it once |
| UseTasks.FetchError | frontend/src/hooks/useTasks.ts:50 | a failed fetch always sets a non-empty error: the server's message when it gave one, otherwise "Failed to fetch tasks" |
| UseTasks.TasksHook.constructor | frontend/src/hooks/useTasks.ts:32-34 | the hook starts with no tasks, loading and no error |
| UseTasks.TasksHook.BeginFetch | frontend/src/hooks/useTasks.ts:38-43 | a fetch starts loading, clears the error and sends the filter parameters |
| UseTasks.TasksHook.FinishFetch | frontend/src/hooks/useTasks.ts:44-53 | a success replaces the list; a failure keeps it and sets the error; loading ends either way |
| UseTasks.TasksHook.Fetch | frontend/src/hooks/useTasks.ts:36-54 | after a fetch the list is the server's answer to the filter parameters, or the error is set |
| UseTasks.TasksHook.CreateTask | frontend/src/hooks/useTasks.ts:60-63 | only a successful create changes the list, by prepending the response |
| UseTasks.TasksHook.UpdateTask | frontend/src/hooks/useTasks.ts:65-70 | only a successful update changes the list, by replacing by id |
| UseTasks.TasksHook.DeleteTask | frontend/src/hooks/useTasks.ts:72-75 | only a successful delete changes the list, by removing by id |
| AuthContext.RestoreSession | frontend/src/contexts/AuthContext.tsx:32-38 | a user is restored only when both "user" and "token" are truthy, and then as the parsed stored text |
| AuthContext.Saved | frontend/src/contexts/AuthContext.tsx:49-51 | after sign-in, storage holds the token and the serialised user, and every other entry is unchanged |
| AuthContext.Cleared | frontend/src/contexts/AuthContext.tsx:68-69 | after logout, both session entries are gone and every other entry is unchanged |
| AuthContext.SaveThenRestore | frontend/src/contexts/AuthContext.tsx:32-52 | a saved session is restored on the next mount when parsing undoes serialising |
| AuthContext.LogoutThenRestore | frontend/src/contexts/AuthContext.tsx:32-71 | after logout, the next mount restores no user |
| AuthContext.AuthProvider.constructor | frontend/src/contexts/AuthContext.tsx:29-30 | the provider starts with no user and loading |
| AuthContext.AuthProvider.Init | frontend/src/contexts/AuthContext.tsx:32-40 | the mount effect restores the parsed user and ends loading; when the stored text cannot be parsed, it stops before loading ends |
| AuthContext.AuthProvider.SaveSession | frontend/src/contexts/AuthContext.tsx:49-52 | storing a session writes both entries and sets the user |
| AuthContext.AuthProvider.Register | frontend/src/contexts/AuthContext.tsx:42-53 | a successful register saves the session; a failed one changes nothing |
| AuthContext.AuthProvider.Login | frontend/src/contexts/AuthContext.tsx:55-65 | a successful login saves the session; a failed one changes nothing |
| AuthContext.AuthProvider.Logout | frontend/src/contexts/AuthContext.tsx:67-71 | logout clears both entries and the user |
| AuthContext.UseAuth | frontend/src/contexts/AuthContext.tsx:80-86 | outside a provider, `useAuth` fails with its message; inside one, it returns the provider |
| TaskCard.NextStatus | frontend/src/components/TaskCard.tsx:56-61 | a click always changes the status |
| TaskCard.StatusCycle | frontend/src/components/TaskCard.tsx:56-61 | clicks cycle through all three statuses and come back after three |
| TaskCard.StatusClick | frontend/src/components/TaskCard.tsx:54-63 | a click reports the card's own id and the next status |
| TaskCard.VisibleTags | frontend/src/components/TaskCard.tsx:179 | the card shows the first two tags, or all of them when there are fewer |
| TaskCard.DueDateArea | frontend/src/components/TaskCard.tsx:191-208 | the date area appears iff the due date is truthy; a completed task shows "Done" and is never overdue; any other task shows the relative time and is overdue iff its date has passed |
| TaskCard.PriorityColorsCover | frontend/src/components/TaskCard.tsx:30-43 | every priority has a colour entry, and every entry is a priority |
| TaskCard.PriorityColor | frontend/src/components/TaskCard.tsx:173 | a badge's colour is the entry for its priority |
| Dashboard.Greeting | frontend/src/pages/Dashboard.tsx:159-164 | morning iff the hour is 5 to 11, afternoon iff 12 to 16, evening otherwise |
| Dashboard.Clock.constructor | frontend/src/pages/Dashboard.tsx:143-144 | the clock starts with the current time and no greeting |
| Dashboard.Clock.Tick | frontend/src/pages/Dashboard.tsx:156-165 | each tick stores the time and the greeting for its hour |
| Dashboard.FilterOf | frontend/src/pages/Dashboard.tsx:169-170 | the choice "all" is no filter; any other choice filters by itself |
| Dashboard.Filters | frontend/src/pages/Dashboard.tsx:167-171 | the filters are the search text as typed, plus the status and priority choices |
| Dashboard.FiltersToQuery | frontend/src/pages/Dashboard.tsx:136-174 | the initial choices send no parameter; a status or priority choice other than "all" is sent as given |
| Dashboard.CountStatus | frontend/src/pages/Dashboard.tsx:177-181 | no status count exceeds the number of tasks |
| Dashboard.CountsSum | frontend/src/pages/Dashboard.tsx:177-182 | the three status counts add up to the number of tasks |
| Dashboard.Progress | frontend/src/pages/Dashboard.tsx:184-187 | the percentage is 0 for no tasks or a zero count, 100 for all tasks, and always between 0 and 100 |
| Dashboard.EditState.constructor | frontend/src/pages/Dashboard.tsx:139-140 | the dialog starts closed with no task being edited |
| Dashboard.EditState.OpenForCreate | frontend/src/pages/Dashboard.tsx:450 | a "New" button opens the dialog |
| Dashboard.EditState.OpenForEdit | frontend/src/pages/Dashboard.tsx:505-506 | editing a card opens the dialog on that task |
| Dashboard.EditState.OpenChange | frontend/src/pages/Dashboard.tsx:521-524 | closing the dialog forgets the edited task |
| Dashboard.EditState.Target | frontend/src/pages/Dashboard.tsx:525 | a submit updates iff a task is being edited, and then that task's id |
| Dashboard.EditState.HandleUpdateTask | frontend/src/pages/Dashboard.tsx:199-209 | with nothing being edited nothing is sent; otherwise the update goes to the edited id, and only success ends the editing |
| Dashboard.StatusChangeBody | frontend/src/pages/Dashboard.tsx:223 | a status change sends the status and nothing else |
| Dashboard.StatusChangeOnlyStatus | frontend/src/pages/Dashboard.tsx:221-223 | the server accepts a status change, and it changes only the stored task's status and update time |
| TaskDialog.DefaultValues | frontend/src/components/TaskDialog.tsx:55-64 | the form starts with an empty title, description and due date, pending and medium |
| TaskDialog.ResetValues | frontend/src/components/TaskDialog.tsx:66-86 | opening on a task shows its fields, and its due date as the date part of its ISO form; otherwise the form shows the defaults |
| TaskDialog.ResetValuesSchema | frontend/src/components/TaskDialog.tsx:34-40 | the defaults fail the schema, and a task's values pass it iff the task has a title |
| TaskDialog.Dialog.constructor | frontend/src/components/TaskDialog.tsx:55-64 | the form starts on its default values |
| TaskDialog.Dialog.Reset | frontend/src/components/TaskDialog.tsx:66-86 | the reset effect shows the task's values, or the defaults, and makes them what a plain reset returns to |
| TaskDialog.Dialog.Edit | frontend/src/components/TaskDialog.tsx:108-124 | typing changes the values and nothing else |
| TaskDialog.Dialog.Submit | frontend/src/components/TaskDialog.tsx:88-92 | values the schema rejects are not submitted; accepted values are submitted, and the dialog closes and resets only when the submit succeeds |
| TaskDialog.WireBody | frontend/src/components/TaskDialog.tsx:88-89 | the body sent carries every form field, including an empty due date as "" |
| TaskDialog.EmptyDueDateRejected | frontend/src/components/TaskDialog.tsx:73-83 | a form without a due date sends `dueDate: ""`, and both the create and the update validators reject it |
| TaskDialog.IntendedWireBody | frontend/src/components/TaskDialog.tsx:88-89 | the corrected body sends a due date only when one was entered, and is otherwise the same |
| TaskDialog.IntendedBodyAccepted | frontend/src/components/TaskDialog.tsx:34-40 | with the corrected body, values the schema accepts that fit the server's limits pass both validators |
| TaskDialog.DefaultsWithTitleAccepted | frontend/src/components/TaskDialog.tsx:55-64 | the defaults with only a title typed in are accepted with the corrected body |
| ProtectedRoute.Guard | frontend/src/components/ProtectedRoute.tsx:8-24 | a placeholder iff loading; a replacing redirect to "/login" iff loaded and signed out; the children iff loaded and signed in |
| AppRoutes.PageAt | frontend/src/App.tsx:22-51 | exactly the six known paths have pages; every other path is "not found" |
| AppRoutes.Route | frontend/src/App.tsx:16-51 | blank iff loading; a protected page is shown only to a signed-in user; the guest pages send a signed-in user to the dashboard; the docs and "not found" are always shown |
| AppRoutes.EveryPathSettles | frontend/src/App.tsx:22-51 | once loaded, every path settles on a page after at most one redirect: a signed-out user lands on the login page, a signed-in one on the dashboard |
| AppRoutes.ProtectedNeedsUser | frontend/src/App.tsx:35-50 | a signed-out user never sees the dashboard or the profile |

## Left out

- Persistence, MongoDB query execution and the server lifecycle (`app.js`, database configuration) are not modelled. The stores are in-memory rows.
- The caller-supplied `sort` query parameter, which reaches `.sort()` unvalidated, is left out. The default `-createdAt` is modelled as reverse insertion order, which matches it only when creation times strictly increase with insertion; `now` is not constrained to do so.
- Tasks with equal `createdAt` are left out. MongoDB returns such ties in no fixed order, and that order may differ between two page requests under `skip`/`limit`. `TaskController.ListingIsReversedFilter`, `TaskController.Window` and `TaskController.PagesCoverAll` describe the source only when the owner's timestamps are distinct.
- `$text` search relevance is left out. Search matching is the parameter `textMatch`.
- JWT signing and verification, password hashing and comparison, and the validator.js checks (`isEmail`, `isURL`, `isISO8601`, `normalizeEmail`) are given functions. Their internals are left out.
- `backend/models/User.js` and `backend/middleware/authMiddleware.js` are not part of this model.
  - `protect` is a step that passes or answers 401.
  - The user's fields are the ones the controllers read.
  - A new user's default avatar is modelled as absent.
- `ProfileController.GetProfile` and `ProfileController.UpdateProfile` require the acting user to exist. The middleware has already loaded that user.
- Check-then-insert races between concurrent requests are left out. The email uniqueness kept by `UserModel.UserTable` relies on one request running at a time.
- A malformed ObjectId (Mongoose `CastError`, answered 500) is left out. Ids are numbers.
- JSON body values of non-string types are left out. String fields are `Option<string>`; `tags` is absent, a string or a list of strings.
- Lengths are counted in characters, not UTF-16 code units.
- URL encoding of query parameters is left out.
- Repeated query keys are left out. Express turns `?tags=a&tags=b` into an array, on which `tags.split` throws into the error handler, and `?page=1&page=2` reaches `parseInt` as an array; `ListQuery` holds one string per key.
- TaskController.PageNumber: exact integers, like `TaskController.LimitNumber` and `TaskController.Skip`. `parseInt` returns a double, so a page above 2^53 makes `skip` and `pagination.page` lose precision; that loss is not modelled.
- The Mongoose cast of `dueDate` to a `Date` is left out. The model stores the accepted ISO 8601 text; a text that `isISO8601` accepts but the cast cannot parse makes create or update fail through the error handler instead of answering 201 or 200.
- Routes.TaskRoute: `router.use(protect)` runs for every request that enters the task router, so an unauthenticated request to an unmatched method or path there (such as `GET /api/tasks/a/b`) gets 401. The model returns no chain for it and describes only matched routes.
- Path normalisation in the client router is left out. Paths are compared as given.
- `Dashboard.Progress` rounds the exact quotient half up. It does not model the floating-point `count / total * 100` before `Math.round`.
- Date parsing, `toISOString`, `formatDistanceToNow` and the `.replace("about ", "")` are given functions. An invalid date is left out: `toISOString` throws a RangeError on it, and so does `formatDistanceToNow` in `TaskCard.DueDateArea`.
- A task the client receives with no description is left out. `UseTasks.ClientTask.description` is always a string.
- The presentational pages and components, toasts, `confirm()` before delete, the one-second interval timer and the Axios instance are left out. Only their state changes are modelled.

## Findings

| source | as written | input that shows it | evidently intended | confidence | as-written member | corrected member |
|---|---|---|---|---|---|---|
| frontend/src/components/TaskDialog.tsx:88-89 | the form sends every value, so a task without a due date is sent with `dueDate: ""` (the default at line 62 and the reset at lines 75 and 83); the server's `body("dueDate").optional().isISO8601()` (backend/controllers/taskController.js:25-28 and 58-61) skips only an absent value, so it checks "" | create a task with only a title: `{title: "x", description: "", status: "pending", priority: "medium", dueDate: ""}` gets 400 "Due date must be a valid date" | send `dueDate` only when a date was entered | not executed; relies on validator.js rejecting the empty string as ISO 8601 | TaskDialog.WireBody, TaskDialog.EmptyDueDateRejected | TaskDialog.IntendedWireBody, TaskDialog.IntendedBodyAccepted |
