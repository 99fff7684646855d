/** The task service (backend/controllers/taskController.js): the three
    validation chains, the owner-scoped list query with its filters and
    pagination, and get, create, update and delete of one task. */
module TaskController {
  import opened Common
  import opened TaskModel

  // ---------------------------------------------------------------------
  // Requests and replies

  /** The `tags` body field: left out, a string, or an array of strings. */
  datatype TagsValue = Undefined | Str(text: string) | List(items: seq<string>)

  /** A create or update body; `None` is a field that is `undefined`. */
  datatype TaskBody = TaskBody(
    title: Option<string>,
    description: Option<string>,
    status: Option<string>,
    priority: Option<string>,
    dueDate: Option<string>,
    tags: TagsValue)

  /** The query string of a list request, every parameter as its raw text. */
  datatype ListQuery = ListQuery(
    search: Option<string>,
    status: Option<string>,
    priority: Option<string>,
    tags: Option<string>,
    page: Option<string>,
    limit: Option<string>)

  datatype Pagination = Pagination(page: int, limit: int, total: nat, pages: nat)

  datatype TaskData =
    | One(task: Task)
    | Page(tasks: seq<Task>, pagination: Pagination)
    | Deleted(id: TaskId)

  /** The JSON envelope: status code, `success`, optional `message`, `data`
      and the `errors` list of a validation failure. */
  datatype Reply = Reply(code: int, success: bool, message: Option<string>,
                         data: Option<TaskData>, errors: seq<FieldError>)

  function ValidationFailed(errors: seq<FieldError>): Reply
  {
    Reply(400, false, Some("Validation failed"), None, errors)
  }

  /** The one answer for a task that is missing and for a task of another
      owner alike. */
  function NotFound(): Reply
  {
    Reply(404, false, Some("Task not found"), None, [])
  }

  // ---------------------------------------------------------------------
  // Validation chains

  /** The chains that create and update share, for description, status,
      priority, dueDate and tags, in that order. */
  function SharedFieldErrors(b: TaskBody, lib: Validators): seq<FieldError>
  {
    (if b.description.Some?
     then Check(|Trim(b.description.value)| <= MaxDescriptionLength, "description",
                "Description cannot exceed 1000 characters")
     else [])
    + (if b.status.Some?
       then Check(ParseStatus(b.status.value).Some?, "status",
                  "Status must be pending, in-progress, or completed")
       else [])
    + (if b.priority.Some?
       then Check(ParsePriority(b.priority.value).Some?, "priority",
                  "Priority must be low, medium, or high")
       else [])
    + (if b.dueDate.Some?
       then Check(lib.isIso8601(b.dueDate.value), "dueDate", "Due date must be a valid date")
       else [])
    + TagsErrors(b.tags)
  }

  /** `isArray()` then `custom(tags => tags.length <= 10)`; on a string the
      custom check measures the string's length. */
  function TagsErrors(tags: TagsValue): seq<FieldError>
  {
    match tags
    case Undefined => []
    case Str(text) =>
      Check(false, "tags", "Tags must be an array")
      + Check(|text| <= MaxTags, "tags", "Cannot have more than 10 tags")
    case List(items) => Check(|items| <= MaxTags, "tags", "Cannot have more than 10 tags")
  }

  /** What the shared chains accept, field by field. */
  predicate SharedFieldsAcceptable(b: TaskBody, lib: Validators)
  {
    && (b.description.Some? ==> |Trim(b.description.value)| <= MaxDescriptionLength)
    && (b.status.Some? ==> ParseStatus(b.status.value).Some?)
    && (b.priority.Some? ==> ParsePriority(b.priority.value).Some?)
    && (b.dueDate.Some? ==> lib.isIso8601(b.dueDate.value))
    && (b.tags.Undefined? || (b.tags.List? && |b.tags.items| <= MaxTags))
  }

  lemma SharedFieldErrorsSpec(b: TaskBody, lib: Validators)
    ensures SharedFieldErrors(b, lib) == [] <==> SharedFieldsAcceptable(b, lib)
  {
  }

  /** A create body is acceptable when its trimmed title is 1..200 long and
      the other fields are acceptable. */
  predicate CreateAcceptable(b: TaskBody, lib: Validators)
  {
    1 <= |Trim(TextOrEmpty(b.title))| <= MaxTitleLength && SharedFieldsAcceptable(b, lib)
  }

  /** An update body is acceptable when a title, if present, trims to 1..200
      characters and the other fields are acceptable. */
  predicate UpdateAcceptable(b: TaskBody, lib: Validators)
  {
    (b.title.Some? ==> 1 <= |Trim(b.title.value)| <= MaxTitleLength) && SharedFieldsAcceptable(b, lib)
  }

  /** `createTaskValidation`: errors in chain order; none exactly when the
      body is acceptable. */
  function CreateTaskValidation(b: TaskBody, lib: Validators): (errors: seq<FieldError>)
    ensures errors == [] <==> CreateAcceptable(b, lib)
  {
    var title := Trim(TextOrEmpty(b.title));
    SharedFieldErrorsSpec(b, lib);
    Check(title != "", "title", "Title is required")
    + Check(|title| <= MaxTitleLength, "title", "Title cannot exceed 200 characters")
    + SharedFieldErrors(b, lib)
  }

  /** `updateTaskValidation`: as for create, except that every field is
      optional and a title that is present must not trim to empty. */
  function UpdateTaskValidation(b: TaskBody, lib: Validators): (errors: seq<FieldError>)
    ensures errors == [] <==> UpdateAcceptable(b, lib)
  {
    SharedFieldErrorsSpec(b, lib);
    (if b.title.Some?
     then Check(Trim(b.title.value) != "", "title", "Title cannot be empty")
          + Check(|Trim(b.title.value)| <= MaxTitleLength, "title", "Title cannot exceed 200 characters")
     else [])
    + SharedFieldErrors(b, lib)
  }

  /** What `searchTasksValidation` accepts, parameter by parameter. */
  predicate ListQueryAcceptable(q: ListQuery)
  {
    && (q.search.Some? ==> |Trim(q.search.value)| <= 100)
    && (q.status.Some? ==> ParseStatus(q.status.value).Some?)
    && (q.priority.Some? ==> ParsePriority(q.priority.value).Some?)
    && (q.page.Some? ==> IsIntText(q.page.value) && IntValue(q.page.value) >= 1)
    && (q.limit.Some? ==> IsIntText(q.limit.value) && 1 <= IntValue(q.limit.value) <= 100)
  }

  /** `searchTasksValidation`: search, status, priority, page, limit. */
  function ListQueryValidation(q: ListQuery): (errors: seq<FieldError>)
    ensures errors == [] <==> ListQueryAcceptable(q)
  {
    (if q.search.Some? then Check(|Trim(q.search.value)| <= 100, "search", "Search query too long") else [])
    + (if q.status.Some? then Check(ParseStatus(q.status.value).Some?, "status", "Invalid status") else [])
    + (if q.priority.Some? then Check(ParsePriority(q.priority.value).Some?, "priority", "Invalid priority") else [])
    + (if q.page.Some?
       then Check(IsIntText(q.page.value) && IntValue(q.page.value) >= 1, "page",
                  "Page must be a positive integer")
       else [])
    + (if q.limit.Some?
       then Check(IsIntText(q.limit.value) && 1 <= IntValue(q.limit.value) <= 100, "limit",
                  "Limit must be between 1 and 100")
       else [])
  }

  // ---------------------------------------------------------------------
  // The list query

  /** The store query `getTasks` builds: the owner, and each optional filter. */
  datatype Filter = Filter(
    owner: UserId,
    text: Option<string>,
    status: Option<Status>,
    priority: Option<Priority>,
    anyTags: Option<seq<string>>)

  /** `tags.split(",").map(tag => tag.trim())`. */
  function TagList(tags: string): (r: seq<string>)
    ensures |r| == |Split(tags, ',')|
    ensures forall k :: 0 <= k < |r| ==> r[k] == Trim(Split(tags, ',')[k])
  {
    var parts := Split(tags, ',');
    seq(|parts|, k requires 0 <= k < |parts| => Trim(parts[k]))
  }

  /** The filter for a validated query. Only truthy parameters take part;
      `search` is the trimmed text. */
  function ListFilter(owner: UserId, q: ListQuery): Filter
  {
    Filter(owner,
           if q.search.Some? && Trim(q.search.value) != "" then Some(Trim(q.search.value)) else None,
           if q.status.Some? && q.status.value != "" then ParseStatus(q.status.value) else None,
           if q.priority.Some? && q.priority.value != "" then ParsePriority(q.priority.value) else None,
           if q.tags.Some? && q.tags.value != "" then Some(TagList(q.tags.value)) else None)
  }

  /** A task matches when it belongs to the owner and meets every filter
      present: the text search (decided by the store's text index, given
      here as `textMatch`), equal status, equal priority, and at least one
      tag among the listed ones. */
  predicate Matches(f: Filter, textMatch: (string, Task) -> bool, t: Task)
  {
    && t.user == f.owner
    && (f.text.Some? ==> textMatch(f.text.value, t))
    && (f.status.Some? ==> t.status == f.status.value)
    && (f.priority.Some? ==> t.priority == f.priority.value)
    && (f.anyTags.Some? ==> exists k :: 0 <= k < |t.tags| && t.tags[k] in f.anyTags.value)
  }

  /** The matching tasks, newest first (latest inserted first). */
  function Listing(rows: seq<Task>, f: Filter, textMatch: (string, Task) -> bool): (r: seq<Task>)
    ensures |r| <= |rows|
  {
    if rows == [] then []
    else
      var last := rows[|rows| - 1];
      (if Matches(f, textMatch, last) then [last] else []) + Listing(rows[..|rows| - 1], f, textMatch)
  }

  /** A task is listed exactly when it is stored and matches the filter. */
  lemma {:induction false} ListingMembers(rows: seq<Task>, f: Filter, textMatch: (string, Task) -> bool, t: Task)
    ensures t in Listing(rows, f, textMatch) <==> t in rows && Matches(f, textMatch, t)
  {
    if rows != [] {
      var init := rows[..|rows| - 1];
      ListingMembers(init, f, textMatch, t);
      assert rows == init + [rows[|rows| - 1]];
    }
  }

  /** The matching rows in store order: a plain front-to-back filter. */
  function Filtered(rows: seq<Task>, f: Filter, textMatch: (string, Task) -> bool): seq<Task>
  {
    if rows == [] then []
    else (if Matches(f, textMatch, rows[0]) then [rows[0]] else []) + Filtered(rows[1..], f, textMatch)
  }

  function Reversed<T>(xs: seq<T>): seq<T>
  {
    if xs == [] then [] else Reversed(xs[1..]) + [xs[0]]
  }

  lemma {:induction false} FilteredSnoc(rows: seq<Task>, t: Task, f: Filter, textMatch: (string, Task) -> bool)
    ensures Filtered(rows + [t], f, textMatch)
            == Filtered(rows, f, textMatch) + (if Matches(f, textMatch, t) then [t] else [])
  {
    if rows == [] {
      assert rows + [t] == [t];
      assert Filtered([t], f, textMatch) == (if Matches(f, textMatch, t) then [t] else []) + Filtered([], f, textMatch);
    } else {
      assert (rows + [t])[0] == rows[0];
      assert (rows + [t])[1..] == rows[1..] + [t];
      FilteredSnoc(rows[1..], t, f, textMatch);
    }
  }

  lemma {:induction false} ReversedSnoc<T>(xs: seq<T>, x: T)
    ensures Reversed(xs + [x]) == [x] + Reversed(xs)
  {
    if xs == [] {
      assert xs + [x] == [x];
      assert Reversed([x]) == Reversed([x][1..]) + [x];
      assert [x][1..] == [];
    } else {
      assert (xs + [x])[0] == xs[0];
      assert (xs + [x])[1..] == xs[1..] + [x];
      ReversedSnoc(xs[1..], x);
    }
  }

  /** The listing is the store-order filter read backwards: newest first,
      each matching row once, no other row. */
  lemma {:induction false} ListingIsReversedFilter(rows: seq<Task>, f: Filter, textMatch: (string, Task) -> bool)
    ensures Listing(rows, f, textMatch) == Reversed(Filtered(rows, f, textMatch))
  {
    if rows != [] {
      var init, last := rows[..|rows| - 1], rows[|rows| - 1];
      assert rows == init + [last];
      ListingIsReversedFilter(init, f, textMatch);
      FilteredSnoc(init, last, f, textMatch);
      if Matches(f, textMatch, last) {
        ReversedSnoc(Filtered(init, f, textMatch), last);
      } else {
        assert Filtered(rows, f, textMatch) == Filtered(init, f, textMatch) + [];
        assert Filtered(init, f, textMatch) + [] == Filtered(init, f, textMatch);
        assert Listing(rows, f, textMatch) == [] + Listing(init, f, textMatch);
        assert [] + Listing(init, f, textMatch) == Listing(init, f, textMatch);
      }
    }
  }

  /** Every stored row that matches is listed exactly as many times as it
      is stored, and no other task is listed; so `total` counts the
      matching rows. */
  lemma {:induction false} ListingCounts(rows: seq<Task>, f: Filter, textMatch: (string, Task) -> bool, t: Task)
    ensures multiset(Listing(rows, f, textMatch))[t] == if Matches(f, textMatch, t) then multiset(rows)[t] else 0
  {
    if rows != [] {
      var init, last := rows[..|rows| - 1], rows[|rows| - 1];
      assert rows == init + [last];
      ListingCounts(init, f, textMatch, t);
      assert multiset(rows) == multiset(init) + multiset([last]);
      assert multiset(Listing(rows, f, textMatch))
             == multiset(if Matches(f, textMatch, last) then [last] else []) + multiset(Listing(init, f, textMatch));
    }
  }

  /** The list query never shows a task of another owner. */
  lemma ListingOwnerOnly(rows: seq<Task>, owner: UserId, q: ListQuery,
                         textMatch: (string, Task) -> bool, t: Task)
    requires t in Listing(rows, ListFilter(owner, q), textMatch)
    ensures t.user == owner && t in rows
  {
    ListingMembers(rows, ListFilter(owner, q), textMatch, t);
  }

  /** With a status filter, exactly the owner's tasks of that status (and
      meeting the other filters) are listed. */
  lemma ListingByStatus(rows: seq<Task>, owner: UserId, q: ListQuery,
                        textMatch: (string, Task) -> bool, t: Task)
    requires q.status.Some? && ParseStatus(q.status.value).Some?
    requires t in Listing(rows, ListFilter(owner, q), textMatch)
    ensures StatusName(t.status) == q.status.value
  {
    ListingMembers(rows, ListFilter(owner, q), textMatch, t);
  }

  /** The tags filter keeps a task exactly when one of its tags equals one
      of the trimmed comma-separated pieces. */
  lemma ListingByTags(rows: seq<Task>, owner: UserId, q: ListQuery,
                      textMatch: (string, Task) -> bool, t: Task)
    requires q.tags.Some? && q.tags.value != ""
    requires t in rows && t.user == owner
    requires q.search.None? && q.status.None? && q.priority.None?
    ensures t in Listing(rows, ListFilter(owner, q), textMatch) <==>
              exists k, j :: 0 <= k < |t.tags| && 0 <= j < |Split(q.tags.value, ',')|
                             && t.tags[k] == Trim(Split(q.tags.value, ',')[j])
  {
    var f := ListFilter(owner, q);
    ListingMembers(rows, f, textMatch, t);
    var pieces := Split(q.tags.value, ',');
    var tl := TagList(q.tags.value);
    assert f.text.None? && f.status.None? && f.priority.None? && f.anyTags == Some(tl);
    if t in Listing(rows, f, textMatch) {
      var k :| 0 <= k < |t.tags| && t.tags[k] in tl;
      var j :| 0 <= j < |tl| && tl[j] == t.tags[k];
      assert 0 <= k < |t.tags| && 0 <= j < |pieces| && t.tags[k] == Trim(pieces[j]);
      assert exists k', j' :: 0 <= k' < |t.tags| && 0 <= j' < |Split(q.tags.value, ',')|
                              && t.tags[k'] == Trim(Split(q.tags.value, ',')[j']);
    }
    if exists k, j :: 0 <= k < |t.tags| && 0 <= j < |pieces| && t.tags[k] == Trim(pieces[j]) {
      var k, j :| 0 <= k < |t.tags| && 0 <= j < |pieces| && t.tags[k] == Trim(pieces[j]);
      assert t.tags[k] == tl[j] && t.tags[k] in tl;
      assert Matches(f, textMatch, t);
    }
  }

  // ---------------------------------------------------------------------
  // Pagination

  /** `parseInt(page)`, or 1 when the parameter is left out. */
  function PageNumber(q: ListQuery): (n: int)
    requires ListQueryAcceptable(q)
    ensures n >= 1
    ensures q.page.None? ==> n == 1
  {
    if q.page.Some? then IntValue(q.page.value) else 1
  }

  /** `parseInt(limit)`, or 10 when the parameter is left out. */
  function LimitNumber(q: ListQuery): (n: int)
    requires ListQueryAcceptable(q)
    ensures 1 <= n <= 100
    ensures q.limit.None? ==> n == 10
  {
    if q.limit.Some? then IntValue(q.limit.value) else 10
  }

  /** `Math.ceil(total / limit)`: the fewest pages of `limit` that hold
      `total` items. */
  function PageCount(total: nat, limit: nat): (n: nat)
    requires limit >= 1
    ensures n * limit >= total
    ensures n == 0 || (n - 1) * limit < total
  {
    var n := (total + limit - 1) / limit;
    var rem := (total + limit - 1) % limit;
    assert total + limit - 1 == n * limit + rem;
    assert (n - 1) * limit == n * limit - limit;
    n
  }

  /** `(page - 1) * limit`: how many matches the pages before `page` hold. */
  function Skip(page: int, limit: int): (skip: nat)
    requires page >= 1 && limit >= 0
    ensures page == 1 ==> skip == 0
    ensures skip + limit == page * limit
  {
    MulNonNegative(page - 1, limit);
    (page - 1) * limit
  }

  lemma MulNonNegative(a: nat, b: nat)
    ensures a * b >= 0
  {
  }

  /** `.skip(skip).limit(limit)`: at most `limit` items starting at `skip`;
      empty once `skip` is past the end. */
  function Window<T>(xs: seq<T>, skip: nat, limit: nat): (w: seq<T>)
    ensures |w| <= limit
    ensures |w| == if skip >= |xs| then 0 else if |xs| - skip < limit then |xs| - skip else limit
    ensures forall k :: 0 <= k < |w| ==> w[k] == xs[skip + k]
  {
    if skip >= |xs| then []
    else if |xs| - skip < limit then xs[skip..]
    else xs[skip..skip + limit]
  }

  /** A page past the last one is empty, not an error. */
  lemma PastLastPageEmpty<T>(xs: seq<T>, page: nat, limit: nat)
    requires limit >= 1 && page >= 1 && page > PageCount(|xs|, limit)
    ensures Window(xs, Skip(page, limit), limit) == []
  {
    var n := PageCount(|xs|, limit);
    assert page - 1 >= n;
    MulMonotone(n, page - 1, limit);
  }

  lemma MulMonotone(a: nat, b: nat, c: nat)
    requires a <= b
    ensures a * c <= b * c
  {
  }

  /** The first `n` pages, one after another. */
  function Pages<T>(xs: seq<T>, limit: nat, n: nat): seq<T>
  {
    if n == 0 then [] else Pages(xs, limit, n - 1) + Window(xs, (n - 1) * limit, limit)
  }

  /** The first `n` pages are the first `n * limit` items, in order. */
  lemma {:induction false} PagesPrefix<T>(xs: seq<T>, limit: nat, n: nat)
    requires limit >= 1
    ensures Pages(xs, limit, n) == xs[..if n * limit <= |xs| then n * limit else |xs|]
  {
    if n > 0 {
      PagesPrefix(xs, limit, n - 1);
      var s := (n - 1) * limit;
      assert n * limit == s + limit;
      WindowExtendsPrefix(xs, s, limit);
    }
  }

  /** The window at `s` continues the prefix of length `s` (capped at the
      end of `xs`) by up to `limit` items. */
  lemma WindowExtendsPrefix<T>(xs: seq<T>, s: nat, limit: nat)
    ensures xs[..if s <= |xs| then s else |xs|] + Window(xs, s, limit)
            == xs[..if s + limit <= |xs| then s + limit else |xs|]
  {
    if s < |xs| {
      var e := if s + limit <= |xs| then s + limit else |xs|;
      assert Window(xs, s, limit) == xs[s..e];
      assert xs[..s] + xs[s..e] == xs[..e];
    }
  }

  /** Walking the pages from 1 to `pages` yields every match exactly once
      and in order. */
  lemma PagesCoverAll<T>(xs: seq<T>, limit: nat)
    requires limit >= 1
    ensures Pages(xs, limit, PageCount(|xs|, limit)) == xs
  {
    PagesPrefix(xs, limit, PageCount(|xs|, limit));
  }

  /** 25 matches with `limit=10`: pages 1, 2 and 3 hold 10, 10 and 5 tasks,
      `pages` is 3, and page 4 is empty. */
  lemma TwentyFiveTasksInPagesOfTen<T>(xs: seq<T>)
    requires |xs| == 25
    ensures PageCount(|xs|, 10) == 3
    ensures |Window(xs, 0, 10)| == 10 && |Window(xs, 10, 10)| == 10 && |Window(xs, 20, 10)| == 5
    ensures Window(xs, 30, 10) == []
  {
  }

  // ---------------------------------------------------------------------
  // Handlers

  /** `getTasks`: a validation failure answers before the store is read;
      otherwise the owner's matching tasks, newest first, windowed by page
      and limit, with the total match count and the page count. */
  method GetTasks(table: TaskTable, owner: UserId, q: ListQuery,
                  textMatch: (string, Task) -> bool) returns (r: Reply)
    ensures ListQueryValidation(q) != [] ==> r == ValidationFailed(ListQueryValidation(q))
    ensures ListQueryValidation(q) == [] ==>
              var page := PageNumber(q);
              var limit := LimitNumber(q);
              var all := Listing(table.rows, ListFilter(owner, q), textMatch);
              r == Reply(200, true, None,
                         Some(Page(Window(all, Skip(page, limit), limit),
                                   Pagination(page, limit, |all|, PageCount(|all|, limit)))),
                         [])
    ensures r.code == 200 ==> r.data.Some? && r.data.value.Page?
                              && |r.data.value.tasks| <= r.data.value.pagination.limit
                              && forall t :: t in r.data.value.tasks ==> t in table.rows && t.user == owner
  {
    var errors := ListQueryValidation(q);
    if errors != [] {
      return ValidationFailed(errors);
    }
    var page := if q.page.Some? then IntValue(q.page.value) else 1;
    var limit := if q.limit.Some? then IntValue(q.limit.value) else 10;

    var f := BuildFilter(owner, q);
    var skip := Skip(page, limit);
    var all := Listing(table.rows, f, textMatch);
    var tasks := Window(all, skip, limit);
    var total := |all|;
    r := Reply(200, true, None, Some(Page(tasks, Pagination(page, limit, total, PageCount(total, limit)))), []);
    WindowOwnerOnly(table.rows, owner, q, textMatch, skip, limit);
  }

  /** The query object of `getTasks`, built one filter at a time. */
  method BuildFilter(owner: UserId, q: ListQuery) returns (f: Filter)
    ensures f == ListFilter(owner, q)
  {
    f := Filter(owner, None, None, None, None);
    if q.search.Some? && Trim(q.search.value) != "" {
      f := f.(text := Some(Trim(q.search.value)));
    }
    if q.status.Some? && q.status.value != "" {
      f := f.(status := ParseStatus(q.status.value));
    }
    if q.priority.Some? && q.priority.value != "" {
      f := f.(priority := ParsePriority(q.priority.value));
    }
    if q.tags.Some? && q.tags.value != "" {
      f := f.(anyTags := Some(TagList(q.tags.value)));
    }
  }

  /** Every page of the list query holds only the owner's stored tasks. */
  lemma WindowOwnerOnly(rows: seq<Task>, owner: UserId, q: ListQuery,
                        textMatch: (string, Task) -> bool, skip: nat, limit: nat)
    ensures forall t :: t in Window(Listing(rows, ListFilter(owner, q), textMatch), skip, limit) ==>
              t in rows && t.user == owner
  {
    var all := Listing(rows, ListFilter(owner, q), textMatch);
    var tasks := Window(all, skip, limit);
    forall t | t in tasks
      ensures t in rows && t.user == owner
    {
      var k :| 0 <= k < |tasks| && tasks[k] == t;
      assert t == all[skip + k] && t in all;
      ListingOwnerOnly(rows, owner, q, textMatch, t);
    }
  }

  /** `getTask`: the task with this id if it belongs to `owner`; otherwise
      the same 404, whether the id is unknown or the task is someone else's. */
  method GetTask(table: TaskTable, owner: UserId, id: TaskId) returns (r: Reply)
    ensures r == NotFound() <==>
              forall i :: 0 <= i < |table.rows| ==> !(table.rows[i].id == id && table.rows[i].user == owner)
    ensures r != NotFound() ==>
              r.code == 200 && r.data.Some? && r.data.value.One?
              && r.data.value.task in table.rows
              && r.data.value.task.id == id && r.data.value.task.user == owner
  {
    var found := FindOwned(table.rows, id, owner);
    if found.None? {
      return NotFound();
    }
    r := Reply(200, true, None, Some(One(table.rows[found.value])), []);
  }

  /** The task `createTask` stores: owner from the session, the trimmed
      title, `description || ""`, `status || "pending"`,
      `priority || "medium"`, the due date as given, `tags || []`. */
  function CreatedTask(b: TaskBody, owner: UserId, id: TaskId, now: int): (t: Task)
    ensures t.id == id && t.user == owner && t.dueDate == b.dueDate
    ensures t.createdAt == now && t.updatedAt == now
  {
    var description := if b.description.Some? && Trim(b.description.value) != "" then Trim(b.description.value) else "";
    var status := if b.status.Some? && b.status.value != "" then b.status.value else "pending";
    var priority := if b.priority.Some? && b.priority.value != "" then b.priority.value else "medium";
    NewTask(id, owner, Trim(TextOrEmpty(b.title)), description,
            ParseStatus(status), ParsePriority(priority), b.dueDate,
            Some(if b.tags.List? then b.tags.items else []), now)
  }

  /** A body that passed validation yields a task that satisfies the schema,
      belongs to the acting user, and carries the requested or default
      status and priority. */
  lemma CreatedTaskValid(b: TaskBody, lib: Validators, owner: UserId, id: TaskId, now: int)
    requires CreateAcceptable(b, lib)
    ensures var t := CreatedTask(b, owner, id, now);
            && ValidTask(t) && t.user == owner && t.id == id
            && t.status == (if b.status.Some? then ParseStatus(b.status.value).value else Pending)
            && t.priority == (if b.priority.Some? then ParsePriority(b.priority.value).value else Medium)
            && t.tags == (if b.tags.List? then b.tags.items else [])
            && t.description == (if b.description.Some? then Trim(b.description.value) else "")
  {
    var description := if b.description.Some? && Trim(b.description.value) != "" then Trim(b.description.value) else "";
    if b.description.Some? {
      TrimIdempotent(b.description.value);
    }
    TrimNoop("");
    TrimIdempotent(TextOrEmpty(b.title));
    var status := if b.status.Some? && b.status.value != "" then b.status.value else "pending";
    var priority := if b.priority.Some? && b.priority.value != "" then b.priority.value else "medium";
    NewTaskValid(id, owner, Trim(TextOrEmpty(b.title)), description,
                 ParseStatus(status), ParsePriority(priority), b.dueDate,
                 Some(if b.tags.List? then b.tags.items else []), now);
  }

  /** With only a title, the stored task gets the defaults: empty
      description, pending, medium, no due date and no tags. */
  lemma CreateDefaults(title: string, owner: UserId, id: TaskId, now: int)
    ensures var t := CreatedTask(TaskBody(Some(title), None, None, None, None, Undefined), owner, id, now);
            t.description == "" && t.status == Pending && t.priority == Medium
            && t.dueDate == None && t.tags == [] && t.createdAt == now && t.updatedAt == now
  {
    TrimNoop("");
  }

  /** `createTask`: on a validation failure nothing is stored; otherwise
      exactly one new task, owned by the acting user, is appended. */
  method CreateTask(table: TaskTable, owner: UserId, b: TaskBody, lib: Validators, now: int)
    returns (r: Reply)
    requires table.Valid()
    modifies table
    ensures table.Valid()
    ensures CreateTaskValidation(b, lib) != [] ==>
              && r == ValidationFailed(CreateTaskValidation(b, lib))
              && table.rows == old(table.rows) && table.nextId == old(table.nextId)
    ensures CreateTaskValidation(b, lib) == [] ==>
              var t := CreatedTask(b, owner, old(table.nextId), now);
              && table.rows == old(table.rows) + [t]
              && table.nextId == old(table.nextId) + 1
              && r == Reply(201, true, Some("Task created successfully"), Some(One(t)), [])
  {
    var errors := CreateTaskValidation(b, lib);
    if errors != [] {
      return ValidationFailed(errors);
    }
    var t := StoreCreated(table, owner, b, lib, now);
    r := Reply(201, true, Some("Task created successfully"), Some(One(t)), []);
  }

  /** `Task.create` for an accepted body: the created task is appended
      under the next id. */
  method StoreCreated(table: TaskTable, owner: UserId, b: TaskBody, lib: Validators, now: int)
    returns (t: Task)
    requires table.Valid() && CreateAcceptable(b, lib)
    modifies table
    ensures table.Valid()
    ensures t == CreatedTask(b, owner, old(table.nextId), now)
    ensures table.rows == old(table.rows) + [t] && table.nextId == old(table.nextId) + 1
  {
    t := CreatedTask(b, owner, table.nextId, now);
    CreatedTaskValid(b, lib, owner, table.nextId, now);
    table.Insert(t);
  }

  /** The fields an update sets; `None` leaves the stored value alone. */
  datatype TaskPatch = TaskPatch(
    title: Option<string>,
    description: Option<string>,
    status: Option<Status>,
    priority: Option<Priority>,
    dueDate: Option<string>,
    tags: Option<seq<string>>)

  /** `updateFields`: every body field that is not `undefined`, as the
      validators sanitised it. */
  function PatchOf(b: TaskBody): TaskPatch
  {
    TaskPatch(
      if b.title.Some? then Some(Trim(b.title.value)) else None,
      if b.description.Some? then Some(Trim(b.description.value)) else None,
      if b.status.Some? then ParseStatus(b.status.value) else None,
      if b.priority.Some? then ParsePriority(b.priority.value) else None,
      b.dueDate,
      if b.tags.List? then Some(b.tags.items) else None)
  }

  function Pick<T>(update: Option<T>, current: T): T
  {
    if update.Some? then update.value else current
  }

  /** `findByIdAndUpdate(id, updateFields)` with timestamps on. */
  function Patched(t: Task, p: TaskPatch, now: int): (r: Task)
    ensures r.id == t.id && r.user == t.user && r.createdAt == t.createdAt && r.updatedAt == now
  {
    t.(title := Pick(p.title, t.title),
       description := Pick(p.description, t.description),
       status := Pick(p.status, t.status),
       priority := Pick(p.priority, t.priority),
       dueDate := if p.dueDate.Some? then p.dueDate else t.dueDate,
       tags := Pick(p.tags, t.tags),
       updatedAt := now)
  }

  /** An accepted update changes exactly the supplied fields (to their
      sanitised values) and `updatedAt`; id, owner, `createdAt` and every
      field left `undefined` keep their values. */
  lemma UpdateChangesOnlySupplied(t: Task, b: TaskBody, lib: Validators, now: int)
    requires UpdateAcceptable(b, lib)
    ensures var u := Patched(t, PatchOf(b), now);
            && u.id == t.id && u.user == t.user && u.createdAt == t.createdAt && u.updatedAt == now
            && u.title == (if b.title.Some? then Trim(b.title.value) else t.title)
            && u.description == (if b.description.Some? then Trim(b.description.value) else t.description)
            && (b.status.None? ==> u.status == t.status)
            && (b.status.Some? ==> StatusName(u.status) == b.status.value)
            && (b.priority.None? ==> u.priority == t.priority)
            && (b.priority.Some? ==> PriorityName(u.priority) == b.priority.value)
            && u.dueDate == (if b.dueDate.Some? then b.dueDate else t.dueDate)
            && u.tags == (if b.tags.List? then b.tags.items else t.tags)
  {
  }

  /** An accepted update keeps a valid task valid. */
  lemma UpdateKeepsValid(t: Task, b: TaskBody, lib: Validators, now: int)
    requires ValidTask(t) && UpdateAcceptable(b, lib)
    ensures ValidTask(Patched(t, PatchOf(b), now))
  {
  }

  /** `updateTask`: validation first, then the owner-scoped lookup (the same
      404 as `getTask`), then the partial update of that one task. */
  method UpdateTask(table: TaskTable, owner: UserId, id: TaskId, b: TaskBody,
                    lib: Validators, now: int) returns (r: Reply)
    requires table.Valid()
    modifies table
    ensures table.Valid() && table.nextId == old(table.nextId)
    ensures UpdateTaskValidation(b, lib) != [] ==>
              r == ValidationFailed(UpdateTaskValidation(b, lib)) && table.rows == old(table.rows)
    ensures UpdateTaskValidation(b, lib) == [] && FindOwned(old(table.rows), id, owner).None? ==>
              r == NotFound() && table.rows == old(table.rows)
    ensures UpdateTaskValidation(b, lib) == [] && FindOwned(old(table.rows), id, owner).Some? ==>
              var i := FindOwned(old(table.rows), id, owner).value;
              var t := Patched(old(table.rows)[i], PatchOf(b), now);
              && table.rows == old(table.rows)[i := t]
              && r == Reply(200, true, Some("Task updated successfully"), Some(One(t)), [])
  {
    var errors := UpdateTaskValidation(b, lib);
    if errors != [] {
      return ValidationFailed(errors);
    }
    var found := FindOwned(table.rows, id, owner);
    if found.None? {
      return NotFound();
    }
    var i := found.value;

    var patch := BuildPatch(b);
    var t := Patched(table.rows[i], patch, now);
    UpdateKeepsValid(table.rows[i], b, lib, now);
    table.Replace(i, t);
    r := Reply(200, true, Some("Task updated successfully"), Some(One(t)), []);
  }

  /** `updateFields`, filled one field at a time. */
  method BuildPatch(b: TaskBody) returns (patch: TaskPatch)
    ensures patch == PatchOf(b)
  {
    patch := TaskPatch(None, None, None, None, None, None);
    if b.title.Some? {
      patch := patch.(title := Some(Trim(b.title.value)));
    }
    if b.description.Some? {
      patch := patch.(description := Some(Trim(b.description.value)));
    }
    if b.status.Some? {
      patch := patch.(status := ParseStatus(b.status.value));
    }
    if b.priority.Some? {
      patch := patch.(priority := ParsePriority(b.priority.value));
    }
    if b.dueDate.Some? {
      patch := patch.(dueDate := b.dueDate);
    }
    if b.tags.List? {
      patch := patch.(tags := Some(b.tags.items));
    }
  }

  /** `findByIdAndDelete(id)`: every row except the one with this id. */
  function Without(rows: seq<Task>, id: TaskId): (r: seq<Task>)
    ensures |r| <= |rows|
  {
    if rows == [] then []
    else (if rows[0].id == id then [] else [rows[0]]) + Without(rows[1..], id)
  }

  /** With distinct ids, removing an id present at position `i` removes that
      row alone and keeps the others in order. */
  lemma {:induction false} WithoutRemovesOne(rows: seq<Task>, id: TaskId, i: nat)
    requires DistinctIds(rows) && i < |rows| && rows[i].id == id
    ensures Without(rows, id) == rows[..i] + rows[i + 1..]
  {
    if i == 0 {
      WithoutAbsent(rows[1..], id);
      assert rows[1..] == rows[..0] + rows[1..];
    } else {
      WithoutRemovesOne(rows[1..], id, i - 1);
      assert rows[1..][..i - 1] == rows[1..i];
      assert rows[..i] == [rows[0]] + rows[1..i];
    }
  }

  /** Removing an id that no row has changes nothing. */
  lemma {:induction false} WithoutAbsent(rows: seq<Task>, id: TaskId)
    requires forall k :: 0 <= k < |rows| ==> rows[k].id != id
    ensures Without(rows, id) == rows
  {
    if rows != [] {
      WithoutAbsent(rows[1..], id);
    }
  }

  /** `deleteTask`: the owner-scoped lookup (the same 404 as `getTask`), then
      removal of exactly that task, answering with its id. */
  method DeleteTask(table: TaskTable, owner: UserId, id: TaskId) returns (r: Reply)
    requires table.Valid()
    modifies table
    ensures table.Valid() && table.nextId == old(table.nextId)
    ensures FindOwned(old(table.rows), id, owner).None? ==>
              r == NotFound() && table.rows == old(table.rows)
    ensures FindOwned(old(table.rows), id, owner).Some? ==>
              var i := FindOwned(old(table.rows), id, owner).value;
              && table.rows == old(table.rows)[..i] + old(table.rows)[i + 1..]
              && table.rows == Without(old(table.rows), id)
              && r == Reply(200, true, Some("Task deleted successfully"), Some(Deleted(id)), [])
  {
    var found := FindOwned(table.rows, id, owner);
    if found.None? {
      return NotFound();
    }
    var i := found.value;
    WithoutRemovesOne(table.rows, id, i);
    table.Remove(i);
    r := Reply(200, true, Some("Task deleted successfully"), Some(Deleted(id)), []);
  }
}
