/** The client's task-list hook (frontend/src/hooks/useTasks.ts): the query
    string a fetch sends, the three list updaters applied after a create,
    update or delete request succeeds, and the loading/error state of a
    fetch. The HTTP client is not modelled: each request's outcome is a
    parameter. */
module UseTasks {
  import opened Common
  import opened TaskModel

  /** A task as the client receives it. Ids and timestamps are the strings
      of the JSON response. */
  datatype ClientTask = ClientTask(
    id: string,
    title: string,
    description: string,
    status: Status,
    priority: Priority,
    dueDate: Option<string>,
    tags: seq<string>,
    createdAt: string,
    updatedAt: string)

  /** The hook's optional filter argument; `None` is `undefined`. */
  datatype TaskFilters = TaskFilters(search: Option<string>, status: Option<string>, priority: Option<string>)

  type Param = (string, string)

  /** Position of a query key in the order the hook appends keys. */
  function KeyRank(key: string): nat
  {
    if key == "search" then 0 else if key == "status" then 1 else 2
  }

  /** The value of the first parameter named `key`. */
  function Lookup(params: seq<Param>, key: string): (v: Option<string>)
    ensures v.None? <==> forall i :: 0 <= i < |params| ==> params[i].0 != key
    ensures v.Some? ==> exists i :: 0 <= i < |params| && params[i] == (key, v.value)
  {
    if params == [] then None
    else if params[0].0 == key then Some(params[0].1)
    else
      var v := Lookup(params[1..], key);
      assert v.Some? ==> params[1..][0..] == params[1..];
      v
  }

  /** The filter value a key stands for, when the hook has filters. */
  function FilterValue(filters: Option<TaskFilters>, key: string): Option<string>
  {
    if filters.None? then None
    else if key == "search" then filters.value.search
    else if key == "status" then filters.value.status
    else if key == "priority" then filters.value.priority
    else None
  }

  /** `fetchTasks`' `URLSearchParams`: search, status and priority, each
      appended only when truthy, in that order. */
  function QueryParams(filters: Option<TaskFilters>): (params: seq<Param>)
    ensures |params| <= 3
    ensures forall i :: 0 <= i < |params| ==> params[i].1 != ""
    ensures forall i, j :: 0 <= i < j < |params| ==> KeyRank(params[i].0) < KeyRank(params[j].0)
  {
    if filters.None? then []
    else
      var f := filters.value;
      Piece("search", f.search) + Piece("status", f.status) + Piece("priority", f.priority)
  }

  /** Looking a key up in two lists one after the other looks in the
      first, then in the second. */
  lemma {:induction false} LookupConcat(p: seq<Param>, q: seq<Param>, key: string)
    ensures Lookup(p + q, key) == if Lookup(p, key).Some? then Lookup(p, key) else Lookup(q, key)
  {
    if p != [] {
      assert (p + q)[0] == p[0];
      assert (p + q)[1..] == p[1..] + q;
      LookupConcat(p[1..], q, key);
      if p[0].0 != key {
        assert Lookup(p + q, key) == Lookup(p[1..] + q, key);
        assert Lookup(p, key) == Lookup(p[1..], key);
      }
    } else {
      assert p + q == q;
    }
  }

  /** The one-parameter piece the hook appends for a key. */
  function Piece(key: string, v: Option<string>): seq<Param>
  {
    if Truthy(v) then [(key, v.value)] else []
  }

  lemma PieceLookup(key: string, v: Option<string>, other: string)
    ensures Lookup(Piece(key, v), other) == if other == key && Truthy(v) then v else None
  {
  }

  /** Each of the three keys is in the query exactly when its filter is
      truthy, and then with the filter's value; no other key is sent. */
  lemma QueryParamsLookup(filters: Option<TaskFilters>, key: string)
    ensures Lookup(QueryParams(filters), key) ==
              (if Truthy(FilterValue(filters, key)) then FilterValue(filters, key) else None)
  {
    if filters.Some? {
      var f := filters.value;
      var a, b, c := Piece("search", f.search), Piece("status", f.status), Piece("priority", f.priority);
      assert QueryParams(filters) == a + b + c;
      LookupConcat(a + b, c, key);
      LookupConcat(a, b, key);
      PieceLookup("search", f.search, key);
      PieceLookup("status", f.status, key);
      PieceLookup("priority", f.priority, key);
    }
  }

  /** `createTask`'s updater: the new task first, then the old list. */
  function Prepend(prev: seq<ClientTask>, t: ClientTask): (r: seq<ClientTask>)
    ensures |r| == |prev| + 1 && r[0] == t && r[1..] == prev
  {
    [t] + prev
  }

  /** `updateTask`'s updater: every task with the id becomes the response
      task; the others stay where they are. */
  function ReplaceById(prev: seq<ClientTask>, id: string, t: ClientTask): (r: seq<ClientTask>)
    ensures |r| == |prev|
    ensures forall i :: 0 <= i < |r| ==> r[i] == (if prev[i].id == id then t else prev[i])
  {
    if prev == [] then []
    else [if prev[0].id == id then t else prev[0]] + ReplaceById(prev[1..], id, t)
  }

  /** `deleteTask`'s updater: the tasks without the id, in their order. */
  function RemoveById(prev: seq<ClientTask>, id: string): (r: seq<ClientTask>)
    ensures |r| <= |prev|
    ensures forall x :: x in r <==> x in prev && x.id != id
  {
    if prev == [] then []
    else if prev[0].id == id then RemoveById(prev[1..], id)
    else [prev[0]] + RemoveById(prev[1..], id)
  }

  /** Removing works piecewise, so the kept tasks keep their relative
      order. */
  lemma {:induction false} RemoveByIdConcat(a: seq<ClientTask>, b: seq<ClientTask>, id: string)
    ensures RemoveById(a + b, id) == RemoveById(a, id) + RemoveById(b, id)
  {
    if a != [] {
      assert (a + b)[0] == a[0];
      assert (a + b)[1..] == a[1..] + b;
      RemoveByIdConcat(a[1..], b, id);
      if a[0].id == id {
        assert RemoveById(a + b, id) == RemoveById(a[1..] + b, id);
        assert RemoveById(a, id) == RemoveById(a[1..], id);
      } else {
        assert RemoveById(a + b, id) == [a[0]] + RemoveById(a[1..] + b, id);
        assert RemoveById(a, id) == [a[0]] + RemoveById(a[1..], id);
      }
    } else {
      assert a + b == b;
    }
  }

  /** A list without the id is left exactly as it is by both updaters. */
  lemma {:induction false} AbsentIdUnchanged(prev: seq<ClientTask>, id: string, t: ClientTask)
    requires forall i :: 0 <= i < |prev| ==> prev[i].id != id
    ensures RemoveById(prev, id) == prev
    ensures ReplaceById(prev, id, t) == prev
  {
    if prev != [] {
      AbsentIdUnchanged(prev[1..], id, t);
    }
  }

  /** Deleting a task just created gives back the list before the create,
      when the new id was not already listed. */
  lemma DeleteUndoesCreate(prev: seq<ClientTask>, t: ClientTask)
    requires forall i :: 0 <= i < |prev| ==> prev[i].id != t.id
    ensures RemoveById(Prepend(prev, t), t.id) == prev
  {
    AbsentIdUnchanged(prev, t.id, t);
  }

  /** Applying the same update twice is applying it once, when the response
      keeps the id. */
  lemma ReplaceByIdIdempotent(prev: seq<ClientTask>, id: string, t: ClientTask)
    requires t.id == id
    ensures ReplaceById(ReplaceById(prev, id, t), id, t) == ReplaceById(prev, id, t)
  {
  }

  /** How a fetch ended: the listed tasks, or a failure with the server's
      message if the response carried one. */
  datatype FetchOutcome = Loaded(tasks: seq<ClientTask>) | Failed(message: Option<string>)

  /** The error text of a failed fetch: the server's message when truthy. */
  function FetchError(message: Option<string>): (e: string)
    ensures e != ""
    ensures Truthy(message) ==> e == message.value
  {
    if Truthy(message) then message.value else "Failed to fetch tasks"
  }

  /** The hook's state for one set of filters. */
  class TasksHook {
    var filters: Option<TaskFilters>
    var tasks: seq<ClientTask>
    var isLoading: bool
    var error: Option<string>

    /** Initial state: no tasks, loading, no error. */
    constructor (filters: Option<TaskFilters>)
      ensures this.filters == filters
      ensures tasks == [] && isLoading && error == None
    {
      this.filters := filters;
      tasks := [];
      isLoading := true;
      error := None;
    }

    /** The part of `fetchTasks` before the request: loading, no error,
        and the query parameters to send. */
    method BeginFetch() returns (params: seq<Param>)
      modifies this
      ensures params == QueryParams(filters)
      ensures isLoading && error == None
      ensures tasks == old(tasks) && filters == old(filters)
    {
      isLoading := true;
      error := None;
      params := QueryParams(filters);
    }

    /** The part of `fetchTasks` after the request: the list on success,
        the error text on failure, and loading ends either way. */
    method FinishFetch(outcome: FetchOutcome)
      modifies this
      ensures !isLoading && filters == old(filters)
      ensures outcome.Loaded? ==> tasks == outcome.tasks && error == old(error)
      ensures outcome.Failed? ==> tasks == old(tasks) && error == Some(FetchError(outcome.message))
    {
      match outcome {
        case Loaded(list) =>
          tasks := list;
        case Failed(message) =>
          error := Some(FetchError(message));
      }
      isLoading := false;
    }

    /** `fetchTasks`, with the server answering the parameters it is sent. */
    method Fetch(server: seq<Param> -> FetchOutcome) returns (params: seq<Param>)
      modifies this
      ensures params == QueryParams(filters) && filters == old(filters)
      ensures !isLoading
      ensures server(params).Loaded? ==> tasks == server(params).tasks && error == None
      ensures server(params).Failed? ==>
                tasks == old(tasks) && error == Some(FetchError(server(params).message))
    {
      params := BeginFetch();
      FinishFetch(server(params));
    }

    /** `createTask`: the created task is prepended once the request
        succeeds (`response` is `None` when it fails). */
    method CreateTask(response: Option<ClientTask>) returns (ok: bool)
      modifies this
      ensures ok <==> response.Some?
      ensures tasks == (if ok then Prepend(old(tasks), response.value) else old(tasks))
      ensures isLoading == old(isLoading) && error == old(error) && filters == old(filters)
    {
      ok := response.Some?;
      if ok {
        tasks := Prepend(tasks, response.value);
      }
    }

    /** `updateTask`: every task with the id is replaced by the response
        once the request succeeds. */
    method UpdateTask(id: string, response: Option<ClientTask>) returns (ok: bool)
      modifies this
      ensures ok <==> response.Some?
      ensures tasks == (if ok then ReplaceById(old(tasks), id, response.value) else old(tasks))
      ensures isLoading == old(isLoading) && error == old(error) && filters == old(filters)
    {
      ok := response.Some?;
      if ok {
        tasks := ReplaceById(tasks, id, response.value);
      }
    }

    /** `deleteTask`: the tasks with the id are dropped once the request
        succeeds. */
    method DeleteTask(id: string, succeeded: bool) returns (ok: bool)
      modifies this
      ensures ok == succeeded
      ensures tasks == (if ok then RemoveById(old(tasks), id) else old(tasks))
      ensures isLoading == old(isLoading) && error == old(error) && filters == old(filters)
    {
      ok := succeeded;
      if ok {
        tasks := RemoveById(tasks, id);
      }
    }
  }
}
