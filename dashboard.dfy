/** The dashboard's logic (frontend/src/pages/Dashboard.tsx): the greeting
    for the hour, the filters handed to the task-list hook, the status
    counts and their percentages, the create/edit dialog state, and the
    update a status click sends. */
module Dashboard {
  import opened Common
  import opened TaskModel
  import opened UseTasks
  import opened TaskController

  /** `updateTimeAndGreeting`'s bands: morning from 5 to 11, afternoon from
      12 to 16, evening for every other hour. */
  function Greeting(hour: int): (g: string)
    ensures g == "Good morning" <==> 5 <= hour < 12
    ensures g == "Good afternoon" <==> 12 <= hour < 17
    ensures g == "Good evening" <==> !(5 <= hour < 17)
  {
    if 5 <= hour < 12 then "Good morning"
    else if 12 <= hour < 17 then "Good afternoon"
    else "Good evening"
  }

  /** The live clock: the current time and the greeting, refreshed on every
      tick of the interval. `hourOf` is the local hour of a time. */
  class Clock {
    var currentTime: int
    var greeting: string

    constructor (now: int)
      ensures currentTime == now && greeting == ""
    {
      currentTime := now;
      greeting := "";
    }

    method Tick(now: int, hourOf: int -> int)
      modifies this
      ensures currentTime == now && greeting == Greeting(hourOf(now))
    {
      currentTime := now;
      var hour := hourOf(now);
      if 5 <= hour < 12 {
        greeting := "Good morning";
      } else if 12 <= hour < 17 {
        greeting := "Good afternoon";
      } else {
        greeting := "Good evening";
      }
    }
  }

  /** A select's choice as a filter: "all" is no filter. */
  function FilterOf(choice: string): (r: Option<string>)
    ensures r.None? <==> choice == "all"
    ensures r.Some? ==> r.value == choice
  {
    if choice != "all" then Some(choice) else None
  }

  /** The `filters` object: the search text as typed, status and priority
      unless "all". */
  function Filters(search: string, statusChoice: string, priorityChoice: string): (f: TaskFilters)
    ensures f.search == Some(search)
    ensures f.status == FilterOf(statusChoice) && f.priority == FilterOf(priorityChoice)
  {
    TaskFilters(Some(search), FilterOf(statusChoice), FilterOf(priorityChoice))
  }

  /** With the initial choices (empty search, "all", "all") the list is
      fetched with no query parameter; a status choice other than "all" is
      sent as the status parameter. */
  lemma FiltersToQuery(search: string, statusChoice: string, priorityChoice: string)
    ensures QueryParams(Some(Filters("", "all", "all"))) == []
    ensures Lookup(QueryParams(Some(Filters(search, statusChoice, priorityChoice))), "status") ==
              if statusChoice != "all" && statusChoice != "" then Some(statusChoice) else None
    ensures Lookup(QueryParams(Some(Filters(search, statusChoice, priorityChoice))), "priority") ==
              if priorityChoice != "all" && priorityChoice != "" then Some(priorityChoice) else None
  {
    QueryParamsLookup(Some(Filters(search, statusChoice, priorityChoice)), "status");
    QueryParamsLookup(Some(Filters(search, statusChoice, priorityChoice)), "priority");
  }

  /** `tasks.filter(t => t.status === s).length`. */
  function CountStatus(tasks: seq<ClientTask>, s: Status): (n: nat)
    ensures n <= |tasks|
  {
    if tasks == [] then 0
    else (if tasks[0].status == s then 1 else 0) + CountStatus(tasks[1..], s)
  }

  /** Every task has one of the three statuses, so the three counts add up
      to the number of tasks. */
  lemma {:induction false} CountsSum(tasks: seq<ClientTask>)
    ensures CountStatus(tasks, Pending) + CountStatus(tasks, InProgress) + CountStatus(tasks, Completed) == |tasks|
  {
    if tasks != [] {
      CountsSum(tasks[1..]);
    }
  }

  /** `calculateProgress`: `Math.round(count / total * 100)`, taken as the
      exact quotient rounded half up; 0 for an empty list. */
  function Progress(count: nat, total: nat): (p: int)
    ensures total == 0 ==> p == 0
    ensures count == 0 ==> p == 0
    ensures total > 0 && count == total ==> p == 100
    ensures count <= total ==> 0 <= p <= 100
  {
    if total == 0 then 0
    else
      var p := (200 * count + total) / (2 * total);
      ProgressBounds(count, total, p);
      p
  }

  lemma ProgressBounds(count: nat, total: nat, p: int)
    requires total > 0 && p == (200 * count + total) / (2 * total)
    ensures 0 <= p
    ensures count == 0 ==> p == 0
    ensures count == total ==> p == 100
    ensures count <= total ==> p <= 100
  {
    var n := 200 * count + total;
    var d := 2 * total;
    assert d * p <= n < d * p + d;
    if p < 0 {
      ScaleLe(d, p + 1, 0);
    }
    if count == 0 && p >= 1 {
      ScaleLe(d, 1, p);
    }
    if count <= total && p >= 101 {
      ScaleLe(d, 101, p);
    }
    if count == total && p <= 99 {
      ScaleLe(d, p + 1, 100);
    }
  }

  /** Scaling by a non-negative factor keeps order. */
  lemma ScaleLe(d: nat, a: int, b: int)
    requires a <= b
    ensures d * a <= d * b
  {
    MulNonNegative(d, b - a);
    assert d * b - d * a == d * (b - a);
  }

  /** What the dialog's submit calls: a create, or an update of the task
      being edited. */
  datatype SubmitTarget = CreateNew | UpdateExisting(id: string)

  /** The dialog state the dashboard keeps: whether it is open and which
      task, if any, is being edited. */
  class EditState {
    var dialogOpen: bool
    var editing: Option<ClientTask>

    constructor ()
      ensures !dialogOpen && editing.None?
    {
      dialogOpen := false;
      editing := None;
    }

    /** The "New" buttons: open the dialog, editing nothing new. */
    method OpenForCreate()
      modifies this
      ensures dialogOpen && editing == old(editing)
    {
      dialogOpen := true;
    }

    /** A card's edit action. */
    method OpenForEdit(t: ClientTask)
      modifies this
      ensures dialogOpen && editing == Some(t)
    {
      editing := Some(t);
      dialogOpen := true;
    }

    /** The dialog's `onOpenChange`: closing also forgets the edited task. */
    method OpenChange(open: bool)
      modifies this
      ensures dialogOpen == open
      ensures editing == (if open then old(editing) else None)
    {
      dialogOpen := open;
      if !open {
        editing := None;
      }
    }

    /** `onSubmit`: update while a task is being edited, create otherwise. */
    function Target(): (t: SubmitTarget)
      reads this
      ensures t.UpdateExisting? <==> editing.Some?
      ensures t.UpdateExisting? ==> t.id == editing.value.id
    {
      if editing.Some? then UpdateExisting(editing.value.id) else CreateNew
    }

    /** `handleUpdateTask`: with no task being edited nothing is sent;
        otherwise the update goes to the edited task's id, and only a
        successful update stops the editing (a failure is rethrown, so
        `ok` is false). */
    method HandleUpdateTask(succeeded: bool) returns (sentTo: Option<string>, ok: bool)
      modifies this
      ensures dialogOpen == old(dialogOpen)
      ensures old(editing).None? ==> sentTo.None? && ok && editing.None?
      ensures old(editing).Some? ==> sentTo == Some(old(editing).value.id) && ok == succeeded
      ensures old(editing).Some? && ok ==> editing.None?
      ensures old(editing).Some? && !ok ==> editing == old(editing)
    {
      if editing.None? {
        return None, true;
      }
      sentTo := Some(editing.value.id);
      ok := succeeded;
      if ok {
        editing := None;
      }
    }
  }

  /** `handleStatusChange`'s request body: `{status}` and nothing else. */
  function StatusChangeBody(s: Status): (b: TaskBody)
    ensures b.status == Some(StatusName(s))
    ensures b.title.None? && b.description.None? && b.priority.None? && b.dueDate.None? && b.tags.Undefined?
  {
    TaskBody(None, None, Some(StatusName(s)), None, None, Undefined)
  }

  /** The server accepts a status change whatever the validators, and it
      changes the stored task's status and update time and nothing else. */
  lemma StatusChangeOnlyStatus(t: Task, s: Status, lib: Validators, now: int)
    ensures UpdateAcceptable(StatusChangeBody(s), lib)
    ensures UpdateTaskValidation(StatusChangeBody(s), lib) == []
    ensures Patched(t, PatchOf(StatusChangeBody(s)), now) == t.(status := s, updatedAt := now)
  {
    StatusRoundTrip(s);
  }
}
