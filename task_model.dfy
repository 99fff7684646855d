/** The task document: its fields, the two enumerations, the schema's
    constraints and the defaults it fills in (backend/models/Task.js). */
module TaskModel {
  import opened Common

  datatype Status = Pending | InProgress | Completed
  datatype Priority = Low | Medium | High

  const MaxTitleLength := 200
  const MaxDescriptionLength := 1000
  const MaxTags := 10

  function StatusName(s: Status): string
  {
    match s
    case Pending => "pending"
    case InProgress => "in-progress"
    case Completed => "completed"
  }

  function PriorityName(p: Priority): string
  {
    match p
    case Low => "low"
    case Medium => "medium"
    case High => "high"
  }

  /** Membership in the status enumeration, as `isIn([...])` and the schema's
      `enum` test it; `None` for every other string. */
  function ParseStatus(s: string): (r: Option<Status>)
    ensures r.Some? ==> StatusName(r.value) == s
  {
    if s == "pending" then Some(Pending)
    else if s == "in-progress" then Some(InProgress)
    else if s == "completed" then Some(Completed)
    else None
  }

  function ParsePriority(s: string): (r: Option<Priority>)
    ensures r.Some? ==> PriorityName(r.value) == s
  {
    if s == "low" then Some(Low)
    else if s == "medium" then Some(Medium)
    else if s == "high" then Some(High)
    else None
  }

  /** Every status is written and read back as itself, so a string is
      rejected only when it names no status. */
  lemma StatusRoundTrip(st: Status)
    ensures ParseStatus(StatusName(st)) == Some(st)
  {
  }

  lemma PriorityRoundTrip(p: Priority)
    ensures ParsePriority(PriorityName(p)) == Some(p)
  {
  }

  /** `ParseStatus` rejects exactly the strings that name no status. */
  lemma ParseStatusComplete(s: string)
    ensures ParseStatus(s).None? <==> forall st: Status :: StatusName(st) != s
  {
    if ParseStatus(s).None? {
      forall st: Status
        ensures StatusName(st) != s
      {
        StatusRoundTrip(st);
      }
    }
  }

  /** `ParsePriority` rejects exactly the strings that name no priority. */
  lemma ParsePriorityComplete(s: string)
    ensures ParsePriority(s).None? <==> forall p: Priority :: PriorityName(p) != s
  {
    if ParsePriority(s).None? {
      forall p: Priority
        ensures PriorityName(p) != s
      {
        PriorityRoundTrip(p);
      }
    }
  }

  /** A stored task. `dueDate` keeps the ISO text it was given; timestamps
      are milliseconds. */
  datatype Task = Task(
    id: TaskId,
    user: UserId,
    title: string,
    description: string,
    status: Status,
    priority: Priority,
    dueDate: Option<string>,
    tags: seq<string>,
    createdAt: int,
    updatedAt: int)

  /** The schema's constraints: `user` is required (always present in the
      record), `title` trimmed and 1..200 long, `description` trimmed and at
      most 1000 long, `status` and `priority` from their enumerations (the
      types), at most 10 tags. */
  predicate ValidTask(t: Task)
  {
    && Trimmed(t.title) && 1 <= |t.title| <= MaxTitleLength
    && Trimmed(t.description) && |t.description| <= MaxDescriptionLength
    && |t.tags| <= MaxTags
  }

  /** `Task.create`: the schema's defaults for status, priority and tags
      when they are left out, and its `trim` setters on title and
      description; both timestamps set to `now`. The schema has no default
      for the description, so the description is always passed in (the
      controller passes `description || ""`). */
  function NewTask(id: TaskId, user: UserId, title: string, description: string,
                   status: Option<Status>, priority: Option<Priority>,
                   dueDate: Option<string>, tags: Option<seq<string>>, now: int): (t: Task)
    ensures t.id == id && t.user == user && t.title == Trim(title)
    ensures t.description == Trim(description)
    ensures t.status == (if status.Some? then status.value else Pending)
    ensures t.priority == (if priority.Some? then priority.value else Medium)
    ensures t.dueDate == dueDate
    ensures t.tags == (if tags.Some? then tags.value else [])
    ensures t.createdAt == now && t.updatedAt == now
  {
    Task(id, user, Trim(title),
         Trim(description),
         if status.Some? then status.value else Pending,
         if priority.Some? then priority.value else Medium,
         dueDate,
         if tags.Some? then tags.value else [],
         now, now)
  }

  /** A task built from a title that is non-empty and at most 200 long after
      trimming, a description at most 1000 long after trimming and at most 10
      tags satisfies the schema. */
  lemma NewTaskValid(id: TaskId, user: UserId, title: string, description: string,
                     status: Option<Status>, priority: Option<Priority>,
                     dueDate: Option<string>, tags: Option<seq<string>>, now: int)
    requires 1 <= |Trim(title)| <= MaxTitleLength
    requires |Trim(description)| <= MaxDescriptionLength
    requires tags.Some? ==> |tags.value| <= MaxTags
    ensures ValidTask(NewTask(id, user, title, description, status, priority, dueDate, tags, now))
  {
  }

  // ---------------------------------------------------------------------
  // The task collection

  /** No two rows share an id. */
  ghost predicate DistinctIds(rows: seq<Task>)
  {
    forall i, j :: 0 <= i < j < |rows| ==> rows[i].id != rows[j].id
  }

  /** The task collection in insertion order; `nextId` is the id the store
      hands out next. */
  class TaskTable {
    var rows: seq<Task>
    var nextId: TaskId

    ghost predicate Valid()
      reads this
    {
      && (forall i :: 0 <= i < |rows| ==> rows[i].id < nextId && ValidTask(rows[i]))
      && DistinctIds(rows)
    }

    constructor ()
      ensures Valid() && rows == [] && nextId == 0
    {
      rows := [];
      nextId := 0;
    }

    /** `Task.create`: stores a task that satisfies the schema under the
        next id. */
    method Insert(t: Task)
      requires Valid() && ValidTask(t) && t.id == nextId
      modifies this
      ensures Valid()
      ensures rows == old(rows) + [t] && nextId == old(nextId) + 1
    {
      rows := rows + [t];
      nextId := nextId + 1;
    }

    /** `findByIdAndUpdate`: the row at `i` becomes `t`, which keeps its id. */
    method Replace(i: nat, t: Task)
      requires Valid() && i < |rows| && ValidTask(t) && t.id == rows[i].id
      modifies this
      ensures Valid()
      ensures rows == old(rows)[i := t] && nextId == old(nextId)
    {
      rows := rows[i := t];
    }

    /** `findByIdAndDelete`: the row at `i` is removed, the others keep
        their order. */
    method Remove(i: nat)
      requires Valid() && i < |rows|
      modifies this
      ensures Valid()
      ensures rows == old(rows)[..i] + old(rows)[i + 1..] && nextId == old(nextId)
    {
      var before := rows;
      rows := rows[..i] + rows[i + 1..];
      assert forall k :: 0 <= k < |rows| ==> rows[k] == (if k < i then before[k] else before[k + 1]);
    }
  }

  /** `findOne({_id: id, user: owner})`: the position of the task with this
      id if, and only if, it belongs to `owner`. */
  function FindOwned(rows: seq<Task>, id: TaskId, owner: UserId): (r: Option<nat>)
    ensures r.Some? ==> r.value < |rows| && rows[r.value].id == id && rows[r.value].user == owner
    ensures r.None? <==> forall i :: 0 <= i < |rows| ==> !(rows[i].id == id && rows[i].user == owner)
  {
    if rows == [] then None
    else if rows[0].id == id && rows[0].user == owner then Some(0)
    else
      var r := FindOwned(rows[1..], id, owner);
      if r.Some? then Some(r.value + 1) else None
  }

  /** With distinct ids, the owned lookup finds a task exactly when the task
      with that id exists and belongs to `owner`; a task of another owner is
      as invisible as a missing one. */
  lemma FindOwnedExact(rows: seq<Task>, id: TaskId, owner: UserId, i: nat)
    requires DistinctIds(rows)
    requires i < |rows| && rows[i].id == id
    ensures FindOwned(rows, id, owner) == (if rows[i].user == owner then Some(i) else None)
  {
  }
}
