/** The decisions of one task card (frontend/src/components/TaskCard.tsx):
    the status a click moves to, the tags shown, whether the due date is
    shown as overdue, "Done" for completed tasks, and the colour of each
    priority. Dates and their relative wording come from given functions. */
module TaskCard {
  import opened Common
  import opened TaskModel
  import opened UseTasks

  /** `handleStatusClick`'s next status: completed goes back to pending,
      pending moves to in-progress, and in-progress to completed. */
  function NextStatus(s: Status): (n: Status)
    ensures n != s
  {
    if s == Completed then Pending
    else if s == Pending then InProgress
    else Completed
  }

  /** The statuses form one cycle of length three: every status is reached
      from any other by clicking, and three clicks come back. */
  lemma StatusCycle(s: Status)
    ensures NextStatus(NextStatus(NextStatus(s))) == s
    ensures NextStatus(NextStatus(s)) != s
    ensures {s, NextStatus(s), NextStatus(NextStatus(s))} == {Pending, InProgress, Completed}
  {
  }

  /** A click reports the card's own id together with the next status. */
  function StatusClick(t: ClientTask): (r: (string, Status))
    ensures r.0 == t.id && r.1 != t.status
    ensures r.1 == NextStatus(t.status)
  {
    (t.id, NextStatus(t.status))
  }

  /** `tags.slice(0, 2)`: the first two tags, or all of them if fewer. */
  function VisibleTags(tags: seq<string>): (r: seq<string>)
    ensures |r| <= 2
    ensures |r| == if |tags| < 2 then |tags| else 2
    ensures r == tags[..|r|]
  {
    if |tags| <= 2 then tags else tags[..2]
  }

  /** `new Date(dueDate) < new Date()` for a task that is not completed. An
      unparsable date is `Invalid Date`, which compares false. */
  predicate IsOverdue(due: string, status: Status, now: int, toMillis: string -> Option<int>)
  {
    var d := toMillis(due);
    d.Some? && d.value < now && status != Completed
  }

  datatype DueLabel = Done | Relative(text: string)

  /** The date area of the card: its colour (overdue or not) and its text. */
  datatype DueArea = DueArea(overdue: bool, caption: DueLabel)

  /** The date area, shown only for a truthy due date; completed tasks read
      "Done" and are never overdue; other tasks read the relative time. */
  function DueDateArea(t: ClientTask, now: int, toMillis: string -> Option<int>, relative: string -> string)
    : (a: Option<DueArea>)
    ensures a.None? <==> !Truthy(t.dueDate)
    ensures a.Some? ==> (a.value.overdue <==> IsOverdue(t.dueDate.value, t.status, now, toMillis))
    ensures a.Some? ==> (a.value.caption == Done <==> t.status == Completed)
    ensures a.Some? && t.status == Completed ==> !a.value.overdue
    ensures a.Some? && t.status != Completed ==> a.value.caption == Relative(relative(t.dueDate.value))
  {
    if !Truthy(t.dueDate) then None
    else
      var due := t.dueDate.value;
      Some(DueArea(IsOverdue(due, t.status, now, toMillis),
                   if t.status == Completed then Done else Relative(relative(due))))
  }

  /** `priorityConfig`'s colour classes, keyed by priority name. */
  function PriorityColors(): map<string, string>
  {
    map["low" := "bg-blue-500/10 text-blue-500 border-blue-500/20",
        "medium" := "bg-orange-500/10 text-orange-500 border-orange-500/20",
        "high" := "bg-red-500/10 text-red-500 border-red-500/20"]
  }

  /** Every priority a task can have has an entry, and there are no
      others, so `priorityConfig[task.priority]` is always defined. */
  lemma PriorityColorsCover()
    ensures forall p: Priority :: PriorityName(p) in PriorityColors()
    ensures forall k :: k in PriorityColors() ==> ParsePriority(k).Some?
  {
    assert PriorityColors().Keys == {"low", "medium", "high"};
    forall k | k in PriorityColors()
      ensures ParsePriority(k).Some?
    {
      if k == "low" { PriorityRoundTrip(Low); }
      else if k == "medium" { PriorityRoundTrip(Medium); }
      else { PriorityRoundTrip(High); }
    }
  }

  /** The colour of a card's priority badge. */
  function PriorityColor(p: Priority): (c: string)
    ensures PriorityName(p) in PriorityColors() && c == PriorityColors()[PriorityName(p)]
  {
    PriorityColorsCover();
    PriorityColors()[PriorityName(p)]
  }
}
