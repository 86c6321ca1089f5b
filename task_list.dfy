/** The task list view applies the smart priority to every fetched task
    for display only (app/(dashboard)/tasks/page.tsx): each row is copied
    with its priority replaced, and nothing is written back to the store. */
module TaskList {
  import opened DatabaseTypes
  import opened DateFns
  import opened TaskHelpers

  /** The priority a task row is shown with at time `now`. */
  function DisplayPriority(t: Task, now: Timestamp): (shown: TaskPriority)
  {
    SmartPriority(t.priority, t.status, t.dueDate, t.createdAt, now)
  }

  /** The rows of the list as displayed: the same tasks in the same order,
      each differing from the stored row in its priority alone. */
  function WithSmartPriority(tasks: seq<Task>, now: Timestamp): (shown: seq<Task>)
    ensures |shown| == |tasks|
    ensures forall i :: 0 <= i < |tasks| ==>
              shown[i] == tasks[i].(priority := DisplayPriority(tasks[i], now))
  {
    if tasks == [] then []
    else [tasks[0].(priority := DisplayPriority(tasks[0], now))]
         + WithSmartPriority(tasks[1..], now)
  }

  /** In the displayed list every unfinished overdue task shows Critical,
      and every finished task shows the priority it was stored with. */
  lemma DisplayedDeadlines(tasks: seq<Task>, now: Timestamp, i: nat)
    requires i < |tasks|
    ensures tasks[i].status != Completed && tasks[i].dueDate.Some? && tasks[i].dueDate.value < now ==>
              WithSmartPriority(tasks, now)[i].priority == Critical
    ensures tasks[i].status == Completed ==>
              WithSmartPriority(tasks, now)[i] == tasks[i]
  {
  }
}
