/**
 * The task list page: every task, ordered by status (todo, then in progress, then
 * done), then by priority (high, medium, low), then by due date; each row shows a
 * description cut to 80 characters and a checkbox that toggles completion.
 */
module TaskList {
  import opened Strings
  import opened TaskModel
  import opened TaskViews

  /** Position in the status order; a status outside the three sorts last. */
  function StatusRank(status: string): nat {
    if status == Todo.Name() then 0
    else if status == Progress.Name() then 1
    else if status == Done.Name() then 2
    else 3
  }

  /** Position in the priority order; a priority outside the three sorts last. */
  function PriorityRank(priority: string): nat {
    if priority == High.Name() then 0
    else if priority == Medium.Name() then 1
    else if priority == Low.Name() then 2
    else 3
  }

  function ListKey(t: Task): SortKey {
    SortKey(StatusRank(t.status), PriorityRank(t.priority), t.dueDate)
  }

  /**
   * The tasks as the list shows them: a reordering of the input (a copy is sorted,
   * the input is left alone), by status, then priority within a status, then due
   * date within both.
   */
  function SortedTasks(tasks: seq<Task>): (r: seq<Task>)
    ensures multiset(r) == multiset(tasks)
    ensures forall i, j :: 0 <= i < j < |r| ==> StatusRank(r[i].status) <= StatusRank(r[j].status)
    ensures forall i, j :: 0 <= i < j < |r| && r[i].status == r[j].status ==>
      PriorityRank(r[i].priority) <= PriorityRank(r[j].priority)
    ensures forall i, j :: 0 <= i < j < |r| && r[i].status == r[j].status && r[i].priority == r[j].priority ==>
      LexLe(r[i].dueDate, r[j].dueDate)
  {
    var r := SortBy(tasks, ListKey);
    assert forall i, j :: 0 <= i < j < |r| ==> KeyLe(ListKey(r[i]), ListKey(r[j]));
    r
  }

  /** A list already in this order is shown as it is. */
  lemma SortedTasksKeepsOrdered(tasks: seq<Task>)
    requires forall i, j :: 0 <= i < j < |tasks| ==> KeyLe(ListKey(tasks[i]), ListKey(tasks[j]))
    ensures SortedTasks(tasks) == tasks
  {
    SortBySorted(tasks, ListKey);
  }

  /** The list shows at most 80 characters of a description. */
  const ListPreviewLength: nat := 80
}
