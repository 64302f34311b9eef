/**
 * The kanban board: one column per status (todo, in progress, done) with its count,
 * cards with a description cut to 60 characters, and drag and drop between columns,
 * which asks for a status change when a card lands in another column.
 */
module KanbanBoard {
  import opened Wrappers
  import opened TaskModel
  import opened TaskViews
  import opened TaskStore

  /** The column ids, left to right. */
  const Columns: seq<string> := [Todo.Name(), Progress.Name(), Done.Name()]

  /** A card shows at most 60 characters of a description. */
  const CardPreviewLength: nat := 60

  datatype Column = Column(status: string, tasks: seq<Task>)

  /**
   * The board: the three columns in order, each holding exactly the tasks of its
   * status in list order; with only the three statuses every task is on exactly one
   * column and the column counts add up to the number of tasks.
   */
  function Board(tasks: seq<Task>): (cols: seq<Column>)
    ensures |cols| == 3
    ensures forall c :: 0 <= c < 3 ==> cols[c].status == Columns[c] && cols[c].tasks == WithStatus(tasks, Columns[c])
    ensures forall t, c :: t in tasks && 0 <= c < 3 ==> (t in cols[c].tasks <==> t.status == Columns[c])
    ensures (forall k :: 0 <= k < |tasks| ==> KnownStatus(tasks[k])) ==>
      |cols[0].tasks| + |cols[1].tasks| + |cols[2].tasks| == |tasks|
  {
    var cols := seq(3, c requires 0 <= c < 3 => Column(Columns[c], WithStatus(tasks, Columns[c])));
    if forall k :: 0 <= k < |tasks| ==> KnownStatus(tasks[k]) then
      StatusPartition(tasks);
      cols
    else
      cols
  }

  /**
   * The drop rule: a status update for the dragged task, only when a task is dragged
   * and the target column is not its current status.
   */
  function DropUpdate(dragged: Option<Task>, status: string): (u: Option<StatusUpdate>)
    ensures u.Some? <==> dragged.Some? && dragged.value.status != status
    ensures u.Some? ==> u.value.id == dragged.value.id && u.value.status == status
  {
    if dragged.Some? && dragged.value.status != status then Some(StatusUpdate(dragged.value.id, status))
    else None
  }

  /**
   * Once the update a drop asks for is applied, the card is in the target column and
   * no longer in its old one, and every other card is where it was.
   */
  lemma DropMovesCard(tasks: seq<Task>, i: nat, status: string)
    requires IdsDistinct(tasks) && i < |tasks|
    requires status in Columns && DropUpdate(Some(tasks[i]), status).Some?
    ensures var moved := tasks[i].(status := status);
      var cols := Board(tasks[i := moved]);
      forall c :: 0 <= c < 3 ==> (moved in cols[c].tasks <==> Columns[c] == status)
    ensures var after := tasks[i := tasks[i].(status := status)];
      tasks[i] !in after && forall k :: 0 <= k < |tasks| && k != i ==> after[k] == tasks[k]
  {
    var moved := tasks[i].(status := status);
    var after := tasks[i := moved];
    forall k | 0 <= k < |after| ensures after[k] != tasks[i] {
      if k != i {
        assert after[k].id == tasks[k].id != tasks[i].id;
      }
    }
    assert after[i] == moved;
  }

  /** The drag state of the board: the card being dragged, if any. */
  class DragState {
    var dragged: Option<Task>

    constructor()
      ensures dragged.None?
    {
      dragged := None;
    }

    /** A card is picked up. */
    method DragStart(t: Task)
      modifies this
      ensures dragged == Some(t)
    {
      dragged := Some(t);
    }

    /** A card is dropped on the column of `status`: the update the drop rule gives is sent, and the drag ends. */
    method Drop(status: string) returns (update: Option<StatusUpdate>)
      modifies this
      ensures update == DropUpdate(old(dragged), status)
      ensures dragged.None?
    {
      update := DropUpdate(dragged, status);
      dragged := None;
    }

    /** The drag ends without a drop. */
    method DragEnd()
      modifies this
      ensures dragged.None?
    {
      dragged := None;
    }
  }
}
