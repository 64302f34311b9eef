/**
 * The task routes over the in-memory fallback store: a module-level list of tasks
 * that GET lists and looks up, POST appends to, PUT overwrites one entry of and
 * DELETE splices one entry out of.
 */
module TaskStore {
  import opened Wrappers
  import opened Http
  import opened Strings
  import opened TaskModel

  /** The body of a create request. */
  datatype CreateBody = CreateBody(
    title: Option<string>,
    description: Option<string>,
    dueDate: Option<string>,
    timeSlot: Option<string>,
    priority: Option<string>,
    status: Option<string>,
    source: Option<string>)

  /** The body of an update request; `None` is a key the body does not carry. */
  datatype Patch = Patch(
    id: Option<string>,
    title: Option<string>,
    description: Option<string>,
    dueDate: Option<string>,
    timeSlot: Option<string>,
    priority: Option<string>,
    status: Option<string>,
    source: Option<string>,
    externalId: Option<string>,
    canvasCourseId: Option<string>,
    canvasCourseName: Option<string>,
    calendarEventId: Option<string>,
    createdAt: Option<string>)

  const EmptyPatch := Patch(None, None, None, None, None, None, None, None, None, None, None, None, None)

  predicate HasId(ts: seq<Task>, id: string) {
    exists i :: 0 <= i < |ts| && ts[i].id == id
  }

  predicate IdsDistinct(ts: seq<Task>) {
    forall i, j :: 0 <= i < j < |ts| ==> ts[i].id != ts[j].id
  }

  /** `findIndex(t => t.id === id)`: the first position holding that id, or -1. */
  function FindIndex(ts: seq<Task>, id: string): (r: int)
    ensures -1 <= r < |ts|
    ensures r == -1 <==> !HasId(ts, id)
    ensures r >= 0 ==> ts[r].id == id && forall i :: 0 <= i < r ==> ts[i].id != id
  {
    if ts == [] then -1
    else if ts[0].id == id then 0
    else
      var k := FindIndex(ts[1..], id);
      if k == -1 then
        assert forall i :: 1 <= i < |ts| ==> ts[i] == ts[1..][i - 1];
        -1
      else
        k + 1
  }

  /** The list with the entry at `i` spliced out (`splice(i, 1)`). */
  function RemoveAt(ts: seq<Task>, i: nat): (r: seq<Task>)
    requires i < |ts|
    ensures |r| == |ts| - 1
    ensures forall k :: 0 <= k < i ==> r[k] == ts[k]
    ensures forall k :: i <= k < |r| ==> r[k] == ts[k + 1]
  {
    ts[..i] + ts[i + 1..]
  }

  /**
   * The record POST builds in memory: every falsy field takes its default, every
   * truthy field is kept as sent (no enum check), and the creation time is stamped.
   */
  function NewTask(body: CreateBody, id: string, now: string): (t: Task)
    requires Truthy(body.title)
    ensures t.id == id && t.title == body.title.value
    ensures t.description == (if Truthy(body.description) then body.description.value else "")
    ensures t.dueDate == (if Truthy(body.dueDate) then body.dueDate.value else "")
    ensures t.timeSlot == (if Truthy(body.timeSlot) then body.timeSlot.value else "")
    ensures t.priority == (if Truthy(body.priority) then body.priority.value else DefaultPriority.Name())
    ensures t.status == (if Truthy(body.status) then body.status.value else DefaultStatus.Name())
    ensures t.source == (if Truthy(body.source) then body.source.value else DefaultSource.Name())
    ensures t.createdAt == Some(now) && t.updatedAt.None?
    ensures t.externalId.None? && t.canvasCourseId.None? && t.canvasCourseName.None? && t.calendarEventId.None?
  {
    Task(
      id := id,
      title := body.title.value,
      description := OrElse(body.description, ""),
      dueDate := OrElse(body.dueDate, ""),
      timeSlot := OrElse(body.timeSlot, ""),
      priority := OrElse(body.priority, DefaultPriority.Name()),
      status := OrElse(body.status, DefaultStatus.Name()),
      source := OrElse(body.source, DefaultSource.Name()),
      externalId := None,
      canvasCourseId := None,
      canvasCourseName := None,
      calendarEventId := None,
      createdAt := Some(now),
      updatedAt := None)
  }

  /**
   * The record PUT stores: the body's fields overlaid on the stored record, the
   * stored id kept whatever the body says, and the update time stamped.
   */
  function Merge(t: Task, p: Patch, now: string): (r: Task)
    ensures r.id == t.id
    ensures r.updatedAt == Some(now)
    ensures r.title == p.title.GetOr(t.title)
    ensures r.description == p.description.GetOr(t.description)
    ensures r.dueDate == p.dueDate.GetOr(t.dueDate)
    ensures r.timeSlot == p.timeSlot.GetOr(t.timeSlot)
    ensures r.priority == p.priority.GetOr(t.priority)
    ensures r.status == p.status.GetOr(t.status)
    ensures r.source == p.source.GetOr(t.source)
    ensures r.externalId == (if p.externalId.Some? then p.externalId else t.externalId)
    ensures r.canvasCourseId == (if p.canvasCourseId.Some? then p.canvasCourseId else t.canvasCourseId)
    ensures r.canvasCourseName == (if p.canvasCourseName.Some? then p.canvasCourseName else t.canvasCourseName)
    ensures r.calendarEventId == (if p.calendarEventId.Some? then p.calendarEventId else t.calendarEventId)
    ensures r.createdAt == (if p.createdAt.Some? then p.createdAt else t.createdAt)
  {
    Task(
      id := t.id,
      title := p.title.GetOr(t.title),
      description := p.description.GetOr(t.description),
      dueDate := p.dueDate.GetOr(t.dueDate),
      timeSlot := p.timeSlot.GetOr(t.timeSlot),
      priority := p.priority.GetOr(t.priority),
      status := p.status.GetOr(t.status),
      source := p.source.GetOr(t.source),
      externalId := if p.externalId.Some? then p.externalId else t.externalId,
      canvasCourseId := if p.canvasCourseId.Some? then p.canvasCourseId else t.canvasCourseId,
      canvasCourseName := if p.canvasCourseName.Some? then p.canvasCourseName else t.canvasCourseName,
      calendarEventId := if p.calendarEventId.Some? then p.calendarEventId else t.calendarEventId,
      createdAt := if p.createdAt.Some? then p.createdAt else t.createdAt,
      updatedAt := Some(now))
  }

  class InMemoryStore {
    var tasks: seq<Task>

    /** Ids are generated fresh, so no two stored tasks share one. */
    ghost predicate Valid()
      reads this
    {
      IdsDistinct(tasks)
    }

    constructor (seed: seq<Task>)
      requires IdsDistinct(seed)
      ensures Valid() && tasks == seed
    {
      tasks := seed;
    }

    /** GET /: the list in insertion order. */
    method List() returns (r: seq<Task>)
      ensures r == tasks
    {
      r := tasks;
    }

    /** GET /:id: the first task with that id, or 404. */
    method Get(id: string) returns (r: Result<Task, HttpError>)
      ensures r.Err? <==> !HasId(tasks, id)
      ensures r.Err? ==> r.error == NotFound
      ensures r.Ok? ==> r.value.id == id && r.value == tasks[FindIndex(tasks, id)]
    {
      var i := FindIndex(tasks, id);
      if i == -1 {
        return Err(NotFound);
      }
      r := Ok(tasks[i]);
    }

    /** POST /: 400 without a title, else a new task appended at the end. */
    method Create(body: CreateBody, freshId: string, now: string) returns (r: Result<Task, HttpError>)
      requires Valid() && !HasId(tasks, freshId)
      modifies this
      ensures Valid()
      ensures !Truthy(body.title) ==> r == Err(BadRequest) && tasks == old(tasks)
      ensures Truthy(body.title) ==> r == Ok(NewTask(body, freshId, now)) && tasks == old(tasks) + [r.value]
    {
      if !Truthy(body.title) {
        return Err(BadRequest);
      }
      var t := NewTask(body, freshId, now);
      tasks := tasks + [t];
      r := Ok(t);
    }

    /** PUT /:id: 404 for an absent id, else the merged record stored at the same index. */
    method Update(id: string, patch: Patch, now: string) returns (r: Result<Task, HttpError>)
      requires Valid()
      modifies this
      ensures Valid()
      ensures !HasId(old(tasks), id) ==> r == Err(NotFound) && tasks == old(tasks)
      ensures HasId(old(tasks), id) ==>
        var i := FindIndex(old(tasks), id);
        r == Ok(Merge(old(tasks)[i], patch, now)) && tasks == old(tasks)[i := r.value]
    {
      var i := FindIndex(tasks, id);
      if i == -1 {
        return Err(NotFound);
      }
      var updated := Merge(tasks[i], patch, now);
      tasks := tasks[i := updated];
      r := Ok(updated);
    }

    /** DELETE /:id: 404 for an absent id, else the first match spliced out (204). */
    method Delete(id: string) returns (r: Result<(), HttpError>)
      requires Valid()
      modifies this
      ensures Valid()
      ensures !HasId(old(tasks), id) ==> r == Err(NotFound) && tasks == old(tasks)
      ensures HasId(old(tasks), id) ==> r == Ok(()) && tasks == RemoveAt(old(tasks), FindIndex(old(tasks), id))
    {
      var i := FindIndex(tasks, id);
      if i == -1 {
        return Err(NotFound);
      }
      tasks := RemoveAt(tasks, i);
      r := Ok(());
    }
  }

  // ---------------------------------------------------------------------------
  // Properties of the store operations

  /** A task appended under a fresh id is the one a lookup of that id finds. */
  lemma {:induction false} GetAfterCreate(ts: seq<Task>, t: Task)
    requires !HasId(ts, t.id)
    ensures FindIndex(ts + [t], t.id) == |ts|
  {
    var s := ts + [t];
    assert s[|ts|].id == t.id;
    forall i | 0 <= i < |ts|
      ensures s[i].id != t.id
    {
      assert s[i] == ts[i];
    }
  }

  /** Appending a task under a fresh id keeps the ids distinct. */
  lemma CreateKeepsIdsDistinct(ts: seq<Task>, t: Task)
    requires IdsDistinct(ts) && !HasId(ts, t.id)
    ensures IdsDistinct(ts + [t])
  {
  }

  /** When ids are distinct, a deleted id can no longer be found. */
  lemma {:induction false} GetAfterDelete(ts: seq<Task>, id: string)
    requires IdsDistinct(ts) && HasId(ts, id)
    ensures IdsDistinct(RemoveAt(ts, FindIndex(ts, id)))
    ensures !HasId(RemoveAt(ts, FindIndex(ts, id)), id)
  {
    var i := FindIndex(ts, id);
    var r := RemoveAt(ts, i);
    forall k | 0 <= k < |r|
      ensures r[k].id != id
    {
      if k >= i {
        assert r[k] == ts[k + 1];
      }
    }
    forall a, b | 0 <= a < b < |r|
      ensures r[a].id != r[b].id
    {
      var a' := if a < i then a else a + 1;
      var b' := if b < i then b else b + 1;
      assert r[a] == ts[a'] && r[b] == ts[b'];
    }
  }

  /** An update keeps every id where it was, so the ids stay distinct. */
  lemma {:induction false} UpdateKeepsIdsDistinct(ts: seq<Task>, id: string, p: Patch, now: string)
    requires IdsDistinct(ts) && HasId(ts, id)
    ensures var i := FindIndex(ts, id);
      IdsDistinct(ts[i := Merge(ts[i], p, now)])
  {
    var i := FindIndex(ts, id);
    var r := ts[i := Merge(ts[i], p, now)];
    forall k | 0 <= k < |ts|
      ensures r[k].id == ts[k].id
    {
    }
  }

  /**
   * A body carrying only a status changes the status and the update time and
   * nothing else, whatever id the body names.
   */
  lemma StatusOnlyUpdate(t: Task, status: string, bodyId: Option<string>, now: string)
    ensures Merge(t, EmptyPatch.(id := bodyId, status := Some(status)), now)
      == t.(status := status, updatedAt := Some(now))
  {
  }

  /** Applying the same update twice is the same as applying it once. */
  lemma MergeIdempotent(t: Task, p: Patch, now: string)
    ensures Merge(Merge(t, p, now), p, now) == Merge(t, p, now)
  {
  }

  /**
   * When the title is already trimmed and every enum field is absent, empty or one
   * of its values, the in-memory record is exactly what the document schema would
   * store from it, apart from the update timestamp the schema also sets.
   */
  lemma {:induction false} CreateAgreesWithSchema(body: CreateBody, id: string, now: string)
    requires Truthy(body.title) && Trim(body.title.value) == body.title.value
    requires !Truthy(body.priority) || ParsePriority(body.priority.value).Some?
    requires !Truthy(body.status) || ParseStatus(body.status.value).Some?
    requires !Truthy(body.source) || ParseSource(body.source.value).Some?
    ensures Conforms(NewTask(body, id, now))
    ensures Cast(FieldsOf(NewTask(body, id, now)), id, now) == Ok(NewTask(body, id, now).(updatedAt := Some(now)))
  {
    var t := NewTask(body, id, now);
    assert Conforms(t);
    CastAcceptsConforming(t, now);
  }

  /**
   * The in-memory path keeps an out-of-range priority that the schema would reject:
   * the stored record then violates the schema's invariant.
   */
  lemma CreateSkipsEnumCheck(body: CreateBody, id: string, now: string)
    requires Truthy(body.title) && Truthy(body.priority)
    requires ParsePriority(body.priority.value).None?
    ensures NewTask(body, id, now).priority == body.priority.value
    ensures !Conforms(NewTask(body, id, now))
    ensures Cast(FieldsOf(NewTask(body, id, now)), id, now).Err?
  {
  }

  /**
   * The lifecycle of a task against the in-memory store: create, find it, update
   * its status, delete it, and no longer find it; the store is then as it was.
   */
  method TaskLifecycle(store: InMemoryStore, id: string, now: string, later: string)
    requires store.Valid() && !HasId(store.tasks, id)
    modifies store
    ensures store.Valid() && store.tasks == old(store.tasks)
  {
    var created := store.Create(CreateBody(Some("Read Ch.5"), None, None, None, None, None, None), id, now);
    assert created.Ok?;
    var t := created.value;
    assert t.description == "" && t.priority == "medium" && t.status == "todo" && t.source == "manual";
    ghost var n := |old(store.tasks)|;
    GetAfterCreate(old(store.tasks), t);
    assert store.tasks[n].id == id;
    var found := store.Get(id);
    assert found == Ok(t);
    var updated := store.Update(id, EmptyPatch.(status := Some("done")), later);
    assert updated == Ok(t.(status := "done", updatedAt := Some(later)));
    assert store.tasks[n].id == id;
    ghost var before := store.tasks;
    var deleted := store.Delete(id);
    assert deleted == Ok(());
    GetAfterDelete(before, id);
    var gone := store.Get(id);
    assert gone == Err(NotFound);
    assert store.tasks == RemoveAt(before, n) == old(store.tasks);
  }
}
