/**
 * The application shell: the client's copy of the task list, kept in step with the
 * server by applying each reply to the local list (append on add, replace by id on
 * update, filter out by id on delete), and the flags of the add/edit dialog. A reply
 * is `None` when the request threw (network failure or an unreadable body), in which
 * case nothing changes.
 */
module App {
  import opened Wrappers
  import opened Strings
  import opened Seqs
  import opened TaskModel
  import opened TaskStore
  import opened TaskModal

  /** The request a save sends: POST of the form, or PUT of the form to the edited task. */
  datatype SaveRequest = Post(body: CreateBody) | Put(id: string, patch: Patch)

  /** The JSON body of a submitted form: all six fields present, no source. */
  function CreateBodyOf(form: FormData): CreateBody {
    CreateBody(Some(form.title), Some(form.description), Some(form.dueDate), Some(form.timeSlot),
               Some(form.priority), Some(form.status), None)
  }

  /** The same body read as an update: the six form fields are overwritten, nothing else. */
  function PatchOf(form: FormData): Patch {
    EmptyPatch.(title := Some(form.title), description := Some(form.description), dueDate := Some(form.dueDate),
                timeSlot := Some(form.timeSlot), priority := Some(form.priority), status := Some(form.status))
  }

  /**
   * A form that passes the submit guard is accepted by the server's create: the task
   * keeps the title untrimmed, takes every non-empty field of the form, and is a
   * manual task.
   */
  lemma SubmittedFormIsCreated(form: FormData, id: string, now: string)
    requires Submittable(form)
    ensures Truthy(CreateBodyOf(form).title)
    ensures var t := NewTask(CreateBodyOf(form), id, now);
      && t.title == form.title && t.description == form.description
      && t.dueDate == form.dueDate && t.timeSlot == form.timeSlot
      && t.priority == Or(form.priority, DefaultPriority.Name())
      && t.status == Or(form.status, DefaultStatus.Name())
      && t.source == DefaultSource.Name()
  {
    assert !AllWhitespace(form.title);
    CreatedFromForm(form, id, now);
  }

  /** The create body of a form with a non-empty title, read back from the task it creates. */
  lemma CreatedFromForm(form: FormData, id: string, now: string)
    requires form.title != ""
    ensures Truthy(CreateBodyOf(form).title)
    ensures var t := NewTask(CreateBodyOf(form), id, now);
      && t.title == form.title && t.description == form.description
      && t.dueDate == form.dueDate && t.timeSlot == form.timeSlot
      && t.priority == Or(form.priority, DefaultPriority.Name())
      && t.status == Or(form.status, DefaultStatus.Name())
      && t.source == DefaultSource.Name()
  {
  }

  /**
   * Opening a task with its priority and status set and saving the form unchanged
   * gives back the same task on the server, apart from the update time.
   */
  lemma UnchangedEditKeepsTask(t: Task, now: string)
    requires t.priority != "" && t.status != ""
    ensures Merge(t, PatchOf(FormFrom(t)), now) == t.(updatedAt := Some(now))
  {
    FormFromTask(t);
  }

  /** `tasks.map(t => t.id === id ? updated : t)`. */
  function ReplaceById(ts: seq<Task>, id: string, updated: Task): (r: seq<Task>)
    ensures |r| == |ts|
    ensures forall k :: 0 <= k < |ts| ==> r[k] == if ts[k].id == id then updated else ts[k]
  {
    Map(ts, (t: Task) => if t.id == id then updated else t)
  }

  /** `tasks.filter(t => t.id !== id)`. */
  function RemoveById(ts: seq<Task>, id: string): (r: seq<Task>)
    ensures |r| <= |ts|
    ensures forall t :: t in r <==> t in ts && t.id != id
  {
    Filter(ts, (t: Task) => t.id != id)
  }

  /**
   * With distinct ids, replacing by id on the client is the server's overwrite of the
   * one matching entry, so the client copy stays equal to the store.
   */
  lemma ReplaceByIdMatchesStore(ts: seq<Task>, id: string, updated: Task)
    requires IdsDistinct(ts) && HasId(ts, id)
    ensures ReplaceById(ts, id, updated) == ts[FindIndex(ts, id) := updated]
  {
    var i := FindIndex(ts, id);
    var r := ReplaceById(ts, id, updated);
    forall k | 0 <= k < |ts| ensures r[k] == ts[i := updated][k] {
      if k != i {
        assert ts[k].id != ts[i].id;
      }
    }
  }

  /** Replacing an id the list does not hold changes nothing. */
  lemma ReplaceByIdAbsent(ts: seq<Task>, id: string, updated: Task)
    requires !HasId(ts, id)
    ensures ReplaceById(ts, id, updated) == ts
  {
    var r := ReplaceById(ts, id, updated);
    forall k | 0 <= k < |ts| ensures r[k] == ts[k] {
      assert ts[k].id != id;
    }
  }

  /**
   * With distinct ids, filtering out by id on the client is the server's splice of the
   * one matching entry.
   */
  lemma {:induction false} RemoveByIdMatchesStore(ts: seq<Task>, id: string)
    requires IdsDistinct(ts) && HasId(ts, id)
    ensures RemoveById(ts, id) == RemoveAt(ts, FindIndex(ts, id))
  {
    RemoveByIdCons(ts, id);
    if ts[0].id == id {
      RemoveByIdAbsent(ts[1..], id) by {
        forall k | 0 <= k < |ts[1..]| ensures ts[1..][k].id != id {
          assert ts[1..][k] == ts[k + 1];
        }
      }
      assert RemoveAt(ts, 0) == ts[1..];
    } else {
      TailKeepsId(ts, id);
      RemoveByIdMatchesStore(ts[1..], id);
      RemoveAtTail(ts, FindIndex(ts, id));
    }
  }

  /** The filter unfolded once: the head kept or dropped, then the tail filtered. */
  lemma RemoveByIdCons(ts: seq<Task>, id: string)
    requires ts != []
    ensures RemoveById(ts, id) == (if ts[0].id != id then [ts[0]] else []) + RemoveById(ts[1..], id)
  {
  }

  /** Past a head with another id, the tail still holds the id, one place earlier, with distinct ids. */
  lemma TailKeepsId(ts: seq<Task>, id: string)
    requires IdsDistinct(ts) && HasId(ts, id) && ts[0].id != id
    ensures IdsDistinct(ts[1..]) && HasId(ts[1..], id)
    ensures FindIndex(ts, id) == FindIndex(ts[1..], id) + 1
  {
    var rest := ts[1..];
    assert HasId(rest, id) by {
      var j :| 0 <= j < |ts| && ts[j].id == id;
      assert rest[j - 1] == ts[j];
    }
    forall a, b | 0 <= a < b < |rest| ensures rest[a].id != rest[b].id {
      assert rest[a] == ts[a + 1] && rest[b] == ts[b + 1];
    }
  }

  lemma RemoveAtTail(ts: seq<Task>, i: nat)
    requires 0 < i < |ts|
    ensures RemoveAt(ts, i) == [ts[0]] + RemoveAt(ts[1..], i - 1)
  {
    var l := RemoveAt(ts, i);
    var r := [ts[0]] + RemoveAt(ts[1..], i - 1);
    forall k | 0 <= k < |l| ensures l[k] == r[k] {
      if 0 < k {
        assert r[k] == RemoveAt(ts[1..], i - 1)[k - 1];
      }
    }
  }

  /** Deleting an id the list does not hold changes nothing. */
  lemma RemoveByIdAbsent(ts: seq<Task>, id: string)
    requires !HasId(ts, id)
    ensures RemoveById(ts, id) == ts
  {
    forall k | 0 <= k < |ts| ensures ts[k].id != id {
    }
    FilterAllPass(ts, (t: Task) => t.id != id);
  }

  /** The state of the application shell. */
  class AppState {
    var tasks: seq<Task>
    var isModalOpen: bool
    var editingTask: Option<Task>

    /** The shell starts with no tasks and the dialog closed. */
    constructor()
      ensures tasks == [] && !isModalOpen && editingTask.None?
    {
      tasks := [];
      isModalOpen := false;
      editingTask := None;
    }

    /** The load on start-up: the list becomes the server's reply; a failed request keeps it. */
    method FetchTasks(reply: Option<seq<Task>>)
      modifies this
      ensures tasks == if reply.Some? then reply.value else old(tasks)
      ensures isModalOpen == old(isModalOpen) && editingTask == old(editingTask)
    {
      if reply.Some? {
        tasks := reply.value;
      }
    }

    /** After a POST: the created task is appended and the dialog closes. */
    method AddTask(created: Option<Task>)
      modifies this
      ensures created.Some? ==> tasks == old(tasks) + [created.value] && !isModalOpen
      ensures created.None? ==> tasks == old(tasks) && isModalOpen == old(isModalOpen)
      ensures editingTask == old(editingTask)
    {
      if created.Some? {
        tasks := tasks + [created.value];
        isModalOpen := false;
      }
    }

    /** After a PUT: every entry with that id becomes the returned task; the dialog closes and nothing is being edited. */
    method UpdateTask(id: string, updated: Option<Task>)
      modifies this
      ensures updated.Some? ==> tasks == ReplaceById(old(tasks), id, updated.value) && !isModalOpen && editingTask.None?
      ensures updated.None? ==> tasks == old(tasks) && isModalOpen == old(isModalOpen) && editingTask == old(editingTask)
    {
      if updated.Some? {
        tasks := ReplaceById(tasks, id, updated.value);
        isModalOpen := false;
        editingTask := None;
      }
    }

    /** After a DELETE that reached the server, whatever its status: every entry with that id is dropped. */
    method DeleteTask(id: string, delivered: bool)
      modifies this
      ensures tasks == if delivered then RemoveById(old(tasks), id) else old(tasks)
      ensures isModalOpen == old(isModalOpen) && editingTask == old(editingTask)
    {
      if delivered {
        tasks := RemoveById(tasks, id);
      }
    }

    /** The add button: nothing is being edited and the dialog opens. */
    method OpenAddModal()
      modifies this
      ensures isModalOpen && editingTask.None? && tasks == old(tasks)
    {
      editingTask := None;
      isModalOpen := true;
    }

    /** The edit button of a task: that task is edited and the dialog opens. */
    method OpenEditModal(t: Task)
      modifies this
      ensures isModalOpen && editingTask == Some(t) && tasks == old(tasks)
    {
      editingTask := Some(t);
      isModalOpen := true;
    }

    /** The dialog's close: it closes and nothing is being edited. */
    method CloseModal()
      modifies this
      ensures !isModalOpen && editingTask.None? && tasks == old(tasks)
    {
      isModalOpen := false;
      editingTask := None;
    }

    /** A click on the dialog's backdrop closes it only when it lands on the backdrop itself. */
    method OverlayClick(onOverlay: bool)
      modifies this
      ensures onOverlay ==> !isModalOpen && editingTask.None?
      ensures !onOverlay ==> isModalOpen == old(isModalOpen) && editingTask == old(editingTask)
      ensures tasks == old(tasks)
    {
      if onOverlay {
        CloseModal();
      }
    }

    /**
     * A submitted form: a PUT to the edited task when there is one, else a POST; the
     * server's reply is then applied to the list as `UpdateTask` or `AddTask` does.
     */
    method HandleSaveTask(form: FormData, reply: Option<Task>) returns (req: SaveRequest)
      modifies this
      ensures old(editingTask).Some? ==>
        && req == Put(old(editingTask).value.id, PatchOf(form))
        && (reply.Some? ==> tasks == ReplaceById(old(tasks), req.id, reply.value) && !isModalOpen && editingTask.None?)
        && (reply.None? ==> tasks == old(tasks) && isModalOpen == old(isModalOpen) && editingTask == old(editingTask))
      ensures old(editingTask).None? ==>
        && req == Post(CreateBodyOf(form))
        && (reply.Some? ==> tasks == old(tasks) + [reply.value] && !isModalOpen)
        && (reply.None? ==> tasks == old(tasks) && isModalOpen == old(isModalOpen))
        && editingTask.None?
    {
      if editingTask.Some? {
        req := Put(editingTask.value.id, PatchOf(form));
        UpdateTask(req.id, reply);
      } else {
        req := Post(CreateBodyOf(form));
        AddTask(reply);
      }
    }
  }

  /**
   * A create with a title, answered by the store: the client appends exactly what the
   * store stored. (A falsy title is answered 400, and the client would append the
   * error object; the form never sends one.)
   */
  method MirrorCreate(store: InMemoryStore, app: AppState, body: CreateBody, freshId: string, now: string)
    requires store.Valid() && app.tasks == store.tasks && !HasId(store.tasks, freshId)
    requires Truthy(body.title)
    modifies store, app
    ensures store.Valid() && app.tasks == store.tasks
    ensures HasId(store.tasks, freshId)
  {
    var created := store.Create(body, freshId, now);
    app.AddTask(if created.Ok? then Some(created.value) else None);
    assert store.tasks[|store.tasks| - 1].id == freshId;
  }

  /** An update answered by the store, of any id: the client's replace by id gives the store's list. */
  method MirrorUpdate(store: InMemoryStore, app: AppState, id: string, patch: Patch, now: string)
    requires store.Valid() && app.tasks == store.tasks
    modifies store, app
    ensures store.Valid() && app.tasks == store.tasks
  {
    if HasId(store.tasks, id) {
      ReplaceByIdMatchesStore(store.tasks, id, Merge(store.tasks[FindIndex(store.tasks, id)], patch, now));
    }
    var updated := store.Update(id, patch, now);
    app.UpdateTask(id, if updated.Ok? then Some(updated.value) else None);
  }

  /**
   * A delete that reaches the store, of any id: the client filters the id out whether
   * the answer is 200 or 404, and gets the store's list either way.
   */
  method MirrorDelete(store: InMemoryStore, app: AppState, id: string)
    requires store.Valid() && app.tasks == store.tasks
    modifies store, app
    ensures store.Valid() && app.tasks == store.tasks
  {
    if HasId(store.tasks, id) {
      RemoveByIdMatchesStore(store.tasks, id);
    } else {
      RemoveByIdAbsent(store.tasks, id);
    }
    var deleted := store.Delete(id);
    app.DeleteTask(id, true);
  }

  /**
   * The client copy follows the in-memory store through adding a task from a form that
   * passes the submit guard, saving it again from the edit dialog and deleting it.
   */
  method MirrorsStore(store: InMemoryStore, app: AppState, form: FormData, freshId: string, now: string)
    requires store.Valid() && app.tasks == store.tasks && !HasId(store.tasks, freshId)
    requires Submittable(form)
    modifies store, app
    ensures store.Valid() && app.tasks == store.tasks
  {
    SubmittedFormIsCreated(form, freshId, now);
    MirrorCreate(store, app, CreateBodyOf(form), freshId, now);
    MirrorUpdate(store, app, freshId, PatchOf(form), now);
    MirrorDelete(store, app, freshId);
  }
}
