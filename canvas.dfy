/**
 * The Canvas routes: listing named courses, listing dated assignments, and importing
 * assignments as tasks. The import selects its records (by id, by course, or from the
 * upcoming-events feed), skips unnamed ones, deduplicates on (source "canvas",
 * externalId) against the document collection as it grows during the loop, maps each
 * record to a task, and reports an unpersisted entry when saving fails.
 *
 * Every call to Canvas and to the database is an input: the replies Canvas gives
 * (`None` for a failed request), and for the k-th selected record whether the lookup
 * of an existing task throws, whether the save throws, and the id the new record gets.
 */
module CanvasImport {
  import opened Wrappers
  import opened Http
  import opened Strings
  import opened Seqs
  import opened TaskModel

  /** An assignment (or upcoming event) as Canvas returns it. */
  datatype Assignment = Assignment(
    id: string,                  // the record's id, as `id.toString()` renders it
    name: Option<string>,
    description: Option<string>, // HTML
    dueAt: Option<string>,       // due_at, an ISO timestamp
    courseId: Option<string>,    // course_id, as its string form
    contextName: Option<string>, // context_name: the course's display name
    kind: Option<string>)        // `type` of an upcoming event

  datatype Course = Course(
    id: string,
    name: Option<string>,
    courseCode: Option<string>,
    enrollmentTermId: Option<string>)

  /** An entry of the /courses reply. */
  datatype CourseSummary = CourseSummary(
    id: string,
    name: string,
    code: Option<string>,
    enrollmentTerm: Option<string>)

  /** An entry of the /assignments reply. */
  datatype AssignmentView = AssignmentView(
    id: string,
    title: string,
    description: string,
    dueDate: string,
    courseId: Option<string>,
    courseName: string)

  /** The client is built only when both the base URL and the access token are set. */
  predicate Configured(apiUrl: Option<string>, accessToken: Option<string>) {
    Truthy(apiUrl) && Truthy(accessToken)
  }

  // ---------------------------------------------------------------------------
  // GET /courses

  predicate IsNamed(c: Course) {
    Truthy(c.name)
  }

  function Summary(c: Course): CourseSummary {
    CourseSummary(c.id, c.name.GetOr(""), c.courseCode, c.enrollmentTermId)
  }

  /**
   * 400 when Canvas is not configured, 500 when the listing fails, otherwise the
   * named courses (and only those), summarised in the order Canvas gave them.
   */
  function ListCourses(configured: bool, reply: Option<seq<Course>>): (r: Result<seq<CourseSummary>, HttpError>)
    ensures !configured ==> r == Err(BadRequest)
    ensures configured && reply.None? ==> r == Err(ServerError)
    ensures configured && reply.Some? ==> r.Ok? && |r.value| <= |reply.value|
    ensures r.Ok? ==> forall s :: s in r.value ==>
      s.name != "" && exists c :: c in reply.value && IsNamed(c) && s == Summary(c)
    ensures r.Ok? ==> forall c :: c in reply.value && IsNamed(c) ==> Summary(c) in r.value
  {
    if !configured then Err(BadRequest)
    else if reply.None? then Err(ServerError)
    else
      var named := Filter(reply.value, IsNamed);
      var r := Map(named, Summary);
      assert forall s :: s in r ==> exists k :: 0 <= k < |named| && s == Summary(named[k]);
      assert forall c :: c in named ==> Summary(c) in r by {
        forall c | c in named ensures Summary(c) in r {
          var k :| 0 <= k < |named| && named[k] == c;
          assert r[k] == Summary(c);
        }
      }
      Ok(r)
  }

  // ---------------------------------------------------------------------------
  // GET /assignments

  predicate IsAssignmentEvent(a: Assignment) {
    a.kind == Some("assignment")
  }

  predicate Listable(a: Assignment) {
    Truthy(a.name) && Truthy(a.dueAt)
  }

  function ViewOf(a: Assignment): AssignmentView {
    AssignmentView(a.id, a.name.GetOr(""), OrElse(a.description, ""), a.dueAt.GetOr(""),
                   a.courseId, OrElse(a.contextName, ""))
  }

  /**
   * The records that have both a name and a due date, as views; a missing
   * description or course name becomes the empty string.
   */
  function Views(records: seq<Assignment>): (r: seq<AssignmentView>)
    ensures |r| <= |records|
    ensures forall v :: v in r ==> v.title != "" && v.dueDate != ""
    ensures forall v :: v in r ==> exists a :: a in records && Listable(a) && v == ViewOf(a)
    ensures forall a :: a in records && Listable(a) ==> ViewOf(a) in r
  {
    var kept := Filter(records, Listable);
    var r := Map(kept, ViewOf);
    assert forall v :: v in r ==> exists k :: 0 <= k < |kept| && v == ViewOf(kept[k]);
    assert forall a :: a in kept ==> ViewOf(a) in r by {
      forall a | a in kept ensures ViewOf(a) in r {
        var k :| 0 <= k < |kept| && kept[k] == a;
        assert r[k] == ViewOf(a);
      }
    }
    r
  }

  function WithCourse(records: seq<Assignment>, courseId: Option<string>): (r: seq<Assignment>)
    ensures |r| == |records|
    ensures forall k :: 0 <= k < |r| ==> r[k] == records[k].(courseId := courseId)
  {
    Map(records, (a: Assignment) => a.(courseId := courseId))
  }

  /**
   * With a course id, that course's assignments stamped with the course id; without
   * one, the assignment-typed upcoming events. Either way only dated, named records
   * are listed. 400 when not configured, 500 when the Canvas request fails.
   */
  function ListAssignments(configured: bool, courseId: Option<string>,
                           courseReply: Option<seq<Assignment>>,
                           upcomingReply: Option<seq<Assignment>>): (r: Result<seq<AssignmentView>, HttpError>)
    ensures !configured ==> r == Err(BadRequest)
    ensures configured && Truthy(courseId) ==>
      if courseReply.None? then r == Err(ServerError)
      else r == Ok(Views(WithCourse(courseReply.value, courseId)))
    ensures configured && !Truthy(courseId) ==>
      if upcomingReply.None? then r == Err(ServerError)
      else r == Ok(Views(Filter(upcomingReply.value, IsAssignmentEvent)))
    ensures r.Ok? ==> forall v :: v in r.value ==> v.title != "" && v.dueDate != ""
  {
    if !configured then Err(BadRequest)
    else if Truthy(courseId) then
      if courseReply.None? then Err(ServerError)
      else Ok(Views(WithCourse(courseReply.value, courseId)))
    else
      if upcomingReply.None? then Err(ServerError)
      else Ok(Views(Filter(upcomingReply.value, IsAssignmentEvent)))
  }

  // ---------------------------------------------------------------------------
  // The description: tags stripped with /<[^>]*>/g, then cut to 500 characters

  /** No '<' is followed, anywhere later, by a '>'. */
  predicate NoTag(s: string) {
    forall i, j :: 0 <= i < j < |s| && s[i] == '<' ==> s[j] != '>'
  }

  /** What follows the first occurrence of `c`. */
  function AfterFirst(s: string, c: char): (r: string)
    requires c in s
    ensures |r| < |s| && r == s[|s| - |r|..]
  {
    if s[0] == c then s[1..] else AfterFirst(s[1..], c)
  }

  /**
   * `s.replace(/<[^>]*>/g, '')`: scanning left to right, a '<' with a '>' somewhere
   * after it is removed together with everything up to the first such '>'; a '<'
   * with no '>' after it is kept.
   */
  function StripTags(s: string): (r: string)
    ensures |r| <= |s|
    ensures forall c :: c in r ==> c in s
    ensures NoTag(r)
    ensures '<' !in s ==> r == s
  {
    if s == [] then []
    else if s[0] == '<' && '>' in s then
      StripTags(AfterFirst(s, '>'))
    else
      var rest := StripTags(s[1..]);
      assert s == [s[0]] + s[1..];
      assert s[0] == '<' ==> '>' !in rest;
      [s[0]] + rest
  }

  /** Text outside a tag is kept: a first character other than '<' stays in front. */
  lemma StripTagsCons(c: char, b: string)
    requires c != '<'
    ensures StripTags([c] + b) == [c] + StripTags(b)
  {
    assert ([c] + b)[1..] == b;
  }

  /** The first '>' of `t + ">" + b` is the one after `t` when `t` has none. */
  lemma {:induction false} AfterFirstTagEnd(t: string, b: string)
    requires '>' !in t
    ensures AfterFirst(t + ['>'] + b, '>') == b
  {
    if t != [] {
      assert (t + ['>'] + b)[1..] == t[1..] + ['>'] + b;
      AfterFirstTagEnd(t[1..], b);
    }
  }

  /** A tag, from '<' to the first '>' after it, is removed entirely. */
  lemma StripTagsTag(t: string, b: string)
    requires '>' !in t
    ensures StripTags(['<'] + t + ['>'] + b) == StripTags(b)
  {
    var s := ['<'] + t + ['>'] + b;
    assert s[|t| + 1] == '>';
    assert s[1..] == t + ['>'] + b;
    AfterFirstTagEnd(t, b);
    assert AfterFirst(s, '>') == AfterFirst(s[1..], '>') == b;
    assert StripTags(s) == StripTags(AfterFirst(s, '>'));
  }

  /** The description an imported task gets. */
  function Excerpt(description: Option<string>): (r: string)
    ensures |r| <= 500
    ensures NoTag(r)
    ensures !Truthy(description) ==> r == ""
    ensures Truthy(description) ==> r == Prefix(StripTags(description.value), 500)
    ensures Truthy(description) && '<' !in description.value && |description.value| <= 500
      ==> r == description.value
  {
    if Truthy(description) then Prefix(StripTags(description.value), 500) else ""
  }

  // ---------------------------------------------------------------------------
  // POST /import

  /** The request body; an absent or empty `assignmentIds` is the empty list. */
  datatype ImportRequest = ImportRequest(courseId: Option<string>, assignmentIds: seq<string>)

  /** Canvas's replies; `None` is a request that failed. */
  datatype CanvasReplies = CanvasReplies(
    byId: seq<Option<Assignment>>,                // one per requested id, in order
    courseAssignments: Option<seq<Assignment>>,   // the course's assignment listing
    upcomingEvents: Option<seq<Assignment>>,      // the upcoming-events feed
    courseLookup: Option<string>)                 // the course's name ("" if it has none)

  /** The database and the clock, as seen by the k-th selected record. */
  datatype ImportEnv = ImportEnv(
    findFails: nat -> bool,    // the lookup of an existing task throws
    saveFails: nat -> bool,    // the save throws
    newId: nat -> string,      // the id the new record gets (database id or a UUID)
    dateOf: string -> string,  // the date part of a due timestamp
    timeOf: string -> string,  // the HH:MM time of a due timestamp
    now: string)               // the save time

  datatype ImportContext = ImportContext(courseId: Option<string>, courseName: string)

  datatype ImportReport = ImportReport(importedCount: nat, tasks: seq<Task>)

  predicate HasDueAt(a: Assignment) {
    Truthy(a.dueAt)
  }

  /**
   * The records to import: with a non-empty id list, every record whose fetch
   * succeeded (failures skipped); else with a course id, that course's dated
   * assignments; else the assignment-typed upcoming events, dated or not. A failed
   * listing is a 500.
   */
  function Selected(req: ImportRequest, replies: CanvasReplies): (r: Result<seq<Assignment>, HttpError>)
    ensures |req.assignmentIds| > 0 ==> r.Ok? && forall a :: a in r.value <==> Some(a) in replies.byId
    ensures |req.assignmentIds| == 0 && Truthy(req.courseId) ==>
      (r.Ok? <==> replies.courseAssignments.Some?) &&
      (r.Ok? ==> forall a :: a in r.value <==> a in replies.courseAssignments.value && Truthy(a.dueAt))
    ensures |req.assignmentIds| == 0 && !Truthy(req.courseId) ==>
      (r.Ok? <==> replies.upcomingEvents.Some?) &&
      (r.Ok? ==> forall a :: a in r.value <==> a in replies.upcomingEvents.value && IsAssignmentEvent(a))
    ensures r.Err? ==> r.error == ServerError
  {
    if |req.assignmentIds| > 0 then Ok(Somes(replies.byId))
    else if Truthy(req.courseId) then
      if replies.courseAssignments.None? then Err(ServerError)
      else Ok(Filter(replies.courseAssignments.value, HasDueAt))
    else
      if replies.upcomingEvents.None? then Err(ServerError)
      else Ok(Filter(replies.upcomingEvents.value, IsAssignmentEvent))
  }

  /** The course name stamped on imported tasks: looked up only with a course id, "" on failure. */
  function CourseName(req: ImportRequest, replies: CanvasReplies): string {
    if Truthy(req.courseId) then replies.courseLookup.GetOr("") else ""
  }

  /**
   * The task an assignment becomes before it is saved: its name as title, the
   * excerpt as description, medium priority, status todo, source canvas, the
   * assignment id as external id, the course id and name with their fallbacks.
   */
  function ImportedTask(a: Assignment, ctx: ImportContext, env: ImportEnv, id: string): (t: Task)
    requires Truthy(a.name)
    ensures t.id == id && t.title == a.name.value && t.description == Excerpt(a.description)
    ensures t.priority == Medium.Name() && t.status == Todo.Name() && t.source == Canvas.Name()
    ensures t.externalId == Some(a.id)
    ensures t.canvasCourseId == Some(OrElse(OrOption(a.courseId, ctx.courseId), ""))
    ensures t.canvasCourseName == Some(OrElse(a.contextName, ctx.courseName))
    ensures !Truthy(a.dueAt) ==> t.dueDate == "" && t.timeSlot == ""
    ensures t.createdAt.None? && t.updatedAt.None? && t.calendarEventId.None?
  {
    Task(
      id := id,
      title := a.name.value,
      description := Excerpt(a.description),
      dueDate := if Truthy(a.dueAt) then env.dateOf(a.dueAt.value) else "",
      timeSlot := if Truthy(a.dueAt) then env.timeOf(a.dueAt.value) else "",
      priority := Medium.Name(),
      status := Todo.Name(),
      source := Canvas.Name(),
      externalId := Some(a.id),
      canvasCourseId := Some(OrElse(OrOption(a.courseId, ctx.courseId), "")),
      canvasCourseName := Some(OrElse(a.contextName, ctx.courseName)),
      calendarEventId := None,
      createdAt := None,
      updatedAt := None)
  }

  predicate IsCanvasTask(t: Task) {
    t.source == Canvas.Name() && t.externalId.Some?
  }

  /** `Task.findOne({source: 'canvas', externalId})` finds something. */
  predicate HasCanvasTask(docs: seq<Task>, externalId: string) {
    exists i :: 0 <= i < |docs| && docs[i].source == Canvas.Name() && docs[i].externalId == Some(externalId)
  }

  /** No two canvas tasks in the collection share an external id. */
  predicate UniqueCanvasIds(docs: seq<Task>) {
    forall i, j :: 0 <= i < j < |docs| && IsCanvasTask(docs[i]) && IsCanvasTask(docs[j]) ==>
      docs[i].externalId != docs[j].externalId
  }

  /**
   * The saved document for the k-th record, or `None` when the save throws or the
   * schema rejects the task, whose title is required and trimmed: there is a document
   * exactly when the name is not blank and the save goes through, and it is a canvas
   * task under the record's id.
   */
  function Saved(a: Assignment, k: nat, ctx: ImportContext, env: ImportEnv): (r: Option<Task>)
    requires Truthy(a.name)
    ensures r.Some? ==> && r.value.externalId == Some(a.id) && r.value.source == Canvas.Name()
                        && r.value.priority == Medium.Name() && r.value.status == Todo.Name()
                        && r.value.createdAt == Some(env.now)
    ensures r.Some? <==> !env.saveFails(k) && !AllWhitespace(a.name.value)
  {
    if env.saveFails(k) then None
    else
      var data := ImportedTask(a, ctx, env, env.newId(k));
      match Cast(FieldsOf(data), data.id, env.now)
      case Ok(t) => Some(t)
      case Err(_) => None
  }

  /** The entry the response reports for a record that is not skipped: the saved document, or the unsaved task. */
  function Reported(a: Assignment, k: nat, ctx: ImportContext, env: ImportEnv): (t: Task)
    requires Truthy(a.name)
    ensures t.externalId == Some(a.id)
    ensures t.priority == Medium.Name() && t.status == Todo.Name() && t.source == Canvas.Name()
    ensures Saved(a, k, ctx, env).None? ==> t == ImportedTask(a, ctx, env, env.newId(k)) && t.createdAt.None?
  {
    match Saved(a, k, ctx, env)
    case Some(t) => t
    case None => ImportedTask(a, ctx, env, env.newId(k))
  }

  /** What the loop does with a record it does not skip: the entry it reports, and whether the save stored it. */
  datatype Outcome = Outcome(entry: Task, stored: bool)

  /**
   * What the outcome of the k-th record promises: there is one exactly when the record
   * has a name; its entry is a medium, todo canvas task under the record's id; a save
   * that throws reports a task with no creation time; the entry is stored exactly
   * when the save goes through and the name is not blank.
   */
  predicate Fits(out: Option<Outcome>, a: Assignment, k: nat, env: ImportEnv) {
    && (out.Some? <==> Truthy(a.name))
    && (out.Some? ==>
          && out.value.entry.externalId == Some(a.id)
          && out.value.entry.priority == Medium.Name() && out.value.entry.status == Todo.Name()
          && out.value.entry.source == Canvas.Name()
          && (env.saveFails(k) ==> !out.value.stored && out.value.entry.createdAt.None?)
          && (out.value.stored <==> !env.saveFails(k) && !AllWhitespace(a.name.value)))
  }

  predicate Describes(outs: seq<Option<Outcome>>, sel: seq<Assignment>, env: ImportEnv) {
    |outs| == |sel| && forall k :: 0 <= k < |sel| ==> Fits(outs[k], sel[k], k, env)
  }

  /** The outcome of the k-th record: `None` for a record without a name, which the loop skips. */
  function OutcomeOf(a: Assignment, k: nat, ctx: ImportContext, env: ImportEnv): (out: Option<Outcome>)
    ensures Fits(out, a, k, env)
  {
    if Truthy(a.name) then Some(Outcome(Reported(a, k, ctx, env), Saved(a, k, ctx, env).Some?)) else None
  }

  /** The outcomes of the selected records, in order; none of them depends on the collection. */
  function Outcomes(sel: seq<Assignment>, ctx: ImportContext, env: ImportEnv): (outs: seq<Option<Outcome>>)
    ensures Describes(outs, sel, env)
  {
    seq(|sel|, k requires 0 <= k < |sel| => OutcomeOf(sel[k], k, ctx, env))
  }

  /**
   * One turn of the import loop for the k-th selected record: a record without a
   * name, or one the lookup finds already imported, changes nothing; any other is
   * reported, and added to the collection when its save stored it.
   */
  function Step(a: Assignment, k: nat, out: Option<Outcome>, env: ImportEnv,
                imported: seq<Task>, docs: seq<Task>): (seq<Task>, seq<Task>)
  {
    if out.None? || (!env.findFails(k) && HasCanvasTask(docs, a.id)) then (imported, docs)
    else (imported + [out.value.entry], if out.value.stored then docs + [out.value.entry] else docs)
  }

  /** The import loop over the selected records and their outcomes. */
  function Fold(sel: seq<Assignment>, outs: seq<Option<Outcome>>, env: ImportEnv, docs: seq<Task>): (seq<Task>, seq<Task>)
    requires |outs| == |sel|
    decreases |sel|
  {
    if sel == [] then ([], docs)
    else
      var n := |sel| - 1;
      var prev := Fold(sel[..n], outs[..n], env, docs);
      Step(sel[n], n, outs[n], env, prev.0, prev.1)
  }

  /** The import loop over the selected records: the entries reported and the collection after it. */
  function Reconcile(sel: seq<Assignment>, ctx: ImportContext, env: ImportEnv, docs: seq<Task>): (seq<Task>, seq<Task>)
  {
    Fold(sel, Outcomes(sel, ctx, env), env, docs)
  }

  /** The whole POST /import: the response and the collection afterwards. */
  function ImportOutcome(configured: bool, req: ImportRequest, replies: CanvasReplies,
                         env: ImportEnv, docs: seq<Task>): (Result<ImportReport, HttpError>, seq<Task>)
  {
    if !configured then (Err(BadRequest), docs)
    else match Selected(req, replies)
      case Err(e) => (Err(e), docs)
      case Ok(sel) =>
        var (imported, docs') := Reconcile(sel, ImportContext(req.courseId, CourseName(req, replies)), env, docs);
        (Ok(ImportReport(|imported|, imported)), docs')
  }

  /** The records the handler fetched one by one, collected as its first loop does. */
  method FetchEach(byId: seq<Option<Assignment>>) returns (fetched: seq<Assignment>)
    ensures fetched == Somes(byId)
  {
    fetched := [];
    var n := 0;
    while n < |byId|
      invariant 0 <= n <= |byId|
      invariant fetched == Somes(byId[..n])
    {
      assert byId[..n + 1][..n] == byId[..n];
      if byId[n].Some? {
        fetched := fetched + [byId[n].value];
      }
      n := n + 1;
    }
    assert byId[..n] == byId;
  }

  /** One turn of the handler's second loop: the k-th record looked up, built, saved or reported unsaved. */
  method ReconcileOne(a: Assignment, k: nat, ctx: ImportContext, env: ImportEnv, imported: seq<Task>, docs: seq<Task>)
    returns (imported': seq<Task>, docs': seq<Task>)
    ensures (imported', docs') == Step(a, k, OutcomeOf(a, k, ctx, env), env, imported, docs)
  {
    imported', docs' := imported, docs;
    if Truthy(a.name) {
      var existing := !env.findFails(k) && HasCanvasTask(docs, a.id);
      if !existing {
        var data := ImportedTask(a, ctx, env, env.newId(k));
        match Saved(a, k, ctx, env)
        case Some(doc) =>
          docs' := docs + [doc];
          imported' := imported + [doc];
        case None =>
          imported' := imported + [data];
      }
    }
  }

  /** The handler's second loop over the records to import. */
  method ReconcileEach(toImport: seq<Assignment>, ctx: ImportContext, env: ImportEnv, docs: seq<Task>)
    returns (imported: seq<Task>, docs': seq<Task>)
    ensures (imported, docs') == Reconcile(toImport, ctx, env, docs)
  {
    ghost var outs := Outcomes(toImport, ctx, env);
    imported := [];
    docs' := docs;
    var k := 0;
    while k < |toImport|
      invariant 0 <= k <= |toImport|
      invariant (imported, docs') == Fold(toImport[..k], outs[..k], env, docs)
    {
      assert toImport[..k + 1][..k] == toImport[..k];
      assert outs[..k + 1][..k] == outs[..k];
      assert outs[k] == OutcomeOf(toImport[k], k, ctx, env);
      imported, docs' := ReconcileOne(toImport[k], k, ctx, env, imported, docs');
      k := k + 1;
    }
    assert toImport[..k] == toImport && outs[..k] == outs;
  }

  /** POST /import as the handler runs it. */
  method Import(configured: bool, req: ImportRequest, replies: CanvasReplies, env: ImportEnv, docs: seq<Task>)
    returns (r: Result<ImportReport, HttpError>, docs': seq<Task>)
    ensures (r, docs') == ImportOutcome(configured, req, replies, env, docs)
  {
    if !configured {
      return Err(BadRequest), docs;
    }
    var toImport: seq<Assignment>;
    if |req.assignmentIds| > 0 {
      toImport := FetchEach(replies.byId);
    } else if Truthy(req.courseId) {
      if replies.courseAssignments.None? {
        return Err(ServerError), docs;
      }
      toImport := Filter(replies.courseAssignments.value, HasDueAt);
    } else {
      if replies.upcomingEvents.None? {
        return Err(ServerError), docs;
      }
      toImport := Filter(replies.upcomingEvents.value, IsAssignmentEvent);
    }

    var courseName := "";
    if Truthy(req.courseId) && replies.courseLookup.Some? {
      courseName := replies.courseLookup.value;
    }
    var imported;
    imported, docs' := ReconcileEach(toImport, ImportContext(req.courseId, courseName), env, docs);
    r := Ok(ImportReport(|imported|, imported));
  }

  // ---------------------------------------------------------------------------
  // Properties of the import

  /** What every reported entry looks like: it comes from a named record and carries the fixed fields. */
  predicate FromNamedRecord(t: Task, sel: seq<Assignment>) {
    && t.priority == Medium.Name() && t.status == Todo.Name() && t.source == Canvas.Name()
    && exists a :: a in sel && Truthy(a.name) && t.externalId == Some(a.id)
  }

  lemma DescribesPrefix(outs: seq<Option<Outcome>>, sel: seq<Assignment>, env: ImportEnv, n: nat)
    requires Describes(outs, sel, env) && n <= |sel|
    ensures Describes(outs[..n], sel[..n], env)
  {
    forall k | 0 <= k < n ensures Fits(outs[..n][k], sel[..n][k], k, env) {
      assert outs[..n][k] == outs[k] && sel[..n][k] == sel[k];
    }
  }

  /** The loop reports at most one entry per record and only appends to the collection, never more than it reports. */
  lemma {:induction false} FoldShape(sel: seq<Assignment>, outs: seq<Option<Outcome>>, env: ImportEnv, docs: seq<Task>)
    requires |outs| == |sel|
    ensures |Fold(sel, outs, env, docs).0| <= |sel|
    ensures |docs| <= |Fold(sel, outs, env, docs).1|
    ensures Fold(sel, outs, env, docs).1[..|docs|] == docs
    ensures |Fold(sel, outs, env, docs).1| - |docs| <= |Fold(sel, outs, env, docs).0|
  {
    if sel != [] {
      var n := |sel| - 1;
      FoldShape(sel[..n], outs[..n], env, docs);
      var r0 := Fold(sel[..n], outs[..n], env, docs);
      var r1 := Fold(sel, outs, env, docs);
      if r1.1 != r0.1 {
        assert r1.1 == r0.1 + [outs[n].value.entry];
        assert r1.1[..|docs|] == r0.1[..|docs|];
      }
    }
  }

  /**
   * The loop reports at most one entry per selected record, the collection only grows
   * at its end, and it gains no more documents than the response reports.
   */
  lemma ReconcileShape(sel: seq<Assignment>, ctx: ImportContext, env: ImportEnv, docs: seq<Task>)
    ensures |Reconcile(sel, ctx, env, docs).0| <= |sel|
    ensures |docs| <= |Reconcile(sel, ctx, env, docs).1|
    ensures Reconcile(sel, ctx, env, docs).1[..|docs|] == docs
    ensures |Reconcile(sel, ctx, env, docs).1| - |docs| <= |Reconcile(sel, ctx, env, docs).0|
  {
    FoldShape(sel, Outcomes(sel, ctx, env), env, docs);
  }

  lemma {:induction false} FoldEntries(sel: seq<Assignment>, outs: seq<Option<Outcome>>, env: ImportEnv, docs: seq<Task>)
    requires Describes(outs, sel, env)
    ensures forall t :: t in Fold(sel, outs, env, docs).0 ==> FromNamedRecord(t, sel)
  {
    if sel != [] {
      var n := |sel| - 1;
      DescribesPrefix(outs, sel, env, n);
      FoldEntries(sel[..n], outs[..n], env, docs);
      var imp0 := Fold(sel[..n], outs[..n], env, docs).0;
      forall t | t in imp0 ensures FromNamedRecord(t, sel) {
        var b :| b in sel[..n] && Truthy(b.name) && t.externalId == Some(b.id);
        assert b in sel;
      }
      assert Fits(outs[n], sel[n], n, env);
      if outs[n].Some? {
        assert FromNamedRecord(outs[n].value.entry, sel) by {
          assert sel[n] in sel;
        }
      }
    }
  }

  /**
   * Every reported entry comes from a named selected record and has medium priority,
   * status todo and source canvas.
   */
  lemma ReconcileEntries(sel: seq<Assignment>, ctx: ImportContext, env: ImportEnv, docs: seq<Task>)
    ensures forall t :: t in Reconcile(sel, ctx, env, docs).0 ==> FromNamedRecord(t, sel)
  {
    FoldEntries(sel, Outcomes(sel, ctx, env), env, docs);
  }

  /** Appending a canvas task whose id the collection does not hold keeps ids unique. */
  lemma AppendKeepsUnique(docs: seq<Task>, t: Task)
    requires UniqueCanvasIds(docs)
    requires t.externalId.Some? && !HasCanvasTask(docs, t.externalId.value)
    ensures UniqueCanvasIds(docs + [t])
  {
    var d := docs + [t];
    forall i, j | 0 <= i < j < |d| && IsCanvasTask(d[i]) && IsCanvasTask(d[j])
      ensures d[i].externalId != d[j].externalId
    {
      if j == |docs| {
        assert d[i] == docs[i];
      }
    }
  }

  lemma {:induction false} FoldKeepsCanvasIdsUnique(sel: seq<Assignment>, outs: seq<Option<Outcome>>,
                                                    env: ImportEnv, docs: seq<Task>)
    requires Describes(outs, sel, env)
    requires forall k :: 0 <= k < |sel| ==> !env.findFails(k)
    requires UniqueCanvasIds(docs)
    ensures UniqueCanvasIds(Fold(sel, outs, env, docs).1)
  {
    if sel != [] {
      var n := |sel| - 1;
      DescribesPrefix(outs, sel, env, n);
      FoldKeepsCanvasIdsUnique(sel[..n], outs[..n], env, docs);
      var d0 := Fold(sel[..n], outs[..n], env, docs).1;
      assert Fits(outs[n], sel[n], n, env);
      if outs[n].Some? && outs[n].value.stored && !HasCanvasTask(d0, sel[n].id) {
        AppendKeepsUnique(d0, outs[n].value.entry);
      }
    }
  }

  /**
   * Deduplication: as long as the existence lookups answer, the loop never stores a
   * second canvas task for an external id, including when the same id is selected twice.
   */
  lemma ReconcileKeepsCanvasIdsUnique(sel: seq<Assignment>, ctx: ImportContext, env: ImportEnv, docs: seq<Task>)
    requires forall k :: 0 <= k < |sel| ==> !env.findFails(k)
    requires UniqueCanvasIds(docs)
    ensures UniqueCanvasIds(Reconcile(sel, ctx, env, docs).1)
  {
    FoldKeepsCanvasIdsUnique(sel, Outcomes(sel, ctx, env), env, docs);
  }

  /** The collection only grows, so a task found once is found afterwards. */
  lemma HasCanvasTaskGrows(docs: seq<Task>, more: seq<Task>, x: string)
    requires HasCanvasTask(docs, x)
    ensures HasCanvasTask(docs + more, x)
  {
    var i :| 0 <= i < |docs| && docs[i].source == Canvas.Name() && docs[i].externalId == Some(x);
    assert (docs + more)[i] == docs[i];
  }

  /**
   * One turn with a lookup and a save that answer: an external id found before is
   * still found afterwards, and so is the id of a named record.
   */
  lemma StepStores(a: Assignment, k: nat, out: Option<Outcome>, env: ImportEnv,
                   imported: seq<Task>, docs: seq<Task>, x: string)
    requires Fits(out, a, k, env) && !env.findFails(k) && !env.saveFails(k)
    requires Truthy(a.name) ==> !AllWhitespace(a.name.value)
    requires HasCanvasTask(docs, x) || (x == a.id && Truthy(a.name))
    ensures HasCanvasTask(Step(a, k, out, env, imported, docs).1, x)
  {
    var d := Step(a, k, out, env, imported, docs).1;
    if d != docs {
      assert d == docs + [out.value.entry];
      if HasCanvasTask(docs, x) {
        HasCanvasTaskGrows(docs, [out.value.entry], x);
      } else {
        assert d[|docs|] == out.value.entry;
      }
    }
  }

  lemma {:induction false} FoldStoresEveryNamed(sel: seq<Assignment>, outs: seq<Option<Outcome>>,
                                                env: ImportEnv, docs: seq<Task>)
    requires Describes(outs, sel, env)
    requires forall k :: 0 <= k < |sel| ==> !env.findFails(k) && !env.saveFails(k)
    requires forall k :: 0 <= k < |sel| && Truthy(sel[k].name) ==> !AllWhitespace(sel[k].name.value)
    ensures forall k :: 0 <= k < |sel| && Truthy(sel[k].name) ==> HasCanvasTask(Fold(sel, outs, env, docs).1, sel[k].id)
  {
    if sel != [] {
      var n := |sel| - 1;
      DescribesPrefix(outs, sel, env, n);
      FoldStoresEveryNamed(sel[..n], outs[..n], env, docs);
      var r0 := Fold(sel[..n], outs[..n], env, docs);
      assert Fold(sel, outs, env, docs) == Step(sel[n], n, outs[n], env, r0.0, r0.1);
      forall k | 0 <= k < |sel| && Truthy(sel[k].name) ensures HasCanvasTask(Fold(sel, outs, env, docs).1, sel[k].id) {
        if k < n {
          assert sel[..n][k] == sel[k];
        }
        StepStores(sel[n], n, outs[n], env, r0.0, r0.1, sel[k].id);
      }
    }
  }

  /**
   * When every lookup and save succeeds and no name is blank, every named selected
   * record ends up in the collection as a canvas task.
   */
  lemma ReconcileStoresEveryNamed(sel: seq<Assignment>, ctx: ImportContext, env: ImportEnv, docs: seq<Task>)
    requires forall k :: 0 <= k < |sel| ==> !env.findFails(k) && !env.saveFails(k)
    requires forall a :: a in sel && Truthy(a.name) ==> !AllWhitespace(a.name.value)
    ensures forall a :: a in sel && Truthy(a.name) ==> HasCanvasTask(Reconcile(sel, ctx, env, docs).1, a.id)
  {
    FoldStoresEveryNamed(sel, Outcomes(sel, ctx, env), env, docs);
    forall a | a in sel && Truthy(a.name) ensures HasCanvasTask(Reconcile(sel, ctx, env, docs).1, a.id) {
      var k :| 0 <= k < |sel| && sel[k] == a;
    }
  }

  lemma {:induction false} FoldAlreadyImported(sel: seq<Assignment>, outs: seq<Option<Outcome>>,
                                               env: ImportEnv, docs: seq<Task>)
    requires Describes(outs, sel, env)
    requires forall k :: 0 <= k < |sel| ==> !env.findFails(k)
    requires forall a :: a in sel && Truthy(a.name) ==> HasCanvasTask(docs, a.id)
    ensures Fold(sel, outs, env, docs) == ([], docs)
  {
    if sel != [] {
      var n := |sel| - 1;
      DescribesPrefix(outs, sel, env, n);
      assert forall a :: a in sel[..n] ==> a in sel;
      FoldAlreadyImported(sel[..n], outs[..n], env, docs);
      assert Fits(outs[n], sel[n], n, env);
      assert sel[n] in sel;
    }
  }

  /**
   * Importing records that are all already imported reports nothing and stores
   * nothing, provided the lookups answer.
   */
  lemma ReconcileAlreadyImported(sel: seq<Assignment>, ctx: ImportContext, env: ImportEnv, docs: seq<Task>)
    requires forall k :: 0 <= k < |sel| ==> !env.findFails(k)
    requires forall a :: a in sel && Truthy(a.name) ==> HasCanvasTask(docs, a.id)
    ensures Reconcile(sel, ctx, env, docs) == ([], docs)
  {
    FoldAlreadyImported(sel, Outcomes(sel, ctx, env), env, docs);
  }

  /**
   * Importing the same selection twice: the second import reports no task and leaves
   * the collection as the first left it, where each named record has exactly one
   * canvas task.
   */
  lemma ImportTwice(req: ImportRequest, replies: CanvasReplies, first: ImportEnv, second: ImportEnv, docs: seq<Task>)
    requires Selected(req, replies).Ok?
    requires var sel := Selected(req, replies).value;
      && (forall k :: 0 <= k < |sel| ==> !first.findFails(k) && !first.saveFails(k) && !second.findFails(k))
      && (forall a :: a in sel && Truthy(a.name) ==> !AllWhitespace(a.name.value))
    requires UniqueCanvasIds(docs)
    ensures var (r1, d1) := ImportOutcome(true, req, replies, first, docs);
      var (r2, d2) := ImportOutcome(true, req, replies, second, d1);
      && r2 == Ok(ImportReport(0, []))
      && d2 == d1
      && UniqueCanvasIds(d1)
      && forall a :: a in Selected(req, replies).value && Truthy(a.name) ==> HasCanvasTask(d1, a.id)
  {
    var sel := Selected(req, replies).value;
    var ctx := ImportContext(req.courseId, CourseName(req, replies));
    ReconcileStoresEveryNamed(sel, ctx, first, docs);
    ReconcileKeepsCanvasIdsUnique(sel, ctx, first, docs);
    var d1 := Reconcile(sel, ctx, first, docs).1;
    ReconcileAlreadyImported(sel, ctx, second, d1);
  }

  /** When no lookup answers, nothing is taken for already imported: every named record is reported. */
  lemma {:induction false} FoldReportsEveryNamed(sel: seq<Assignment>, outs: seq<Option<Outcome>>,
                                                 env: ImportEnv, docs: seq<Task>)
    requires Describes(outs, sel, env)
    requires forall k :: 0 <= k < |sel| ==> env.findFails(k)
    ensures |Fold(sel, outs, env, docs).0| == |Filter(sel, (a: Assignment) => Truthy(a.name))|
  {
    if sel != [] {
      var n := |sel| - 1;
      DescribesPrefix(outs, sel, env, n);
      FoldReportsEveryNamed(sel[..n], outs[..n], env, docs);
      assert Fits(outs[n], sel[n], n, env);
      assert sel == sel[..n] + [sel[n]];
      FilterConcat(sel[..n], [sel[n]], (a: Assignment) => Truthy(a.name));
    }
  }

  /** When no save goes through, nothing is stored and no reported entry has a creation time. */
  lemma {:induction false} FoldWithoutDatabase(sel: seq<Assignment>, outs: seq<Option<Outcome>>,
                                               env: ImportEnv, docs: seq<Task>)
    requires Describes(outs, sel, env)
    requires forall k :: 0 <= k < |sel| ==> env.saveFails(k)
    ensures Fold(sel, outs, env, docs).1 == docs
    ensures forall i :: 0 <= i < |Fold(sel, outs, env, docs).0| ==> Fold(sel, outs, env, docs).0[i].createdAt.None?
  {
    if sel != [] {
      var n := |sel| - 1;
      DescribesPrefix(outs, sel, env, n);
      FoldWithoutDatabase(sel[..n], outs[..n], env, docs);
      var r0 := Fold(sel[..n], outs[..n], env, docs);
      var r1 := Fold(sel, outs, env, docs);
      assert Fits(outs[n], sel[n], n, env);
      assert r1.1 == r0.1;
      forall i | 0 <= i < |r1.0| ensures r1.0[i].createdAt.None? {
        if i < |r0.0| {
          assert r1.0[i] == r0.0[i];
        }
      }
    }
  }

  /**
   * Without a reachable database (every lookup and every save throws) the import
   * stores nothing and reports one unsaved entry for each named selected record.
   */
  lemma ImportWithoutDatabase(sel: seq<Assignment>, ctx: ImportContext, env: ImportEnv, docs: seq<Task>)
    requires forall k :: 0 <= k < |sel| ==> env.findFails(k) && env.saveFails(k)
    ensures var (imported, docs') := Reconcile(sel, ctx, env, docs);
      && docs' == docs
      && |imported| == |Filter(sel, (a: Assignment) => Truthy(a.name))|
      && forall t :: t in imported ==> t.createdAt.None?
  {
    FoldReportsEveryNamed(sel, Outcomes(sel, ctx, env), env, docs);
    FoldWithoutDatabase(sel, Outcomes(sel, ctx, env), env, docs);
    var imported := Reconcile(sel, ctx, env, docs).0;
    forall t | t in imported ensures t.createdAt.None? {
      var i :| 0 <= i < |imported| && imported[i] == t;
    }
  }

  /** The reported count is the number of reported tasks and never exceeds the selection. */
  lemma ImportCount(configured: bool, req: ImportRequest, replies: CanvasReplies, env: ImportEnv, docs: seq<Task>)
    ensures var (r, _) := ImportOutcome(configured, req, replies, env, docs);
      r.Ok? ==> && r.value.importedCount == |r.value.tasks|
                && r.value.importedCount <= |Selected(req, replies).value|
                && forall t :: t in r.value.tasks ==> FromNamedRecord(t, Selected(req, replies).value)
  {
    if configured && Selected(req, replies).Ok? {
      var ctx := ImportContext(req.courseId, CourseName(req, replies));
      ReconcileShape(Selected(req, replies).value, ctx, env, docs);
      ReconcileEntries(Selected(req, replies).value, ctx, env, docs);
    }
  }
}
