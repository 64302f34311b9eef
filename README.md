# Academic task tracker: a verified model of the core

The academic task tracker keeps a student's tasks (title, description, due date, time
slot, priority, status and provenance). An Express server stores them in MongoDB, or in a
module-level in-memory list when no database is reachable. The server also imports Canvas
assignments as tasks and pushes tasks to Google Calendar through an OAuth session it keeps
in memory. A React client shows the same list four ways: a dashboard, a kanban board, a
sorted list and a month calendar. It keeps its own copy of the list in step with the
server's replies and edits tasks through a modal form.

This project models that core in Dafny and proves properties of the model. There is one
module per source file, plus three shared modules:

- `Wrappers` and `Http` (common.dfy): `Option`, `Result` and the HTTP error responses.
- `Strings` (strings.dfy): JavaScript string behaviour the code relies on. This covers
  truthiness and `||` defaults, `trim`, string `<`/`>=`, `substring`, and number-to-string
  with `padStart`.
- `Seqs` (seqs.dfy): `filter`, `map`, and dropping failed replies.

The other modules, one per source file:

| Module | File | Source | Form |
|---|---|---|---|
| `TaskModel` | task_model.dfy | server/models/Task.js | The record, the enums and the schema's document construction (`Cast`), as functions. |
| `TaskStore` | task_store.dfy | server/routes/tasks.js | The in-memory branches, as the class `InMemoryStore` over a `seq<Task>` whose methods state the exact change to the list. |
| `CanvasImport` | canvas.dfy | server/routes/canvas.js | `/courses` and `/assignments` as functions. `POST /import` as methods with loops (`FetchEach`, `ReconcileEach` with its loop body `ReconcileOne`, `Import`), proved equal to a specification function (`Reconcile`). `Reconcile` folds one step per record over the records' outcomes (`Outcomes`), and the lemmas about the fold (`Fold…`) hold for any outcomes that fit the records. |
| `CalendarSync` | calendar_sync.dfy | server/routes/calendar.js | The token slot as the class `CalendarSession`; the event body and the listed-event view as functions. |
| `TaskViews` | task_views.dfy | shared by the client views | The stable comparator sort, the description preview, the checkbox rule and status selection. |
| `TaskList` | task_list.dfy | src/components/TaskList.jsx | The three-key order. |
| `Dashboard` | dashboard.dfy | src/components/Dashboard.jsx | Stats, upcoming, recent and quick-view counts. |
| `CalendarView` | calendar_view.dfy | src/components/CalendarView.jsx | The 42-cell grid as a method built from its three loops (`LeadingCells`, `MonthCells`, `TrailingCells`); the date key and per-day tasks as functions; the shown month as the class `MonthCursor`. |
| `KanbanBoard` | kanban_board.dfy | src/components/KanbanBoard.jsx | The columns as a function; the drag state as the class `DragState`. |
| `TaskModal` | task_modal.dfy | src/components/TaskModal.jsx | The form as a datatype; the dialog state as the class `TaskModalState`. |
| `App` | app.dfy | src/App.jsx | The list updates as functions; the shell state as the class `AppState`. |

Things the code does outside the model are inputs:

- Replies from Canvas and Google, and from the client's fetches (`None` when the request
  throws).
- Whether a database lookup or save throws.
- Generated ids.
- Results of date arithmetic: `today`, the weekday of the first of a month, month
  lengths, the event end time, and the due date and time split from a Canvas timestamp.

## Import behaviour worth noting

- **Unnamed records.** `POST /import` skips every record without a name, whatever path
  selected it, including records fetched one by one by id (server/routes/canvas.js:176).
  See `CanvasImport.Reconcile` and `CanvasImport.ReconcileEntries`.
- **Due timestamps.** Only the course path requires a `due_at`
  (server/routes/canvas.js:153). Upcoming events are listed and imported with or without
  one (server/routes/canvas.js:159). See `CanvasImport.Selected`.
- **Course name.** An imported task takes the assignment's `context_name` first, then the
  looked-up course name, then "" (server/routes/canvas.js:208). See
  `CanvasImport.ImportedTask`.

## Model

| member | source | states |
|---|---|---|
| Strings.TrimStart | server/models/Task.js:7 | Dropping leading whitespace leaves a suffix that is empty or starts with a non-whitespace character, and everything dropped is whitespace. |
| Strings.TrimEnd | server/models/Task.js:7 | Dropping trailing whitespace leaves a prefix that is empty or ends with a non-whitespace character, and everything dropped is whitespace. |
| Strings.Trim | server/models/Task.js:7 | A trimmed title is never longer than the title and neither starts nor ends with whitespace. It is empty iff the title is all whitespace. |
| Strings.TrimIdempotent | server/models/Task.js:7 | Trimming a trimmed title changes nothing. |
| Strings.NatToString | src/components/CalendarView.jsx:41 | `String(n)` is a non-empty string of digits, a single digit exactly when n < 10. |
| Strings.DigitChar | src/components/CalendarView.jsx:41 | The digit character of d < 10 is a decimal digit that reads back as d. |
| Strings.NatToStringRoundTrip | src/components/CalendarView.jsx:41 | Reading the digits of `String(n)` back gives n. |
| Strings.Pad2RoundTrip | src/components/CalendarView.jsx:41 | For n < 100, `String(n).padStart(2, '0')` has exactly two digits, whose value is n. |
| Strings.Pad2Chars | src/components/CalendarView.jsx:41 | The two-digit form of n < 100 is a leading '0' and the digit of n when n < 10. Otherwise it is the tens digit and the units digit. |
| TaskModel.ParsePriority | server/models/Task.js:21-25 | The priority enum: exactly "low", "medium" and "high" parse, each back to the value named by it. |
| TaskModel.ParseStatus | server/models/Task.js:26-30 | The status enum: exactly "todo", "progress" and "done" parse, each back to its value. |
| TaskModel.ParseSource | server/models/Task.js:32-36 | The source enum: exactly "manual", "canvas" and "calendar" parse, each back to its value. |
| TaskModel.Cast | server/models/Task.js:3-58 | Building a document succeeds iff the title is present and not blank and every present enum field holds one of its values. The document then conforms to the schema and has the trimmed title. Absent fields take their defaults ('' for the texts, medium, todo, manual). The integration ids are kept (null when absent), and both timestamps are set. |
| TaskModel.SchemaDefaults | server/models/Task.js:9-55 | A document built from a title alone has '' description, due date and time slot; medium priority, todo status, manual source; and null external and integration ids. |
| TaskModel.BlankTitleRejected | server/models/Task.js:4-8 | A missing or whitespace-only title is rejected with "title required", whatever the other fields hold. |
| TaskModel.CastAcceptsConforming | server/models/Task.js:3-58 | A conforming task is a fixed point of the schema, apart from the timestamps. |
| TaskModel.CastIdempotent | server/models/Task.js:3-58 | Re-building a built document gives the same document. |
| TaskStore.FindIndex | server/routes/tasks.js:149-151 | `findIndex` gives -1 iff no task has the id. Otherwise it gives the first position holding it. |
| TaskStore.RemoveAt | server/routes/tasks.js:181 | `splice(i, 1)` shortens the list by one. The entries before i stay put, and those after shift down by one. |
| TaskStore.NewTask | server/routes/tasks.js:115-125 | The created record keeps every truthy body field as sent, with no enum check. Each falsy field takes its default. It carries the fresh id and the creation time, and no integration ids. |
| TaskStore.Merge | server/routes/tasks.js:153-158 | An update overlays exactly the fields the body carries. It keeps the stored id whatever id the body names, and stamps the update time. |
| TaskStore.InMemoryStore.constructor | server/routes/tasks.js:8 | The store starts with a seed list of distinct ids. |
| TaskStore.InMemoryStore.List | server/routes/tasks.js:62-64 | Listing returns the store as it is. |
| TaskStore.InMemoryStore.Get | server/routes/tasks.js:80-85 | A lookup is 404 iff the id is absent. Otherwise it returns the first task with that id. |
| TaskStore.InMemoryStore.Create | server/routes/tasks.js:98-127 | A falsy title is 400 and the store is unchanged. Otherwise exactly the new record is appended at the end and returned, and ids stay distinct. |
| TaskStore.InMemoryStore.Update | server/routes/tasks.js:148-160 | An absent id is 404 and the store is unchanged. Otherwise the first matching entry is replaced in place by the merge, all other entries are unchanged, and ids stay distinct. |
| TaskStore.InMemoryStore.Delete | server/routes/tasks.js:176-183 | An absent id is 404 and the store is unchanged. Otherwise exactly the first matching entry is spliced out. |
| TaskStore.GetAfterCreate | server/routes/tasks.js:115-127 | After a create, looking up the fresh id finds the new last entry. |
| TaskStore.CreateKeepsIdsDistinct | server/routes/tasks.js:116-126 | Appending a task with a fresh id keeps ids distinct. |
| TaskStore.GetAfterDelete | server/routes/tasks.js:177-181 | After a delete the id is no longer found, and the remaining ids stay distinct. |
| TaskStore.UpdateKeepsIdsDistinct | server/routes/tasks.js:153-159 | An update never changes any entry's id, so ids stay distinct. |
| TaskStore.StatusOnlyUpdate | server/routes/tasks.js:153-158 | A body carrying only a status (and possibly an id) changes only the status and the update time. |
| TaskStore.MergeIdempotent | server/routes/tasks.js:153-158 | Applying the same update twice equals applying it once. |
| TaskStore.CreateAgreesWithSchema | server/routes/tasks.js:102-125 | With a trimmed title and enum fields that are empty or in range, the in-memory record conforms to the schema, and the schema would store it unchanged apart from the update time. |
| TaskStore.CreateSkipsEnumCheck | server/routes/tasks.js:115-125 | An out-of-range priority is stored as sent on the in-memory path, although the schema rejects it. |
| TaskStore.TaskLifecycle | server/routes/tasks.js:94-188 | Create, get, status update, delete and get again on one fresh id: each reply is as stated, and the store ends as it began. |
| CanvasImport.ListCourses | server/routes/canvas.js:39-70 | 400 when not configured and 500 when Canvas fails. Otherwise exactly the named courses are listed, each as its summary. |
| CanvasImport.Views | server/routes/canvas.js:103-115 | Exactly the records with a name and a due timestamp are listed, each mapped to its view with a non-empty title and due date. |
| CanvasImport.WithCourse | server/routes/canvas.js:94 | Every record of a course listing is stamped with the requested course id, and nothing else changes. |
| CanvasImport.ListAssignments | server/routes/canvas.js:74-121 | 400 when not configured. With a course id, the course's records are stamped and listed. Without one, the assignment-typed upcoming events are listed. 500 when the request fails. Every entry has a title and a due date. |
| CanvasImport.StripTags | server/routes/canvas.js:199 | Removing `<…>` runs leaves no '<' followed later by '>'. The result is never longer and uses only characters of the input, and text without '<' is unchanged. |
| CanvasImport.StripTagsCons | server/routes/canvas.js:199 | A character other than '<' is kept, in front of what the rest becomes. |
| CanvasImport.StripTagsTag | server/routes/canvas.js:199 | A '<', the text up to the first '>' after it, and that '>' are removed together. |
| CanvasImport.Excerpt | server/routes/canvas.js:198-200 | The imported description is '' when absent, else the first 500 characters of the stripped text. It is at most 500 characters and holds no tag. |
| CanvasImport.Selected | server/routes/canvas.js:136-160 | Selection priority: with ids, exactly the successful fetches. Else with a course id, exactly the course's records with a due timestamp. Else exactly the assignment-typed upcoming events. A failed listing is 500. |
| CanvasImport.ImportedTask | server/routes/canvas.js:196-208 | A record becomes a task with its name as title, the excerpt as description, medium priority, todo status and canvas source. The external id is the record id. The course id is record, then request, then ''. The course name is context name, then the looked-up name. |
| CanvasImport.Saved | server/routes/canvas.js:211-215 | A document is stored iff the save does not throw and the name is not blank (the schema rejects a whitespace-only title). It is a canvas document under the record's id. |
| CanvasImport.Reported | server/routes/canvas.js:211-219 | Every reported entry is a medium, todo canvas task under the record's id. When the save fails it is the unsaved mapped task with a generated id. |
| CanvasImport.OutcomeOf | server/routes/canvas.js:175-219 | A record yields an outcome iff it has a name. The entry is a medium, todo canvas task under the record's id. A throwing save stores nothing and reports a task with no creation time. A save that goes through, of a non-blank name, stores the entry. |
| CanvasImport.FetchEach | server/routes/canvas.js:140-147 | The by-id loop collects exactly the fetches that succeeded, in order, skipping failures without aborting. |
| CanvasImport.ReconcileOne | server/routes/canvas.js:175-219 | One turn of the import loop gives exactly `Step` on the record's outcome: an unnamed or already imported record changes nothing; any other is reported, and appended to the collection when its save stored it. |
| CanvasImport.ReconcileEach | server/routes/canvas.js:173-220 | The import loop computes exactly the reported entries and the grown collection that `Reconcile` specifies. |
| CanvasImport.Import | server/routes/canvas.js:125-232 | The whole handler gives exactly the response and collection `ImportOutcome` specifies: 400 when not configured, 500 when selection fails, else the report of the loop. |
| CanvasImport.ReconcileShape | server/routes/canvas.js:173-220 | The loop reports at most one entry per selected record and only appends to the collection, by at most as many documents as it reports. |
| CanvasImport.FoldShape | server/routes/canvas.js:173-220 | Over any outcomes, the loop reports at most one entry per record, keeps the collection as a prefix, and grows it by no more than it reports. |
| CanvasImport.ReconcileEntries | server/routes/canvas.js:175-176 | Every reported entry comes from a selected record that has a name. |
| CanvasImport.FoldEntries | server/routes/canvas.js:175-176 | Over outcomes that fit the records, every reported entry carries the id of a selected named record. |
| CanvasImport.AppendKeepsUnique | server/routes/canvas.js:186-194 | Adding a canvas task whose external id is not yet present keeps canvas external ids unique. |
| CanvasImport.ReconcileKeepsCanvasIdsUnique | server/routes/canvas.js:185-215 | When the lookups do not throw, the import never stores a second canvas task under one external id. |
| CanvasImport.FoldKeepsCanvasIdsUnique | server/routes/canvas.js:185-215 | Over outcomes that fit the records, with lookups that answer, canvas external ids stay unique in the collection. |
| CanvasImport.ReconcileStoresEveryNamed | server/routes/canvas.js:175-215 | When lookups and saves go through, every selected named record has a canvas task in the collection afterwards. |
| CanvasImport.StepStores | server/routes/canvas.js:185-215 | A turn whose lookup and save answer keeps every canvas id already present, and adds the id of a named record. |
| CanvasImport.FoldStoresEveryNamed | server/routes/canvas.js:175-215 | Over outcomes that fit the records, with lookups and saves that answer, every named record with a non-blank name has a canvas task in the collection afterwards. |
| CanvasImport.ReconcileAlreadyImported | server/routes/canvas.js:185-194 | Records all already imported are all skipped: nothing is reported or stored. |
| CanvasImport.FoldAlreadyImported | server/routes/canvas.js:185-194 | Over outcomes that fit the records, with lookups that answer, records all already imported leave nothing reported and the collection unchanged. |
| CanvasImport.ImportTwice | server/routes/canvas.js:185-194 | Importing the same selection twice stores each named record exactly once. The second import reports 0 tasks and changes nothing. |
| CanvasImport.FoldReportsEveryNamed | server/routes/canvas.js:175-219 | When every lookup throws, one entry is reported per named record. |
| CanvasImport.FoldWithoutDatabase | server/routes/canvas.js:211-219 | When every save throws, the collection is unchanged and no reported entry has a creation time. |
| CanvasImport.ImportWithoutDatabase | server/routes/canvas.js:186-219 | When every lookup and save throws, nothing is stored, yet one unsaved entry is reported per named record. |
| CanvasImport.ImportCount | server/routes/canvas.js:222-226 | The reported count equals the number of returned tasks, which is at most the number selected. Each task comes from a named selected record. |
| CalendarSync.BuildEvent | server/routes/calendar.js:152-172 | The summary is the book emoji and a space, then the title. The description is the one sent when truthy, else the fixed note. With a time slot, the start is `<dueDate>T<slot>:00` in America/New_York and the end is the given time. Without one, the event is all-day on the due date. |
| CalendarSync.ToEventView | server/routes/calendar.js:113-120 | A listed event is all-day iff it has no start time. Its start is the start date-time, else the start date, and its end is the end date-time, else the end date. Its description is the one given when truthy, else ''. |
| CalendarSync.SyncedEventListed | server/routes/calendar.js:113-172 | A synced task listed back has the prefixed title and the sent description. It is all-day iff the task had no time slot, and its start and end are as sent. |
| CalendarSync.CalendarSession.constructor | server/routes/calendar.js:7 | The session starts disconnected. |
| CalendarSync.CalendarSession.Status | server/routes/calendar.js:19-21 | Connected iff tokens are set. Configured iff both client id and secret are set. |
| CalendarSync.CalendarSession.Auth | server/routes/calendar.js:35-52 | 400 iff not configured. Otherwise an offline, consent-prompting request for the two calendar scopes. |
| CalendarSync.CalendarSession.Callback | server/routes/calendar.js:58-80 | An error or a missing code fails and leaves the tokens as they were. A successful exchange stores the new tokens and connects, and a failed one keeps the old tokens. |
| CalendarSync.CalendarSession.Disconnect | server/routes/calendar.js:84-86 | The tokens are always cleared, and configuration is unaffected. |
| CalendarSync.CalendarSession.Events | server/routes/calendar.js:90-130 | 401 without tokens. An upstream 401 clears the tokens and answers 401. Any other failure answers 500 and keeps them. Otherwise every listed event is mapped in order. |
| CalendarSync.CalendarSession.SyncTask | server/routes/calendar.js:134-183 | 401 without tokens, before any field check. 400 without a title or due date. Otherwise the built event is sent, and the reply is its id, or 500. The session never changes. |
| TaskViews.KeyLeTotal | src/components/TaskList.jsx:2-15 | Any two tasks are comparable under the three-part key. |
| TaskViews.KeyLeTransitive | src/components/TaskList.jsx:2-15 | The three-part key order is transitive. |
| TaskViews.Insert | src/components/TaskList.jsx:2 | Inserting into a sorted list keeps it sorted and adds exactly one element. |
| TaskViews.SortBy | src/components/TaskList.jsx:2-15 | Sorting a copy gives a permutation of the input, ordered by the key. |
| TaskViews.SortBySorted | src/components/TaskList.jsx:2-15 | The sort is stable on ordered input: a list already in order is returned unchanged. |
| TaskViews.Preview | src/components/TaskList.jsx:55 | A preview is the text itself when it fits in n characters. Otherwise it is its first n characters followed by "...". |
| TaskViews.DescriptionLine | src/components/KanbanBoard.jsx:76-80 | A description line is shown iff the description is non-empty, with the preview rule applied. The list uses 80 characters (src/components/TaskList.jsx:53-57) and the board 60. |
| TaskViews.ToggledStatus | src/components/TaskList.jsx:36-38 | A checkbox click always changes the status. A done task goes to todo, and any other task to done. |
| TaskViews.CheckboxUpdate | src/components/Dashboard.jsx:64-66 | The update sent by a checkbox names the task and asks for done iff the task is not done. |
| TaskViews.ToggleTwice | src/components/TaskList.jsx:36-38 | For done and todo tasks, two clicks restore the status. |
| TaskViews.WithStatus | src/components/KanbanBoard.jsx:48 | Selecting a status keeps exactly the tasks with that status. |
| TaskViews.TwoStatusesBounded | src/components/Dashboard.jsx:7-8 | Two different status counts never exceed the total together. |
| TaskViews.StatusPartition | src/components/Dashboard.jsx:108-128 | When every status is todo, progress or done, the three status counts sum to the total. |
| TaskList.SortedTasks | src/components/TaskList.jsx:2-15 | The list is a permutation of the input. It is ordered todo, progress, done, then high, medium, low within a status, then by due date within both. |
| TaskList.SortedTasksKeepsOrdered | src/components/TaskList.jsx:2-15 | A list already in that order is shown as it is. |
| Dashboard.DueTasks | src/components/Dashboard.jsx:6 | Exactly the tasks whose due date equals the day, never more than there are. |
| Dashboard.DashboardStats | src/components/Dashboard.jsx:4-9 | The total is the task count. Due-today counts the tasks due on today. The in-progress and completed counts are those of their statuses. None of them exceeds the total. |
| Dashboard.DueTodayCounts | src/components/Dashboard.jsx:6 | Due-today is 0 for no tasks, and one more task raises it by one exactly when that task is due today. |
| Dashboard.UpcomingCandidates | src/components/Dashboard.jsx:12 | Exactly the tasks that are not done and are due today or later. |
| Dashboard.Upcoming | src/components/Dashboard.jsx:11-14 | At most 5 tasks, as many as are pending with a due date no earlier than today. They are drawn from those tasks, none more often than it occurs there, and sorted by due date. Any such task left out is due no earlier than those shown. |
| Dashboard.EarliestFirst | src/components/Dashboard.jsx:13-14 | Cutting a date-sorted list keeps the earliest entries. |
| Dashboard.UndatedNeverUpcoming | src/components/Dashboard.jsx:12 | A task with an empty due date never appears in upcoming. |
| Dashboard.Recent | src/components/Dashboard.jsx:16-18 | The first three (or fewer) non-done tasks, in input order. |
| Dashboard.RecentIgnoresLaterTasks | src/components/Dashboard.jsx:16-18 | Tasks appended after three pending ones do not change the recent list. |
| Dashboard.QuickView | src/components/Dashboard.jsx:108-128 | The three quick-view counts are those of their statuses. They sum to the total when every status is known. |
| CalendarView.DateKeyLayout | src/components/CalendarView.jsx:41 | The day key is the year, '-', the two-digit month, '-', the two-digit day. |
| CalendarView.DateKeyInjective | src/components/CalendarView.jsx:41 | Different days of a year have different keys. |
| CalendarView.LeadingCells | src/components/CalendarView.jsx:49-55 | The first loop yields one cell per weekday before the first, counting up to the previous month's last day, none of them in the shown month. |
| CalendarView.MonthCells | src/components/CalendarView.jsx:57-65 | The second loop yields the month's days 1 to n in order, each flagged as in the month, flagged today when it is, and carrying its tasks. |
| CalendarView.TrailingCells | src/components/CalendarView.jsx:67-74 | The third loop yields the days 1, 2, … up to the remaining count, and none when it is not positive. |
| CalendarView.TasksForDay | src/components/CalendarView.jsx:40-43 | Exactly the tasks due on that day of the shown month (month + 1 in the key). |
| CalendarView.TasksForDayOrder | src/components/CalendarView.jsx:40-43 | The day's tasks keep the list order: those of a list's first part come before those of its second part. |
| CalendarView.DaysShareNoTasks | src/components/CalendarView.jsx:40-43 | No task is listed under two different days of the shown month. |
| CalendarView.CalendarDays | src/components/CalendarView.jsx:45-74 | The grid has 42 cells whenever the month fits. Leading cells count up to the previous month's last day. Then come the month's days in order, with today flagged and their tasks. Trailing cells count 1, 2, … to the end. |
| CalendarView.DayCell | src/components/CalendarView.jsx:126-143 | A cell shows the first three tasks at most. "+n more" appears iff there are more than three, and the shown tasks plus n are all of the day's tasks. |
| CalendarView.MonthBefore | src/components/CalendarView.jsx:21-23 | The previous month is one month earlier, rolling back a year from January. |
| CalendarView.MonthAfter | src/components/CalendarView.jsx:25-27 | The next month is one month later, rolling forward a year from December. |
| CalendarView.MonthStepsInverse | src/components/CalendarView.jsx:21-27 | Back then forward, or forward then back, returns to the same month. |
| CalendarView.MonthCursor.constructor | src/components/CalendarView.jsx:4 | The page opens on today. |
| CalendarView.MonthCursor.PrevMonth | src/components/CalendarView.jsx:21-23 | The arrow back moves to the first of the previous month. |
| CalendarView.MonthCursor.NextMonth | src/components/CalendarView.jsx:25-27 | The arrow forward moves to the first of the next month. |
| CalendarView.MonthCursor.GoToToday | src/components/CalendarView.jsx:29-31 | The Today button returns to today. |
| KanbanBoard.Board | src/components/KanbanBoard.jsx:47-62 | Three columns todo, progress, done, each holding exactly the tasks of its status in order. A task is in a column iff it has that status, and with known statuses the counts sum to the total. |
| KanbanBoard.DropUpdate | src/components/KanbanBoard.jsx:22-28 | A drop asks for an update iff a task is dragged and its status differs from the column's. The update names that task and the column's status. |
| KanbanBoard.DropMovesCard | src/components/KanbanBoard.jsx:24-26 | Once the update is applied, the card is in the target column and in no other. Its old version is gone, and every other card is unchanged. |
| KanbanBoard.DragState.constructor | src/components/KanbanBoard.jsx:4 | Nothing is dragged at first. |
| KanbanBoard.DragState.DragStart | src/components/KanbanBoard.jsx:12-15 | Drag start records the dragged task. |
| KanbanBoard.DragState.Drop | src/components/KanbanBoard.jsx:22-28 | A drop sends the update the drop rule gives, and clears the dragged task. |
| KanbanBoard.DragState.DragEnd | src/components/KanbanBoard.jsx:30-32 | Drag end clears the dragged task. |
| TaskModal.WithField | src/components/TaskModal.jsx:26-29 | A change sets the named field and leaves every other field as it was. |
| TaskModal.WithFieldLaws | src/components/TaskModal.jsx:26-29 | Re-entering a field's value changes nothing, and a later change to a field overrides an earlier one. |
| TaskModal.FormFrom | src/components/TaskModal.jsx:13-24 | Editing fills the form from the task. An empty priority or status falls back to medium or todo. |
| TaskModal.FormFromTask | src/components/TaskModal.jsx:4-24 | A task with priority and status set is shown as it is. A task with no field set opens like the blank form. |
| TaskModal.TaskModalState.constructor | src/components/TaskModal.jsx:4-24 | The dialog opens on the edited task's fields, or on the blank form with medium priority and todo status. |
| TaskModal.TaskModalState.OnTaskChanged | src/components/TaskModal.jsx:13-24 | A new task refills the form. No task leaves the form as it is. |
| TaskModal.TaskModalState.HandleChange | src/components/TaskModal.jsx:26-29 | An input event changes only the named field. |
| TaskModal.TaskModalState.HandleSubmit | src/components/TaskModal.jsx:31-35 | Submit hands on the form iff the title is not all whitespace, and then hands it on unchanged with the title untrimmed. |
| App.SubmittedFormIsCreated | src/components/TaskModal.jsx:31-35 | A form passing the submit guard is accepted by the server's create. The task keeps the untrimmed title and the form's fields, and is a manual task. |
| App.UnchangedEditKeepsTask | src/App.jsx:80-86 | Saving an edit form unchanged leaves the server's task as it was, apart from the update time. |
| App.ReplaceById | src/App.jsx:53 | The length is kept. Every entry with the id becomes the returned task, and all others are kept. |
| App.RemoveById | src/App.jsx:64 | Exactly the entries without the id are kept. |
| App.ReplaceByIdMatchesStore | src/App.jsx:53 | With distinct ids, the client's replace equals the server's in-place overwrite of the matching entry. |
| App.ReplaceByIdAbsent | src/App.jsx:53 | Replacing an absent id changes nothing. |
| App.RemoveByIdMatchesStore | src/App.jsx:64 | With distinct ids, the client's filter equals the server's splice of the matching entry. |
| App.RemoveByIdAbsent | src/App.jsx:64 | Removing an absent id changes nothing. |
| App.AppState.constructor | src/App.jsx:11-13 | The shell starts with no tasks, the dialog closed, and nothing edited. |
| App.AppState.FetchTasks | src/App.jsx:20-28 | The list becomes the server's reply. A failed request keeps it. |
| App.AppState.AddTask | src/App.jsx:30-43 | A created task is appended at the end and the dialog closes. A failure changes nothing. |
| App.AppState.UpdateTask | src/App.jsx:45-59 | Entries with the id become the returned task, the dialog closes and nothing is edited. A failure changes nothing. |
| App.AppState.DeleteTask | src/App.jsx:61-68 | A delivered delete drops every entry with the id. |
| App.AppState.OpenAddModal | src/App.jsx:70-73 | Opening for add clears the edited task and opens the dialog. |
| App.AppState.OpenEditModal | src/App.jsx:75-78 | Opening for edit sets the edited task and opens the dialog. |
| App.AppState.CloseModal | src/App.jsx:135-138 | Closing closes the dialog and clears the edited task. |
| App.AppState.OverlayClick | src/components/TaskModal.jsx:37-41 | A backdrop click closes the dialog only when it lands on the backdrop itself. |
| App.AppState.HandleSaveTask | src/App.jsx:80-86 | Saving sends a PUT to the edited task when there is one, and otherwise a POST. The reply is applied as update or add. |
| App.CreatedFromForm | src/components/TaskModal.jsx:31-35 | The create body of a form with a non-empty title is accepted. The created task reads back every form field, with the defaults for empty priority and status, and is a manual task. |
| App.MirrorCreate | src/App.jsx:30-43 | After a create with a truthy title answered by the in-memory store, the client's list equals the store's and holds the fresh id. |
| App.MirrorUpdate | src/App.jsx:45-59 | After an update of any id answered by the in-memory store, the client's list equals the store's. |
| App.MirrorDelete | src/App.jsx:61-68 | After a delete of any id reaches the in-memory store, the client's list equals the store's, whether the store answered 200 or 404. |
| App.MirrorsStore | src/App.jsx:30-68 | Through a create from a form that passes the submit guard, a save of it from the edit dialog and its delete, the client's list stays equal to the store's. |

## Left out

- The MongoDB branches of every task route, the connection probe and server/db.js go
  through the driver. Only the in-memory store is modelled. The Canvas import's
  collection is a value passed in and returned, and its lookups and saves are inputs.
- All HTTP calls to Canvas and Google, including the OAuth token exchange, event
  listing and insertion, are replies taken as inputs. `encodeURIComponent` of the
  callback reason is not modelled.
- Date and time arithmetic is given as inputs:
  - the due date and time slot split from a Canvas timestamp;
  - the one-hour event end;
  - the 30-day events window;
  - `today`;
  - the weekday of the first and the month lengths.

  These inputs are always defined. In the code, an invalid `due_at`
  (server/routes/canvas.js:178-183) or an invalid due date or time slot
  (server/routes/calendar.js:155-157) makes `toISOString()` throw. The sync route then
  answers 500 before inserting the event. The import route also answers 500
  (server/routes/canvas.js:227-230), but the records handled before the bad one stay
  saved (server/routes/canvas.js:211-215); this partial import is not modelled.
- Ids come from `uuidv4` and Mongo. The import uses one generated id per record both for
  the saved document and for the failed-save entry (the code draws a new uuid in the
  failure branch).
- The seed tasks of the in-memory store are not modelled: the store starts from any
  list with distinct ids.
- Rendering, styling, the integrations panel, the sidebar and the server wiring are not
  modelled.
- Concurrency is not modelled: async interleaving of requests over the shared list and
  the token slot. The model is sequential.
- JSON values other than strings, explicit `null` in request bodies, error messages and
  the points/submission/url fields of assignment views are not modelled.
- `TaskList.SortedTasks` orders due dates as strings. This agrees with the code's
  `new Date(a) - new Date(b)` only for non-empty `YYYY-MM-DD` dates. The code's NaN
  comparison for empty dates makes that comparator inconsistent. A status or priority
  outside the enums is ranked last, where the code compares `undefined` (NaN).
- `Dashboard.Upcoming`: the code sorts with `new Date(...)` differences. The model sorts
  by string order, which agrees for `YYYY-MM-DD` dates.
- `CanvasImport.ReconcileShape` bounds how many documents the loop stores by how many
  entries it reports. It does not state that each stored document is one of the
  reported entries, although the code does store them that way.
- Strings are sequences of code points, whereas JavaScript lengths and `substring` count
  UTF-16 units. The 500-, 80- and 60-character cuts differ for text outside the Basic
  Multilingual Plane.
- The client stores whatever JSON a non-2xx reply carries (an error object) as a task.
  The model takes a reply to be a task or a failure.
- App.MirrorCreate and App.MirrorsStore: the client list mirrors the store only for
  creates the server accepts: a truthy title, which the form's submit guard ensures. For a
  falsy title the server answers 400, and the client appends the error object, so its list
  differs from the store's.
- The Canvas duplicate check only sees documents in the database collection, not tasks
  in the in-memory store. The model follows this.
