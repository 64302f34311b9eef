/**
 * The dashboard: four counters, the next five pending tasks by due date, the first
 * three pending tasks, and a count per status. `today` is the current date as
 * YYYY-MM-DD.
 */
module Dashboard {
  import opened Strings
  import opened Seqs
  import opened TaskModel
  import opened TaskViews

  datatype Stats = Stats(total: nat, dueToday: nat, inProgress: nat, completed: nat)

  predicate DueOn(t: Task, day: string) {
    t.dueDate == day
  }

  /** The tasks due on `day` (`dueDate === day`), in input order. */
  function DueTasks(tasks: seq<Task>, day: string): (r: seq<Task>)
    ensures |r| <= |tasks|
    ensures forall t :: t in r <==> t in tasks && t.dueDate == day
  {
    Filter(tasks, (t: Task) => DueOn(t, day))
  }

  /** The four counters: all tasks, those due today, those in progress, those done. */
  function DashboardStats(tasks: seq<Task>, today: string): (s: Stats)
    ensures s.total == |tasks|
    ensures s.dueToday == |DueTasks(tasks, today)| && s.dueToday <= s.total
    ensures s.inProgress == |WithStatus(tasks, Progress.Name())|
    ensures s.completed == |WithStatus(tasks, Done.Name())|
    ensures s.inProgress + s.completed <= s.total
  {
    TwoStatusesBounded(tasks, Progress.Name(), Done.Name());
    Stats(|tasks|, |DueTasks(tasks, today)|,
          |WithStatus(tasks, Progress.Name())|, |WithStatus(tasks, Done.Name())|)
  }

  /** Due today counts tasks one by one: none for no tasks, and one more exactly for each task due today. */
  lemma DueTodayCounts(tasks: seq<Task>, t: Task, today: string)
    ensures DashboardStats([], today).dueToday == 0
    ensures DashboardStats(tasks + [t], today).dueToday ==
      DashboardStats(tasks, today).dueToday + (if t.dueDate == today then 1 else 0)
  {
    FilterConcat(tasks, [t], (t: Task) => DueOn(t, today));
    assert [t][1..] == [];
  }

  predicate Pending(t: Task) {
    t.status != Done.Name()
  }

  /** Not done and due today or later (compared as strings, `t.dueDate >= today`). */
  predicate IsUpcoming(t: Task, today: string) {
    Pending(t) && LexLe(today, t.dueDate)
  }

  function DueKey(t: Task): SortKey {
    SortKey(0, 0, t.dueDate)
  }

  function Min(a: nat, b: nat): nat {
    if a <= b then a else b
  }

  /** The tasks the upcoming list is drawn from: pending and due today or later, in input order. */
  function UpcomingCandidates(tasks: seq<Task>, today: string): (r: seq<Task>)
    ensures |r| <= |tasks|
    ensures forall t :: t in r <==> t in tasks && IsUpcoming(t, today)
  {
    Filter(tasks, (t: Task) => IsUpcoming(t, today))
  }

  /**
   * The upcoming list: at most five pending tasks due today or later, taken from the
   * input with no task repeated more often than there, in due-date order, and they
   * are the earliest such: any upcoming task left out is due no earlier than every
   * one shown.
   */
  function Upcoming(tasks: seq<Task>, today: string): (r: seq<Task>)
    ensures |r| == Min(5, |UpcomingCandidates(tasks, today)|)
    ensures forall t :: t in r ==> t in tasks && IsUpcoming(t, today)
    ensures multiset(r) <= multiset(UpcomingCandidates(tasks, today))
    ensures forall i, j :: 0 <= i < j < |r| ==> LexLe(r[i].dueDate, r[j].dueDate)
    ensures forall t :: t in tasks && IsUpcoming(t, today) && t !in r ==>
      forall i :: 0 <= i < |r| ==> LexLe(r[i].dueDate, t.dueDate)
  {
    var candidates := UpcomingCandidates(tasks, today);
    var sorted := SortBy(candidates, DueKey);
    PrefixOfPermutation(sorted, candidates, 5);
    PrefixByDate(sorted, 5);
    EarliestFirst(sorted, 5);
    Prefix(sorted, 5)
  }

  /** The first `n` of a rearrangement of `s` are at most `n` elements drawn from `s`, none more often than there. */
  lemma PrefixOfPermutation(sorted: seq<Task>, s: seq<Task>, n: nat)
    requires multiset(sorted) == multiset(s)
    ensures |Prefix(sorted, n)| == Min(n, |s|)
    ensures multiset(Prefix(sorted, n)) <= multiset(s)
    ensures forall t :: t in Prefix(sorted, n) ==> t in s
    ensures forall t :: t in s ==> t in sorted
  {
    var r := Prefix(sorted, n);
    assert |sorted| == |s| by {
      assert |multiset(sorted)| == |multiset(s)|;
    }
    assert sorted == r + sorted[|r|..];
    assert multiset(sorted) == multiset(r) + multiset(sorted[|r|..]);
    forall t | t in r ensures t in s {
      assert t in multiset(r);
      assert t in multiset(s);
    }
    forall t | t in s ensures t in sorted {
      assert t in multiset(s);
    }
  }

  /** The first `n` of a list sorted by due date are in due-date order. */
  lemma PrefixByDate(sorted: seq<Task>, n: nat)
    requires SortedBy(sorted, DueKey)
    ensures forall i, j :: 0 <= i < j < |Prefix(sorted, n)| ==> LexLe(Prefix(sorted, n)[i].dueDate, Prefix(sorted, n)[j].dueDate)
  {
    var r := Prefix(sorted, n);
    forall i, j | 0 <= i < j < |r| ensures LexLe(r[i].dueDate, r[j].dueDate) {
      assert r[i] == sorted[i] && r[j] == sorted[j];
      assert KeyLe(DueKey(sorted[i]), DueKey(sorted[j]));
    }
  }

  /** In a list sorted by due date, what the first `n` leave out is due no earlier than any of them. */
  lemma EarliestFirst(sorted: seq<Task>, n: nat)
    requires SortedBy(sorted, DueKey)
    ensures forall t :: t in sorted && t !in Prefix(sorted, n) ==>
      forall i :: 0 <= i < |Prefix(sorted, n)| ==> LexLe(Prefix(sorted, n)[i].dueDate, t.dueDate)
  {
    var r := Prefix(sorted, n);
    forall t | t in sorted && t !in r
      ensures forall i :: 0 <= i < |r| ==> LexLe(r[i].dueDate, t.dueDate)
    {
      var m :| 0 <= m < |sorted| && sorted[m] == t;
      assert m >= |r|;
      forall i | 0 <= i < |r| ensures LexLe(r[i].dueDate, t.dueDate) {
        assert r[i] == sorted[i];
        assert KeyLe(DueKey(sorted[i]), DueKey(sorted[m]));
      }
    }
  }

  /** With a non-empty today, a task without a due date is never upcoming. */
  lemma UndatedNeverUpcoming(tasks: seq<Task>, today: string)
    requires today != ""
    ensures forall t :: t in Upcoming(tasks, today) ==> t.dueDate != ""
  {
    forall t | t in Upcoming(tasks, today) ensures t.dueDate != "" {
      if t.dueDate == "" {
        EmptyNotAboveNonEmpty(today);
      }
    }
  }

  /** The recent list: the first three pending tasks, in input order. */
  function Recent(tasks: seq<Task>): (r: seq<Task>)
    ensures |r| == Min(3, |Filter(tasks, Pending)|)
    ensures forall t :: t in r ==> t in tasks && Pending(t)
    ensures r == Filter(tasks, Pending)[..|r|]
  {
    Prefix(Filter(tasks, Pending), 3)
  }

  /** Once three pending tasks exist, tasks added after them do not change the recent list. */
  lemma RecentIgnoresLaterTasks(tasks: seq<Task>, more: seq<Task>)
    requires |Filter(tasks, Pending)| >= 3
    ensures Recent(tasks + more) == Recent(tasks)
  {
    FilterConcat(tasks, more, Pending);
    assert Filter(tasks + more, Pending)[..3] == Filter(tasks, Pending)[..3];
  }

  datatype QuickCounts = QuickCounts(todo: nat, progress: nat, done: nat)

  /** The quick view: one count per status; with only the three statuses they add up to the task count. */
  function QuickView(tasks: seq<Task>): (q: QuickCounts)
    ensures q.todo == |WithStatus(tasks, Todo.Name())|
    ensures q.progress == |WithStatus(tasks, Progress.Name())|
    ensures q.done == |WithStatus(tasks, Done.Name())|
    ensures (forall k :: 0 <= k < |tasks| ==> KnownStatus(tasks[k])) ==> q.todo + q.progress + q.done == |tasks|
  {
    var q := QuickCounts(|WithStatus(tasks, Todo.Name())|, |WithStatus(tasks, Progress.Name())|,
                         |WithStatus(tasks, Done.Name())|);
    if forall k :: 0 <= k < |tasks| ==> KnownStatus(tasks[k]) then
      StatusPartition(tasks);
      q
    else
      q
  }
}
