/**
 * What the client views share: ordering tasks by a three-part key (the stable
 * comparator sort of the task list and the dashboard), the shortened description
 * shown on a card, the status a checkbox click requests, and selecting the tasks of
 * one status.
 */
module TaskViews {
  import opened Wrappers
  import opened Strings
  import opened Seqs
  import opened TaskModel

  // ---------------------------------------------------------------------------
  // Ordering

  /** A sort key: two ranks compared as numbers, then a date compared as a string. */
  datatype SortKey = SortKey(major: nat, minor: nat, date: string)

  predicate KeyLe(a: SortKey, b: SortKey) {
    a.major < b.major
    || (a.major == b.major && (a.minor < b.minor || (a.minor == b.minor && LexLe(a.date, b.date))))
  }

  lemma KeyLeTotal(a: SortKey, b: SortKey)
    ensures KeyLe(a, b) || KeyLe(b, a)
  {
    LexLeTotal(a.date, b.date);
  }

  lemma KeyLeTransitive(a: SortKey, b: SortKey, c: SortKey)
    requires KeyLe(a, b) && KeyLe(b, c)
    ensures KeyLe(a, c)
  {
    if a.major == b.major == c.major && a.minor == b.minor == c.minor {
      LexLeTransitive(a.date, b.date, c.date);
    }
  }

  predicate SortedBy(s: seq<Task>, key: Task -> SortKey) {
    forall i, j :: 0 <= i < j < |s| ==> KeyLe(key(s[i]), key(s[j]))
  }

  /** Every element of `s` is at or above `x`. */
  predicate AllAbove(x: Task, s: seq<Task>, key: Task -> SortKey) {
    forall k :: 0 <= k < |s| ==> KeyLe(key(x), key(s[k]))
  }

  lemma ConsSorted(x: Task, s: seq<Task>, key: Task -> SortKey)
    requires SortedBy(s, key) && AllAbove(x, s, key)
    ensures SortedBy([x] + s, key)
  {
    var r := [x] + s;
    forall i, j | 0 <= i < j < |r| ensures KeyLe(key(r[i]), key(r[j])) {
      if i > 0 {
        assert r[i] == s[i - 1] && r[j] == s[j - 1];
      } else {
        assert r[j] == s[j - 1];
      }
    }
  }

  /** Below the head of a sorted list is below all of it. */
  lemma BelowHead(x: Task, s: seq<Task>, key: Task -> SortKey)
    requires SortedBy(s, key) && s != [] && KeyLe(key(x), key(s[0]))
    ensures AllAbove(x, s, key)
  {
    forall k | 0 <= k < |s| ensures KeyLe(key(x), key(s[k])) {
      if k > 0 {
        KeyLeTransitive(key(x), key(s[0]), key(s[k]));
      }
    }
  }

  /** A bound below every element of `s` and below `x` is below every element of a rearrangement of `s` and `x`. */
  lemma AboveStaysAbove(h: Task, x: Task, s: seq<Task>, r: seq<Task>, key: Task -> SortKey)
    requires AllAbove(h, s, key) && KeyLe(key(h), key(x))
    requires multiset(r) == multiset(s) + multiset{x}
    ensures AllAbove(h, r, key)
  {
    forall k | 0 <= k < |r| ensures KeyLe(key(h), key(r[k])) {
      assert r[k] in multiset(r);
      if r[k] != x {
        assert r[k] in multiset(s);
        var m :| 0 <= m < |s| && s[m] == r[k];
      }
    }
  }

  /**
   * `x` placed before the first element it does not exceed: into a sorted list, it
   * keeps the list sorted and ahead of equal keys, which come later in the input.
   */
  function Insert(x: Task, s: seq<Task>, key: Task -> SortKey): (r: seq<Task>)
    requires SortedBy(s, key)
    ensures |r| == |s| + 1
    ensures multiset(r) == multiset(s) + multiset{x}
    ensures SortedBy(r, key)
  {
    if s == [] then [x]
    else if KeyLe(key(x), key(s[0])) then
      BelowHead(x, s, key);
      ConsSorted(x, s, key);
      [x] + s
    else
      KeyLeTotal(key(x), key(s[0]));
      var rest := Insert(x, s[1..], key);
      assert s == [s[0]] + s[1..];
      assert AllAbove(s[0], s[1..], key) by {
        forall k | 0 <= k < |s[1..]| ensures KeyLe(key(s[0]), key(s[1..][k])) {
          assert s[1..][k] == s[k + 1];
        }
      }
      AboveStaysAbove(s[0], x, s[1..], rest, key);
      ConsSorted(s[0], rest, key);
      [s[0]] + rest
  }

  /** A stable sort by `key`: a sorted permutation of the input. */
  function SortBy(s: seq<Task>, key: Task -> SortKey): (r: seq<Task>)
    ensures |r| == |s|
    ensures multiset(r) == multiset(s)
    ensures SortedBy(r, key)
  {
    if s == [] then []
    else
      assert s == [s[0]] + s[1..];
      Insert(s[0], SortBy(s[1..], key), key)
  }

  /** Sorting a list that is already in order leaves it as it is. */
  lemma {:induction false} SortBySorted(s: seq<Task>, key: Task -> SortKey)
    requires SortedBy(s, key)
    ensures SortBy(s, key) == s
  {
    if s != [] {
      assert SortedBy(s[1..], key) by {
        forall i, j | 0 <= i < j < |s[1..]| ensures KeyLe(key(s[1..][i]), key(s[1..][j])) {
          assert s[1..][i] == s[i + 1] && s[1..][j] == s[j + 1];
        }
      }
      SortBySorted(s[1..], key);
      assert s == [s[0]] + s[1..];
    }
  }

  // ---------------------------------------------------------------------------
  // Card text and the checkbox

  /** `s.substring(0, n)` followed by "..." exactly when `s` is longer than `n`. */
  function Preview(s: string, n: nat): (r: string)
    ensures |s| <= n ==> r == s
    ensures |s| > n ==> |r| == n + 3 && r[..n] == s[..n] && r[n..] == "..."
  {
    Prefix(s, n) + (if |s| > n then "..." else "")
  }

  /**
   * The description line of a task in a view cutting at `n` characters: shown only for a
   * non-empty description, in full when it fits, else its first `n` characters and "...".
   */
  function DescriptionLine(t: Task, n: nat): (line: Option<string>)
    ensures line.Some? <==> t.description != ""
    ensures line.Some? && |t.description| <= n ==> line.value == t.description
    ensures line.Some? && |t.description| > n ==>
      |line.value| == n + 3 && line.value[..n] == t.description[..n] && line.value[n..] == "..."
  {
    if t.description != "" then Some(Preview(t.description, n)) else None
  }

  /** The status a checkbox click requests: a done task goes back to todo, any other is done. */
  function ToggledStatus(status: string): (r: string)
    ensures r != status
    ensures r == Done.Name() || r == Todo.Name()
    ensures r == Todo.Name() <==> status == Done.Name()
  {
    if status == Done.Name() then Todo.Name() else Done.Name()
  }

  /** The update a view asks for: `onUpdateTask(id, { status })`. */
  datatype StatusUpdate = StatusUpdate(id: string, status: string)

  /** A checkbox click on a task: always a change, and done exactly when the task was not done. */
  function CheckboxUpdate(t: Task): (u: StatusUpdate)
    ensures u.id == t.id && u.status != t.status
    ensures u.status == Done.Name() <==> t.status != Done.Name()
  {
    StatusUpdate(t.id, ToggledStatus(t.status))
  }

  /** For done and todo tasks, two clicks restore the status. */
  lemma ToggleTwice(status: string)
    requires status == Done.Name() || status == Todo.Name()
    ensures ToggledStatus(ToggledStatus(status)) == status
  {
  }

  // ---------------------------------------------------------------------------
  // Tasks of one status

  function WithStatus(ts: seq<Task>, status: string): (r: seq<Task>)
    ensures |r| <= |ts|
    ensures forall t :: t in r <==> t in ts && t.status == status
  {
    Filter(ts, (t: Task) => t.status == status)
  }

  predicate KnownStatus(t: Task) {
    t.status == Todo.Name() || t.status == Progress.Name() || t.status == Done.Name()
  }

  /** Two different statuses never hold more tasks between them than there are. */
  lemma {:induction false} TwoStatusesBounded(ts: seq<Task>, a: string, b: string)
    requires a != b
    ensures |WithStatus(ts, a)| + |WithStatus(ts, b)| <= |ts|
  {
    if ts != [] {
      TwoStatusesBounded(ts[1..], a, b);
    }
  }

  /**
   * When every status is todo, progress or done, the three status groups account for
   * every task exactly once.
   */
  lemma {:induction false} StatusPartition(ts: seq<Task>)
    requires forall k :: 0 <= k < |ts| ==> KnownStatus(ts[k])
    ensures |WithStatus(ts, Todo.Name())| + |WithStatus(ts, Progress.Name())| + |WithStatus(ts, Done.Name())| == |ts|
  {
    if ts != [] {
      StatusPartition(ts[1..]);
    }
  }
}
