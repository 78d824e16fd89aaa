/** The read side of the dashboard handler: which tasks a filter selects,
    the order they are listed in, and the counters shown beside them. */
module Dashboard {
  import opened Wrappers
  import opened Text
  import opened TaskModel

  /** `const { filter = 'all' } = req.query`. */
  function FilterValue(filter: Option<string>): (f: string)
    ensures filter.None? ==> f == "all"
    ensures filter.Some? ==> f == filter.value
  {
    match filter
    case None => "all"
    case Some(f) => f
  }

  /** The status condition the dashboard query puts on a task. */
  predicate Shows(filter: string, s: Status)
  {
    if filter == "pending" then s == Pending
    else if filter == "completed" then s == Completed
    else if filter == "deleted" then s == Deleted
    else s == Pending || s == Completed
  }

  /** A filter naming a status selects exactly the tasks whose stored status
      string it is; every other value, "all" included, shows pending and
      completed tasks and never a deleted one. */
  lemma FilterSemantics(filter: string, s: Status)
    ensures filter in {"pending", "completed", "deleted"} ==> (Shows(filter, s) <==> StatusName(s) == filter)
    ensures filter !in {"pending", "completed", "deleted"} ==> (Shows(filter, s) <==> s != Deleted)
  {
  }

  /** `Task.find({ user: owner, status: ... })` before sorting: the owner's
      tasks that the filter shows, each as often as it is stored. */
  function Select(tasks: seq<Task>, owner: UserId, filter: string): (r: seq<Task>)
    ensures forall t :: multiset(r)[t] == if t.owner == owner && Shows(filter, t.status) then multiset(tasks)[t] else 0
  {
    if tasks == [] then []
    else
      assert tasks == [tasks[0]] + tasks[1..];
      (if tasks[0].owner == owner && Shows(filter, tasks[0].status) then [tasks[0]] else [])
      + Select(tasks[1..], owner, filter)
  }

  /** `sort({ priority: -1, createdAt: -1 })`: `a` may be listed before `b`
      when its priority STRING is larger, or the strings are equal and `a`
      is not older. */
  predicate Precedes(a: Task, b: Task)
  {
    || LexLess(PriorityName(b.priority), PriorityName(a.priority))
    || (PriorityName(a.priority) == PriorityName(b.priority) && a.createdAt >= b.createdAt)
  }

  predicate SortedForDashboard(s: seq<Task>)
  {
    forall i, j :: 0 <= i < j < |s| ==> Precedes(s[i], s[j])
  }

  /** The dashboard order is "medium", then "low", then "high", newest first within each. */
  lemma PrecedesByRank(a: Task, b: Task)
    ensures Precedes(a, b) <==>
      DescendingRank(a.priority) > DescendingRank(b.priority)
      || (a.priority == b.priority && a.createdAt >= b.createdAt)
  {
    PriorityNameOrder(b.priority, a.priority);
  }

  lemma PrecedesTotal(a: Task, b: Task)
    ensures Precedes(a, b) || Precedes(b, a)
  {
    PrecedesByRank(a, b);
    PrecedesByRank(b, a);
  }

  lemma PrecedesTransitive(a: Task, b: Task, c: Task)
    requires Precedes(a, b) && Precedes(b, c)
    ensures Precedes(a, c)
  {
    PrecedesByRank(a, b);
    PrecedesByRank(b, c);
    PrecedesByRank(a, c);
  }

  /** Because the code sorts the priority strings, a medium task is listed
      before a high one whatever their creation times. */
  lemma MediumListedBeforeHigh(a: Task, b: Task)
    requires a.priority == Medium && b.priority == High
    ensures Precedes(a, b) && !Precedes(b, a)
  {
    PrecedesByRank(a, b);
    PrecedesByRank(b, a);
  }

  /** Places `t` into a list sorted for the dashboard. */
  function Insert(t: Task, s: seq<Task>): (r: seq<Task>)
    ensures multiset(r) == multiset(s) + multiset{t}
  {
    if s == [] then [t]
    else if Precedes(t, s[0]) then [t] + s
    else
      assert s == [s[0]] + s[1..];
      [s[0]] + Insert(t, s[1..])
  }

  /** The store's sort as the model performs it. Ties on both keys have no
      order in the store; the model keeps them in insertion order. */
  function SortForDashboard(s: seq<Task>): (r: seq<Task>)
    ensures multiset(r) == multiset(s)
  {
    if s == [] then []
    else
      assert s == [s[0]] + s[1..];
      Insert(s[0], SortForDashboard(s[1..]))
  }

  lemma HeadPrecedesRest(s: seq<Task>)
    requires SortedForDashboard(s) && |s| > 0
    ensures forall x :: x in s[1..] ==> Precedes(s[0], x)
  {
    forall x | x in s[1..] ensures Precedes(s[0], x) {
      var k :| 0 <= k < |s| - 1 && s[1..][k] == x;
      assert s[k + 1] == x;
    }
  }

  lemma SortedCons(t: Task, s: seq<Task>)
    requires SortedForDashboard(s)
    requires forall x :: x in s ==> Precedes(t, x)
    ensures SortedForDashboard([t] + s)
  {
    var r := [t] + s;
    forall i, j | 0 <= i < j < |r| ensures Precedes(r[i], r[j]) {
      if i == 0 {
        assert r[j] == s[j - 1];
      } else {
        assert r[i] == s[i - 1] && r[j] == s[j - 1];
      }
    }
  }

  lemma {:induction false} InsertSorted(t: Task, s: seq<Task>)
    requires SortedForDashboard(s)
    ensures SortedForDashboard(Insert(t, s))
  {
    if s == [] {
    } else if Precedes(t, s[0]) {
      HeadPrecedesRest(s);
      forall x | x in s ensures Precedes(t, x) {
        if x != s[0] {
          assert x in s[1..] by { assert s == [s[0]] + s[1..]; }
          PrecedesTransitive(t, s[0], x);
        }
      }
      SortedCons(t, s);
    } else {
      PrecedesTotal(t, s[0]);
      var rest := Insert(t, s[1..]);
      InsertSorted(t, s[1..]);
      HeadPrecedesRest(s);
      forall x | x in rest ensures Precedes(s[0], x) {
        assert x in multiset(rest);
      }
      SortedCons(s[0], rest);
    }
  }

  /** The listing is in dashboard order. */
  lemma {:induction false} SortSorted(s: seq<Task>)
    ensures SortedForDashboard(SortForDashboard(s))
  {
    if s != [] {
      SortSorted(s[1..]);
      InsertSorted(s[0], SortForDashboard(s[1..]));
    }
  }

  /** The three counters of the dashboard. */
  datatype Stats = Stats(total: nat, pending: nat, completed: nat)

  /** `Task.countDocuments({ user: owner, status: { $in: statuses } })`. */
  function CountWhere(tasks: seq<Task>, owner: UserId, statuses: set<Status>): nat
  {
    if tasks == [] then 0
    else (if tasks[0].owner == owner && tasks[0].status in statuses then 1 else 0)
         + CountWhere(tasks[1..], owner, statuses)
  }

  /** The counters are three separate counts over the owner's tasks; no filter takes part. */
  function ComputeStats(tasks: seq<Task>, owner: UserId): Stats
  {
    Stats(
      CountWhere(tasks, owner, {Pending, Completed}),
      CountWhere(tasks, owner, {Pending}),
      CountWhere(tasks, owner, {Completed}))
  }

  lemma {:induction false} CountSplits(tasks: seq<Task>, owner: UserId)
    ensures CountWhere(tasks, owner, {Pending, Completed})
         == CountWhere(tasks, owner, {Pending}) + CountWhere(tasks, owner, {Completed})
  {
    if tasks != [] {
      CountSplits(tasks[1..], owner);
    }
  }

  /** total = pending + completed, whatever is stored. */
  lemma StatsTotal(tasks: seq<Task>, owner: UserId)
    ensures ComputeStats(tasks, owner).total
         == ComputeStats(tasks, owner).pending + ComputeStats(tasks, owner).completed
  {
    CountSplits(tasks, owner);
  }

  lemma {:induction false} CountIsSelectLength(tasks: seq<Task>, owner: UserId, statuses: set<Status>, filter: string)
    requires forall s: Status :: s in statuses <==> Shows(filter, s)
    ensures CountWhere(tasks, owner, statuses) == |Select(tasks, owner, filter)|
  {
    if tasks != [] {
      CountIsSelectLength(tasks[1..], owner, statuses, filter);
    }
  }

  /** Each counter is the length of the listing the matching filter gives:
      total for "all", pending for "pending", completed for "completed". */
  lemma StatsMatchListings(tasks: seq<Task>, owner: UserId)
    ensures ComputeStats(tasks, owner).total == |Select(tasks, owner, "all")|
    ensures ComputeStats(tasks, owner).pending == |Select(tasks, owner, "pending")|
    ensures ComputeStats(tasks, owner).completed == |Select(tasks, owner, "completed")|
  {
    CountIsSelectLength(tasks, owner, {Pending, Completed}, "all");
    CountIsSelectLength(tasks, owner, {Pending}, "pending");
    CountIsSelectLength(tasks, owner, {Completed}, "completed");
  }
}
