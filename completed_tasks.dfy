/**
 * The completed-tasks view: the completed tasks of the cache, sorted by
 * creation time or by priority weight.
 */
module CompletedTasks {
  import opened Tasks
  import opened Seqs
  import opened Sorting
  import Dashboard

  /** `{ HIGH: 3, MEDIUM: 2, LOW: 1 }[priority]`; any other priority weighs 0 here. */
  function PriorityWeight(t: Task): int {
    match t.priority
    case Some("HIGH") => 3
    case Some("MEDIUM") => 2
    case Some("LOW") => 1
    case _ => 0
  }

  /** `new Date(t.createdAt)` as milliseconds; a task without it sorts as 0 here. */
  function CreatedKey(parse: string -> int, t: Task): int {
    if t.createdAt.Some? then parse(t.createdAt.value) else 0
  }

  /**
   * The completed view for a `sortBy` setting. "newest" and "oldest" sort by
   * creation time, "priority" by weight, heaviest first; any other value
   * makes the comparator answer 0, which the stable sort turns into the
   * filtered order.
   */
  function CompletedView(tasks: seq<Task>, parse: string -> int, sortBy: string): (r: seq<Task>)
    ensures forall t :: multiset(r)[t] == if IsCompleted(t) then multiset(tasks)[t] else 0
    ensures |r| == |Filter(tasks, IsCompleted)|
    ensures sortBy == "newest" ==>
      forall i, j :: 0 <= i < j < |r| ==> CreatedKey(parse, r[j]) <= CreatedKey(parse, r[i])
    ensures sortBy == "oldest" ==>
      forall i, j :: 0 <= i < j < |r| ==> CreatedKey(parse, r[i]) <= CreatedKey(parse, r[j])
    ensures sortBy == "priority" ==>
      forall i, j :: 0 <= i < j < |r| ==> PriorityWeight(r[j]) <= PriorityWeight(r[i])
    ensures sortBy !in {"newest", "oldest", "priority"} ==> r == Filter(tasks, IsCompleted)
  {
    var done := Filter(tasks, IsCompleted);
    FilterMultiset(tasks, IsCompleted);
    if sortBy == "newest" then
      var key := t => -CreatedKey(parse, t);
      var r := SortBy(done, key);
      SortByPermutes(done, key);
      SortBySorted(done, key);
      NegatedKeyDescending(r, t => CreatedKey(parse, t), key);
      r
    else if sortBy == "oldest" then
      var key := t => CreatedKey(parse, t);
      SortByPermutes(done, key);
      SortBySorted(done, key);
      SortBy(done, key)
    else if sortBy == "priority" then
      var key := t => -PriorityWeight(t);
      var r := SortBy(done, key);
      SortByPermutes(done, key);
      SortBySorted(done, key);
      NegatedKeyDescending(r, PriorityWeight, key);
      r
    else
      ConstantKeyIsIdentity(done, t => 0, 0);
      SortBy(done, t => 0)
  }

  /** Every task in the completed view is completed, and every completed task of the cache is in it. */
  lemma CompletedViewMember(tasks: seq<Task>, parse: string -> int, sortBy: string, t: Task)
    ensures t in CompletedView(tasks, parse, sortBy) <==> t in tasks && IsCompleted(t)
  {
    var r := CompletedView(tasks, parse, sortBy);
    assert t in r <==> multiset(r)[t] > 0;
    assert t in tasks <==> multiset(tasks)[t] > 0;
  }

  /**
   * With the dashboard's filters at "all", the dashboard and the completed
   * view partition the cache by status.
   */
  lemma ViewsPartitionTasks(tasks: seq<Task>, c: Dashboard.Clock, so: string, sortBy: string)
    ensures |Dashboard.DashboardTasks(tasks, c, Dashboard.Filters("all", "all", so))|
          + |CompletedView(tasks, c.parse, sortBy)| == |tasks|
  {
    Dashboard.UnfilteredIsAllOpen(tasks, c, so);
    FilterComplement(tasks, IsCompleted, Dashboard.IsOpen);
  }

  /** The stable sort of three elements whose keys rank them second, third and first. */
  lemma {:induction false} SortThree<T>(a: T, b: T, c: T, key: T -> int)
    requires key(b) < key(c) < key(a)
    ensures SortBy([a, b, c], key) == [b, c, a]
  {
    SortByCons(c, [], key);
    SortByCons(b, [c], key);
    SortByCons(a, [b, c], key);
    assert [a] + [b, c] == [a, b, c] && [b] + [c] == [b, c] && [c] + [] == [c];
    InsertPast(a, b, [c], key);
    InsertPast(a, c, [], key);
  }

  /** Completed tasks [LOW, HIGH, MEDIUM] sorted by priority are [HIGH, MEDIUM, LOW]. */
  lemma PrioritySortExample(parse: string -> int, low: Task, high: Task, medium: Task)
    requires IsCompleted(low) && IsCompleted(high) && IsCompleted(medium)
    requires low.priority == Some("LOW") && high.priority == Some("HIGH") && medium.priority == Some("MEDIUM")
    ensures CompletedView([low, high, medium], parse, "priority") == [high, medium, low]
  {
    var xs := [low, high, medium];
    assert forall i :: 0 <= i < |xs| ==> IsCompleted(xs[i]);
    assert Filter(xs, IsCompleted) == xs;
    SortThree(low, high, medium, t => -PriorityWeight(t));
  }
}
