/**
 * The dashboard's derived views of the cached task list: the counters,
 * the productivity insights and the filtered, sorted list of open tasks.
 * All three are pure functions of the list, the filter settings and the
 * clock.
 */
module Dashboard {
  import opened Tasks
  import opened Seqs
  import opened Sorting

  /**
   * What the dashboard reads from `Date` at the moment of derivation.
   * `dayStart` is local midnight today, `dayEnd` 23:59:59.999 today,
   * `tomorrowStart`/`tomorrowEnd` the same for tomorrow and `weekEnd`
   * 23:59:59.999 seven days after today. `parse` is
   * `new Date(text).getTime()`, `month`/`year` are `getMonth` and
   * `getFullYear` and `dateString` is `toDateString`.
   */
  datatype Clock = Clock(
    dayStart: int,
    dayEnd: int,
    tomorrowStart: int,
    tomorrowEnd: int,
    weekEnd: int,
    parse: string -> int,
    month: int -> int,
    year: int -> int,
    dateString: int -> string)
  {
    /** The calendar facts a real local clock satisfies. */
    ghost predicate Valid() {
      && dayStart <= dayEnd < tomorrowStart <= tomorrowEnd <= weekEnd
      && forall x :: dateString(x) == dateString(dayStart) ==> dayStart <= x <= dayEnd
    }
  }

  /** The dashboard's three filter controls, as raw strings. */
  datatype Filters = Filters(date: string, priority: string, sortOrder: string)

  /** `(value || fallback).toString().toLowerCase()`. */
  function Setting(value: string, fallback: string): string {
    Lower(if value == "" then fallback else value)
  }

  const MS_PER_DAY: int := 24 * 60 * 60 * 1000

  // ---------------------------------------------------------------- stats

  datatype Stats = Stats(total: nat, lowPriority: nat, mediumPriority: nat, highPriority: nat, completed: nat)

  /** `t.priority?.toLowerCase() === level`. */
  predicate HasPriority(t: Task, level: string) {
    t.priority.Some? && Lower(t.priority.value) == level
  }

  /** The counters shown above the list, over the whole (unfiltered) list. */
  function TaskStats(tasks: seq<Task>): (s: Stats)
    ensures s.total == |tasks|
    ensures s.lowPriority == |Filter(tasks, t => HasPriority(t, "low"))| <= s.total
    ensures s.mediumPriority == |Filter(tasks, t => HasPriority(t, "medium"))| <= s.total
    ensures s.highPriority == |Filter(tasks, t => HasPriority(t, "high"))| <= s.total
    ensures s.completed == |Filter(tasks, IsCompleted)| <= s.total
  {
    Stats(
      |tasks|,
      |Filter(tasks, t => HasPriority(t, "low"))|,
      |Filter(tasks, t => HasPriority(t, "medium"))|,
      |Filter(tasks, t => HasPriority(t, "high"))|,
      |Filter(tasks, IsCompleted)|)
  }

  /**
   * The three priority counters never exceed the total, and add up to it
   * exactly when every priority is low, medium or high in some casing.
   */
  lemma PriorityCountsBounded(tasks: seq<Task>)
    ensures var s := TaskStats(tasks);
      s.lowPriority + s.mediumPriority + s.highPriority <= s.total
    ensures var s := TaskStats(tasks);
      (forall i :: 0 <= i < |tasks| ==>
         HasPriority(tasks[i], "low") || HasPriority(tasks[i], "medium") || HasPriority(tasks[i], "high"))
      ==> s.lowPriority + s.mediumPriority + s.highPriority == s.total
  {
    FilterDisjointSum(tasks, t => HasPriority(t, "low"), t => HasPriority(t, "medium"),
      t => HasPriority(t, "low") || HasPriority(t, "medium"));
    FilterDisjointSum(tasks, t => HasPriority(t, "low") || HasPriority(t, "medium"), t => HasPriority(t, "high"),
      t => HasPriority(t, "low") || HasPriority(t, "medium") || HasPriority(t, "high"));
  }

  // ------------------------------------------------------------- insights

  datatype Insights = Insights(completedToday: nat, completedThisWeek: nat, overdue: nat, dueToday: nat)

  /** A completed task whose `updatedAt` is at or after `since`. */
  predicate CompletedSince(c: Clock, since: int, t: Task) {
    IsCompleted(t) && Truthy(t.updatedAt) && c.parse(t.updatedAt.value) >= since
  }

  /** An open task that has a due date. */
  predicate OpenWithDueDate(t: Task) {
    !IsCompleted(t) && Truthy(t.dueDate)
  }

  /** An open task due before local midnight today. */
  predicate Overdue(c: Clock, t: Task) {
    OpenWithDueDate(t) && c.parse(t.dueDate.value) < c.dayStart
  }

  /** An open task due on today's calendar date. */
  predicate DueToday(c: Clock, t: Task) {
    OpenWithDueDate(t) && c.dateString(c.parse(t.dueDate.value)) == c.dateString(c.dayStart)
  }

  /**
   * Productivity insights. "This week" starts seven times 24 hours before
   * today's midnight, so it contains "today": a task counted as completed
   * today is counted as completed this week.
   */
  function ProductivityInsights(tasks: seq<Task>, c: Clock): (r: Insights)
    ensures r.completedToday == |Filter(tasks, t => CompletedSince(c, c.dayStart, t))|
    ensures r.completedThisWeek == |Filter(tasks, t => CompletedSince(c, c.dayStart - 7 * MS_PER_DAY, t))|
    ensures r.overdue == |Filter(tasks, t => Overdue(c, t))|
    ensures r.dueToday == |Filter(tasks, t => DueToday(c, t))|
    ensures r.completedToday <= r.completedThisWeek <= |tasks|
    ensures r.overdue <= |tasks| && r.dueToday <= |tasks|
  {
    FilterMonotone(tasks, t => CompletedSince(c, c.dayStart, t), t => CompletedSince(c, c.dayStart - 7 * MS_PER_DAY, t));
    Insights(
      |Filter(tasks, t => CompletedSince(c, c.dayStart, t))|,
      |Filter(tasks, t => CompletedSince(c, c.dayStart - 7 * MS_PER_DAY, t))|,
      |Filter(tasks, t => Overdue(c, t))|,
      |Filter(tasks, t => DueToday(c, t))|)
  }

  /**
   * Overdue and due-today tasks are disjoint sets of open tasks with a due
   * date, so the two counters together never exceed that number.
   */
  lemma OverdueAndDueTodayDisjoint(tasks: seq<Task>, c: Clock)
    requires c.Valid()
    ensures forall t :: !(Overdue(c, t) && DueToday(c, t))
    ensures var r := ProductivityInsights(tasks, c);
      r.overdue + r.dueToday <= |Filter(tasks, OpenWithDueDate)|
  {
    FilterDisjointSum(tasks, t => Overdue(c, t), t => DueToday(c, t), t => Overdue(c, t) || DueToday(c, t));
    FilterMonotone(tasks, t => Overdue(c, t) || DueToday(c, t), OpenWithDueDate);
  }

  // ---------------------------------------------------------- task list

  /** Step 1: `task.status !== "COMPLETED"`. */
  predicate IsOpen(t: Task) {
    !IsCompleted(t)
  }

  /** Step 2: the date filter, `df` already normalised. */
  predicate InDateWindow(c: Clock, df: string, t: Task) {
    if df == "all" then true
    else if !Truthy(t.dueDate) then false
    else
      var due := c.parse(t.dueDate.value);
      if df == "today" then c.dayStart <= due <= c.dayEnd
      else if df == "tomorrow" then c.tomorrowStart <= due <= c.tomorrowEnd
      else if df == "week" then c.dayStart <= due <= c.weekEnd
      else if df == "month" then c.month(due) == c.month(c.dayStart) && c.year(due) == c.year(c.dayStart)
      else true
  }

  /** Step 3: the priority filter, `pf` already normalised. */
  predicate MatchesPriority(pf: string, t: Task) {
    pf == "all" || Lower(Or(t.priority, "")) == pf
  }

  /** Step 4's key: `createdAt`, else `created_at`, else `dueDate`, else 0. */
  function SortKey(c: Clock, t: Task): int {
    if Truthy(t.createdAt) then c.parse(t.createdAt.value)
    else if Truthy(t.createdAtAlt) then c.parse(t.createdAtAlt.value)
    else if Truthy(t.dueDate) then c.parse(t.dueDate.value)
    else 0
  }

  /** The tasks steps 1 to 3 keep, in list order. */
  function Selected(tasks: seq<Task>, c: Clock, f: Filters): seq<Task> {
    var df := Setting(f.date, "all");
    var pf := Setting(f.priority, "all");
    Filter(Filter(Filter(tasks, IsOpen), t => InDateWindow(c, df, t)), t => MatchesPriority(pf, t))
  }

  /**
   * The dashboard list: the selected tasks, sorted on a copy. It is a
   * permutation of a subsequence of the cache, never holds a completed
   * task, and is ordered by the key as the sort order asks.
   */
  function DashboardTasks(tasks: seq<Task>, c: Clock, f: Filters): (r: seq<Task>)
    ensures forall i :: 0 <= i < |r| ==> !IsCompleted(r[i])
    ensures Subsequence(Selected(tasks, c, f), tasks)
    ensures multiset(r) == multiset(Selected(tasks, c, f))
    ensures |r| == |Selected(tasks, c, f)|
    ensures Setting(f.sortOrder, "newest") == "newest" ==>
      forall i, j :: 0 <= i < j < |r| ==> SortKey(c, r[j]) <= SortKey(c, r[i])
    ensures Setting(f.sortOrder, "newest") != "newest" ==>
      forall i, j :: 0 <= i < j < |r| ==> SortKey(c, r[i]) <= SortKey(c, r[j])
  {
    var so := Setting(f.sortOrder, "newest");
    var sel := Selected(tasks, c, f);
    var s1 := Filter(tasks, IsOpen);
    var s2 := Filter(s1, t => InDateWindow(c, Setting(f.date, "all"), t));
    SubsequenceTransitive(sel, s2, s1);
    SubsequenceTransitive(sel, s1, tasks);
    if so == "newest" then
      var key := t => -SortKey(c, t);
      var r := SortBy(sel, key);
      SortByPermutes(sel, key);
      SortBySorted(sel, key);
      NegatedKeyDescending(r, t => SortKey(c, t), key);
      OpenInSelected(tasks, c, f, r);
      r
    else
      var key := t => SortKey(c, t);
      var r := SortBy(sel, key);
      SortByPermutes(sel, key);
      SortBySorted(sel, key);
      OpenInSelected(tasks, c, f, r);
      r
  }

  /** Anything with the selection's elements holds only open tasks. */
  lemma OpenInSelected(tasks: seq<Task>, c: Clock, f: Filters, r: seq<Task>)
    requires multiset(r) == multiset(Selected(tasks, c, f))
    ensures forall i :: 0 <= i < |r| ==> !IsCompleted(r[i])
  {
    forall i | 0 <= i < |r| ensures !IsCompleted(r[i]) {
      var t := r[i];
      assert t in multiset(r);
      assert t in Selected(tasks, c, f);
      var df := Setting(f.date, "all");
      var pf := Setting(f.priority, "all");
      var s1 := Filter(tasks, IsOpen);
      var s2 := Filter(s1, t => InDateWindow(c, df, t));
      FilterMember(s2, t => MatchesPriority(pf, t), t);
      FilterMember(s1, t => InDateWindow(c, df, t), t);
      FilterMember(tasks, IsOpen, t);
    }
  }

  /** A task is on the dashboard exactly when it is in the cache and passes steps 1 to 3. */
  lemma DashboardMember(tasks: seq<Task>, c: Clock, f: Filters, t: Task)
    ensures t in DashboardTasks(tasks, c, f) <==>
      && t in tasks
      && IsOpen(t)
      && InDateWindow(c, Setting(f.date, "all"), t)
      && MatchesPriority(Setting(f.priority, "all"), t)
  {
    var r := DashboardTasks(tasks, c, f);
    var df := Setting(f.date, "all");
    var pf := Setting(f.priority, "all");
    var s1 := Filter(tasks, IsOpen);
    var s2 := Filter(s1, t => InDateWindow(c, df, t));
    assert t in r <==> t in multiset(r);
    assert t in Selected(tasks, c, f) <==> t in multiset(Selected(tasks, c, f));
    FilterMember(s2, t => MatchesPriority(pf, t), t);
    FilterMember(s1, t => InDateWindow(c, df, t), t);
    FilterMember(tasks, IsOpen, t);
  }

  /** Any date filter other than "all" drops every task without a due date. */
  lemma DateFilterNeedsDueDate(tasks: seq<Task>, c: Clock, f: Filters, t: Task)
    requires Setting(f.date, "all") != "all"
    requires t in DashboardTasks(tasks, c, f)
    ensures Truthy(t.dueDate)
  {
    DashboardMember(tasks, c, f, t);
  }

  /** An unrecognised date filter keeps every open task that has a due date. */
  lemma UnknownDateFilterKeepsDated(tasks: seq<Task>, c: Clock, f: Filters, t: Task)
    requires Setting(f.date, "all") !in {"all", "today", "tomorrow", "week", "month"}
    ensures t in DashboardTasks(tasks, c, f) <==>
      t in tasks && IsOpen(t) && Truthy(t.dueDate) && MatchesPriority(Setting(f.priority, "all"), t)
  {
    DashboardMember(tasks, c, f, t);
  }

  /** "today" keeps exactly the open tasks due between today's midnight and 23:59:59.999. */
  lemma TodayWindow(tasks: seq<Task>, c: Clock, f: Filters, t: Task)
    requires Setting(f.date, "all") == "today"
    ensures t in DashboardTasks(tasks, c, f) <==>
      && t in tasks && IsOpen(t) && Truthy(t.dueDate)
      && c.dayStart <= c.parse(t.dueDate.value) <= c.dayEnd
      && MatchesPriority(Setting(f.priority, "all"), t)
  {
    DashboardMember(tasks, c, f, t);
  }

  /** "month" keeps exactly the open tasks due in today's calendar month and year. */
  lemma MonthWindow(tasks: seq<Task>, c: Clock, f: Filters, t: Task)
    requires Setting(f.date, "all") == "month"
    ensures t in DashboardTasks(tasks, c, f) <==>
      && t in tasks && IsOpen(t) && Truthy(t.dueDate)
      && c.month(c.parse(t.dueDate.value)) == c.month(c.dayStart)
      && c.year(c.parse(t.dueDate.value)) == c.year(c.dayStart)
      && MatchesPriority(Setting(f.priority, "all"), t)
  {
    DashboardMember(tasks, c, f, t);
  }

  /** Both "today" and "tomorrow" lie inside "week" (same priority filter and sort order). */
  lemma TodayAndTomorrowWithinWeek(tasks: seq<Task>, c: Clock, narrow: Filters, week: Filters, t: Task)
    requires c.Valid()
    requires Setting(narrow.date, "all") in {"today", "tomorrow"} && Setting(week.date, "all") == "week"
    requires narrow.priority == week.priority
    requires t in DashboardTasks(tasks, c, narrow)
    ensures t in DashboardTasks(tasks, c, week)
  {
    DashboardMember(tasks, c, narrow, t);
    DashboardMember(tasks, c, week, t);
  }

  /** With a priority filter, every listed task has that priority, compared case-insensitively. */
  lemma PriorityFilterMatches(tasks: seq<Task>, c: Clock, f: Filters, t: Task)
    requires f.priority != "" && Lower(f.priority) != "all"
    requires t in DashboardTasks(tasks, c, f)
    ensures Lower(Or(t.priority, "")) == Lower(f.priority)
  {
    DashboardMember(tasks, c, f, t);
  }

  /** Filter values are compared case-insensitively: only their lower-cased form matters. */
  lemma FiltersIgnoreCase(tasks: seq<Task>, c: Clock, f: Filters, g: Filters)
    requires Lower(f.date) == Lower(g.date) && Lower(f.priority) == Lower(g.priority)
    requires Lower(f.sortOrder) == Lower(g.sortOrder)
    ensures DashboardTasks(tasks, c, f) == DashboardTasks(tasks, c, g)
  {
    assert f.date == "" <==> g.date == "";
    assert f.priority == "" <==> g.priority == "";
    assert f.sortOrder == "" <==> g.sortOrder == "";
  }

  /** Empty filter values fall back to "all", "all" and "newest". */
  lemma EmptyFiltersAreDefaults(tasks: seq<Task>, c: Clock)
    ensures DashboardTasks(tasks, c, Filters("", "", "")) == DashboardTasks(tasks, c, Filters("all", "all", "newest"))
  {
    assert Setting("", "all") == Setting("all", "all");
    assert Setting("", "newest") == Setting("newest", "newest");
  }

  /** With both filters at "all" the dashboard holds exactly the open tasks. */
  lemma UnfilteredIsAllOpen(tasks: seq<Task>, c: Clock, so: string)
    ensures Selected(tasks, c, Filters("all", "all", so)) == Filter(tasks, IsOpen)
    ensures multiset(DashboardTasks(tasks, c, Filters("all", "all", so))) == multiset(Filter(tasks, IsOpen))
  {
    var f := Filters("all", "all", so);
    assert Setting(f.date, "all") == "all" && Setting(f.priority, "all") == "all";
    var s1 := Filter(tasks, IsOpen);
    assert Filter(s1, t => InDateWindow(c, "all", t)) == s1;
    assert Filter(s1, t => MatchesPriority("all", t)) == s1;
  }
}
