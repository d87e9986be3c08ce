/**
 * The task list page's view logic: `filterTasks` narrows the user's tasks
 * by the selected filter ("all", "today" or a category id) and splits them
 * into completed and open tasks; `getCategoryForTask` finds a task's
 * category.
 */
module TasksPage {
  import opened Wrappers
  import opened Text
  import opened Clock
  import opened Seqs
  import opened Schema
  import opened DateUtils
  import opened Storage

  /** The category filter: `task.categoryId === parseInt(filter)`; NaN and null match nothing. */
  predicate InCategory(t: Task, wanted: Option<int>) {
    wanted.Some? && t.categoryId == Some(wanted.value)
  }

  /** The first step of `filterTasks`: the tasks the selected filter shows, in list order. */
  function FilterByView(tasks: seq<Task>, filter: string, now: Instant): (r: seq<Task>)
    ensures IsSubsequence(r, tasks)
  {
    if filter == "today" then
      FilterIsSubsequence(tasks, (t: Task) => IsSameDay(t.date, now));
      Filter(tasks, (t: Task) => IsSameDay(t.date, now))
    else if filter != "all" then
      FilterIsSubsequence(tasks, (t: Task) => InCategory(t, ParseInt(filter)));
      Filter(tasks, (t: Task) => InCategory(t, ParseInt(filter)))
    else
      FilterAll(tasks, (t: Task) => true);
      FilterIsSubsequence(tasks, (t: Task) => true);
      tasks
  }

  datatype Sections = Sections(completedTasks: seq<Task>, uncompletedTasks: seq<Task>)

  /** `filterTasks()`: the shown tasks split by their `completed` flag. */
  function FilterTasks(tasks: seq<Task>, filter: string, now: Instant): Sections {
    var shown := FilterByView(tasks, filter, now);
    Sections(Filter(shown, (t: Task) => t.completed), Filter(shown, (t: Task) => !t.completed))
  }

  /** "all" shows every task, in order. */
  lemma AllShowsEverything(tasks: seq<Task>, now: Instant)
    ensures FilterByView(tasks, "all", now) == tasks
  {
    assert "all" != "today";
  }

  /** "today" shows exactly the tasks dated on today's calendar day. */
  lemma TodayShowsToday(tasks: seq<Task>, now: Instant)
    ensures forall t :: t in FilterByView(tasks, "today", now) <==> t in tasks && t.date.day == now.day
  {
  }

  /**
   * Choosing a category's id shows exactly the tasks of that category: the
   * id rendered as the filter string parses back to itself.
   */
  lemma CategoryShowsCategory(tasks: seq<Task>, id: nat, now: Instant)
    ensures forall t :: t in FilterByView(tasks, NatToString(id), now) <==> t in tasks && t.categoryId == Some(id)
  {
    var f := NatToString(id);
    assert f != "today" by {
      assert IsDigit(f[0]);
    }
    assert f != "all" by {
      assert IsDigit(f[0]);
    }
    ParseIntOfNatToString(id);
  }

  /** Under any category filter, a task without a category is never shown. */
  lemma UncategorisedNeverInCategory(tasks: seq<Task>, filter: string, now: Instant, t: Task)
    requires filter != "all" && filter != "today"
    requires t.categoryId.None?
    ensures t !in FilterByView(tasks, filter, now)
  {
  }

  /**
   * The two sections split the shown tasks without loss or overlap, each in
   * list order: every shown task is in exactly one of them.
   */
  lemma SectionsPartitionShown(tasks: seq<Task>, filter: string, now: Instant)
    ensures var shown := FilterByView(tasks, filter, now);
      var s := FilterTasks(tasks, filter, now);
      multiset(s.completedTasks) + multiset(s.uncompletedTasks) == multiset(shown)
      && (forall t :: t in s.completedTasks ==> t !in s.uncompletedTasks)
      && (forall t :: t in s.completedTasks ==> t.completed)
      && (forall t :: t in s.uncompletedTasks ==> !t.completed)
      && IsSubsequence(s.completedTasks, shown)
      && IsSubsequence(s.uncompletedTasks, shown)
  {
    var shown := FilterByView(tasks, filter, now);
    FilterPartition(shown, (t: Task) => t.completed, (t: Task) => !t.completed);
    FilterIsSubsequence(shown, (t: Task) => t.completed);
    FilterIsSubsequence(shown, (t: Task) => !t.completed);
  }

  /** `categories.find(cat => cat.id === categoryId)` */
  function GetCategoryForTask(categories: seq<Category>, categoryId: Option<int>): (r: Option<Category>)
    ensures r.Some? ==> categoryId == Some(r.value.id) && r.value in categories
    ensures r.Some? ==> exists i :: (0 <= i < |categories| && categories[i] == r.value
      && forall j :: 0 <= j < i ==> Some(categories[j].id) != categoryId)
    ensures r.None? <==> categoryId.None? || forall c :: c in categories ==> Some(c.id) != categoryId
  {
    Find(categories, (c: Category) => Some(c.id) == categoryId)
  }

  /** On the day the store is created, "today" shows all five demo tasks, in order. */
  lemma SeededTodayShowsAll(now: Instant)
    ensures FilterByView(SeedTasks(now), "today", now) == SeedTasks(now)
  {
    var tasks := SeedTasks(now);
    forall t | t in tasks ensures IsSameDay(t.date, now) {
      SameDayAfterSetHours(now, 7, 0);
      SameDayAfterSetHours(now, 10, 0);
      SameDayAfterSetHours(now, 14, 0);
      SameDayAfterSetHours(now, 16, 30);
      SameDayAfterSetHours(now, 9, 30);
    }
    FilterAll(tasks, (t: Task) => IsSameDay(t.date, now));
  }

  /** Of the demo tasks shown on that day, only the last is under completed. */
  lemma SeededTodaySections(now: Instant)
    ensures FilterTasks(SeedTasks(now), "today", now).completedTasks == [SeedTasks(now)[4]]
    ensures |FilterTasks(SeedTasks(now), "today", now).uncompletedTasks| == 4
  {
    var tasks := SeedTasks(now);
    SeededTodayShowsAll(now);
    SeedTasksCompletion(now);
    LastOfFiveCompleted(tasks);
    SectionsOfShownAll(tasks, "today", now);
  }

  /** When a filter shows every task, the sections split the whole list. */
  lemma SectionsOfShownAll(tasks: seq<Task>, filter: string, now: Instant)
    requires FilterByView(tasks, filter, now) == tasks
    ensures FilterTasks(tasks, filter, now)
      == Sections(Filter(tasks, (t: Task) => t.completed), Filter(tasks, (t: Task) => !t.completed))
  {
  }

  /** Five tasks of which only the last is completed split one to four. */
  lemma LastOfFiveCompleted(tasks: seq<Task>)
    requires |tasks| == 5 && tasks[4].completed
    requires forall k :: 0 <= k < 4 ==> !tasks[k].completed
    ensures Filter(tasks, (t: Task) => t.completed) == [tasks[4]]
    ensures |Filter(tasks, (t: Task) => !t.completed)| == 4
  {
    var open, done := tasks[..4], tasks[4..];
    assert open + done == tasks;
    assert done == [tasks[4]];
    assert forall t :: t in open ==> !t.completed;
    FilterAppend(open, done, (t: Task) => t.completed);
    FilterAppend(open, done, (t: Task) => !t.completed);
    FilterAll(open, (t: Task) => !t.completed);
    FilterNone(open, (t: Task) => t.completed);
    FilterNone(done, (t: Task) => !t.completed);
  }
}
