/**
 * The server's in-memory store (`MemStorage`): five collections keyed by
 * integer id, each with its own id counter. A JavaScript `Map` keeps its
 * keys in insertion order and `set` on an existing key keeps its place, so
 * each collection is modelled as the sequence of its records in that
 * order; since every new id is the counter's next value, that order is
 * also ascending id order.
 */
module Storage {
  import opened Wrappers
  import opened Clock
  import opened Seqs
  import opened Schema

  // ---------------------------------------------------------------------
  // Ids
  // ---------------------------------------------------------------------

  /** Ids handed out so far: all at least 1, below the counter, and strictly increasing in map order. */
  predicate IdsIncreasing<T>(s: seq<T>, key: T -> int, next: int) {
    1 <= next
    && (forall i :: 0 <= i < |s| ==> 1 <= key(s[i]) < next)
    && (forall i, j :: 0 <= i < j < |s| ==> key(s[i]) < key(s[j]))
  }

  /** Appending a record stamped with the counter's value, then advancing the counter, keeps ids increasing. */
  lemma AppendFreshId<T>(s: seq<T>, key: T -> int, next: int, x: T)
    requires IdsIncreasing(s, key, next) && key(x) == next
    ensures IdsIncreasing(s + [x], key, next + 1)
  {
  }

  /** Records numbered 1, 2, ... in order have increasing ids below the next number. */
  lemma NumberedFromOne<T>(s: seq<T>, key: T -> int)
    requires forall i :: 0 <= i < |s| ==> key(s[i]) == i + 1
    ensures IdsIncreasing(s, key, |s| + 1)
  {
  }

  /** Removing one record keeps the others' ids increasing. */
  lemma RemoveKeepsIds<T>(s: seq<T>, key: T -> int, next: int, i: nat)
    requires IdsIncreasing(s, key, next) && i < |s|
    ensures IdsIncreasing(s[..i] + s[i + 1..], key, next)
  {
    var r := s[..i] + s[i + 1..];
    forall a, b | 0 <= a < b < |r| ensures key(r[a]) < key(r[b]) {
      var a' := if a < i then a else a + 1;
      var b' := if b < i then b else b + 1;
      assert r[a] == s[a'] && r[b] == s[b'];
    }
  }

  /** With increasing ids, removing the record with a given id leaves no record with that id. */
  lemma RemoveDropsKey<T>(s: seq<T>, key: T -> int, next: int, i: nat)
    requires IdsIncreasing(s, key, next) && i < |s|
    ensures forall x :: x in s[..i] + s[i + 1..] ==> key(x) != key(s[i])
  {
    forall x | x in s[..i] + s[i + 1..] ensures key(x) != key(s[i]) {
      if x in s[..i] {
        var k :| 0 <= k < i && s[..i][k] == x;
        assert s[k] == x;
      } else {
        var k :| 0 <= k < |s[i + 1..]| && s[i + 1..][k] == x;
        assert s[i + 1 + k] == x;
      }
    }
  }

  // ---------------------------------------------------------------------
  // Message history ordering
  // ---------------------------------------------------------------------

  /** What the history is sorted by: `timestamp.getTime()`. */
  function Time(m: Message): int {
    Millis(m.timestamp)
  }

  /** `a` comes before `b` by timestamp, ties broken by id. */
  predicate Before(a: Message, b: Message) {
    Time(a) < Time(b) || (Time(a) == Time(b) && a.id < b.id)
  }

  /** Sorted by timestamp, equal timestamps in id order. */
  predicate InHistoryOrder(s: seq<Message>) {
    forall i, j :: 0 <= i < j < |s| ==> Before(s[i], s[j])
  }

  predicate IdsAscending(s: seq<Message>) {
    forall i, j :: 0 <= i < j < |s| ==> s[i].id < s[j].id
  }

  /**
   * One step of a stable insertion sort: `m` goes after every message
   * whose timestamp is not later than its own.
   */
  function InsertByTime(m: Message, sorted: seq<Message>): (r: seq<Message>)
    ensures multiset(r) == multiset(sorted) + multiset{m}
    ensures |r| == |sorted| + 1
  {
    if sorted == [] then [m]
    else if Time(m) < Time(sorted[0]) then [m] + sorted
    else
      assert sorted == [sorted[0]] + sorted[1..];
      [sorted[0]] + InsertByTime(m, sorted[1..])
  }

  /** Inserting a message whose id exceeds every other keeps history order. */
  lemma {:induction false} InsertByTimeOrdered(m: Message, sorted: seq<Message>)
    requires InHistoryOrder(sorted)
    requires forall k :: 0 <= k < |sorted| ==> sorted[k].id < m.id
    ensures InHistoryOrder(InsertByTime(m, sorted))
  {
    if sorted != [] && Time(m) >= Time(sorted[0]) {
      var tail := sorted[1..];
      InsertByTimeOrdered(m, tail);
      var r := InsertByTime(m, tail);
      assert multiset(r) == multiset(tail) + multiset{m};
      forall j | 0 <= j < |r| ensures Before(sorted[0], r[j]) {
        assert r[j] in multiset(r);
        if r[j] != m {
          assert r[j] in multiset(tail);
          var k :| 0 <= k < |tail| && tail[k] == r[j];
          assert Before(sorted[0], sorted[k + 1]);
        }
      }
    }
  }

  /** `[...messages].sort((a, b) => a.timestamp - b.timestamp)`: a stable sort by timestamp. */
  function SortByTime(s: seq<Message>): (r: seq<Message>)
    ensures multiset(r) == multiset(s)
    ensures |r| == |s|
  {
    if s == [] then []
    else
      var front := s[..|s| - 1];
      assert s == front + [s[|s| - 1]];
      InsertByTime(s[|s| - 1], SortByTime(front))
  }

  /**
   * Sorting a list of messages in id order yields the history order: by
   * timestamp, and messages with equal timestamps in the order they were
   * created. With distinct ids this order is total, so the result is the
   * only arrangement of those messages that satisfies it.
   */
  lemma {:induction false} SortByTimeOrdered(s: seq<Message>)
    requires IdsAscending(s)
    ensures InHistoryOrder(SortByTime(s))
  {
    if s != [] {
      var front := s[..|s| - 1];
      var last := s[|s| - 1];
      SortByTimeOrdered(front);
      var sorted := SortByTime(front);
      forall k | 0 <= k < |sorted| ensures sorted[k].id < last.id {
        assert sorted[k] in multiset(front);
      }
      InsertByTimeOrdered(last, sorted);
    }
  }

  /** Messages already in timestamp order, as a monotone clock stamps them, are left where they are. */
  lemma {:induction false} SortKeepsChronological(s: seq<Message>)
    requires forall i, j :: 0 <= i < j < |s| ==> Time(s[i]) <= Time(s[j])
    ensures SortByTime(s) == s
  {
    if s != [] {
      var front := s[..|s| - 1];
      SortKeepsChronological(front);
      InsertLastInPlace(s[|s| - 1], front);
      assert front + [s[|s| - 1]] == s;
    }
  }

  lemma {:induction false} InsertLastInPlace(m: Message, sorted: seq<Message>)
    requires forall k :: 0 <= k < |sorted| ==> Time(sorted[k]) <= Time(m)
    ensures InsertByTime(m, sorted) == sorted + [m]
  {
    if sorted != [] {
      InsertLastInPlace(m, sorted[1..]);
      assert [sorted[0]] + (sorted[1..] + [m]) == sorted + [m];
    }
  }

  /**
   * `if (limit) return list.slice(-limit)`: `limit` absent (undefined or
   * NaN) or 0 keeps the whole list; a positive limit keeps the last
   * `limit` entries; a negative one drops the first `-limit`.
   */
  function ApplyLimit<T>(s: seq<T>, limit: Option<int>): (r: seq<T>)
    ensures limit.None? || limit == Some(0) ==> r == s
    ensures |r| <= |s| && r == s[|s| - |r|..]
    ensures limit.Some? && limit.value > 0 ==> |r| == (if limit.value < |s| then limit.value else |s|)
    ensures limit.Some? && limit.value < 0 ==> r == s[(if -limit.value < |s| then -limit.value else |s|)..]
  {
    if limit.None? || limit.value == 0 then s
    else
      var start := -limit.value;
      if start < 0 then s[(if |s| + start > 0 then |s| + start else 0)..]
      else s[(if start < |s| then start else |s|)..]
  }

  /** Cutting an ordered history by a limit leaves an ordered tail of it. */
  lemma LimitedHistory(s: seq<Message>, limit: Option<int>)
    requires InHistoryOrder(s)
    ensures InHistoryOrder(ApplyLimit(s, limit))
    ensures forall m :: m in ApplyLimit(s, limit) ==> m in s
  {
    SuffixInHistoryOrder(s, |s| - |ApplyLimit(s, limit)|);
  }

  /** A tail of a history in order is in order, and holds only messages of that history. */
  lemma SuffixInHistoryOrder(s: seq<Message>, k: nat)
    requires InHistoryOrder(s) && k <= |s|
    ensures InHistoryOrder(s[k..])
    ensures forall m :: m in s[k..] ==> m in s
  {
    forall i, j | 0 <= i < j < |s| - k ensures Before(s[k..][i], s[k..][j]) {
      assert s[k..][i] == s[k + i] && s[k..][j] == s[k + j];
    }
  }

  // ---------------------------------------------------------------------
  // The demo data a new store starts with
  // ---------------------------------------------------------------------

  /** The demo account every request acts as. */
  const DemoUser := User(1, "demo", "demo", Some("Alex"), Some("alex@example.com"))

  const SeedCategories := [
    Category(1, "Daily", "purple", 1),
    Category(2, "Work", "blue", 1),
    Category(3, "Personal", "purple", 1)]

  /** The descriptions of the demo tasks. */
  const RoutineTitle: string := "Morning routine"
  const MeetingTitle: string := "Team meeting"
  const AppointmentTitle: string := "Doctor's appointment"
  const ReportTitle: string := "Write daily report"
  const SlidesTitle: string := "Review presentation slides"
  const RoutineNote: string := "Complete morning meditation and exercise"
  const MeetingNote: string := "Weekly sprint planning with design team"
  const AppointmentNote: string := "Annual check-up"
  const ReportNote: string := "Include project updates"
  const SlidesNote: string := "Check for errors and improve visuals"

  /** The sample tasks, each at a fixed time on the day the store is created. */
  function SeedTasks(now: Instant): seq<Task> {
    [Task(1, RoutineTitle, Some(RoutineNote), SetHours(now, 7, 0), false, Some(1), 1),
     Task(2, MeetingTitle, Some(MeetingNote), SetHours(now, 10, 0), false, Some(2), 1),
     Task(3, AppointmentTitle, Some(AppointmentNote), SetHours(now, 14, 0), false, Some(3), 1),
     Task(4, ReportTitle, Some(ReportNote), SetHours(now, 16, 30), false, Some(2), 1),
     Task(5, SlidesTitle, Some(SlidesNote), SetHours(now, 9, 30), true, Some(2), 1)]
  }

  /** Of the demo tasks only the last, the slides review, is done. */
  lemma SeedTasksCompletion(now: Instant)
    ensures |SeedTasks(now)| == 5 && SeedTasks(now)[4].completed
    ensures forall k :: 0 <= k < 4 ==> !SeedTasks(now)[k].completed
  {
  }

  function SeedAlarms(now: Instant): seq<Alarm> {
    [Alarm(1, "Morning Workout", SetHours(now, 7, 0), Some("Daily"), true, 1),
     Alarm(2, "Meeting Reminder", SetHours(now, 10, 45), Some("Mon-Fri"), true, 1),
     Alarm(3, "Evening Meditation", SetHours(now, 21, 0), Some("Daily"), true, 1),
     Alarm(4, "Weekend Run", SetHours(now, 8, 30), Some("Sat-Sun"), false, 1)]
  }

  /** The lines of the demo conversation, in order. */
  const Welcome: string := "Hi there! I'm Aura, your personal AI assistant. How can I help you today?"
  const AppointmentRequest: string := "I need to schedule a doctor's appointment tomorrow at 2pm"
  const AppointmentReply: string := "I've added a task for your doctor's appointment tomorrow at 2:00 PM. Would you like me to set a reminder as well?"
  const ReminderRequest: string := "Yes, please set a reminder 30 minutes before"
  const ReminderReply: string := "I've set a reminder for 1:30 PM tomorrow. Anything else you need help with?"

  /** The sample conversation, all stamped `now`. */
  function SeedMessages(now: Instant): seq<Message> {
    [Message(1, Welcome, false, now, 1),
     Message(2, AppointmentRequest, true, now, 1),
     Message(3, AppointmentReply, false, now, 1),
     Message(4, ReminderRequest, true, now, 1),
     Message(5, ReminderReply, false, now, 1)]
  }

  /** The demo records are numbered 1, 2, ... in each collection. */
  lemma SeedNumbered(now: Instant)
    ensures IdsIncreasing([DemoUser], (u: User) => u.id, 2)
    ensures IdsIncreasing(SeedCategories, (c: Category) => c.id, 4)
    ensures IdsIncreasing(SeedTasks(now), (t: Task) => t.id, 6)
    ensures IdsIncreasing(SeedAlarms(now), (a: Alarm) => a.id, 5)
    ensures IdsIncreasing(SeedMessages(now), (m: Message) => m.id, 6)
  {
    NumberedFromOne([DemoUser], (u: User) => u.id);
    NumberedFromOne(SeedCategories, (c: Category) => c.id);
    SeedTasksNumbered(now);
    SeedAlarmsNumbered(now);
    SeedMessagesNumbered(now);
  }

  lemma SeedTasksNumbered(now: Instant)
    ensures IdsIncreasing(SeedTasks(now), (t: Task) => t.id, 6)
  {
    var s := SeedTasks(now);
    assert s[0].id == 1 && s[1].id == 2 && s[2].id == 3 && s[3].id == 4 && s[4].id == 5;
    NumberedFromOne(s, (t: Task) => t.id);
  }

  lemma SeedAlarmsNumbered(now: Instant)
    ensures IdsIncreasing(SeedAlarms(now), (a: Alarm) => a.id, 5)
  {
    var s := SeedAlarms(now);
    assert s[0].id == 1 && s[1].id == 2 && s[2].id == 3 && s[3].id == 4;
    NumberedFromOne(s, (a: Alarm) => a.id);
  }

  lemma SeedMessagesNumbered(now: Instant)
    ensures IdsIncreasing(SeedMessages(now), (m: Message) => m.id, 6)
  {
    var s := SeedMessages(now);
    assert s[0].id == 1 && s[1].id == 2 && s[2].id == 3 && s[3].id == 4 && s[4].id == 5;
    NumberedFromOne(s, (m: Message) => m.id);
  }

  /**
   * The demo conversation is shown as created: the sort leaves messages
   * with one timestamp in creation order.
   */
  lemma SeedHistoryInOrder(now: Instant)
    ensures SortByTime(SeedMessages(now)) == SeedMessages(now)
  {
    SortKeepsChronological(SeedMessages(now));
  }

  // ---------------------------------------------------------------------
  // MemStorage
  // ---------------------------------------------------------------------

  class MemStorage {
    var users: seq<User>
    var tasks: seq<Task>
    var alarms: seq<Alarm>
    var categories: seq<Category>
    var messages: seq<Message>

    /** The id the next `createUser` hands out (the source's `userId` counter). */
    var nextUserId: int
    var nextTaskId: int
    var nextAlarmId: int
    var nextCategoryId: int
    var nextMessageId: int

    /** Every collection's ids are fresh counter values, handed out in order. */
    predicate Valid()
      reads this
    {
      IdsIncreasing(users, (u: User) => u.id, nextUserId)
      && IdsIncreasing(tasks, (t: Task) => t.id, nextTaskId)
      && IdsIncreasing(alarms, (a: Alarm) => a.id, nextAlarmId)
      && IdsIncreasing(categories, (c: Category) => c.id, nextCategoryId)
      && IdsIncreasing(messages, (m: Message) => m.id, nextMessageId)
    }

    /**
     * A new store: the state left by starting every counter at 1 and then
     * creating the demo user, three categories, five tasks, four alarms and
     * five messages in turn, so each collection's ids run 1, 2, ...
     */
    constructor(now: Instant)
      ensures Valid()
      ensures users == [DemoUser] && categories == SeedCategories
      ensures tasks == SeedTasks(now) && alarms == SeedAlarms(now) && messages == SeedMessages(now)
      ensures nextUserId == 2 && nextCategoryId == 4 && nextTaskId == 6 && nextAlarmId == 5 && nextMessageId == 6
    {
      users, categories := [DemoUser], SeedCategories;
      tasks, alarms, messages := SeedTasks(now), SeedAlarms(now), SeedMessages(now);
      nextUserId, nextCategoryId, nextTaskId, nextAlarmId, nextMessageId := 2, 4, 6, 5, 6;
      new;
      SeedNumbered(now);
    }

    // -------------------------------------------------------------------
    // Users
    // -------------------------------------------------------------------

    /** `users.get(id)` */
    function GetUser(id: int): (r: Option<User>)
      reads this
      ensures r.Some? ==> r.value in users && r.value.id == id
      ensures r.None? ==> forall u :: u in users ==> u.id != id
    {
      Find(users, (u: User) => u.id == id)
    }

    /** `Array.from(users.values()).find(u => u.username === username)`: the earliest-created match. */
    function GetUserByUsername(username: string): (r: Option<User>)
      reads this
      ensures r.Some? ==> exists i :: (0 <= i < |users| && users[i] == r.value && r.value.username == username
        && forall j :: 0 <= j < i ==> users[j].username != username)
      ensures r.None? ==> forall u :: u in users ==> u.username != username
    {
      Find(users, (u: User) => u.username == username)
    }

    /** `createUser(user)`: no uniqueness check on the username. */
    method CreateUser(user: InsertUser) returns (newUser: User)
      requires Valid()
      modifies this`users, this`nextUserId
      ensures Valid()
      ensures newUser == User(old(nextUserId), user.username, user.password, user.name, user.email)
      ensures users == old(users) + [newUser] && nextUserId == old(nextUserId) + 1
    {
      var id := nextUserId;
      nextUserId := nextUserId + 1;
      newUser := User(id, user.username, user.password, user.name, user.email);
      AppendFreshId(users, (u: User) => u.id, id, newUser);
      users := users + [newUser];
    }

    // -------------------------------------------------------------------
    // Tasks
    // -------------------------------------------------------------------

    /** `getTasks(userId)`: that owner's tasks, in creation order. */
    function GetTasks(userId: int): (r: seq<Task>)
      reads this
      ensures forall t :: t in r <==> t in tasks && t.userId == userId
      ensures IsSubsequence(r, tasks)
    {
      FilterIsSubsequence(tasks, (t: Task) => t.userId == userId);
      Filter(tasks, (t: Task) => t.userId == userId)
    }

    /** `tasks.get(id)` */
    function GetTask(id: int): (r: Option<Task>)
      reads this
      ensures r.Some? ==> r.value in tasks && r.value.id == id
      ensures r.None? ==> forall t :: t in tasks ==> t.id != id
    {
      Find(tasks, (t: Task) => t.id == id)
    }

    /** `createTask(task, userId)` */
    method CreateTask(task: InsertTask, userId: int) returns (newTask: Task)
      requires Valid()
      modifies this`tasks, this`nextTaskId
      ensures Valid()
      ensures newTask == Task(old(nextTaskId), task.title, task.description, task.date, task.completed, task.categoryId, userId)
      ensures tasks == old(tasks) + [newTask] && nextTaskId == old(nextTaskId) + 1
    {
      var id := nextTaskId;
      nextTaskId := nextTaskId + 1;
      newTask := Task(id, task.title, task.description, task.date, task.completed, task.categoryId, userId);
      AppendFreshId(tasks, (t: Task) => t.id, id, newTask);
      tasks := tasks + [newTask];
    }

    /**
     * `updateTask(id, patch)`: a missing id changes nothing; otherwise the
     * task keeps its place, its id and its owner, and takes every field
     * the patch gives. Ownership is not checked.
     */
    method UpdateTask(id: int, patch: TaskPatch) returns (r: Option<Task>)
      requires Valid()
      modifies this`tasks
      ensures Valid()
      ensures match FirstIndex(old(tasks), (t: Task) => t.id == id)
        case None => r.None? && tasks == old(tasks)
        case Some(i) => r == Some(PatchTask(old(tasks)[i], patch)) && tasks == old(tasks)[i := r.value]
    {
      var i := FirstIndex(tasks, (t: Task) => t.id == id);
      if i.None? {
        return None;
      }
      var updated := PatchTask(tasks[i.value], patch);
      tasks := tasks[i.value := updated];
      r := Some(updated);
    }

    /** `deleteTask(id)`: true iff a task had that id; that one entry is removed. */
    method DeleteTask(id: int) returns (deleted: bool)
      requires Valid()
      modifies this`tasks
      ensures Valid()
      ensures deleted <==> exists t :: t in old(tasks) && t.id == id
      ensures match FirstIndex(old(tasks), (t: Task) => t.id == id)
        case None => tasks == old(tasks)
        case Some(i) => tasks == old(tasks)[..i] + old(tasks)[i + 1..]
      ensures forall t :: t in tasks ==> t.id != id
    {
      var i := FirstIndex(tasks, (t: Task) => t.id == id);
      if i.None? {
        return false;
      }
      RemoveKeepsIds(tasks, (t: Task) => t.id, nextTaskId, i.value);
      RemoveDropsKey(tasks, (t: Task) => t.id, nextTaskId, i.value);
      tasks := tasks[..i.value] + tasks[i.value + 1..];
      deleted := true;
    }

    // -------------------------------------------------------------------
    // Alarms
    // -------------------------------------------------------------------

    /** `getAlarms(userId)`: that owner's alarms, in creation order. */
    function GetAlarms(userId: int): (r: seq<Alarm>)
      reads this
      ensures forall a :: a in r <==> a in alarms && a.userId == userId
      ensures IsSubsequence(r, alarms)
    {
      FilterIsSubsequence(alarms, (a: Alarm) => a.userId == userId);
      Filter(alarms, (a: Alarm) => a.userId == userId)
    }

    /** `alarms.get(id)` */
    function GetAlarm(id: int): (r: Option<Alarm>)
      reads this
      ensures r.Some? ==> r.value in alarms && r.value.id == id
      ensures r.None? ==> forall a :: a in alarms ==> a.id != id
    {
      Find(alarms, (a: Alarm) => a.id == id)
    }

    /** `createAlarm(alarm, userId)` */
    method CreateAlarm(alarm: InsertAlarm, userId: int) returns (newAlarm: Alarm)
      requires Valid()
      modifies this`alarms, this`nextAlarmId
      ensures Valid()
      ensures newAlarm == Alarm(old(nextAlarmId), alarm.title, alarm.time, alarm.days, alarm.isActive, userId)
      ensures alarms == old(alarms) + [newAlarm] && nextAlarmId == old(nextAlarmId) + 1
    {
      var id := nextAlarmId;
      nextAlarmId := nextAlarmId + 1;
      newAlarm := Alarm(id, alarm.title, alarm.time, alarm.days, alarm.isActive, userId);
      AppendFreshId(alarms, (a: Alarm) => a.id, id, newAlarm);
      alarms := alarms + [newAlarm];
    }

    /** `updateAlarm(id, patch)`, as `updateTask`. */
    method UpdateAlarm(id: int, patch: AlarmPatch) returns (r: Option<Alarm>)
      requires Valid()
      modifies this`alarms
      ensures Valid()
      ensures match FirstIndex(old(alarms), (a: Alarm) => a.id == id)
        case None => r.None? && alarms == old(alarms)
        case Some(i) => r == Some(PatchAlarm(old(alarms)[i], patch)) && alarms == old(alarms)[i := r.value]
    {
      var i := FirstIndex(alarms, (a: Alarm) => a.id == id);
      if i.None? {
        return None;
      }
      var updated := PatchAlarm(alarms[i.value], patch);
      alarms := alarms[i.value := updated];
      r := Some(updated);
    }

    /** `deleteAlarm(id)`, as `deleteTask`. */
    method DeleteAlarm(id: int) returns (deleted: bool)
      requires Valid()
      modifies this`alarms
      ensures Valid()
      ensures deleted <==> exists a :: a in old(alarms) && a.id == id
      ensures match FirstIndex(old(alarms), (a: Alarm) => a.id == id)
        case None => alarms == old(alarms)
        case Some(i) => alarms == old(alarms)[..i] + old(alarms)[i + 1..]
      ensures forall a :: a in alarms ==> a.id != id
    {
      var i := FirstIndex(alarms, (a: Alarm) => a.id == id);
      if i.None? {
        return false;
      }
      RemoveKeepsIds(alarms, (a: Alarm) => a.id, nextAlarmId, i.value);
      RemoveDropsKey(alarms, (a: Alarm) => a.id, nextAlarmId, i.value);
      alarms := alarms[..i.value] + alarms[i.value + 1..];
      deleted := true;
    }

    // -------------------------------------------------------------------
    // Categories
    // -------------------------------------------------------------------

    /** `getCategories(userId)`: that owner's categories, in creation order. */
    function GetCategories(userId: int): (r: seq<Category>)
      reads this
      ensures forall c :: c in r <==> c in categories && c.userId == userId
      ensures IsSubsequence(r, categories)
    {
      FilterIsSubsequence(categories, (c: Category) => c.userId == userId);
      Filter(categories, (c: Category) => c.userId == userId)
    }

    /** `categories.get(id)` */
    function GetCategory(id: int): (r: Option<Category>)
      reads this
      ensures r.Some? ==> r.value in categories && r.value.id == id
      ensures r.None? ==> forall c :: c in categories ==> c.id != id
    {
      Find(categories, (c: Category) => c.id == id)
    }

    /** `createCategory(category, userId)` */
    method CreateCategory(category: InsertCategory, userId: int) returns (newCategory: Category)
      requires Valid()
      modifies this`categories, this`nextCategoryId
      ensures Valid()
      ensures newCategory == Category(old(nextCategoryId), category.name, category.color, userId)
      ensures categories == old(categories) + [newCategory] && nextCategoryId == old(nextCategoryId) + 1
    {
      var id := nextCategoryId;
      nextCategoryId := nextCategoryId + 1;
      newCategory := Category(id, category.name, category.color, userId);
      AppendFreshId(categories, (c: Category) => c.id, id, newCategory);
      categories := categories + [newCategory];
    }

    // -------------------------------------------------------------------
    // Messages
    // -------------------------------------------------------------------

    /** That owner's messages in creation order, before sorting. */
    function MessagesOf(userId: int): (r: seq<Message>)
      reads this
      requires Valid()
      ensures forall m :: m in r <==> m in messages && m.userId == userId
      ensures IdsAscending(r)
    {
      var r := Filter(messages, (m: Message) => m.userId == userId);
      FilterKeepsAscending(messages, userId);
      r
    }

    /**
     * `getMessages(userId, limit)`: that owner's messages in history order,
     * cut down by `limit`.
     */
    function GetMessages(userId: int, limit: Option<int>): (r: seq<Message>)
      reads this
      requires Valid()
      ensures forall m :: m in r ==> m in messages && m.userId == userId
      ensures InHistoryOrder(r)
      ensures limit.None? || limit == Some(0) ==> multiset(r) == multiset(MessagesOf(userId))
      ensures limit.Some? && limit.value > 0 ==>
        |r| == (if limit.value < |MessagesOf(userId)| then limit.value else |MessagesOf(userId)|)
      ensures r == ApplyLimit(SortByTime(MessagesOf(userId)), limit)
    {
      var all := SortByTime(MessagesOf(userId));
      SortByTimeOrdered(MessagesOf(userId));
      LimitedHistory(all, limit);
      forall m | m in all ensures m in messages && m.userId == userId {
        assert m in multiset(MessagesOf(userId));
      }
      ApplyLimit(all, limit)
    }

    /**
     * The messages `getMessages` keeps are the newest ones: a tail of the
     * owner's sorted history, the last `limit` of it for a positive limit,
     * and for a negative one the history without its first `-limit`.
     */
    lemma GetMessagesNewest(userId: int, limit: Option<int>)
      requires Valid()
      ensures var h, r := SortByTime(MessagesOf(userId)), GetMessages(userId, limit);
        && |r| <= |h| == |MessagesOf(userId)|
        && r == h[|h| - |r|..]
        && (limit.None? || limit == Some(0) ==> r == h)
        && (limit.Some? && limit.value > 0 ==> r == h[|h| - (if limit.value < |h| then limit.value else |h|)..])
        && (limit.Some? && limit.value < 0 ==> r == h[(if -limit.value < |h| then -limit.value else |h|)..])
    {
      var h := SortByTime(MessagesOf(userId));
      var r := GetMessages(userId, limit);
      assert r == ApplyLimit(h, limit);
    }

    /** `createMessage(message, userId)`, stamped with the current time `now`. */
    method CreateMessage(message: InsertMessage, userId: int, now: Instant) returns (newMessage: Message)
      requires Valid()
      modifies this`messages, this`nextMessageId
      ensures Valid()
      ensures newMessage == Message(old(nextMessageId), message.content, message.isUser, now, userId)
      ensures messages == old(messages) + [newMessage] && nextMessageId == old(nextMessageId) + 1
    {
      var id := nextMessageId;
      nextMessageId := nextMessageId + 1;
      newMessage := Message(id, message.content, message.isUser, now, userId);
      AppendFreshId(messages, (m: Message) => m.id, id, newMessage);
      messages := messages + [newMessage];
    }
  }

  /** Filtering by owner keeps the ascending id order. */
  lemma {:induction false} FilterKeepsAscending(ms: seq<Message>, userId: int)
    requires forall i, j :: 0 <= i < j < |ms| ==> ms[i].id < ms[j].id
    ensures IdsAscending(Filter(ms, (m: Message) => m.userId == userId))
  {
    if ms != [] {
      FilterKeepsAscending(ms[1..], userId);
      var rest := Filter(ms[1..], (m: Message) => m.userId == userId);
      forall k | 0 <= k < |rest| ensures ms[0].id < rest[k].id {
        assert rest[k] in ms[1..];
      }
    }
  }
}
