/**
 * The records the server stores and the client shows: users, tasks,
 * alarms, categories and chat messages, each with the insert shape a
 * caller supplies (no `id`, no owner) and, for tasks and alarms, the
 * partial shape an update supplies.
 */
module Schema {
  import opened Wrappers
  import opened Clock

  datatype User = User(id: int, username: string, password: string, name: Option<string>, email: Option<string>)

  datatype InsertUser = InsertUser(username: string, password: string, name: Option<string>, email: Option<string>)

  /** A task; `description` and `categoryId` are nullable columns. */
  datatype Task = Task(
    id: int,
    title: string,
    description: Option<string>,
    date: Instant,
    completed: bool,
    categoryId: Option<int>,
    userId: int)

  datatype InsertTask = InsertTask(
    title: string,
    description: Option<string>,
    date: Instant,
    completed: bool,
    categoryId: Option<int>)

  /** `Partial<InsertTask>`: each field either absent or given (a nullable field may be given as null). */
  datatype TaskPatch = TaskPatch(
    title: Option<string>,
    description: Option<Option<string>>,
    date: Option<Instant>,
    completed: Option<bool>,
    categoryId: Option<Option<int>>)

  /** An alarm; `days` is a recurrence descriptor such as "Mon-Fri", and nullable. */
  datatype Alarm = Alarm(id: int, title: string, time: Instant, days: Option<string>, isActive: bool, userId: int)

  datatype InsertAlarm = InsertAlarm(title: string, time: Instant, days: Option<string>, isActive: bool)

  datatype AlarmPatch = AlarmPatch(
    title: Option<string>,
    time: Option<Instant>,
    days: Option<Option<string>>,
    isActive: Option<bool>)

  datatype Category = Category(id: int, name: string, color: string, userId: int)

  datatype InsertCategory = InsertCategory(name: string, color: string)

  datatype Message = Message(id: int, content: string, isUser: bool, timestamp: Instant, userId: int)

  datatype InsertMessage = InsertMessage(content: string, isUser: bool)

  /** `{ ...task, ...patch }`: every field the patch gives replaces the stored one. */
  function PatchTask(t: Task, p: TaskPatch): Task {
    Task(t.id, p.title.GetOr(t.title), p.description.GetOr(t.description), p.date.GetOr(t.date),
         p.completed.GetOr(t.completed), p.categoryId.GetOr(t.categoryId), t.userId)
  }

  /** `{ ...alarm, ...patch }` */
  function PatchAlarm(a: Alarm, p: AlarmPatch): Alarm {
    Alarm(a.id, p.title.GetOr(a.title), p.time.GetOr(a.time), p.days.GetOr(a.days), p.isActive.GetOr(a.isActive), a.userId)
  }

  /** The patch that gives nothing. */
  const EmptyTaskPatch := TaskPatch(None, None, None, None, None)

  /** An empty patch changes nothing; a patch applied twice is applied once. */
  lemma PatchTaskLaws(t: Task, p: TaskPatch)
    ensures PatchTask(t, EmptyTaskPatch) == t
    ensures PatchTask(PatchTask(t, p), p) == PatchTask(t, p)
  {
  }
}
