/**
 * The server's chat assistant (`generateAIResponse` and the
 * `/api/ai/chat` handler) and the defaults the settings routes fill in.
 *
 * A chat turn stores the user's message, works out a reply and at most
 * one new task or alarm, creates that entity, and stores the reply. With a
 * language model configured, the reply is the model's text and the entity
 * comes from a JSON block embedded in it; without one, a keyword scan of
 * the user's message decides. The model's reply, `JSON.parse`, `new
 * Date(string)` and `toLocaleTimeString` are parameters here.
 */
module Chat {
  import opened Wrappers
  import opened Text
  import opened Clock
  import opened Seqs
  import opened Schema
  import opened Storage

  // ---------------------------------------------------------------------
  // Intent: plain substring tests on the lower-cased message
  // ---------------------------------------------------------------------

  predicate HasTaskIntent(message: string) {
    var lower := ToLower(message);
    Contains(lower, "schedule") || Contains(lower, "task") || Contains(lower, "appointment")
    || Contains(lower, "meeting") || Contains(lower, "remind me to")
  }

  predicate HasAlarmIntent(message: string) {
    var lower := ToLower(message);
    Contains(lower, "alarm") || Contains(lower, "reminder") || Contains(lower, "wake me") || Contains(lower, "alert")
  }

  /** Both intents ignore case: a message and its lower-cased form classify alike. */
  lemma IntentsIgnoreCase(message: string)
    ensures HasTaskIntent(ToLower(message)) == HasTaskIntent(message)
    ensures HasAlarmIntent(ToLower(message)) == HasAlarmIntent(message)
  {
    ToLowerIdempotent(message);
  }

  /**
   * "remind me to" asks for a task while "reminder" asks for an alarm; a
   * message naming both a meeting and an alarm carries both intents.
   */
  lemma IntentExamples()
    ensures HasTaskIntent("Remind me to call Sam")
    ensures HasAlarmIntent("Set a reminder")
    ensures HasAlarmIntent("Wake me at 6am")
    ensures HasTaskIntent("Meeting alarm") && HasAlarmIntent("Meeting alarm")
  {
    assert OccursAt(ToLower("Remind me to call Sam"), "remind me to", 0);
    assert OccursAt(ToLower("Set a reminder"), "reminder", 6);
    assert OccursAt(ToLower("Wake me at 6am"), "wake me", 0);
    assert OccursAt(ToLower("Meeting alarm"), "meeting", 0);
    assert OccursAt(ToLower("Meeting alarm"), "alarm", 8);
  }

  // ---------------------------------------------------------------------
  // The time token: `/(\d{1,2})(:\d{2})?\s*(am|pm)?/i`
  // ---------------------------------------------------------------------

  /** The hour and minute digits as read, and the suffix if one follows. */
  datatype ClockTime = ClockTime(hour: nat, minute: nat, suffix: Option<Meridiem>)

  /** The suffix at `i`, in any case. */
  function ServerSuffixAt(s: string, i: nat): Option<Meridiem> {
    if i + 2 > |s| then None
    else
      var w := ToLower(s[i..i + 2]);
      if w == "am" then Some(AM) else if w == "pm" then Some(PM) else None
  }

  /**
   * The match starting at the digit `s[p]`. Everything after the first
   * digit is optional, so the pattern matches at the first digit of the
   * message, greedily: a second digit if there is one, then `:` and two
   * digits if they are there, then all the white space, then the suffix
   * if one is there.
   */
  function ServerTimeAt(s: string, p: nat): (r: ClockTime)
    requires p < |s| && IsDigit(s[p])
    ensures r.hour < 100 && r.minute < 100
  {
    var n := if p + 1 < |s| && IsDigit(s[p + 1]) then 2 else 1;
    var q := p + n;
    var hasMinutes := q + 3 <= |s| && s[q] == ':' && IsDigit(s[q + 1]) && IsDigit(s[q + 2]);
    var e := if hasMinutes then q + 3 else q;
    var suffix := ServerSuffixAt(s, e + SpaceRun(s, e));
    DecimalValueBound(s[p..q]);
    if hasMinutes then
      DecimalValueBound(s[q + 1..q + 3]);
      ClockTime(DecimalValue(s[p..q]), DecimalValue(s[q + 1..q + 3]), suffix)
    else ClockTime(DecimalValue(s[p..q]), 0, suffix)
  }

  /** `message.match(...)`: there is a match exactly when the message holds a digit, and it starts at the first one. */
  function ServerTime(s: string): (r: Option<ClockTime>)
    ensures r.None? <==> forall i :: 0 <= i < |s| ==> !IsDigit(s[i])
    ensures r.Some? ==> exists p :: (0 <= p < |s| && IsDigit(s[p]) && r.value == ServerTimeAt(s, p)
      && forall i :: 0 <= i < p ==> !IsDigit(s[i]))
  {
    match FirstIndex(s, IsDigit)
    case None => None
    case Some(p) => Some(ServerTimeAt(s, p))
  }

  /** The token is read at the first digit of the message. */
  lemma ServerTimeAtFirstDigit(s: string, p: nat)
    requires p < |s| && IsDigit(s[p])
    requires forall i :: 0 <= i < p ==> !IsDigit(s[i])
    ensures ServerTime(s) == Some(ServerTimeAt(s, p))
  {
    var p' :| 0 <= p' < |s| && IsDigit(s[p']) && ServerTime(s).value == ServerTimeAt(s, p')
      && forall i :: 0 <= i < p' ==> !IsDigit(s[i]);
    assert p' == p;
  }

  /** Unlike the client's scanner, the server takes a suffix in any case. */
  lemma ServerTimeAnyCase()
    ensures ServerTime("at 5Pm") == Some(ClockTime(5, 0, Some(PM)))
  {
    var c := "at 5Pm";
    AnyCaseToken();
    assert !IsDigit(c[0]) && !IsDigit(c[1]) && !IsDigit(c[2]);
    ServerTimeAtFirstDigit(c, 3);
  }

  lemma AnyCaseToken()
    ensures ServerTimeAt("at 5Pm", 3) == ClockTime(5, 0, Some(PM))
  {
    var c := "at 5Pm";
    assert c[3..4] == "5";
    assert DecimalValue("5") == 5 by {
      assert "5"[..0] == [];
    }
    assert c[4] != ':';
    assert SpaceRun(c, 4) == 0;
    assert ServerSuffixAt(c, 4) == Some(PM) by {
      assert c[4..6] == "Pm";
      assert ToLower("Pm") == "pm";
    }
  }

  lemma ServerTimeWithMinutes()
    ensures ServerTime("9:30 AM") == Some(ClockTime(9, 30, Some(AM)))
  {
    MinutesToken();
    ServerTimeAtFirstDigit("9:30 AM", 0);
  }

  lemma MinutesToken()
    ensures ServerTimeAt("9:30 AM", 0) == ClockTime(9, 30, Some(AM))
  {
    var b := "9:30 AM";
    assert !IsDigit(b[1]);
    assert b[0..1] == "9" && b[2..4] == "30";
    assert DecimalValue("9") == 9 by {
      assert "9"[..0] == [];
    }
    assert DecimalValue("30") == 30 by {
      assert "30"[..1] == "3" && "3"[..0] == [];
    }
    assert SpaceRun(b, 4) == 1 by {
      assert SpaceRun(b, 5) == 0;
    }
    assert ServerSuffixAt(b, 5) == Some(AM) by {
      assert b[5..7] == "AM";
      assert ToLower("AM") == "am";
    }
  }

  /**
   * The server reads the first digits of the message even when they belong
   * to a longer number, such as a room number: it keeps the first two digits
   * and then takes no suffix.
   */
  lemma ServerTimeTakesFirstNumber(s: string, p: nat)
    requires p + 3 <= |s| && IsDigit(s[p]) && IsDigit(s[p + 1]) && IsDigit(s[p + 2])
    requires forall i :: 0 <= i < p ==> !IsDigit(s[i])
    ensures ServerTime(s) == Some(ClockTime(DecimalValue(s[p..p + 2]), 0, None))
  {
    ThreeDigitsReadAsTwo(s, p);
    ServerTimeAtFirstDigit(s, p);
  }

  /** A run of three digits is cut after two, and no suffix is taken. */
  lemma ThreeDigitsReadAsTwo(s: string, p: nat)
    requires p + 3 <= |s| && IsDigit(s[p]) && IsDigit(s[p + 1]) && IsDigit(s[p + 2])
    ensures ServerTimeAt(s, p) == ClockTime(DecimalValue(s[p..p + 2]), 0, None)
  {
    assert SpaceRun(s, p + 2) == 0;
    assert ServerSuffixAt(s, p + 2) == None by {
      if p + 4 <= |s| {
        var w := ToLower(s[p + 2..p + 4]);
        assert w[0] == Lower(s[p + 2]) == s[p + 2];
        assert w != "am" && w != "pm" by {
          assert "am"[0] == 'a' && "pm"[0] == 'p';
        }
      }
    }
  }

  // ---------------------------------------------------------------------
  // The fallback path: no language model configured
  // ---------------------------------------------------------------------

  /** Something a chat turn creates. */
  datatype Creation = NewTask(task: InsertTask) | NewAlarm(alarm: InsertAlarm)

  /** What a chat turn decides: the reply to store and at most one entity. */
  datatype Outcome = Outcome(reply: string, creation: Option<Creation>)

  /** The fixed parts of the fallback replies. */
  const TaskAdded := "I've added a task for "
  const AlarmSet := "I've set an alarm for "
  const AnythingElse := ". Is there anything else you need?"

  const Clarification := "I understand you need assistance. Could you please provide more details about what you'd like me to help you with?"

  /**
   * The time a fallback entity is set for: `now`, with the hours and
   * minutes of the time token when there is one.
   */
  function FallbackTime(message: string, now: Instant): Instant {
    match ServerTime(message)
    case None => now
    case Some(t) => SetHours(now, To24Hour(t.hour, t.suffix), t.minute)
  }

  /** The fallback task's date: one day later when the message says "tomorrow" in any case. */
  function TaskDate(message: string, now: Instant): Instant {
    var t := FallbackTime(message, now);
    if Contains(ToLower(message), "tomorrow") then AddDays(t, 1) else t
  }

  /** `message.split(" ").slice(0, 4).join(" ") + "..."` */
  function FallbackTitle(message: string): string {
    var words := Split(message, ' ');
    Join(words[..if |words| < 4 then |words| else 4], " ") + "..."
  }

  /**
   * The fallback title is the message's first four space-separated words
   * (or all of them, if fewer), followed by "...", whatever the length.
   */
  lemma FallbackTitleShape(message: string)
    ensures var t := FallbackTitle(message);
      var words := Split(message, ' ');
      |t| >= 3 && t[|t| - 3..] == "..."
      && Split(t[..|t| - 3], ' ') == words[..if |words| < 4 then |words| else 4]
  {
    var words := Split(message, ' ');
    var k := if |words| < 4 then |words| else 4;
    var head := Join(words[..k], " ");
    assert FallbackTitle(message) == head + "...";
    assert (head + "...")[..|head|] == head;
    SplitJoin(words[..k], ' ');
  }

  /** The fallback task for a message. */
  function FallbackTask(message: string, now: Instant): InsertTask {
    InsertTask(FallbackTitle(message), Some(message), TaskDate(message, now), false, Some(1))
  }

  /** The fallback alarm for a message: the same time, but "tomorrow" is not looked for. */
  function FallbackAlarm(message: string, now: Instant): InsertAlarm {
    InsertAlarm("Alarm", FallbackTime(message, now), Some("Once"), true)
  }

  /**
   * The keyword scan: a task when the message asks for one, otherwise an
   * alarm when it asks for one, otherwise only a request for details.
   * `timeLabel` is the locale's rendering of a time of day.
   */
  function FallbackOutcome(message: string, now: Instant, timeLabel: Instant -> string): Outcome {
    if HasTaskIntent(message) then
      var task := FallbackTask(message, now);
      Outcome(TaskAdded + task.title + " at " + timeLabel(task.date) + AnythingElse,
              Some(NewTask(task)))
    else if HasAlarmIntent(message) then
      var alarm := FallbackAlarm(message, now);
      Outcome(AlarmSet + timeLabel(alarm.time) + AnythingElse, Some(NewAlarm(alarm)))
    else Outcome(Clarification, None)
  }

  /**
   * The scan creates something exactly when the message has a task or an
   * alarm intent, a task when it has both, and otherwise only asks for
   * details.
   */
  lemma FallbackDecision(message: string, now: Instant, timeLabel: Instant -> string)
    ensures var r := FallbackOutcome(message, now, timeLabel);
      && (r.creation.Some? <==> HasTaskIntent(message) || HasAlarmIntent(message))
      && (HasTaskIntent(message) ==> r.creation == Some(NewTask(FallbackTask(message, now))))
      && (!HasTaskIntent(message) && HasAlarmIntent(message) ==> r.creation == Some(NewAlarm(FallbackAlarm(message, now))))
      && (r.creation.None? ==> r.reply == Clarification)
  {
  }

  /**
   * A clock-face time with a suffix sets that time of day on the current
   * day, or on the next day when the message says "tomorrow" (and that
   * only for tasks); without a time token the current time is kept.
   */
  lemma FallbackTimeOfDay(message: string, now: Instant, t: ClockTime)
    requires ServerTime(message) == Some(t)
    requires 1 <= t.hour <= 12 && t.minute < 60 && t.suffix.Some?
    ensures var at := FallbackTime(message, now);
      at.day == now.day && HourOf(at) == To24Hour(t.hour, t.suffix) && MinuteOf(at) == t.minute
    ensures TaskDate(message, now).day == now.day + (if Contains(ToLower(message), "tomorrow") then 1 else 0)
    ensures FallbackAlarm(message, now).time.day == now.day
  {
    SetHoursReadBack(now, To24Hour(t.hour, t.suffix), t.minute);
  }

  lemma NoTimeKeepsNow(message: string, now: Instant)
    requires forall i :: 0 <= i < |message| ==> !IsDigit(message[i])
    ensures FallbackTime(message, now) == now
  {
  }

  // ---------------------------------------------------------------------
  // The language-model path
  // ---------------------------------------------------------------------

  /**
   * `reply.match(/\{[\s\S]*\}/)`: from the first `{` to the last `}`, as
   * the greedy pattern takes it; no match when no `}` follows a `{`.
   */
  function JsonSpan(text: string): (r: Option<(nat, nat)>)
    ensures r.Some? ==> var (s, e) := r.value;
      s < e <= |text| && text[s] == '{' && text[e - 1] == '}'
      && (forall i :: 0 <= i < s ==> text[i] != '{')
      && (forall i :: e <= i < |text| ==> text[i] != '}')
    ensures r.None? <==> forall i, j :: 0 <= i < j < |text| ==> !(text[i] == '{' && text[j] == '}')
  {
    match FirstIndex(text, (c: char) => c == '{')
    case None => None
    case Some(s) =>
      match LastIndex(text, (c: char) => c == '}')
      case None => None
      case Some(last) => if s < last then Some((s, last + 1)) else None
  }

  /** The fields of the parsed block the code reads; each is absent when the block lacks it. */
  datatype Payload = Payload(
    kind: Option<string>,
    title: Option<string>,
    description: Option<string>,
    date: Option<string>,
    time: Option<string>,
    days: Option<string>,
    categoryId: Option<int>)

  /** A string field is truthy when present and not empty. */
  predicate Truthy(field: Option<string>) {
    field.Some? && field.value != ""
  }

  /** `field || fallback` on a string field. */
  function OrElse(field: Option<string>, fallback: string): (r: string)
    ensures Truthy(field) ==> r == field.value
    ensures !Truthy(field) ==> r == fallback
  {
    if Truthy(field) then field.value else fallback
  }

  /**
   * What a parsed block asks for: a task when its type is "task" and it
   * has a title and a date, an alarm when its type is "alarm" and it has a
   * title and a time. `toDate` is `new Date(string)`.
   */
  function PayloadCreation(data: Payload, toDate: string -> Instant): (r: Option<Creation>)
    ensures r.Some? && r.value.NewTask? <==> data.kind == Some("task") && Truthy(data.title) && Truthy(data.date)
    ensures r.Some? && r.value.NewAlarm? <==> data.kind == Some("alarm") && Truthy(data.title) && Truthy(data.time)
    ensures r.Some? && r.value.NewTask? ==> r.value.task.categoryId.Some? && r.value.task.categoryId.value != 0 && !r.value.task.completed
    ensures r.Some? && r.value.NewAlarm? ==> r.value.alarm.isActive && r.value.alarm.days.Some? && r.value.alarm.days.value != ""
  {
    if data.kind == Some("task") && Truthy(data.title) && Truthy(data.date) then
      var categoryId := if data.categoryId.None? || data.categoryId == Some(0) then 1 else data.categoryId.value;
      Some(NewTask(InsertTask(data.title.value, Some(OrElse(data.description, "")), toDate(data.date.value), false, Some(categoryId))))
    else if data.kind == Some("alarm") && Truthy(data.title) && Truthy(data.time) then
      Some(NewAlarm(InsertAlarm(data.title.value, toDate(data.time.value), Some(OrElse(data.days, "Once")), true)))
    else None
  }

  /** The text left when the span is cut out and the rest trimmed. */
  function WithoutSpan(text: string, s: nat, e: nat): string
    requires s <= e <= |text|
  {
    Trim(text[..s] + text[e..])
  }

  /**
   * The model path: the reply text (`content || ""`), and when the block
   * parses, the entity it asks for and the reply without the block.
   * `parse` is `JSON.parse`, `None` when it throws.
   */
  function ModelOutcome(content: Option<string>, parse: string -> Option<Payload>, toDate: string -> Instant): Outcome {
    var text := content.GetOr("");
    match JsonSpan(text)
    case None => Outcome(text, None)
    case Some((s, e)) =>
      match parse(text[s..e])
      case None => Outcome(text, None)
      case Some(data) => Outcome(WithoutSpan(text, s, e), PayloadCreation(data, toDate))
  }

  /**
   * Once the block is cut out, no `{ ... }` block is left: what stays in
   * front of it holds no `{`, and what stays after it holds no `}`.
   */
  lemma NoBlockLeft(text: string, s: nat, e: nat)
    requires JsonSpan(text) == Some((s, e))
    ensures JsonSpan(WithoutSpan(text, s, e)) == None
  {
    var rest := text[..s] + text[e..];
    var r := Trim(rest);
    assert NoBlock(r) by {
      RestHasNoBlock(text, s, e);
      TrimIsSlice(rest);
      var k := |rest| - |TrimStart(rest)|;
      SliceHasNoBlock(rest, k, |r|);
      assert r == rest[k..k + |r|];
    }
    NoBlockNoSpan(r);
  }

  lemma NoBlockNoSpan(t: string)
    requires NoBlock(t)
    ensures JsonSpan(t) == None
  {
  }

  /** No `{` comes before a `}` in `t`. */
  predicate NoBlock(t: string) {
    forall i, j :: 0 <= i < j < |t| ==> !(t[i] == '{' && t[j] == '}')
  }

  /** Around the span, every `{` is after where the span began and every `}` before it. */
  lemma RestHasNoBlock(text: string, s: nat, e: nat)
    requires JsonSpan(text) == Some((s, e))
    ensures NoBlock(text[..s] + text[e..])
  {
    var rest := text[..s] + text[e..];
    forall i | 0 <= i < s ensures rest[i] != '{' {
      assert rest[i] == text[i];
    }
    forall j | s <= j < |rest| ensures rest[j] != '}' {
      assert rest[j] == text[e + j - s];
    }
  }

  lemma SliceHasNoBlock(t: string, k: nat, n: nat)
    requires NoBlock(t) && k + n <= |t|
    ensures NoBlock(t[k..k + n])
  {
    var r := t[k..k + n];
    forall i, j | 0 <= i < j < |r| ensures !(r[i] == '{' && r[j] == '}') {
      assert r[i] == t[k + i] && r[j] == t[k + j];
    }
  }

  /**
   * A reply whose block parses: the block alone decides what is created,
   * and the stored reply is the rest, trimmed, with no block left in it.
   */
  lemma ParsedBlockDecides(content: Option<string>, parse: string -> Option<Payload>, toDate: string -> Instant)
    requires var text := content.GetOr("");
      JsonSpan(text).Some? && parse(text[JsonSpan(text).value.0..JsonSpan(text).value.1]).Some?
    ensures var text := content.GetOr("");
      var (s, e) := JsonSpan(text).value;
      var r := ModelOutcome(content, parse, toDate);
      && r.creation == PayloadCreation(parse(text[s..e]).value, toDate)
      && r.reply == WithoutSpan(text, s, e)
      && JsonSpan(r.reply) == None
  {
    var text := content.GetOr("");
    var (s, e) := JsonSpan(text).value;
    NoBlockLeft(text, s, e);
  }

  /** A reply whose block does not parse is kept word for word and creates nothing. */
  lemma UnparsedReplyKept(content: Option<string>, parse: string -> Option<Payload>, toDate: string -> Instant)
    requires var text := content.GetOr("");
      JsonSpan(text).None? || parse(text[JsonSpan(text).value.0..JsonSpan(text).value.1]).None?
    ensures ModelOutcome(content, parse, toDate) == Outcome(content.GetOr(""), None)
  {
  }

  // ---------------------------------------------------------------------
  // A chat turn against the store
  // ---------------------------------------------------------------------

  /** The language model as the turn meets it. */
  datatype Assistant =
    | Offline                          // no API key configured: the keyword scan decides
    | Failed                           // the completion request threw
    | Replied(content: Option<string>) // the reply's text, `None` for a null content

  /** The entity a turn reports as `createdEntity`. */
  datatype Entity = TaskCreated(task: Task) | AlarmCreated(alarm: Alarm)

  datatype Response =
    | Ok(message: Message, createdEntity: Option<Entity>)
    | Error(status: int, error: string)

  const NotAuthenticated := Error(401, "Not authenticated")
  const MessageRequired := Error(400, "Message is required")
  const GenerateFailed := Error(500, "Failed to generate AI response")

  /** What a turn decides, given a model that answered or none at all. */
  function TurnOutcome(message: string, now: Instant, assistant: Assistant, parse: string -> Option<Payload>,
                       toDate: string -> Instant, timeLabel: Instant -> string): Outcome
    requires !assistant.Failed?
  {
    if assistant.Offline? then FallbackOutcome(message, now, timeLabel)
    else ModelOutcome(assistant.content, parse, toDate)
  }

  /** The entity the store holds once a creation is carried out with the counters' values. */
  function Committed(c: Option<Creation>, nextTaskId: int, nextAlarmId: int, userId: int): Option<Entity> {
    match c
    case None => None
    case Some(NewTask(t)) => Some(TaskCreated(Task(nextTaskId, t.title, t.description, t.date, t.completed, t.categoryId, userId)))
    case Some(NewAlarm(a)) => Some(AlarmCreated(Alarm(nextAlarmId, a.title, a.time, a.days, a.isActive, userId)))
  }

  function TasksOf(e: Option<Entity>): seq<Task> {
    if e.Some? && e.value.TaskCreated? then [e.value.task] else []
  }

  function AlarmsOf(e: Option<Entity>): seq<Alarm> {
    if e.Some? && e.value.AlarmCreated? then [e.value.alarm] else []
  }

  /**
   * The model path of `generateAIResponse`: read the reply, and when its
   * block parses, create what it asks for and cut the block out.
   */
  method ModelTurn(store: MemStorage, content: Option<string>, userId: int,
                   parse: string -> Option<Payload>, toDate: string -> Instant)
    returns (aiResponse: string, createdEntity: Option<Entity>)
    requires store.Valid()
    modifies store`tasks, store`nextTaskId, store`alarms, store`nextAlarmId
    ensures store.Valid()
    ensures var o := ModelOutcome(content, parse, toDate);
      var e := Committed(o.creation, old(store.nextTaskId), old(store.nextAlarmId), userId);
      && aiResponse == o.reply && createdEntity == e
      && store.tasks == old(store.tasks) + TasksOf(e) && store.nextTaskId == old(store.nextTaskId) + |TasksOf(e)|
      && store.alarms == old(store.alarms) + AlarmsOf(e) && store.nextAlarmId == old(store.nextAlarmId) + |AlarmsOf(e)|
  {
    aiResponse := content.GetOr("");
    createdEntity := None;
    var jsonMatch := JsonSpan(aiResponse);
    if jsonMatch.Some? {
      var (s, e) := jsonMatch.value;
      var data := parse(aiResponse[s..e]);
      if data.Some? {
        createdEntity := Commit(store, PayloadCreation(data.value, toDate), userId);
        aiResponse := Trim(aiResponse[..s] + aiResponse[e..]);
        return;
      }
    }
    assert store.tasks == old(store.tasks) + [] && store.alarms == old(store.alarms) + [];
  }

  /**
   * `storage.createTask` or `storage.createAlarm` for what a turn asks
   * for, under the caller's user id; nothing when it asks for nothing.
   */
  method Commit(store: MemStorage, c: Option<Creation>, userId: int) returns (e: Option<Entity>)
    requires store.Valid()
    modifies store`tasks, store`nextTaskId, store`alarms, store`nextAlarmId
    ensures store.Valid()
    ensures e == Committed(c, old(store.nextTaskId), old(store.nextAlarmId), userId)
    ensures store.tasks == old(store.tasks) + TasksOf(e) && store.nextTaskId == old(store.nextTaskId) + |TasksOf(e)|
    ensures store.alarms == old(store.alarms) + AlarmsOf(e) && store.nextAlarmId == old(store.nextAlarmId) + |AlarmsOf(e)|
  {
    match c
    case None =>
      e := None;
      assert store.tasks == old(store.tasks) + [] && store.alarms == old(store.alarms) + [];
    case Some(NewTask(t)) =>
      var task := store.CreateTask(t, userId);
      e := Some(TaskCreated(task));
      assert store.alarms == old(store.alarms) + [];
    case Some(NewAlarm(a)) =>
      var alarm := store.CreateAlarm(a, userId);
      e := Some(AlarmCreated(alarm));
      assert store.tasks == old(store.tasks) + [];
  }

  /** The hour and minute `setHours` receives for a time token: the am/pm rule applied to the hour. */
  method TokenHours(t: ClockTime) returns (hours: nat, minutes: nat)
    ensures hours == To24Hour(t.hour, t.suffix) && minutes == t.minute
    ensures 1 <= t.hour <= 12 && t.suffix.Some? ==> hours < 24
  {
    hours := t.hour;
    minutes := t.minute;
    if t.suffix == Some(PM) && hours < 12 { hours := hours + 12; }
    if t.suffix == Some(AM) && hours == 12 { hours := 0; }
  }

  /** `new Date()`, then `setHours` with the time token of the message when it has one. */
  method TokenTime(message: string, now: Instant) returns (time: Instant)
    ensures time == FallbackTime(message, now)
  {
    var timeMatch := ServerTime(message);
    time := now;
    if timeMatch.Some? {
      var hours, minutes := TokenHours(timeMatch.value);
      time := SetHours(time, hours, minutes);
    }
  }

  /** The fallback path of `generateAIResponse`: the keyword scan, and the entity it asks for. */
  method FallbackTurn(store: MemStorage, userMessage: string, userId: int, now: Instant, timeLabel: Instant -> string)
    returns (aiResponse: string, createdEntity: Option<Entity>)
    requires store.Valid()
    modifies store`tasks, store`nextTaskId, store`alarms, store`nextAlarmId
    ensures store.Valid()
    ensures var o := FallbackOutcome(userMessage, now, timeLabel);
      var e := Committed(o.creation, old(store.nextTaskId), old(store.nextAlarmId), userId);
      && aiResponse == o.reply && createdEntity == e
      && store.tasks == old(store.tasks) + TasksOf(e) && store.nextTaskId == old(store.nextTaskId) + |TasksOf(e)|
      && store.alarms == old(store.alarms) + AlarmsOf(e) && store.nextAlarmId == old(store.nextAlarmId) + |AlarmsOf(e)|
  {
    var containsTaskIntent := HasTaskIntent(userMessage);
    var containsAlarmIntent := HasAlarmIntent(userMessage);
    var creation: Option<Creation> := None;
    if containsTaskIntent {
      var taskTime := TokenTime(userMessage, now);
      if Contains(ToLower(userMessage), "tomorrow") {
        taskTime := AddDays(taskTime, 1);
      }
      var title := FallbackTitle(userMessage);
      creation := Some(NewTask(InsertTask(title, Some(userMessage), taskTime, false, Some(1))));
      aiResponse := TaskAdded + title + " at " + timeLabel(taskTime) + AnythingElse;
    } else if containsAlarmIntent {
      var alarmTime := TokenTime(userMessage, now);
      creation := Some(NewAlarm(InsertAlarm("Alarm", alarmTime, Some("Once"), true)));
      aiResponse := AlarmSet + timeLabel(alarmTime) + AnythingElse;
    } else {
      aiResponse := Clarification;
    }
    assert Outcome(aiResponse, creation) == FallbackOutcome(userMessage, now, timeLabel);
    createdEntity := Commit(store, creation, userId);
  }

  /**
   * `generateAIResponse(userMessage, userId, res)`: decide the reply,
   * create the entity, then store the reply. A failed model request is
   * caught: the response is a 500 and nothing is written.
   */
  method GenerateAIResponse(store: MemStorage, userMessage: string, userId: int, now: Instant, assistant: Assistant,
                            parse: string -> Option<Payload>, toDate: string -> Instant, timeLabel: Instant -> string)
    returns (response: Response)
    requires store.Valid()
    modifies store`tasks, store`nextTaskId, store`alarms, store`nextAlarmId, store`messages, store`nextMessageId
    ensures store.Valid()
    ensures assistant.Failed? ==> (response == GenerateFailed
      && store.tasks == old(store.tasks) && store.alarms == old(store.alarms) && store.messages == old(store.messages)
      && store.nextTaskId == old(store.nextTaskId) && store.nextAlarmId == old(store.nextAlarmId)
      && store.nextMessageId == old(store.nextMessageId))
    ensures !assistant.Failed? ==>
      var o := TurnOutcome(userMessage, now, assistant, parse, toDate, timeLabel);
      var e := Committed(o.creation, old(store.nextTaskId), old(store.nextAlarmId), userId);
      var reply := Message(old(store.nextMessageId), o.reply, false, now, userId);
      && store.tasks == old(store.tasks) + TasksOf(e) && store.nextTaskId == old(store.nextTaskId) + |TasksOf(e)|
      && store.alarms == old(store.alarms) + AlarmsOf(e) && store.nextAlarmId == old(store.nextAlarmId) + |AlarmsOf(e)|
      && store.messages == old(store.messages) + [reply] && store.nextMessageId == old(store.nextMessageId) + 1
      && response == Ok(reply, e)
  {
    var aiResponse, createdEntity;
    if assistant.Failed? {
      return GenerateFailed;
    } else if assistant.Replied? {
      aiResponse, createdEntity := ModelTurn(store, assistant.content, userId, parse, toDate);
    } else {
      aiResponse, createdEntity := FallbackTurn(store, userMessage, userId, now, timeLabel);
    }
    var aiMessage := store.CreateMessage(InsertMessage(aiResponse, false), userId, now);
    response := Ok(aiMessage, createdEntity);
  }

  /**
   * `POST /api/ai/chat`: refuse an unauthenticated request or an empty
   * message before writing anything; otherwise store the user's message,
   * then run the turn, whose reply is stored after it.
   */
  method HandleChat(store: MemStorage, user: Option<int>, message: Option<string>, now: Instant, assistant: Assistant,
                    parse: string -> Option<Payload>, toDate: string -> Instant, timeLabel: Instant -> string)
    returns (response: Response)
    requires store.Valid()
    modifies store`tasks, store`nextTaskId, store`alarms, store`nextAlarmId, store`messages, store`nextMessageId
    ensures store.Valid()
    ensures user.None? || message.None? || message == Some("") ==>
      response == (if user.None? then NotAuthenticated else MessageRequired)
      && store.tasks == old(store.tasks) && store.alarms == old(store.alarms) && store.messages == old(store.messages)
      && store.nextTaskId == old(store.nextTaskId) && store.nextAlarmId == old(store.nextAlarmId)
      && store.nextMessageId == old(store.nextMessageId)
    ensures user.Some? && message.Some? && message.value != "" ==>
      var asked := Message(old(store.nextMessageId), message.value, true, now, user.value);
      if assistant.Failed? then
        response == GenerateFailed && store.messages == old(store.messages) + [asked]
        && store.tasks == old(store.tasks) && store.alarms == old(store.alarms)
        && store.nextTaskId == old(store.nextTaskId) && store.nextAlarmId == old(store.nextAlarmId)
        && store.nextMessageId == old(store.nextMessageId) + 1
      else
        var o := TurnOutcome(message.value, now, assistant, parse, toDate, timeLabel);
        var e := Committed(o.creation, old(store.nextTaskId), old(store.nextAlarmId), user.value);
        var reply := Message(old(store.nextMessageId) + 1, o.reply, false, now, user.value);
        && store.messages == old(store.messages) + [asked, reply] && store.nextMessageId == old(store.nextMessageId) + 2
        && store.tasks == old(store.tasks) + TasksOf(e) && store.nextTaskId == old(store.nextTaskId) + |TasksOf(e)|
        && store.alarms == old(store.alarms) + AlarmsOf(e) && store.nextAlarmId == old(store.nextAlarmId) + |AlarmsOf(e)|
        && response == Ok(reply, e)
  {
    if user.None? {
      return NotAuthenticated;
    }
    if message.None? || message.value == "" {
      return MessageRequired;
    }
    response := Converse(store, user.value, message.value, now, assistant, parse, toDate, timeLabel);
  }

  /** The handler past its checks: the user's message is stored, then the turn runs. */
  method Converse(store: MemStorage, userId: int, message: string, now: Instant, assistant: Assistant,
                  parse: string -> Option<Payload>, toDate: string -> Instant, timeLabel: Instant -> string)
    returns (response: Response)
    requires store.Valid()
    modifies store`tasks, store`nextTaskId, store`alarms, store`nextAlarmId, store`messages, store`nextMessageId
    ensures store.Valid()
    ensures var asked := Message(old(store.nextMessageId), message, true, now, userId);
      if assistant.Failed? then
        response == GenerateFailed && store.messages == old(store.messages) + [asked]
        && store.tasks == old(store.tasks) && store.alarms == old(store.alarms)
        && store.nextTaskId == old(store.nextTaskId) && store.nextAlarmId == old(store.nextAlarmId)
        && store.nextMessageId == old(store.nextMessageId) + 1
      else
        var o := TurnOutcome(message, now, assistant, parse, toDate, timeLabel);
        var e := Committed(o.creation, old(store.nextTaskId), old(store.nextAlarmId), userId);
        var reply := Message(old(store.nextMessageId) + 1, o.reply, false, now, userId);
        && store.messages == old(store.messages) + [asked, reply] && store.nextMessageId == old(store.nextMessageId) + 2
        && store.tasks == old(store.tasks) + TasksOf(e) && store.nextTaskId == old(store.nextTaskId) + |TasksOf(e)|
        && store.alarms == old(store.alarms) + AlarmsOf(e) && store.nextAlarmId == old(store.nextAlarmId) + |AlarmsOf(e)|
        && response == Ok(reply, e)
  {
    ghost var before := store.messages;
    var asked := store.CreateMessage(InsertMessage(message, true), userId, now);
    assert store.tasks == old(store.tasks) && store.alarms == old(store.alarms);
    assert store.nextTaskId == old(store.nextTaskId) && store.nextAlarmId == old(store.nextAlarmId);
    if assistant.Failed? {
      response := GenerateAIResponse(store, message, userId, now, assistant, parse, toDate, timeLabel);
    } else {
      ghost var o := TurnOutcome(message, now, assistant, parse, toDate, timeLabel);
      ghost var e := Committed(o.creation, store.nextTaskId, store.nextAlarmId, userId);
      response := GenerateAIResponse(store, message, userId, now, assistant, parse, toDate, timeLabel);
      assert response == Ok(response.message, e);
      assert before + [asked] + [response.message] == before + [asked, response.message];
    }
  }

  // ---------------------------------------------------------------------
  // Settings defaults
  // ---------------------------------------------------------------------

  datatype Settings = Settings(darkMode: bool, notifications: bool, aiSuggestions: bool, autoTaskCreation: bool, calendarSync: bool)

  /** The body of a settings update: each flag may be left out. */
  datatype SettingsPatch = SettingsPatch(
    darkMode: Option<bool>,
    notifications: Option<bool>,
    aiSuggestions: Option<bool>,
    autoTaskCreation: Option<bool>,
    calendarSync: Option<bool>)

  /** The settings `GET /api/settings` creates for a user who has none. */
  const DefaultSettings := Settings(true, true, true, true, false)

  /** The settings `PATCH /api/settings` creates for a user who has none: each flag given, or its default (`??`). */
  function InitialSettings(patch: SettingsPatch): Settings {
    Settings(patch.darkMode.GetOr(true), patch.notifications.GetOr(true), patch.aiSuggestions.GetOr(true),
             patch.autoTaskCreation.GetOr(true), patch.calendarSync.GetOr(false))
  }

  /** The patch that gives every flag of `s`. */
  function FullPatch(s: Settings): SettingsPatch {
    SettingsPatch(Some(s.darkMode), Some(s.notifications), Some(s.aiSuggestions), Some(s.autoTaskCreation), Some(s.calendarSync))
  }

  /**
   * An empty update creates the same settings as a first read; an update
   * giving every flag creates exactly those flags; and a flag that is
   * given (even `false`) always wins over its default.
   */
  lemma SettingsDefaults(patch: SettingsPatch, s: Settings)
    ensures InitialSettings(SettingsPatch(None, None, None, None, None)) == DefaultSettings
    ensures InitialSettings(FullPatch(s)) == s
    ensures patch.calendarSync.Some? ==> InitialSettings(patch).calendarSync == patch.calendarSync.value
    ensures patch.darkMode == Some(false) ==> !InitialSettings(patch).darkMode
  {
  }
}
