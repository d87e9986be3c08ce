/**
 * The client-side task extractor (`extractTaskInformation`): a title, the
 * description, and a date and a 24-hour "HH:MM" time read from free text
 * typed into the chat box.
 */
module Extractor {
  import opened Wrappers
  import opened Text
  import opened Clock

  // ---------------------------------------------------------------------
  // The title: the first sentence, or the first five words
  // ---------------------------------------------------------------------

  /**
   * `i` ends a first sentence as `/^(.*?)[.!?](?:\s|$)/` sees it: `text[i]`
   * is `.`, `!` or `?`, it is followed by white space or the end of the
   * text, and no line terminator comes before it (`.` does not match one).
   */
  predicate SentenceEndAt(text: string, i: int) {
    0 <= i < |text|
    && (text[i] == '.' || text[i] == '!' || text[i] == '?')
    && (i + 1 == |text| || IsSpace(text[i + 1]))
    && forall j :: 0 <= j < i ==> !IsLineTerminator(text[j])
  }

  /**
   * The lazy `(.*?)` tries the shortest prefix first: the match ends at the
   * first sentence end at or after `k`, unless a line terminator comes first.
   */
  function FindSentenceEnd(text: string, k: nat): (r: Option<nat>)
    requires k <= |text|
    requires forall j :: 0 <= j < k ==> !IsLineTerminator(text[j])
    ensures r.Some? ==> k <= r.value && SentenceEndAt(text, r.value)
    ensures r.Some? ==> forall j :: k <= j < r.value ==> !SentenceEndAt(text, j)
    ensures r.None? ==> forall j :: k <= j ==> !SentenceEndAt(text, j)
    decreases |text| - k
  {
    if k == |text| then None
    else if SentenceEndAt(text, k) then Some(k)
    else if IsLineTerminator(text[k]) then None
    else FindSentenceEnd(text, k + 1)
  }

  /** Where the first-sentence pattern matches, if it does: the smallest sentence end. */
  function FirstSentenceEnd(text: string): (r: Option<nat>)
    ensures r.Some? ==> SentenceEndAt(text, r.value)
    ensures r.Some? ==> forall j :: 0 <= j < r.value ==> !SentenceEndAt(text, j)
    ensures r.None? ==> forall j :: !SentenceEndAt(text, j)
  {
    FindSentenceEnd(text, 0)
  }

  /** `words.slice(0, 5).join(' ') + (words.length > 5 ? '...' : '')` */
  function WordsTitle(text: string): string {
    var words := Split(text, ' ');
    if |words| > 5 then Join(words[..5], " ") + "..." else Join(words, " ")
  }

  /** The title rule: a first sentence shorter than 50 characters, trimmed; else the first words. */
  function Title(text: string): string {
    var m := FirstSentenceEnd(text);
    if m.Some? && m.value < 50 then Trim(text[..m.value]) else WordsTitle(text)
  }

  /** A text that opens with a short sentence gets that sentence, trimmed, as its title. */
  lemma TitleOfShortSentence(text: string, i: nat)
    requires SentenceEndAt(text, i) && i < 50
    requires forall j :: 0 <= j < i ==> !SentenceEndAt(text, j)
    ensures Title(text) == Trim(text[..i])
    ensures |Title(text)| < 50
  {
    TrimIsSlice(text[..i]);
  }

  /** A joined prefix of the pieces is a prefix of the joined whole. */
  lemma {:induction false} JoinPrefix(parts: seq<string>, k: nat, sep: string)
    requires 1 <= k <= |parts|
    ensures Join(parts[..k], sep) <= Join(parts, sep)
  {
    if k < |parts| {
      var rest := Join(parts[1..], sep);
      assert Join(parts, sep) == parts[0] + sep + rest;
      if k == 1 {
        assert parts[..1] == [parts[0]];
        assert (parts[0] + sep + rest)[..|parts[0]|] == parts[0];
        assert Join(parts[..1], sep) == parts[0];
      } else {
        JoinPrefix(parts[1..], k - 1, sep);
        assert parts[..k][1..] == parts[1..][..k - 1];
        var front := Join(parts[1..][..k - 1], sep);
        assert Join(parts[..k], sep) == parts[0] + sep + front;
        assert front == rest[..|front|];
        assert (parts[0] + sep + rest)[..|parts[0] + sep + front|] == parts[0] + sep + front;
      }
    } else {
      assert parts[..k] == parts;
    }
  }

  /**
   * With no usable first sentence, a text of at most five words is its own
   * title; a longer one gets its first five words, which are a proper
   * prefix of it, followed by "...".
   */
  lemma WordsTitleShape(text: string)
    ensures |Split(text, ' ')| <= 5 ==> WordsTitle(text) == text
    ensures |Split(text, ' ')| > 5 ==>
      var t := WordsTitle(text);
      |t| >= 3 && t[|t| - 3..] == "..." && t[..|t| - 3] < text
      && Split(t[..|t| - 3], ' ') == Split(text, ' ')[..5]
  {
    var words := Split(text, ' ');
    JoinSplit(text, ' ');
    if |words| > 5 {
      var t := WordsTitle(text);
      var p := Join(words[..5], " ");
      JoinPrefix(words, 5, " ");
      assert t[..|t| - 3] == p;
      assert Join(words, " ") == words[0] + " " + Join(words[1..], " ");
      JoinPrefix(words[1..], 4, " ");
      assert words[..5] == [words[0]] + words[1..][..4];
      assert p == words[0] + " " + Join(words[1..][..4], " ");
      JoinMoreIsLonger(words[1..], 4, " ");
      SplitJoin(words[..5], ' ');
    }
  }

  /** Joining more pieces with a non-empty separator gives a longer string. */
  lemma {:induction false} JoinMoreIsLonger(parts: seq<string>, k: nat, sep: string)
    requires 1 <= k < |parts| && |sep| >= 1
    ensures |Join(parts[..k], sep)| < |Join(parts, sep)|
  {
    if k == 1 {
      assert parts[..1] == [parts[0]];
    } else {
      JoinMoreIsLonger(parts[1..], k - 1, sep);
      assert parts[..k][1..] == parts[1..][..k - 1];
    }
  }

  // ---------------------------------------------------------------------
  // The time: `/(\d{1,2})(:\d{2})?\s*(am|pm|AM|PM)/`
  // ---------------------------------------------------------------------

  /** A recognised time: the hour and minute digits as read, and the suffix. */
  datatype TimeToken = TimeToken(hour: nat, minute: nat, suffix: Meridiem)

  /** The suffix at `i`, in exactly the four spellings the pattern lists. */
  function SuffixAt(s: string, i: nat): Option<Meridiem> {
    if i + 2 > |s| then None
    else if s[i..i + 2] == "am" || s[i..i + 2] == "AM" then Some(AM)
    else if s[i..i + 2] == "pm" || s[i..i + 2] == "PM" then Some(PM)
    else None
  }

  /**
   * The pattern tried at position `p`. Backtracking never helps it: giving
   * up the second digit, the minutes or some white space leaves a digit,
   * a `:` or white space where the suffix must start. So the match at `p`
   * is the greedy one: two digits if there are two, the minutes if there
   * are a `:` and two digits, all the white space, then the suffix.
   */
  function TimeAt(s: string, p: nat): (r: Option<TimeToken>)
    ensures r.Some? ==> p < |s| && IsDigit(s[p])
    ensures r.Some? ==> r.value.hour < 100 && r.value.minute < 100
  {
    if p >= |s| || !IsDigit(s[p]) then None
    else
      var n := if p + 1 < |s| && IsDigit(s[p + 1]) then 2 else 1;
      var q := p + n;
      var hasMinutes := q + 3 <= |s| && s[q] == ':' && IsDigit(s[q + 1]) && IsDigit(s[q + 2]);
      var e := if hasMinutes then q + 3 else q;
      var w := e + SpaceRun(s, e);
      match SuffixAt(s, w)
      case None => None
      case Some(m) =>
        DecimalValueBound(s[p..q]);
        if hasMinutes then DecimalValueBound(s[q + 1..q + 3]); Some(TimeToken(DecimalValue(s[p..q]), DecimalValue(s[q + 1..q + 3]), m))
        else Some(TimeToken(DecimalValue(s[p..q]), 0, m))
  }

  /** `text.match(...)` without the `g` flag: the leftmost position where the pattern matches. */
  function FirstTimeFrom(s: string, p: nat): (r: Option<(nat, TimeToken)>)
    requires p <= |s|
    ensures r.Some? ==> p <= r.value.0 && TimeAt(s, r.value.0) == Some(r.value.1)
    ensures r.Some? ==> forall q :: p <= q < r.value.0 ==> TimeAt(s, q).None?
    ensures r.None? ==> forall q :: p <= q ==> TimeAt(s, q).None?
    decreases |s| - p
  {
    if p == |s| then None
    else if TimeAt(s, p).Some? then Some((p, TimeAt(s, p).value))
    else FirstTimeFrom(s, p + 1)
  }

  /** `n.toString().padStart(2, '0')` */
  function Pad2(n: nat): string {
    var s := NatToString(n);
    if |s| < 2 then "0" + s else s
  }

  /** `${hours.padStart}:${minutes.padStart}` */
  function FormatHHMM(h: nat, m: nat): string {
    Pad2(h) + ":" + Pad2(m)
  }

  /** Below 100, the padded rendering is exactly two digits that read back as the number. */
  lemma Pad2ReadsBack(n: nat)
    requires n < 100
    ensures |Pad2(n)| == 2 && AllDigits(Pad2(n)) && DecimalValue(Pad2(n)) == n
  {
    var s := NatToString(n);
    if n < 10 {
      assert s == [('0' as int + n) as char];
      var t := "0" + s;
      assert t[..1] == "0";
      assert DecimalValue(t[..1]) == 0;
    } else {
      assert NatToString(n / 10) == [('0' as int + n / 10) as char];
      assert |s| == 2;
    }
  }

  /** An "HH:MM" string is read back by splitting at the colon. */
  lemma FormatHHMMReadsBack(h: nat, m: nat)
    requires h < 100 && m < 100
    ensures var t := FormatHHMM(h, m);
      |t| == 5 && t[2] == ':' && AllDigits(t[..2]) && AllDigits(t[3..])
      && DecimalValue(t[..2]) == h && DecimalValue(t[3..]) == m
  {
    Pad2ReadsBack(h);
    Pad2ReadsBack(m);
    var t := FormatHHMM(h, m);
    assert t[..2] == Pad2(h);
    assert t[3..] == Pad2(m);
  }

  /** Two readings that format alike were the same hour and minute. */
  lemma FormatHHMMInjective(h1: nat, m1: nat, h2: nat, m2: nat)
    requires h1 < 100 && m1 < 100 && h2 < 100 && m2 < 100
    requires FormatHHMM(h1, m1) == FormatHHMM(h2, m2)
    ensures h1 == h2 && m1 == m2
  {
    FormatHHMMReadsBack(h1, m1);
    FormatHHMMReadsBack(h2, m2);
  }

  // ---------------------------------------------------------------------
  // The day: `/(today|tomorrow|monday|...|sunday)/i`
  // ---------------------------------------------------------------------

  datatype DayWord = Today | Tomorrow | Named(weekday: nat)

  /**
   * The alternatives tried at position `p` of the lower-cased text. The
   * case-insensitive match of this all-ASCII pattern is a match on the
   * ASCII lower case.
   */
  function DayWordAt(lower: string, p: nat): (r: Option<DayWord>)
    ensures r.Some? && r.value.Named? ==> r.value.weekday < 7
  {
    if OccursAt(lower, "today", p) then Some(Today)
    else if OccursAt(lower, "tomorrow", p) then Some(Tomorrow)
    else if OccursAt(lower, "monday", p) then Some(Named(1))
    else if OccursAt(lower, "tuesday", p) then Some(Named(2))
    else if OccursAt(lower, "wednesday", p) then Some(Named(3))
    else if OccursAt(lower, "thursday", p) then Some(Named(4))
    else if OccursAt(lower, "friday", p) then Some(Named(5))
    else if OccursAt(lower, "saturday", p) then Some(Named(6))
    else if OccursAt(lower, "sunday", p) then Some(Named(0))
    else None
  }

  /** The leftmost day word at or after `p`. */
  function FirstDayWordFrom(lower: string, p: nat): (r: Option<(nat, DayWord)>)
    requires p <= |lower|
    ensures r.Some? ==> p <= r.value.0 && DayWordAt(lower, r.value.0) == Some(r.value.1)
    ensures r.Some? ==> forall q :: p <= q < r.value.0 ==> DayWordAt(lower, q).None?
    ensures r.None? ==> forall q :: p <= q ==> DayWordAt(lower, q).None?
    ensures r.Some? && r.value.1.Named? ==> r.value.1.weekday < 7
    decreases |lower| - p
  {
    if p == |lower| then
      assert forall q :: p <= q ==> DayWordAt(lower, q).None? by {
        forall q | p <= q ensures DayWordAt(lower, q).None? {
          assert !OccursAt(lower, "today", q);
        }
      }
      None
    else match DayWordAt(lower, p)
      case Some(w) => Some((p, w))
      case None => FirstDayWordFrom(lower, p + 1)
  }

  /** The weekday `k` days after weekday `current`. */
  function Ahead(current: int, k: int): int {
    (current + k) % 7
  }

  /**
   * `daysToAdd = target - current`, plus 7 when that is not positive: the
   * number of days to the next `target` weekday strictly after today.
   */
  function DaysUntil(target: nat, current: nat): (r: nat)
    requires target < 7 && current < 7
    ensures 1 <= r <= 7
    ensures Ahead(current, r) == target
    ensures forall k :: 1 <= k < r ==> Ahead(current, k) != target
  {
    var d := target - current;
    if d <= 0 then d + 7 else d
  }

  /** The date a day word stands for; the time of day is the current one. */
  function DayWordDate(now: Instant, w: DayWord): (r: Instant)
    requires w.Named? ==> w.weekday < 7
  {
    match w
    case Today => now
    case Tomorrow => AddDays(now, 1)
    case Named(d) => AddDays(now, DaysUntil(d, Weekday(now)))
  }

  /**
   * A named weekday is the next such day strictly after today, at the
   * current time of day: naming today's weekday means a week from now.
   */
  lemma NamedDayIsNextOccurrence(now: Instant, d: nat)
    requires d < 7
    ensures var r := DayWordDate(now, Named(d));
      Weekday(r) == d && 1 <= r.day - now.day <= 7 && r.ms == now.ms
      && forall k :: now.day < k < r.day ==> DayOfWeek(k) != d
    ensures Weekday(now) == d ==> DayWordDate(now, Named(d)).day == now.day + 7
  {
    var c := Weekday(now);
    var n := DaysUntil(d, c);
    WeekdayAddDays(now, n);
    forall k | now.day < k < now.day + n ensures DayOfWeek(k) != d {
      DayOfWeekAhead(now.day, k - now.day);
      assert DayOfWeek(k) == Ahead(c, k - now.day);
    }
  }

  // ---------------------------------------------------------------------
  // extractTaskInformation
  // ---------------------------------------------------------------------

  datatype TaskInfo = TaskInfo(title: string, description: string, date: Option<Instant>, time: Option<string>)

  /** The fields a recognised time sets: `time`, and `date` as today at that time. */
  function WithTime(info: TaskInfo, now: Instant, time: Option<(nat, TimeToken)>): TaskInfo {
    match time
    case None => info
    case Some((_, t)) =>
      var h := To24Hour(t.hour, Some(t.suffix));
      info.(time := Some(FormatHHMM(h, t.minute)), date := Some(SetHours(now, h, t.minute)))
  }

  /** The field a recognised day word sets: `date`, replacing any set before. */
  function WithDay(info: TaskInfo, now: Instant, word: Option<(nat, DayWord)>): TaskInfo
    requires word.Some? && word.value.1.Named? ==> word.value.1.weekday < 7
  {
    match word
    case None => info
    case Some((_, w)) => info.(date := Some(DayWordDate(now, w)))
  }

  /**
   * What `extractTaskInformation(text)` returns when every `new Date()` in
   * the call reads `now`.
   */
  function Extracted(text: string, now: Instant): TaskInfo {
    var info := TaskInfo(Title(text), text, None, None);
    WithDay(WithTime(info, now, FirstTimeFrom(text, 0)), now, FirstDayWordFrom(ToLower(text), 0))
  }

  /** `extractTaskInformation(text)`, its fields assigned one step at a time. */
  method ExtractTaskInformation(text: string, now: Instant) returns (result: TaskInfo)
    ensures result == Extracted(text, now)
  {
    result := TaskInfo(Title(text), text, None, None);
    var timeMatch := FirstTimeFrom(text, 0);
    var dateMatch := FirstDayWordFrom(ToLower(text), 0);
    ghost var initial := result;
    if timeMatch.Some? {
      var token := timeMatch.value.1;
      var hours := token.hour;
      var minutes := token.minute;
      if token.suffix == PM && hours < 12 {
        hours := hours + 12;
      }
      if token.suffix == AM && hours == 12 {
        hours := 0;
      }
      assert hours == To24Hour(token.hour, Some(token.suffix));
      result := result.(time := Some(FormatHHMM(hours, minutes)));
      var stamped := SetHours(now, hours, minutes);
      result := result.(date := Some(stamped));
    }
    assert result == WithTime(initial, now, timeMatch);
    ghost var timed := result;
    if dateMatch.Some? {
      var day := dateMatch.value.1;
      var today := now;
      if day == Tomorrow {
        today := AddDays(today, 1);
        result := result.(date := Some(today));
      } else if day != Today {
        var targetDay := day.weekday;
        var currentDay := Weekday(today);
        var daysToAdd := targetDay - currentDay;
        if daysToAdd <= 0 {
          daysToAdd := daysToAdd + 7;
        }
        assert daysToAdd == DaysUntil(targetDay, currentDay);
        today := AddDays(today, daysToAdd);
        result := result.(date := Some(today));
      } else {
        result := result.(date := Some(today));
      }
    }
    assert result == WithDay(timed, now, dateMatch);
  }

  // ---------------------------------------------------------------------
  // What the extractor promises
  // ---------------------------------------------------------------------

  /** A time is reported exactly when the pattern matches somewhere in the text. */
  lemma TimeIffMatch(text: string, now: Instant)
    ensures Extracted(text, now).time.Some? <==> exists p: nat :: TimeAt(text, p).Some?
  {
    var r := FirstTimeFrom(text, 0);
    if r.Some? {
      assert TimeAt(text, r.value.0).Some?;
    }
  }

  /** The time reported is the leftmost match, converted to 24 hours and written "HH:MM". */
  lemma TimeIsLeftmostMatch(text: string, now: Instant, p: nat, t: TimeToken)
    requires TimeAt(text, p) == Some(t)
    requires forall q :: 0 <= q < p ==> TimeAt(text, q).None?
    ensures Extracted(text, now).time == Some(FormatHHMM(To24Hour(t.hour, Some(t.suffix)), t.minute))
  {
    var r := FirstTimeFrom(text, 0);
    assert r.Some?;
    assert r.value.0 == p;
  }

  /**
   * The "HH:MM" string reads back as the converted hour and the minutes;
   * for a clock-face hour 1..12 and minutes below 60, without a day word,
   * the date is today at that time.
   */
  lemma TimeReadsBack(text: string, now: Instant, p: nat, t: TimeToken)
    requires FirstTimeFrom(text, 0) == Some((p, t))
    ensures var info := Extracted(text, now);
      var s := info.time.value;
      info.time.Some? && |s| == 5 && s[2] == ':' && AllDigits(s[..2]) && AllDigits(s[3..])
      && DecimalValue(s[..2]) == To24Hour(t.hour, Some(t.suffix)) && DecimalValue(s[3..]) == t.minute
    ensures 1 <= t.hour <= 12 && t.minute < 60 && FirstDayWordFrom(ToLower(text), 0).None? ==>
      var d := Extracted(text, now).date.value;
      d.day == now.day && HourOf(d) == To24Hour(t.hour, Some(t.suffix)) && MinuteOf(d) == t.minute
  {
    var h := To24Hour(t.hour, Some(t.suffix));
    assert h < 100 by {
      assert t.hour < 100;
    }
    FormatHHMMReadsBack(h, t.minute);
    if 1 <= t.hour <= 12 && t.minute < 60 {
      SetHoursReadBack(now, h, t.minute);
    }
  }

  /**
   * A day word decides the date, whatever time was found: the parsed time
   * of day survives only in `time`.
   */
  lemma DayWordDecidesDate(text: string, now: Instant, p: nat, w: DayWord)
    requires FirstDayWordFrom(ToLower(text), 0) == Some((p, w))
    ensures w.Named? ==> w.weekday < 7
    ensures Extracted(text, now).date == Some(DayWordDate(now, w))
    ensures Extracted(text, now).date.value.ms == now.ms
  {
    if w.Named? {
      NamedDayIsNextOccurrence(now, w.weekday);
    }
  }

  /** Without a time and without a day word, neither `date` nor `time` is set. */
  lemma NothingFoundNothingSet(text: string, now: Instant)
    requires forall p :: TimeAt(text, p).None?
    requires forall p :: DayWordAt(ToLower(text), p).None?
    ensures Extracted(text, now) == TaskInfo(Title(text), text, None, None)
  {
  }

  /** The suffix must be all lower or all upper case: "5Pm" has no time. */
  lemma MixedCaseSuffixIgnored()
    ensures forall p :: TimeAt("5Pm", p).None?
  {
    assert SpaceRun("5Pm", 1) == 0;
    assert "5Pm"[1..3] == "Pm";
  }

  /** "9:30am" and "2 PM" read as 09:30 and 14:00. */
  lemma TimeExamples()
    ensures TimeAt("9:30am", 0) == Some(TimeToken(9, 30, AM))
    ensures TimeAt("2 PM", 0) == Some(TimeToken(2, 0, PM))
  {
    var a := "9:30am";
    assert a[0..1] == "9" && a[2..4] == "30";
    assert DecimalValue("9") == 9;
    assert DecimalValue("3") == 3;
    assert DecimalValue("30") == 30;
    assert SpaceRun(a, 4) == 0;
    assert a[4..6] == "am";
    var b := "2 PM";
    assert b[0..1] == "2";
    assert DecimalValue("2") == 2;
    assert SpaceRun(b, 2) == 0;
    assert SpaceRun(b, 1) == 1;
    assert b[2..4] == "PM";
  }
}
