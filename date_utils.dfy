/**
 * The weekday helpers of the client's date utilities: comparing two
 * instants by calendar day, and the codec between an alarm's recurrence
 * descriptor ("Daily", "Mon-Fri", "Sat-Sun", "Mon, Wed, Fri", ...) and the
 * list of weekday numbers it stands for (0 is Sunday, 6 is Saturday).
 */
module DateUtils {
  import opened Wrappers
  import opened Text
  import opened Clock

  // ---------------------------------------------------------------------
  // isSameDay
  // ---------------------------------------------------------------------

  /**
   * `isSameDay`: equal date, month and year. Those three together name one
   * local calendar day, so they agree exactly when the day numbers do.
   */
  predicate IsSameDay(a: Instant, b: Instant) {
    a.day == b.day
  }

  /** Setting an in-range time of day stays on the same calendar day. */
  lemma SameDayAfterSetHours(t: Instant, h: int, m: int)
    requires 0 <= h < 24 && 0 <= m < 60
    ensures IsSameDay(SetHours(t, h, m), t)
  {
  }

  /** Moving by a non-zero number of days always leaves the day. */
  lemma NotSameDayAfterAddDays(t: Instant, n: int)
    requires n != 0
    ensures !IsSameDay(AddDays(t, n), t)
  {
  }

  // ---------------------------------------------------------------------
  // Weekday names
  // ---------------------------------------------------------------------

  const AllDays: seq<int> := [0, 1, 2, 3, 4, 5, 6]
  const Weekdays: seq<int> := [1, 2, 3, 4, 5]
  const Weekends: seq<int> := [0, 6]

  /** The labels `formatDaysToString` writes, indexed by weekday. */
  const DayLabels: seq<string> := ["Sun", "Mon", "Tue", "Wed", "Thu", "Fri", "Sat"]
  predicate InWeek(days: seq<int>) {
    forall k :: 0 <= k < |days| ==> 0 <= days[k] < 7
  }

  predicate StrictlyIncreasing(days: seq<int>) {
    forall i, j :: 0 <= i < j < |days| ==> days[i] < days[j]
  }

  /** The lookup table of the range branch: lower-case three-letter keys only. */
  function AbbreviationIndex(key: string): (r: Option<nat>)
    ensures r.Some? ==> r.value < 7
  {
    if key == "sun" then Some(0)
    else if key == "mon" then Some(1)
    else if key == "tue" then Some(2)
    else if key == "wed" then Some(3)
    else if key == "thu" then Some(4)
    else if key == "fri" then Some(5)
    else if key == "sat" then Some(6)
    else None
  }

  /** The lookup table of the comma branch: full lower-case names and three-letter keys. */
  function DayNameIndex(key: string): (r: Option<nat>)
    ensures r.Some? ==> r.value < 7
    ensures |key| == 3 ==> r == AbbreviationIndex(key)
  {
    if key == "sunday" || key == "sun" then Some(0)
    else if key == "monday" || key == "mon" then Some(1)
    else if key == "tuesday" || key == "tue" then Some(2)
    else if key == "wednesday" || key == "wed" then Some(3)
    else if key == "thursday" || key == "thu" then Some(4)
    else if key == "friday" || key == "fri" then Some(5)
    else if key == "saturday" || key == "sat" then Some(6)
    else None
  }

  /** The label written for a day, lower-cased, is that day's key in both tables. */
  lemma AbbreviationIndexOfLabel(d: int)
    requires 0 <= d < 7
    ensures |ToLower(DayLabels[d])| == 3
    ensures AbbreviationIndex(ToLower(DayLabels[d])) == Some(d)
    ensures DayNameIndex(ToLower(DayLabels[d])) == Some(d)
  {
    if d == 0 {
      assert ToLower("Sun") == "sun";
    } else if d == 1 {
      assert ToLower("Mon") == "mon";
    } else if d == 2 {
      assert ToLower("Tue") == "tue";
    } else if d == 3 {
      assert ToLower("Wed") == "wed";
    } else if d == 4 {
      assert ToLower("Thu") == "thu";
    } else if d == 5 {
      assert ToLower("Fri") == "fri";
    } else {
      assert ToLower("Sat") == "sat";
    }
  }

  // ---------------------------------------------------------------------
  // getDaysFromString
  // ---------------------------------------------------------------------

  /**
   * The days from `start` to `end` going forward round the week: the
   * `(end - start + 7) % 7 + 1` days `start, start+1, ...`, wrapping past
   * Saturday to Sunday.
   */
  function WeekRange(start: int, end: int): (r: seq<int>)
    requires 0 <= start < 7 && 0 <= end < 7
    ensures |r| == (end - start + 7) % 7 + 1
    ensures r[0] == start && r[|r| - 1] == end
    ensures InWeek(r)
  {
    seq((end - start + 7) % 7 + 1, k requires k >= 0 => (start + k) % 7)
  }

  /** `s.toLowerCase().substring(0, 3)` */
  function Prefix3(s: string): string {
    var l := ToLower(s);
    if |l| <= 3 then l else l[..3]
  }

  /** The range branch: both sides of the first `-` start with a known day. */
  function HyphenRange(s: string): (r: Option<seq<int>>)
    requires '-' in s
  {
    var parts := Split(s, '-');
    var startIdx := AbbreviationIndex(Prefix3(parts[0]));
    var endIdx := AbbreviationIndex(Prefix3(parts[1]));
    if startIdx.Some? && endIdx.Some? then
      Some(WeekRange(startIdx.value, endIdx.value))
    else
      None
  }

  /** One token of a comma list: lower-cased, trimmed, then looked up. */
  function TokenDay(token: string): (r: Option<nat>)
    ensures r.Some? ==> r.value < 7
  {
    DayNameIndex(Trim(ToLower(token)))
  }

  /** Each token of a comma list looked up in turn. */
  function TokenDays(tokens: seq<string>): (r: seq<Option<nat>>)
    ensures |r| == |tokens|
    ensures forall k :: 0 <= k < |tokens| ==> r[k] == TokenDay(tokens[k])
  {
    seq(|tokens|, k requires 0 <= k < |tokens| => TokenDay(tokens[k]))
  }

  /** The days found, in order, with the unknown tokens dropped. */
  function Found(keys: seq<Option<nat>>): (r: seq<int>)
    requires forall k :: 0 <= k < |keys| && keys[k].Some? ==> keys[k].value < 7
    ensures InWeek(r)
    ensures |r| <= |keys|
    ensures forall d :: d in r <==> exists k :: 0 <= k < |keys| && keys[k] == Some(d)
  {
    if keys == [] then []
    else
      var rest := Found(keys[1..]);
      assert forall k :: 1 <= k < |keys| ==> keys[k] == keys[1..][k - 1];
      match keys[0]
      case Some(d) => [d] + rest
      case None => rest
  }

  /** A found key gives its day and an unknown one gives nothing. */
  lemma FoundSingle(key: Option<nat>)
    requires key.Some? ==> key.value < 7
    ensures Found([key]) == if key.Some? then [key.value as int] else []
  {
    assert [key][1..] == [];
  }

  /**
   * The lookups of two runs of tokens are found one after the other: with
   * `FoundSingle`, the found days are the known keys' days in token order.
   */
  lemma {:induction false} FoundAppend(a: seq<Option<nat>>, b: seq<Option<nat>>)
    requires forall k :: 0 <= k < |a| && a[k].Some? ==> a[k].value < 7
    requires forall k :: 0 <= k < |b| && b[k].Some? ==> b[k].value < 7
    ensures Found(a + b) == Found(a) + Found(b)
  {
    if a == [] {
      assert a + b == b;
    } else {
      assert (a + b)[0] == a[0] && (a + b)[1..] == a[1..] + b;
      FoundAppend(a[1..], b);
      if a[0].Some? {
        assert [a[0].value as int] + (Found(a[1..]) + Found(b)) == ([a[0].value as int] + Found(a[1..])) + Found(b);
      }
    }
  }

  /** The comma branch reads two runs of tokens one after the other. */
  lemma CommaDaysAppend(a: seq<string>, b: seq<string>)
    ensures CommaDays(a + b) == CommaDays(a) + CommaDays(b)
  {
    assert TokenDays(a + b) == TokenDays(a) + TokenDays(b);
    FoundAppend(TokenDays(a), TokenDays(b));
  }

  /** The comma branch: each token looked up; unknown ones dropped. */
  function CommaDays(tokens: seq<string>): (r: seq<int>)
    ensures InWeek(r)
    ensures |r| <= |tokens|
    ensures forall d :: d in r <==> exists k :: 0 <= k < |tokens| && TokenDay(tokens[k]) == Some(d)
  {
    Found(TokenDays(tokens))
  }

  /**
   * What `getDaysFromString` returns: the empty descriptor is no days; the
   * three keywords (any case) are fixed lists; a descriptor with a `-`
   * whose sides are known days is a range; otherwise one with a `,` is a
   * list; anything else is no days.
   */
  function DescriptorDays(s: string): seq<int> {
    if s == [] then []
    else if ToLower(s) == "daily" then AllDays
    else if ToLower(s) == "weekdays" then Weekdays
    else if ToLower(s) == "weekends" then Weekends
    else if '-' in s && HyphenRange(s).Some? then HyphenRange(s).value
    else if ',' in s then ListDays(s)
    else []
  }

  /** The comma branch applied to the whole descriptor. */
  function ListDays(s: string): (r: seq<int>)
    ensures InWeek(r)
  {
    CommaDays(Split(s, ','))
  }

  /** Every descriptor stands for weekday numbers only. */
  lemma DescriptorDaysInWeek(s: string)
    ensures InWeek(DescriptorDays(s))
  {
  }

  /**
   * The range loops of `getDaysFromString`: count up from `startIdx` to
   * `endIdx`, or, when `startIdx` is later in the week, up to Saturday and
   * then from Sunday to `endIdx`.
   */
  method BuildRange(startIdx: int, endIdx: int) returns (result: seq<int>)
    requires 0 <= startIdx < 7 && 0 <= endIdx < 7
    ensures result == WeekRange(startIdx, endIdx)
  {
    result := [];
    if startIdx <= endIdx {
      var i := startIdx;
      while i <= endIdx
        invariant startIdx <= i <= endIdx + 1
        invariant |result| == i - startIdx
        invariant forall k :: 0 <= k < |result| ==> result[k] == startIdx + k
      {
        result := result + [i];
        i := i + 1;
      }
    } else {
      var i := startIdx;
      while i < 7
        invariant startIdx <= i <= 7
        invariant |result| == i - startIdx
        invariant forall k :: 0 <= k < |result| ==> result[k] == startIdx + k
      {
        result := result + [i];
        i := i + 1;
      }
      i := 0;
      while i <= endIdx
        invariant 0 <= i <= endIdx + 1
        invariant |result| == 7 - startIdx + i
        invariant forall k :: 0 <= k < |result| ==> result[k] == if startIdx + k < 7 then startIdx + k else startIdx + k - 7
      {
        result := result + [i];
        i := i + 1;
      }
    }
    var range := WeekRange(startIdx, endIdx);
    Mod7(endIdx - startIdx + 7);
    assert |result| == |range|;
    forall k | 0 <= k < |result| ensures result[k] == range[k] {
      Mod7(startIdx + k);
    }
  }

  /** Reduction modulo 7 of a number below 14. */
  lemma Mod7(x: int)
    requires 0 <= x < 14
    ensures x % 7 == if x < 7 then x else x - 7
  {
  }

  /** `getDaysFromString(daysString)` */
  method GetDaysFromString(daysString: string) returns (days: seq<int>)
    ensures days == DescriptorDays(daysString)
    ensures InWeek(days)
  {
    DescriptorDaysInWeek(daysString);
    if daysString == [] {
      return [];
    }
    var lower := ToLower(daysString);
    if lower == "daily" {
      return AllDays;
    }
    if lower == "weekdays" {
      return Weekdays;
    }
    if lower == "weekends" {
      return Weekends;
    }
    if '-' in daysString {
      var parts := Split(daysString, '-');
      var startIdx := AbbreviationIndex(Prefix3(parts[0]));
      var endIdx := AbbreviationIndex(Prefix3(parts[1]));
      if startIdx.Some? && endIdx.Some? {
        days := BuildRange(startIdx.value, endIdx.value);
        return;
      }
    }
    if ',' in daysString {
      return ListDays(daysString);
    }
    return [];
  }

  // ---------------------------------------------------------------------
  // formatDaysToString
  // ---------------------------------------------------------------------

  /** `dayNames[d]`, where an index outside the week reads as `undefined` and joins as "". */
  function DayLabel(d: int): string {
    if 0 <= d < 7 then DayLabels[d] else ""
  }

  function Labels(days: seq<int>): (r: seq<string>)
    ensures |r| == |days|
    ensures forall k :: 0 <= k < |days| ==> r[k] == DayLabel(days[k])
  {
    seq(|days|, k requires 0 <= k < |days| => DayLabel(days[k]))
  }

  /** `formatDaysToString(days)` */
  function FormatDaysToString(days: seq<int>): string {
    if |days| == 0 then "Once"
    else if |days| == 7 then "Daily"
    else if |days| == 5 && (forall d :: d in Weekdays ==> d in days) then "Mon-Fri"
    else if |days| == 2 && (forall d :: d in Weekends ==> d in days) then "Weekends"
    else Join(Labels(days), ", ")
  }

  // ---------------------------------------------------------------------
  // What the parser reads back
  // ---------------------------------------------------------------------

  /** A range written with two day labels reads as that range round the week. */
  lemma {:induction false} LabelRange(a: int, b: int)
    requires 0 <= a < 7 && 0 <= b < 7
    ensures DescriptorDays(DayLabels[a] + "-" + DayLabels[b]) == WeekRange(a, b)
  {
    var s := DayLabels[a] + "-" + DayLabels[b];
    assert |ToLower(s)| == 7;
    assert s[3] == '-';
    assert '-' !in DayLabels[a] && '-' !in DayLabels[b];
    assert s == DayLabels[a] + ['-'] + DayLabels[b];
    SplitPrefix(DayLabels[a], DayLabels[b], '-');
    SplitNoSeparator(DayLabels[b], '-');
    assert Split(s, '-') == [DayLabels[a], DayLabels[b]];
    AbbreviationIndexOfLabel(a);
    AbbreviationIndexOfLabel(b);
  }

  lemma MonFri()
    ensures DescriptorDays("Mon-Fri") == [1, 2, 3, 4, 5]
  {
    var w := WeekRange(1, 5);
    assert w == [1, 2, 3, 4, 5] by {
      assert w[1] == 2 && w[2] == 3 && w[3] == 4;
    }
    LabelRange(1, 5);
    assert DayLabels[1] + "-" + DayLabels[5] == "Mon-Fri";
  }

  lemma SatSun()
    ensures DescriptorDays("Sat-Sun") == [6, 0]
  {
    var w := WeekRange(6, 0);
    assert w == [6, 0];
    LabelRange(6, 0);
    assert DayLabels[6] + "-" + DayLabels[0] == "Sat-Sun";
  }

  /** Each label after the first is written after ", ", so it splits off with a leading space. */
  function Spaced(parts: seq<string>): (r: seq<string>)
    ensures |r| == |parts|
    ensures forall k :: 0 <= k < |parts| ==> r[k] == " " + parts[k]
  {
    seq(|parts|, k requires 0 <= k < |parts| => " " + parts[k])
  }

  lemma {:induction false} SplitCommaJoin(pre: string, parts: seq<string>)
    requires |parts| >= 1
    requires ',' !in pre
    requires forall k :: 0 <= k < |parts| ==> ',' !in parts[k]
    ensures Split(pre + Join(parts, ", "), ',') == [pre + parts[0]] + Spaced(parts[1..])
    decreases |parts|
  {
    if |parts| == 1 {
      SplitNoSeparator(pre + parts[0], ',');
    } else {
      var rest := Join(parts[1..], ", ");
      assert pre + Join(parts, ", ") == (pre + parts[0]) + [','] + (" " + rest);
      SplitPrefix(pre + parts[0], " " + rest, ',');
      SplitCommaJoin(" ", parts[1..]);
      assert [" " + parts[1]] + Spaced(parts[2..]) == Spaced(parts[1..]);
    }
  }

  lemma {:induction false} NotInJoin(parts: seq<string>, sep: string, c: char)
    requires c !in sep
    requires forall k :: 0 <= k < |parts| ==> c !in parts[k]
    ensures c !in Join(parts, sep)
  {
    if |parts| > 1 {
      NotInJoin(parts[1..], sep, c);
    }
  }

  /** When every key is known, nothing is dropped. */
  lemma {:induction false} FoundAllKnown(keys: seq<Option<nat>>, days: seq<int>)
    requires InWeek(days) && |keys| == |days|
    requires forall k :: 0 <= k < |keys| ==> keys[k] == Some(days[k])
    ensures Found(keys) == days
  {
    if keys != [] {
      FoundAllKnown(keys[1..], days[1..]);
    }
  }

  /** A comma list whose every token names a day reads as those days, in order. */
  lemma CommaDaysOfKnown(tokens: seq<string>, days: seq<int>)
    requires InWeek(days) && |tokens| == |days|
    requires forall k :: 0 <= k < |tokens| ==> TokenDay(tokens[k]) == Some(days[k])
    ensures CommaDays(tokens) == days
  {
    FoundAllKnown(TokenDays(tokens), days);
  }

  lemma LabelToken(d: int)
    requires 0 <= d < 7
    ensures TokenDay(DayLabels[d]) == Some(d)
    ensures TokenDay(" " + DayLabels[d]) == Some(d)
  {
    AbbreviationIndexOfLabel(d);
    var key := ToLower(DayLabels[d]);
    TrimNoSpace(key);
    ToLowerAppend(" ", DayLabels[d]);
    assert ToLower(" ") == " ";
    TrimLeadingSpace(key);
  }

  /** A list of days written by the formatter reads back by the comma branch. */
  lemma ListFormatReadsBack(days: seq<int>)
    requires InWeek(days) && |days| >= 1
    ensures ListDays(Join(Labels(days), ", ")) == days
  {
    var tokens := ListTokens(days);
    SplitLabels(days);
    ListTokensReadBack(days);
    CommaDaysOfKnown(tokens, days);
  }

  /** The pieces a comma split cuts the formatter's list into. */
  function ListTokens(days: seq<int>): (r: seq<string>)
    requires |days| >= 1
    ensures |r| == |days| && r[0] == DayLabel(days[0])
    ensures forall k :: 1 <= k < |days| ==> r[k] == " " + DayLabel(days[k])
  {
    [Labels(days)[0]] + Spaced(Labels(days)[1..])
  }

  lemma SplitLabels(days: seq<int>)
    requires InWeek(days) && |days| >= 1
    ensures Split(Join(Labels(days), ", "), ',') == ListTokens(days)
  {
    var labels := Labels(days);
    forall k | 0 <= k < |labels| ensures ',' !in labels[k] {
      assert labels[k] in DayLabels;
    }
    SplitCommaJoin("", labels);
    assert "" + Join(labels, ", ") == Join(labels, ", ");
    assert "" + labels[0] == labels[0];
  }

  lemma ListTokensReadBack(days: seq<int>)
    requires InWeek(days) && |days| >= 1
    ensures |ListTokens(days)| == |days|
    ensures forall k :: 0 <= k < |days| ==> TokenDay(ListTokens(days)[k]) == Some(days[k])
  {
    var tokens := ListTokens(days);
    forall k | 0 <= k < |days| ensures TokenDay(tokens[k]) == Some(days[k]) {
      LabelToken(days[k]);
    }
  }

  /** A descriptor with a comma and no hyphen is read by the comma branch. */
  lemma CommaDescriptor(s: string, i: nat)
    requires i < |s| && s[i] == ','
    requires '-' !in s
    ensures DescriptorDays(s) == ListDays(s)
  {
    assert ToLower(s)[i] == ',';
    assert ',' !in "daily" && ',' !in "weekdays" && ',' !in "weekends";
  }

  lemma LabelsHaveNoHyphen(days: seq<int>)
    ensures forall k :: 0 <= k < |days| ==> '-' !in Labels(days)[k]
  {
    forall k | 0 <= k < |days| ensures '-' !in Labels(days)[k] {
      var d := days[k];
      assert DayLabel(d) in DayLabels || DayLabel(d) == "";
    }
  }

  /** The formatter's output for two or more days reaches the comma branch of the parser. */
  lemma ListFormatIsList(days: seq<int>)
    requires InWeek(days) && |days| >= 2
    ensures DescriptorDays(Join(Labels(days), ", ")) == ListDays(Join(Labels(days), ", "))
  {
    var labels := Labels(days);
    var s := Join(labels, ", ");
    var rest := Join(labels[1..], ", ");
    LabelsHaveNoHyphen(days);
    assert s == labels[0] + ", " + rest;
    assert s[|labels[0]|] == ',' by {
      assert s == labels[0] + (", " + rest);
    }
    NotInJoin(labels, ", ", '-');
    CommaDescriptor(s, |labels[0]|);
  }

  lemma {:induction false} FullWeekIsAllDays(days: seq<int>)
    requires InWeek(days) && StrictlyIncreasing(days) && |days| == 7
    ensures days == AllDays
  {
    assert days[0] < days[1] < days[2] < days[3] < days[4] < days[5] < days[6];
  }

  lemma {:induction false} WeekdaysAreMonToFri(days: seq<int>)
    requires InWeek(days) && StrictlyIncreasing(days) && |days| == 5
    requires forall d :: d in Weekdays ==> d in days
    ensures days == Weekdays
  {
    assert 1 in days && 2 in days && 3 in days && 4 in days && 5 in days;
    var i1 :| 0 <= i1 < 5 && days[i1] == 1;
    var i2 :| 0 <= i2 < 5 && days[i2] == 2;
    var i3 :| 0 <= i3 < 5 && days[i3] == 3;
    var i4 :| 0 <= i4 < 5 && days[i4] == 4;
    var i5 :| 0 <= i5 < 5 && days[i5] == 5;
    assert i1 < i2 < i3 < i4 < i5;
  }

  lemma {:induction false} WeekendIsSunSat(days: seq<int>)
    requires StrictlyIncreasing(days) && |days| == 2
    requires forall d :: d in Weekends ==> d in days
    ensures days == Weekends
  {
    assert 0 in days && 6 in days;
    assert days[0] < days[1];
  }

  /**
   * Formatting then parsing gives back any ascending list of weekdays,
   * except a single day.
   */
  /** The formatter's keywords read back as their fixed lists. */
  lemma KeywordsReadBack()
    ensures DescriptorDays("Daily") == AllDays
    ensures DescriptorDays("Weekends") == Weekends
  {
    assert ToLower("Daily") == "daily";
    assert ToLower("Weekends") == "weekends";
  }

  /** Every ascending list of weekdays but a single day survives formatting and parsing. */
  lemma FormatThenParse(days: seq<int>)
    requires InWeek(days) && StrictlyIncreasing(days) && |days| != 1
    ensures DescriptorDays(FormatDaysToString(days)) == days
  {
    if |days| == 0 {
      OnceIsNoDays();
    } else if |days| == 7 {
      FullWeekIsAllDays(days);
      KeywordsReadBack();
    } else if |days| == 5 && (forall d :: d in Weekdays ==> d in days) {
      WeekdaysAreMonToFri(days);
      MonFri();
    } else if |days| == 2 && (forall d :: d in Weekends ==> d in days) {
      WeekendIsSunSat(days);
      KeywordsReadBack();
    } else {
      ListFormatIsList(days);
      ListFormatReadsBack(days);
    }
  }

  /** A single day is written as its bare label, which the parser reads as no days. */
  lemma SingleDayDoesNotRoundTrip()
    ensures FormatDaysToString([3]) == "Wed"
    ensures DescriptorDays("Wed") == []
  {
    assert Labels([3]) == ["Wed"];
    assert |ToLower("Wed")| == 3;
    assert '-' !in "Wed" && ',' !in "Wed";
  }

  // ---------------------------------------------------------------------
  // The parser as evidently intended: a bare day name is a one-day list
  // ---------------------------------------------------------------------

  /** `getDaysFromString` with the comma branch taken whether or not a `,` is present. */
  function CorrectedDescriptorDays(s: string): (r: seq<int>)
    ensures ',' in s ==> r == DescriptorDays(s)
    ensures InWeek(r)
  {
    if s == [] then []
    else if ToLower(s) == "daily" then AllDays
    else if ToLower(s) == "weekdays" then Weekdays
    else if ToLower(s) == "weekends" then Weekends
    else if '-' in s && HyphenRange(s).Some? then HyphenRange(s).value
    else ListDays(s)
  }

  /** The correction changes nothing where the parser as written finds any day. */
  lemma CorrectedAgrees(s: string)
    requires DescriptorDays(s) != []
    ensures CorrectedDescriptorDays(s) == DescriptorDays(s)
  {
  }

  /** "Once", the formatter's word for no days, reads as no days either way. */
  lemma OnceIsNoDays()
    ensures DescriptorDays("Once") == []
    ensures CorrectedDescriptorDays("Once") == []
  {
    assert '-' !in "Once" && ',' !in "Once";
    assert |ToLower("Once")| == 4;
    OnceIsNoToken();
    SplitNoSeparator("Once", ',');
    assert TokenDays(["Once"]) == [None];
    assert Found([None]) == [];
  }

  /** "Once" is no day name. */
  lemma OnceIsNoToken()
    ensures TokenDay("Once") == None
  {
    assert ToLower("Once") == "once";
    TrimNoSpace("once");
    assert |Trim("once")| == 4;
  }

  /** With the correction, a bare day label reads as that one day. */
  lemma SingleDayCorrected(d: int)
    requires 0 <= d < 7
    ensures CorrectedDescriptorDays(DayLabels[d]) == [d]
  {
    var name := DayLabels[d];
    assert |ToLower(name)| == 3 && '-' !in name;
    SplitNoSeparator(name, ',');
    LabelToken(d);
    CommaDaysOfKnown([name], [d]);
  }

  /** With the correction, every ascending list of weekdays survives formatting and parsing. */
  lemma CorrectedRoundTrip(days: seq<int>)
    requires InWeek(days) && StrictlyIncreasing(days)
    ensures CorrectedDescriptorDays(FormatDaysToString(days)) == days
  {
    if |days| == 0 {
      OnceIsNoDays();
    } else if |days| == 1 {
      assert FormatDaysToString(days) == DayLabels[days[0]];
      SingleDayCorrected(days[0]);
    } else {
      FormatThenParse(days);
      CorrectedAgrees(FormatDaysToString(days));
    }
  }
}
