# IntelliTaskMate core, modelled in Dafny

IntelliTaskMate is a personal assistant. It keeps tasks, alarms, categories
and a chat history for each user. A chat endpoint passes the user's message
to a language model, or to a keyword fallback when no model is configured.
The endpoint may create a task or an alarm from the reply and stores both
sides of the conversation.

This project models the core of that system:

- **The in-memory store** (`MemStorage`, module `Storage`).
  - It is a class with one sequence field per collection and one id counter each.
  - The constructor seeds a demo user, three categories, five tasks, four alarms and five messages.
  - Ids are handed out by counters that count up from 1.
  - Message history is sorted by time and can be cut down by a `slice(-limit)`.
- **The chat turn** (module `Chat`).
  - `HandleChat` models the `/api/ai/chat` handler and `GenerateAIResponse` models the server's reply generator.
  - It covers intent detection, the server's time regular expression, the fallback task and alarm, and the JSON block in a model reply with its removal.
  - It also covers the values written into the store and the response sent back.
  - The settings defaults of the settings routes are modelled here too.
- **Day descriptors** (module `DateUtils`).
  - `getDaysFromString` parses "Daily", "Weekdays", "Weekends", hyphen ranges that wrap around the week, and comma lists.
  - `formatDaysToString` formats day lists, and `isSameDay` compares dates.
- **The client-side extractor** (module `Extractor`).
  - `extractTaskInformation` takes the title, the time and the day word out of free text.
- **The task page** (module `TasksPage`).
  - Its view filter ("all", "today", or a category id) and the completed/open split.
  - Its category lookup.

Supporting modules:

- `Text` holds the JavaScript string operations the core uses:
  - `toLowerCase`, `includes`, `split` and `join`, `trim`;
  - `\s`, `parseInt` and the number-to-string conversion.
- `Clock` models `Date` as a day number plus milliseconds into the day, with `setHours`, `setDate` and `getDay`.
- `Seqs` holds `filter`, `find` and the index searches.
- `Schema` holds the records of the shared schema.

Where an operation works by changing state, it is a method. The store's operations are methods of the class `MemStorage`, with field-level `modifies` clauses. The chat turn and the parser's loops are methods too. Each method is proved against a specification function, and the properties are proved about those functions.

## Model

| member | source | states |
|---|---|---|
| Clock.SetHours | client/src/shared/api/openai.ts:55 | the result's absolute time is the day's midnight plus h hours and m minutes; an hour in 0..23 and a minute in 0..59 keep the same day |
| Clock.AddDays | server/routes.ts:399-401 | moving by n days adds exactly n days, keeps the time of day and keeps the instant well formed |
| Clock.WeekdayAddDays | client/src/shared/api/openai.ts:71-75 | the weekday after adding n days is the old weekday plus n, modulo 7 |
| Clock.SetHoursReadBack | server/routes.ts:395 | after setting an in-range hour and minute, reading them back gives the same values |
| Clock.To24Hour | server/routes.ts:392-393 | without a suffix the hour is kept; with a suffix an hour 1..12 maps below 24: am below 12, pm at 12 or above |
| Clock.To24HourBijection | client/src/shared/api/openai.ts:50-51 | on 12-hour clock values the am/pm conversion is a bijection onto 0..23, with From24Hour as its inverse |
| Clock.To24HourExamples | server/routes.ts:392-393 | 2pm is 14, 9am is 9, 12am is 0, 12pm is 12, and "13pm" stays 13 |
| Seqs.Filter | client/src/pages/tasks/index.tsx:144 | the kept elements are exactly those of the input that pass, and the result is no longer than the input |
| Seqs.FilterIsSubsequence | server/storage.ts:197 | a filtered collection keeps the elements' original order |
| Seqs.FilterAppend | client/src/pages/tasks/index.tsx:148-149 | filtering a concatenation filters each part |
| Seqs.FilterPartition | client/src/pages/tasks/index.tsx:148-149 | filtering by a predicate and by its negation splits the input as a multiset, and the lengths add up |
| Seqs.FilterAll | client/src/pages/tasks/index.tsx:133-140 | a filter every element passes returns the input unchanged |
| Seqs.FilterNone | client/src/pages/tasks/index.tsx:148-149 | a filter no element passes returns the empty list |
| Seqs.Find | client/src/pages/tasks/index.tsx:158 | the result is the first element that passes; none means that no element passes |
| Seqs.FirstIndex | server/storage.ts:212-216 | the index of the first element that passes; none means that no element passes |
| Seqs.LastIndex | server/routes.ts:347 | the index of the last element that passes; none means that no element passes |
| Text.SpaceRun | server/routes.ts:384 | the longest run of white space at a position: all of it is white space, and what follows is not |
| Text.ToLowerIdempotent | server/routes.ts:312-321 | lower-casing twice is lower-casing once |
| Text.Contains | server/routes.ts:312-321 | a string contains a needle iff the needle occurs at some position |
| Text.JoinSplit | client/src/shared/api/openai.ts:32-33 | joining the pieces of a split with the separator rebuilds the string |
| Text.SplitJoin | server/routes.ts:404 | splitting a join of separator-free words gives back the words |
| Text.TrimIsSlice | server/routes.ts:375 | trim gives a contiguous slice with no white space at either end and only white space cut away |
| Text.DecimalValueBound | server/routes.ts:388-389 | one digit reads as a value below 10 and two digits as a value below 100 |
| Text.NatToString | client/src/pages/tasks/index.tsx:143 | the decimal rendering of a number is a non-empty digit string whose value is that number |
| Text.ParseIntDigits | server/routes.ts:388-389 | parseInt of a non-empty digit string is its decimal value |
| Text.ParseIntOfNatToString | client/src/pages/tasks/index.tsx:143 | parseInt of a number's decimal rendering gives the number back |
| Schema.PatchTaskLaws | server/storage.ts:215 | an empty patch changes nothing, and applying the same patch twice is the same as applying it once |
| Storage.AppendFreshId | server/storage.ts:204-208 | appending a record whose id is the counter keeps ids increasing, below the incremented counter |
| Storage.NumberedFromOne | server/storage.ts:60-176 | records numbered 1, 2, ... in order have increasing ids below the next counter value |
| Storage.RemoveKeepsIds | server/storage.ts:220-222 | deleting an entry keeps the remaining ids increasing and below the counter |
| Storage.RemoveDropsKey | server/storage.ts:220-222 | after deleting the entry with an id, no remaining entry has that id |
| Storage.InsertByTime | server/storage.ts:273 | inserting a message into a sorted history adds exactly that message |
| Storage.InsertByTimeOrdered | server/storage.ts:273 | inserting a message with a newer id keeps the history ordered by time, with ties in id order |
| Storage.SortByTime | server/storage.ts:273 | sorting by time is a permutation of the messages |
| Storage.SortByTimeOrdered | server/storage.ts:273 | messages in ascending id order come out sorted by timestamp, with equal timestamps keeping their insertion order (a stable sort) |
| Storage.SortKeepsChronological | server/storage.ts:273 | a history already in time order is left as it is |
| Storage.InsertLastInPlace | server/storage.ts:273 | a message no older than any other goes to the end |
| Storage.ApplyLimit | server/storage.ts:275-277 | no limit or 0 keeps everything; a positive limit keeps the newest min(limit, n); a negative limit drops the oldest min(-limit, n) |
| Storage.SeedHistoryInOrder | server/storage.ts:153-176 | the seeded conversation reads back from the history in the order it was written |
| Storage.FilterKeepsAscending | server/storage.ts:271-272 | filtering a history by owner keeps its ids ascending |
| Storage.SeedNumbered | server/storage.ts:53-177 | in the seeded collections the ids run 1, 2, ... and each counter stands one past its collection |
| Storage.MemStorage.constructor | server/storage.ts:53-177 | the store starts with the demo user, three categories, five tasks, four alarms and five messages, all numbered from 1; the counters stand one past each collection |
| Storage.MemStorage.GetUser | server/storage.ts:180-182 | the user with that id, or none when no user has it |
| Storage.MemStorage.GetUserByUsername | server/storage.ts:184-186 | the first user with that username in insertion order, or none when no user has it |
| Storage.MemStorage.CreateUser | server/storage.ts:188-193 | the new user gets the counter as its id and is appended; the counter goes up by one; ids stay increasing |
| Storage.MemStorage.GetTasks | server/storage.ts:196-198 | exactly the user's tasks, in insertion order |
| Storage.MemStorage.GetTask | server/storage.ts:200-202 | the task with that id, or none when no task has it |
| Storage.MemStorage.CreateTask | server/storage.ts:204-209 | the new task gets the counter as its id and the caller's user id and is appended; the counter goes up by one |
| Storage.MemStorage.UpdateTask | server/storage.ts:211-218 | an unknown id returns none and changes nothing; otherwise the patched task replaces the old one in place and is returned |
| Storage.MemStorage.DeleteTask | server/storage.ts:220-222 | returns true iff a task had the id; that task is removed, the others keep their order, and no task with the id remains |
| Storage.MemStorage.GetAlarms | server/storage.ts:225-227 | exactly the user's alarms, in insertion order |
| Storage.MemStorage.GetAlarm | server/storage.ts:229-231 | the alarm with that id, or none when no alarm has it |
| Storage.MemStorage.CreateAlarm | server/storage.ts:233-238 | the new alarm gets the counter as its id and the caller's user id and is appended; the counter goes up by one |
| Storage.MemStorage.UpdateAlarm | server/storage.ts:240-247 | an unknown id returns none and changes nothing; otherwise the patched alarm replaces the old one in place and is returned |
| Storage.MemStorage.DeleteAlarm | server/storage.ts:249-251 | returns true iff an alarm had the id; that alarm is removed, the others keep their order, and no alarm with the id remains |
| Storage.MemStorage.GetCategories | server/storage.ts:254-256 | exactly the user's categories, in insertion order |
| Storage.MemStorage.GetCategory | server/storage.ts:258-260 | the category with that id, or none when no category has it |
| Storage.MemStorage.CreateCategory | server/storage.ts:262-267 | the new category gets the counter as its id and is appended; the counter goes up by one |
| Storage.MemStorage.MessagesOf | server/storage.ts:271-272 | exactly the user's messages, with ids ascending |
| Storage.MemStorage.GetMessages | server/storage.ts:270-279 | only the user's stored messages, in time order; the result is `ApplyLimit` of the user's sorted history; without a limit all of them; with a positive limit min(limit, n) of them |
| Storage.MemStorage.GetMessagesNewest | server/storage.ts:270-279 | the result is always a tail of the user's sorted history: all of it with no limit or 0, the newest min(limit, n) for a positive limit, and the history without its first min(-limit, n) for a negative one |
| Storage.MemStorage.CreateMessage | server/storage.ts:281-291 | the new message gets the counter as its id, the current time and the user id, and is appended; the counter goes up by one |
| DateUtils.SameDayAfterSetHours | client/src/shared/lib/date-utils.ts:36-40 | setting an in-range time of day keeps the same calendar day |
| DateUtils.NotSameDayAfterAddDays | client/src/shared/lib/date-utils.ts:36-40 | moving by a non-zero number of days never gives the same day |
| DateUtils.AbbreviationIndexOfLabel | client/src/shared/lib/date-utils.ts:76-81 | each three-letter label, lower-cased, is found in both day maps at its own index |
| DateUtils.WeekRange | client/src/shared/lib/date-utils.ts:84-97 | a range runs from start to end, wrapping past Saturday, and has (end - start) mod 7 + 1 days, all in 0..6 |
| DateUtils.BuildRange | client/src/shared/lib/date-utils.ts:84-98 | the two push loops build exactly the wrapped week range |
| DateUtils.TokenDays | client/src/shared/lib/date-utils.ts:115-116 | each comma piece is looked up on its own, trimmed and lower-cased |
| DateUtils.Found | client/src/shared/lib/date-utils.ts:117 | the days found are in 0..6, no more of them than there were pieces, and a day is among them iff some lookup found it |
| DateUtils.FoundSingle | client/src/shared/lib/date-utils.ts:115-117 | one lookup gives its day when it found one and nothing when it did not |
| DateUtils.FoundAppend | client/src/shared/lib/date-utils.ts:115-117 | the lookups of two runs of pieces are found one after the other, so, with `FoundSingle`, unknown pieces are dropped and the order of the rest is kept |
| DateUtils.CommaDays | client/src/shared/lib/date-utils.ts:103-118 | a comma list yields days in 0..6, no more than it has pieces; a day is in the result iff some piece names it |
| DateUtils.CommaDaysAppend | client/src/shared/lib/date-utils.ts:103-118 | the comma branch reads two runs of pieces one after the other |
| DateUtils.ListDays | client/src/shared/lib/date-utils.ts:103-118 | a comma list parses to days of the week only |
| DateUtils.DescriptorDaysInWeek | client/src/shared/lib/date-utils.ts:55-121 | every parsed descriptor gives days in 0..6 |
| DateUtils.GetDaysFromString | client/src/shared/lib/date-utils.ts:55-121 | the parser gives exactly the descriptor's days, all in 0..6 |
| DateUtils.Labels | client/src/shared/lib/date-utils.ts:147-148 | each day is mapped to its own three-letter label |
| DateUtils.LabelRange | client/src/shared/lib/date-utils.ts:74-99 | "A-B" with two day labels parses to the wrapped range from A to B |
| DateUtils.MonFri | client/src/shared/lib/date-utils.ts:74-99 | "Mon-Fri" parses to Monday to Friday |
| DateUtils.SatSun | client/src/shared/lib/date-utils.ts:89-97 | "Sat-Sun" wraps round to Saturday then Sunday |
| DateUtils.SplitCommaJoin | client/src/shared/lib/date-utils.ts:104 | splitting a ", "-joined list on ',' gives the first label, then each later one with its leading space |
| DateUtils.NotInJoin | client/src/shared/lib/date-utils.ts:74 | a character in neither the parts nor the separator is not in their join |
| DateUtils.FoundAllKnown | client/src/shared/lib/date-utils.ts:115-117 | when every piece names a day, nothing is dropped |
| DateUtils.CommaDaysOfKnown | client/src/shared/lib/date-utils.ts:103-118 | pieces that all name days parse to exactly those days |
| DateUtils.LabelToken | client/src/shared/lib/date-utils.ts:105-116 | a label, with or without a leading space, reads back as its day |
| DateUtils.ListFormatReadsBack | client/src/shared/lib/date-utils.ts:103-148 | a formatted list of labels parses back to the same days |
| DateUtils.ListFormatIsList | client/src/shared/lib/date-utils.ts:55-120 | a formatted list of two or more days is taken by the comma branch, not by a keyword or a range |
| DateUtils.FullWeekIsAllDays | client/src/shared/lib/date-utils.ts:132-134 | a sorted, duplicate-free list of seven days is the whole week, so "Daily" reads it back |
| DateUtils.WeekdaysAreMonToFri | client/src/shared/lib/date-utils.ts:137-139 | five sorted distinct days holding Monday to Friday are exactly Monday to Friday |
| DateUtils.WeekendIsSunSat | client/src/shared/lib/date-utils.ts:142-144 | two sorted distinct days holding Sunday and Saturday are exactly those |
| DateUtils.FormatThenParse | client/src/shared/lib/date-utils.ts:55-149 | formatting a sorted, duplicate-free list of days, unless it has exactly one day, parses back to the same list |
| DateUtils.SingleDayDoesNotRoundTrip | client/src/shared/lib/date-utils.ts:103-120 | the list [Wednesday] formats as "Wed", which parses back to no days |
| DateUtils.CorrectedDescriptorDays | client/src/shared/lib/date-utils.ts:102-120 | the corrected parser agrees with the original on every comma list and gives days in 0..6 |
| DateUtils.CorrectedAgrees | client/src/shared/lib/date-utils.ts:55-121 | wherever the original parser finds days, the corrected one finds the same days |
| DateUtils.OnceIsNoDays | client/src/shared/lib/date-utils.ts:125 | "Once", the empty list's label, parses to no days under both parsers |
| DateUtils.SingleDayCorrected | client/src/shared/lib/date-utils.ts:147-148 | under the corrected parser, a single day's label reads back as that day |
| DateUtils.CorrectedRoundTrip | client/src/shared/lib/date-utils.ts:124-149 | under the corrected parser, every sorted duplicate-free list of days survives format-then-parse |
| Extractor.FindSentenceEnd | client/src/shared/api/openai.ts:28 | the first sentence end at or after a position, or none, on the first line |
| Extractor.FirstSentenceEnd | client/src/shared/api/openai.ts:28 | the leftmost position where the sentence pattern ends, or none when the pattern does not match |
| Extractor.TitleOfShortSentence | client/src/shared/api/openai.ts:28-30 | when the first sentence is shorter than 50 characters, the title is that sentence trimmed, and it is shorter than 50 |
| Extractor.JoinPrefix | client/src/shared/api/openai.ts:33 | joining the first k words is a prefix of joining them all |
| Extractor.WordsTitleShape | client/src/shared/api/openai.ts:31-34 | up to five words are kept as they are; more become the first five words followed by "..." |
| Extractor.JoinMoreIsLonger | client/src/shared/api/openai.ts:33 | joining more words with a non-empty separator is strictly longer |
| Extractor.TimeAt | client/src/shared/api/openai.ts:40 | a match of the time pattern has an hour and a minute below 100 |
| Extractor.FirstTimeFrom | client/src/shared/api/openai.ts:40 | the leftmost time match, or none when the pattern matches nowhere |
| Extractor.Pad2ReadsBack | client/src/shared/api/openai.ts:53 | zero-padding a number below 100 gives two digits that read back as the number |
| Extractor.FormatHHMMReadsBack | client/src/shared/api/openai.ts:53 | "HH:MM" is five characters whose two digit pairs read back as the hour and minute |
| Extractor.FormatHHMMInjective | client/src/shared/api/openai.ts:53 | different hours or minutes give different "HH:MM" strings |
| Extractor.DayWordAt | client/src/shared/api/openai.ts:41 | a recognised weekday word carries a weekday in 0..6 |
| Extractor.FirstDayWordFrom | client/src/shared/api/openai.ts:41 | the leftmost day word, or none when there is none |
| Extractor.DaysUntil | client/src/shared/api/openai.ts:71-73 | the number of days ahead is between 1 and 7, lands on the target weekday, and is the first that does |
| Extractor.NamedDayIsNextOccurrence | client/src/shared/api/openai.ts:66-77 | a weekday word gives the next occurrence of that weekday, one to seven days ahead, a full week when it is today |
| Extractor.ExtractTaskInformation | client/src/shared/api/openai.ts:14-84 | the imperative extraction gives exactly the title, description, time and date of the specification function |
| Extractor.TimeIffMatch | client/src/shared/api/openai.ts:40-57 | a time is reported iff the time pattern matches somewhere |
| Extractor.TimeIsLeftmostMatch | client/src/shared/api/openai.ts:40-53 | the reported time is the 24-hour form of the leftmost match |
| Extractor.TimeReadsBack | client/src/shared/api/openai.ts:45-57 | the reported time reads back as the converted hour and minute; without a day word the date is today at that time |
| Extractor.DayWordDecidesDate | client/src/shared/api/openai.ts:59-81 | a day word decides the date and overrides the time's date, keeping the current time of day |
| Extractor.NothingFoundNothingSet | client/src/shared/api/openai.ts:37-59 | with no time and no day word only the title and the description are set |
| Extractor.MixedCaseSuffixIgnored | client/src/shared/api/openai.ts:40 | "5Pm" has no time match, because the client pattern accepts only am, pm, AM or PM |
| Extractor.TimeExamples | client/src/shared/api/openai.ts:40-51 | "9:30am" matches as 9:30 am and "2 PM" as 2:00 pm |
| TasksPage.FilterByView | client/src/pages/tasks/index.tsx:129-145 | the shown tasks keep their order and come from the task list |
| TasksPage.AllShowsEverything | client/src/pages/tasks/index.tsx:141 | the "all" view shows every task |
| TasksPage.TodayShowsToday | client/src/pages/tasks/index.tsx:131-140 | the "today" view shows exactly the tasks dated on the current day |
| TasksPage.CategoryShowsCategory | client/src/pages/tasks/index.tsx:141-145 | a category id's view shows exactly the tasks of that category |
| TasksPage.UncategorisedNeverInCategory | client/src/pages/tasks/index.tsx:141-145 | a task without a category is never shown in a category view |
| TasksPage.SectionsPartitionShown | client/src/pages/tasks/index.tsx:148-151 | the completed and open sections split the shown tasks: together they are exactly the shown tasks, with the right flag in each |
| TasksPage.GetCategoryForTask | client/src/pages/tasks/index.tsx:157-159 | the first category with the task's id; none iff the task has no category id or none matches |
| TasksPage.SeededTodayShowsAll | server/storage.ts:83-121 | on the seeding day the "today" view shows all five seeded tasks |
| TasksPage.SeededTodaySections | server/storage.ts:83-121 | on the seeding day one seeded task is completed and four are open |
| Chat.IntentsIgnoreCase | server/routes.ts:312-321 | the task and alarm intents do not depend on letter case |
| Chat.IntentExamples | server/routes.ts:312-321 | "Remind me to call Sam" is a task; "Set a reminder" and "Wake me at 6am" are alarms; "Meeting alarm" is both |
| Chat.ServerTimeAt | server/routes.ts:384 | a token starting at a digit has at most two hour digits and two minute digits |
| Chat.ServerTime | server/routes.ts:384 | there is no time iff there is no digit; otherwise the token starts at a digit with none before it |
| Chat.ServerTimeAtFirstDigit | server/routes.ts:384 | the time token is the one read at the first digit |
| Chat.ServerTimeAnyCase | server/routes.ts:384-390 | "at 5Pm" reads as 5:00 pm, because the server pattern ignores case |
| Chat.ServerTimeWithMinutes | server/routes.ts:384-389 | "9:30 AM" reads as 9:30 am |
| Chat.AnyCaseToken | server/routes.ts:384 | the token read at the digit of "at 5Pm" is 5:00 with the pm suffix |
| Chat.MinutesToken | server/routes.ts:384 | the token read at the start of "9:30 AM" is 9:30 with the am suffix |
| Chat.ThreeDigitsReadAsTwo | server/routes.ts:384 | a run of three digits is read as its first two, with no minutes and no suffix |
| Chat.ServerTimeTakesFirstNumber | server/routes.ts:384 | when the message's first number has three digits (a room number, say), the time is its first two digits with no suffix |
| Chat.FallbackTitleShape | server/routes.ts:404 | the fallback title ends in "..." and its words are the message's first four |
| Chat.FallbackDecision | server/routes.ts:380-443 | something is created iff the message has a task or alarm intent; a task intent wins; the task and alarm carry the fallback values; otherwise the reply is the clarification |
| Chat.FallbackTimeOfDay | server/routes.ts:384-429 | a clock token with a suffix sets that hour and minute today; "tomorrow" moves only the task one day on; the alarm stays today |
| Chat.NoTimeKeepsNow | server/routes.ts:385-387 | with no digit in the message the time is the current instant |
| Chat.JsonSpan | server/routes.ts:347 | the match runs from the first '{' to the last '}'; it is none iff no '}' follows a '{' |
| Chat.OrElse | server/routes.ts:356 | a truthy string is kept, otherwise the fallback is used |
| Chat.PayloadCreation | server/routes.ts:353-372 | a task is created iff the type is "task" and the title and date are truthy; an alarm iff the type is "alarm" and the title and time are truthy; a task gets a non-zero category and is open; an alarm is active with non-empty days |
| Chat.NoBlockLeft | server/routes.ts:375 | after the JSON block is cut out and the rest trimmed, no block remains |
| Chat.ParsedBlockDecides | server/routes.ts:344-378 | when the block parses, the block alone decides the creation, and the reply is the rest, trimmed, with no block left in it |
| Chat.UnparsedReplyKept | server/routes.ts:347-379 | a reply whose block does not parse is returned as it is, with nothing created |
| Chat.ModelTurn | server/routes.ts:344-378 | the store gets exactly the task or alarm the reply asks for, and the reply is returned |
| Chat.TokenHours | server/routes.ts:388-393 | the am/pm adjustments give the 24-hour form of the token |
| Chat.TokenTime | server/routes.ts:384-396 | the imperative time computation gives the fallback time |
| Chat.Commit | server/routes.ts:354-373 | a task creation adds exactly that task with the next task id, an alarm creation exactly that alarm with the next alarm id, and nothing else is added; the store's numbering is kept |
| Chat.FallbackTurn | server/routes.ts:380-443 | the store gets exactly the fallback task or alarm, and the fallback reply is returned |
| Chat.GenerateAIResponse | server/routes.ts:309-463 | a failed model call answers 500 and leaves the store alone; otherwise the created entity and then the assistant's reply are stored and both are returned |
| Chat.Converse | server/routes.ts:210-215 | the user's message is stored first; a failed model call then leaves only that message added; otherwise the turn's entity is added and its reply stored right after the user's message; the message counter advances by one on failure and by two otherwise, and the task and alarm counters by the entity added |
| Chat.HandleChat | server/routes.ts:200-220 | no user answers 401 and an empty message 400, both leaving the collections and the id counters as they were; otherwise the user's message is stored first, then the turn's entity and reply, with the counters advanced to match |
| Chat.SettingsDefaults | server/routes.ts:276-291 | missing settings take the defaults (calendar sync off, the rest on); given values win, including false |

## Left out

- ASCII only: case mapping, `\d` and the day-name tables cover ASCII letters and digits; other Unicode letters are left unmapped.
- Clock: `Date` is a day number plus milliseconds into that day, with no time zone and no daylight-saving changes. Month and year are folded into the day number, so `isSameDay` compares day numbers.
- Clock: each `new Date()` in one request is modelled by one `now` parameter, so the several clock reads in a handler are taken to agree.
- Storage: the seeded messages are all stamped with the same `now`. The source stamps them with `new Date()` calls that run one after another.
- Storage: `tomorrow`, computed in the constructor and never used, is left out.
- Storage: `Map` is modelled by a sequence in insertion order, which is the order `Map.values()` yields. Promises and `async` are left out.
- Schema: column defaults (`completed`, `isActive`, `isUser`) are always present in the insert records. Request bodies are assumed to hold strings where the schema says so.
- Chat: `toLocaleTimeString` is the parameter `timeLabel`, `JSON.parse` the parameter `parse`, and `new Date(string)` the parameter `toDate`. An Invalid Date is not modelled.
- Chat: JSON fields of a type other than string (a numeric title, say) are not modelled. The payload fields are optional strings, and `categoryId` is an optional integer.
- Chat: the language model's call is the parameter `assistant`. `Offline` stands for no API key and `Failed` for a thrown exception.
- Chat: authentication is the optional `user` parameter, and HTTP plumbing is left out. The outer 500 "Failed to process message" is unreachable, because the reply generator catches every failure itself.
- Chat: the settings routes call `getUserSettings`, `createUserSettings` and `updateUserSettings`, which the in-memory store does not implement. Only the defaults those routes fill in are modelled.
- Chat.ServerTimeAt: the hour token is not bounded to 1..12 and may be 0 or above 12, as in the source. `setHours` then rolls the instant over into later days, which `Clock.SetHours` states; the properties of a well-formed time are proved only for tokens 1..12.
- Text.ParseInt: integers are unbounded, so precision loss above 2^53 is not modelled.
- DateUtils: the comma branch's map lookup also matches inherited names such as "constructor" or "__proto__". That is not modelled: such tokens count as unknown.
- TasksPage.FilterByView: the `if (!tasks) return []` guard for tasks still loading is left out. The model always has a task list.

## Findings

| source | as written | input that shows it | evidently intended | confidence | as-written member | corrected member |
|---|---|---|---|---|---|---|
| client/src/shared/lib/date-utils.ts:103-120 | a descriptor with neither a keyword, a hyphen nor a comma falls through to `[]` | the days `[3]` format as "Wed", which parses back to `[]` | every list that `formatDaysToString` writes parses back to itself; a single day's label should read as that day | not executed | DateUtils.SingleDayDoesNotRoundTrip | DateUtils.CorrectedRoundTrip |
