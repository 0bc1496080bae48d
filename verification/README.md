# Learner progress core of a 60-day lesson tracker, in Dafny

This project models the learner-progress logic of a 60-day lesson tracker. A
learner gets one lesson per calendar day. Completing a lesson is recorded in
the browser's durable store, and a streak of consecutive completed days is
derived from that record. The model covers four TypeScript modules:

- **Curriculum clock** (`src/utils/dateHelpers.ts`, module `DateHelpers`).
  A start ("anchor") date is stored lazily on first use. The current
  curriculum day is `max(1, elapsed days + 1)`, computed on calendar dates
  with the time of day stripped.
- **Completion ledger and user profile** (`src/utils/storageHelpers.ts`,
  module `StorageHelpers`). The ledger maps a day to `true`. The derived
  profile records the last completed day, the number of ledger entries and
  the streak ending at the completed day. This module also has the capped
  total, the rounded percentage and reset.
- **Playback checkpoints** (`src/utils/videoProgress.ts`, module
  `VideoProgress`). A table maps a video id to its last position, the time it
  was saved and the watched duration; the last write wins. This module also
  has `formatTime`.
- **Lesson scheduler** (`src/services/LessonScheduler.ts`, module
  `Scheduler`). It combines the above with a read-only lesson catalog.

`localStorage` is the class `LocalStore.Store`. It has one `Option` field per
key the app uses, and `None` means the key is absent. Each TypeScript module
becomes a Dafny module of functions and methods that take the store, as the
source's functions act on the global store. Reads that do not write are
functions with `reads` clauses. Writes are methods whose `modifies` clause
names only the fields they may change, such as `modifies store`startDate`.
So "nothing else changes" is part of every write's contract.

The wall clock is a parameter `now: Timestamp`. A `Timestamp` is a local
calendar day number plus the milliseconds since that day's midnight.
`Math.round(p / q)` and `Math.ceil(a / b)` are modelled exactly on integers
in `JsMath`. The lesson catalog is a constructor parameter of
`Scheduler.LessonScheduler`, so no catalog contents are assumed.

Quirks of the code that the model keeps as written:

- `updateUserData` stores the uncapped number of ledger keys
  (`storageHelpers.ts:54`). `getTotalProgress` caps the same count at 60.
- `getTotalProgress` counts ledger keys, not entries equal to `true`. The
  core only ever writes `true`, so the two counts agree on reachable stores.
- `getCurrentProgress` counts completed catalog entries, not ledger keys.
  Its percentage is `0 / 0`, which is NaN, on an empty catalog. The model
  gives `None` there.
- `completeTodayLesson` marks the current day whatever its value, so it can
  record day 61 and later.
- `getLessonByDay` and the other lookups bound the day by the constant 60,
  not by the catalog's size.
- The profile's `startDate` is the time of the first `getUserData` call. It
  is a separate value from the anchor date kept under
  'sambhashana_start_date'.
- A stored anchor date is trusted as stored. There is no recovery from
  unparsable data.
- `clearVideoProgress("")` clears the whole table, because JavaScript treats
  the empty string as false.

## Model

| member | source | states |
|---|---|---|
| `JsMath.CeilDiv` | src/utils/dateHelpers.ts:21 | `Math.ceil(a / b)` is the least integer r with (r - 1)·b < a ≤ r·b |
| `JsMath.RoundDiv` | src/utils/storageHelpers.ts:79 | `Math.round(p / q)` is the integer r with r - 1/2 ≤ p/q < r + 1/2, so halves round up |
| `JsMath.PercentBounds` | src/services/LessonScheduler.ts:93 | a rounded percentage of part ≤ whole lies in [0, 100]; it is 100 when part = whole; for wholes below 200 it is 100 only when part = whole |
| `DateHelpers.MidnightMs` | src/utils/dateHelpers.ts:17-18 | the midnight of a date is a whole number of days, at or before the instant and less than a day before it; it is the day number times 86_400_000 (the same stripping is at lines 45-46) |
| `DateHelpers.TimeOfDayIgnored` | src/utils/dateHelpers.ts:16-18 | two instants on the same calendar date, at any times of day below 86_400_000 ms, give the same current day and the same elapsed days |
| `DateHelpers.Anchor` | src/utils/dateHelpers.ts:2-9 | no contract of its own: the stored-or-now choice; `GetStartDate` states it, and `ResolveDay` builds on it |
| `DateHelpers.GetStartDate` | src/utils/dateHelpers.ts:1-10 | returns the stored anchor if there is one; otherwise stores `now` and returns it; afterwards the anchor is stored; no other key changes |
| `DateHelpers.GetStartDateTwice` | src/utils/dateHelpers.ts:1-10 | idempotence: two calls return the same date even when the clock has moved on |
| `DateHelpers.DaysSinceStart` | src/utils/dateHelpers.ts:41-50 | the ceiling of the millisecond difference of the two local midnights over 86_400_000 equals the calendar day difference: 0 on the start date, negative before it, unclamped |
| `DateHelpers.CurrentDay` | src/utils/dateHelpers.ts:12-24 | the curriculum day is at least 1; it is 1 on or before the start date, and elapsed days + 1 from the start date on |
| `DateHelpers.ResolveDay` | src/utils/dateHelpers.ts:12-24 | the day seen by a call that finds a given stored anchor is at least 1, and is 1 when no anchor is stored yet |
| `DateHelpers.GetCurrentDay` | src/utils/dateHelpers.ts:12-24 | `getCurrentDay` returns the curriculum day for the anchor `getStartDate` settles on, and stores that anchor |
| `DateHelpers.GetDaysSinceStart` | src/utils/dateHelpers.ts:41-50 | `getDaysSinceStart` returns today minus the anchor, in days, and stores the anchor |
| `DateHelpers.IsToday` | src/utils/dateHelpers.ts:34-39 | a date is today exactly when zero calendar days separate it from now |
| `DateHelpers.StartDateIsDayOne` | src/utils/dateHelpers.ts:12-24 | on the anchor's own date, 0 days have elapsed and the curriculum day is 1 |
| `DateHelpers.CurrentDayMonotonic` | src/utils/dateHelpers.ts:20-23 | the curriculum day never decreases as the date advances |
| `StorageHelpers.LessonProgress` | src/utils/storageHelpers.ts:13-16 | an absent ledger key reads as the empty ledger; otherwise the stored ledger is read |
| `StorageHelpers.Completed` | src/utils/storageHelpers.ts:29 | no contract of its own: the ledger entry for the day, false when absent; `IsLessonCompleted`, `SetLessonCompleted` and the streak lemmas state its properties |
| `StorageHelpers.IsLessonCompleted` | src/utils/storageHelpers.ts:27-30 | a day counts as completed only if the ledger is stored and has an entry for it, so nothing is completed while nothing is stored |
| `StorageHelpers.StreakDay` | src/utils/storageHelpers.ts:61-64 | every day inside a streak is a completed day of at least 1 |
| `StorageHelpers.StreakUnique` | src/utils/storageHelpers.ts:50-69 | the streak ending at a given day is unique, so the streak characterisation fixes the loop's result |
| `StorageHelpers.StreakBounds` | src/services/LessonScheduler.ts:103-116 | a streak is at most max(0, its end day), and it is 0 when its end day is not completed |
| `StorageHelpers.DayRange` | src/utils/storageHelpers.ts:61-64 | the days lo+1 .. hi that a streak walks over are hi - lo distinct days |
| `StorageHelpers.StreakAtMostEntries` | src/utils/storageHelpers.ts:54-66 | a streak never exceeds the number of ledger entries, so the profile's streak is at most its total |
| `StorageHelpers.DefaultUserData` | src/utils/storageHelpers.ts:38-44 | no contract of its own: the default profile; `GetUserData` states its fields |
| `StorageHelpers.ProfileOrDefault` | src/utils/storageHelpers.ts:33-47 | no contract of its own: the stored profile or the default; `GetUserData` and `UpdateUserData` state what it yields |
| `StorageHelpers.GetUserData` | src/utils/storageHelpers.ts:32-48 | the first read stores and returns the defaults: start date now, empty progress, streak 0, last completed day 0, total 0; later reads return the stored profile unchanged |
| `StorageHelpers.UpdateUserData` | src/utils/storageHelpers.ts:50-69 | the profile keeps its start date and its `lessonProgress`; `lastCompletedDay` becomes the completed day; the total becomes the uncapped key count; the streak is the run of completed days ≥ 1 ending at the completed day; the streak is at most the total |
| `StorageHelpers.SetLessonCompleted` | src/utils/storageHelpers.ts:18-25 | the ledger becomes the old ledger with the day set to `true`; that day is then completed; every other day's status is unchanged; the profile is refreshed as `updateUserData` does |
| `StorageHelpers.SetLessonCompletedTwice` | src/utils/storageHelpers.ts:18-21 | idempotence: marking a day twice leaves the same ledger as marking it once |
| `StorageHelpers.GetTotalProgress` | src/utils/storageHelpers.ts:71-75 | the total lies in [0, 60]; it is the key count up to 60 and 60 beyond that |
| `StorageHelpers.GetProgressPercentage` | src/utils/storageHelpers.ts:77-80 | the percentage is total / 60 · 100 rounded half up; it lies in [0, 100]; it is 100 exactly when the total is 60 |
| `StorageHelpers.PercentageOf27` | src/utils/storageHelpers.ts:77-80 | 27 completed lessons give 45 percent |
| `StorageHelpers.ResetProgress` | src/utils/storageHelpers.ts:82-86 | the ledger, profile and start-date keys are all absent afterwards; no day is completed and the total is 0; checkpoints are untouched |
| `StorageHelpers.StreakExample` | src/services/LessonScheduler.ts:103-116 | with days 1-3 completed, the streak is 3 on day 3 and 0 on day 4 |
| `VideoProgress.VideoProgressTable` | src/utils/videoProgress.ts:11-14 | an absent table key reads as the empty table |
| `VideoProgress.SaveVideoTimestamp` | src/utils/videoProgress.ts:16-24 | the entry for the id becomes the new position, stamped now, with watched duration defaulting to 0 (last write wins); every other id's entry is unchanged and no id disappears |
| `VideoProgress.GetVideoTimestamp` | src/utils/videoProgress.ts:26-29 | the saved position for a saved id, and 0 for an id never saved |
| `VideoProgress.GetVideoProgressData` | src/utils/videoProgress.ts:31-34 | the whole checkpoint for a saved id, whose position is what `getVideoTimestamp` reads, and `null` exactly for an id never saved (ids that name `Object.prototype` properties aside, see below) |
| `VideoProgress.ClearVideoProgress` | src/utils/videoProgress.ts:36-44 | with a non-empty id, only that id is removed and the other entries keep their values; with no id or the empty id, the whole table is removed |
| `VideoProgress.ResumeRoundTrip` | src/utils/videoProgress.ts:16-41 | saving 42.5 for "abc123" reads back 42.5; after clearing "abc123" it reads back 0; no other video's checkpoint changes |
| `VideoProgress.DecimalString` | src/utils/videoProgress.ts:52 | `toString` of a natural number is a non-empty digit string: one digit below 10, two digits from 10 to 99 |
| `VideoProgress.DecimalStringValue` | src/utils/videoProgress.ts:52 | the digits `toString` produces denote the number rendered |
| `VideoProgress.PadStart2` | src/utils/videoProgress.ts:52-54 | `padStart(2, '0')` yields length max(2, length of the input) and leaves a string of length 2 or more as it is |
| `VideoProgress.PadStart2Fills` | src/utils/videoProgress.ts:52-54 | `padStart(2, '0')` fills the left with '0' and keeps the input as the tail |
| `VideoProgress.PadStart2Value` | src/utils/videoProgress.ts:52 | `padStart(2, '0')` turns a numeral of at most two digits into exactly two digits of the same value |
| `VideoProgress.SplitColon` | src/utils/videoProgress.ts:52-54 | splitting a rendered time on ':' yields at least one field |
| `VideoProgress.SplitColonPrefix` | src/utils/videoProgress.ts:52-54 | a prefix without ':' joins the first field of what follows |
| `VideoProgress.SplitColonOne` | src/utils/videoProgress.ts:52-54 | a numeral without ':' is a single field |
| `VideoProgress.SplitColonTwo` | src/utils/videoProgress.ts:54 | `a:b` splits into exactly the fields a and b |
| `VideoProgress.SplitColonThree` | src/utils/videoProgress.ts:52 | `a:b:c` splits into exactly the fields a, b and c |
| `VideoProgress.NumeralHasNoColon` | src/utils/videoProgress.ts:52-54 | rendered numbers never contain the separator |
| `VideoProgress.ClockFields` | src/utils/videoProgress.ts:47-49 | minutes and seconds are below 60, and hours·3600 + minutes·60 + seconds recomposes the input |
| `VideoProgress.PaddedField` | src/utils/videoProgress.ts:52-54 | a padded minutes or seconds field is two digits, denotes its value below 60 and has no ':' |
| `VideoProgress.FormatTime` | src/utils/videoProgress.ts:46-55 | the rendering always ends in ':' followed by the two-digit seconds of the minute, below 60; `FormatTimeRoundTrip` carries the full round trip |
| `VideoProgress.ParseTime` | src/utils/videoProgress.ts:46-55 | the inverse reader of `formatTime`: it accepts only two or three fields, and a two-field text reads below 3600 seconds and a three-field one at 3600 or more |
| `VideoProgress.ParseTwoFields` | src/utils/videoProgress.ts:54 | the reader takes `m:ss` to m·60 + ss |
| `VideoProgress.ParseThreeFields` | src/utils/videoProgress.ts:52 | the reader takes `h:mm:ss` with h ≥ 1 to h·3600 + mm·60 + ss |
| `VideoProgress.FormatHoursRoundTrip` | src/utils/videoProgress.ts:51-52 | from 3600 seconds on, `formatTime` gives three fields and reads back as the same seconds |
| `VideoProgress.FormatMinutesRoundTrip` | src/utils/videoProgress.ts:54 | below 3600 seconds, `formatTime` gives two fields and reads back as the same seconds |
| `VideoProgress.FormatTimeRoundTrip` | src/utils/videoProgress.ts:46-55 | `formatTime(s)` has two fields (`m:ss`) below 3600 and three (`h:mm:ss`) from 3600 on; a reader that accepts only two-digit minute and second fields below 60 takes it back to exactly s |
| `Scheduler.Find` | src/services/LessonScheduler.ts:35 | `Array.find` on the day returns the first catalog entry with that day, and `null` exactly when no entry has that day |
| `Scheduler.LessonByDay` | src/services/LessonScheduler.ts:38-44 | `null` for days below 1 or above 60 (e.g. 0 and 61); a result is a catalog entry for that very day; an in-range day with an entry always has a result |
| `Scheduler.TodayLesson` | src/services/LessonScheduler.ts:28-36 | `null` once the current day exceeds 60; otherwise the first catalog entry for the current day, or `null` if none matches |
| `Scheduler.NextLesson` | src/services/LessonScheduler.ts:56-65 | `null` when current day + 1 > 60; otherwise the lesson for current day + 1, and a result has that day |
| `Scheduler.PreviousLesson` | src/services/LessonScheduler.ts:67-76 | `null` when current day - 1 < 1; otherwise the lesson for current day - 1, and a result has that day |
| `Scheduler.FilterByCompletion` | src/services/LessonScheduler.ts:82-88 | the filtered lessons are a subsequence of the catalog in catalog order, holding exactly the catalog entries with the requested completion status |
| `Scheduler.FilterPartition` | src/services/LessonScheduler.ts:82-88 | completed and incomplete lessons partition the catalog: lengths sum to the catalog length and the multisets add up to the catalog |
| `Scheduler.FilterKeepsAll` | src/services/LessonScheduler.ts:82-84 | the completed filter keeps every lesson exactly when every catalog lesson is completed |
| `Scheduler.CurrentProgress` | src/services/LessonScheduler.ts:90-96 | total is the catalog length; completed is the completed filter's length and at most the total; the percentage is NaN exactly on an empty catalog; otherwise it is rounded half up and lies in [0, 100]; for catalogs under 200 it is 100 exactly when every lesson is completed |
| `Scheduler.ReviewFlag` | src/services/LessonScheduler.ts:98-101 | false when there is no lesson today; otherwise today's lesson's `reviewable` flag |
| `Scheduler.LessonScheduler.constructor` | src/services/LessonScheduler.ts:15-26 | the scheduler holds the catalog and the store it is given |
| `Scheduler.LessonScheduler.GetTodayLesson` | src/services/LessonScheduler.ts:28-36 | returns `TodayLesson` for the resolved current day; only the anchor may be written |
| `Scheduler.LessonScheduler.IsTodayLessonCompleted` | src/services/LessonScheduler.ts:46-49 | whether the ledger marks the resolved current day |
| `Scheduler.LessonScheduler.CompleteTodayLesson` | src/services/LessonScheduler.ts:51-54 | marks the resolved current day, with no range guard; that day then reads as completed on the same date; every other day keeps its status; the profile is refreshed |
| `Scheduler.LessonScheduler.CompleteThenCheck` | src/services/LessonScheduler.ts:46-54 | after `completeTodayLesson`, `isTodayLessonCompleted` on the same date answers true |
| `Scheduler.LessonScheduler.GetNextLesson` | src/services/LessonScheduler.ts:56-65 | returns `NextLesson` for the resolved current day |
| `Scheduler.LessonScheduler.GetPreviousLesson` | src/services/LessonScheduler.ts:67-76 | returns `PreviousLesson` for the resolved current day |
| `Scheduler.LessonScheduler.GetCompletedLessons` | src/services/LessonScheduler.ts:82-84 | the completed catalog entries, in catalog order |
| `Scheduler.LessonScheduler.GetIncompleteLessons` | src/services/LessonScheduler.ts:86-88 | the incomplete catalog entries, in catalog order |
| `Scheduler.LessonScheduler.GetCurrentProgress` | src/services/LessonScheduler.ts:90-96 | completed is the number of completed lessons; completed plus incomplete equals the total, which is the catalog length |
| `Scheduler.LessonScheduler.ShouldShowReview` | src/services/LessonScheduler.ts:98-101 | returns `ReviewFlag` for the resolved current day |
| `Scheduler.LessonScheduler.GetStreakDays` | src/services/LessonScheduler.ts:103-116 | the result s satisfies 0 ≤ s ≤ current day; every day in (current day - s, current day] is completed; day current day - s is below 1 or not completed; so s is 0 when today is not completed |

## Left out

- `formatDate` (`src/utils/dateHelpers.ts:26-32`) is locale formatting through `toLocaleDateString`.
- Time zones and daylight saving: a local midnight is modelled as day number × 86_400_000 ms, so a 23- or 25-hour day is not represented.
- Invalid dates and NaN: a stored date that does not parse, and `JSON.parse` failures on malformed stored values, are not modelled. The source does not guard against them either.
- `getCurrentDay` reads the clock twice: once in `getStartDate` on first use, and once for today. The model reads one `now` for both, so a call that straddles midnight is not represented.
- `VideoProgress.GetVideoProgressData`: ids that name `Object.prototype` properties are not modelled. The table is a plain JavaScript object, so with nothing saved `progress['constructor'] || null` yields the `Object` function rather than `null`; the model gives `None`.
- `VideoProgress.SaveVideoTimestamp`: ids that name `Object.prototype` properties are not modelled. Assigning `progress['__proto__']` sets the prototype, not an entry, so `JSON.stringify` drops it; the model stores the entry like any other id.
- `VideoProgress.GetVideoTimestamp`: ids that name `Object.prototype` properties are not modelled; after saving under '__proto__' the source reads 0, the model the saved position.
- `VideoProgress.ResumeRoundTrip`: holds for "abc123" and for every id that is not an `Object.prototype` property name.
- JSON and `localStorage` serialisation: the store holds typed values. JavaScript object keys are strings, and the model's day keys are integers, so non-integer days are not represented.
- `VideoProgress.FormatTimeRoundTrip`: covers natural-number seconds only; the `Math.floor` of fractional or negative inputs is not modelled.
- Playback positions and durations are exact `real`s, with no NaN and no clamping.
- `Scheduler.CurrentProgress`: the percentage is rounded exactly on rationals. For a 60-lesson catalog this agrees with the floating-point result, but other catalog sizes can differ from it at exact halves.
- `getAllLessons` (`src/services/LessonScheduler.ts:78-80`) returns the catalog itself, which is the field `lessons` here.
- The process-wide singleton (`getInstance`) is replaced by a scheduler constructed over a given catalog and store. The catalog file `lessons.json` is not part of this model.
- Several tabs writing the same store concurrently (last write wins across tabs) is not modelled: every operation runs alone.
