/**
 * The curriculum clock: a start date anchored lazily in the store on first use,
 * and the 1-based curriculum day derived from it by comparing calendar dates
 * with the time of day stripped. The wall clock is the parameter `now`.
 */
module DateHelpers {
  import opened Wrappers
  import opened JsMath
  import opened LocalStore

  /** `getTime()` of an instant, counted from the midnight that starts day 0. */
  function InstantMs(t: Timestamp): int
  {
    t.day * MsPerDay + t.msOfDay
  }

  /**
   * `new Date(y, m, d).getTime()` for the calendar date of `t`: the instant of
   * that date's local midnight, its time of day dropped.
   */
  function MidnightMs(t: Timestamp): (ms: int)
    ensures ms % MsPerDay == 0 && ms <= InstantMs(t) < ms + MsPerDay
    ensures ms == t.day * MsPerDay
  {
    DayOfInstant(InstantMs(t), t.day, t.msOfDay);
    InstantMs(t) / MsPerDay * MsPerDay
  }

  /** An instant `q` days and `r` milliseconds past day 0 falls on day `q`. */
  lemma DayOfInstant(a: int, q: int, r: int)
    requires 0 <= r < MsPerDay && a == q * MsPerDay + r
    ensures a / MsPerDay == q && a % MsPerDay == r
  {
  }

  /** The anchor `getStartDate` settles on: the stored one, or `now` when none is stored. */
  function Anchor(stored: Option<Timestamp>, now: Timestamp): Timestamp
  {
    if stored.Some? then stored.value else now
  }

  /** `getStartDate`: reads the anchor, storing `now` as the anchor when none is stored. */
  method GetStartDate(store: Store, now: Timestamp) returns (start: Timestamp)
    modifies store`startDate
    ensures old(store.startDate).Some? ==> start == old(store.startDate).value
    ensures old(store.startDate).None? ==> start == now
    ensures store.startDate == Some(start)
  {
    if store.startDate.Some? {
      start := store.startDate.value;
    } else {
      start := now;
      store.startDate := Some(now);
    }
  }

  /** Two calls in a row agree, whatever the clock reads at the second one. */
  method GetStartDateTwice(store: Store, now: Timestamp, later: Timestamp) returns (first: Timestamp, second: Timestamp)
    modifies store`startDate
    ensures first == second
    ensures store.startDate == Some(first)
  {
    first := GetStartDate(store, now);
    second := GetStartDate(store, later);
  }

  /**
   * The day difference of `getDaysSinceStart` and `getCurrentDay`:
   * `Math.ceil((midnight(now) - midnight(start)) / MsPerDay)`.
   */
  function DaysSinceStart(start: Timestamp, now: Timestamp): (days: int)
    ensures days == now.day - start.day
  {
    CeilDivExact(now.day - start.day, MsPerDay);
    CeilDiv(MidnightMs(now) - MidnightMs(start), MsPerDay)
  }

  /** The curriculum day `getCurrentDay` computes from the anchor `start`. */
  function CurrentDay(start: Timestamp, now: Timestamp): (day: int)
    ensures day >= 1
    ensures now.day >= start.day ==> day == DaysSinceStart(start, now) + 1
    ensures now.day <= start.day ==> day == 1
  {
    Max(1, DaysSinceStart(start, now) + 1)
  }

  /** The curriculum day as seen by a call that finds `stored` in the store. */
  function ResolveDay(stored: Option<Timestamp>, now: Timestamp): (day: int)
    ensures day >= 1
    ensures stored.None? ==> day == 1
  {
    CurrentDay(Anchor(stored, now), now)
  }

  /** `getCurrentDay` */
  method GetCurrentDay(store: Store, now: Timestamp) returns (day: int)
    modifies store`startDate
    ensures day == ResolveDay(old(store.startDate), now)
    ensures store.startDate == Some(Anchor(old(store.startDate), now))
  {
    var start := GetStartDate(store, now);
    day := CurrentDay(start, now);
  }

  /** `getDaysSinceStart`: unclamped, negative when `now` is before the anchor. */
  method GetDaysSinceStart(store: Store, now: Timestamp) returns (days: int)
    modifies store`startDate
    ensures days == now.day - Anchor(old(store.startDate), now).day
    ensures store.startDate == Some(Anchor(old(store.startDate), now))
  {
    var start := GetStartDate(store, now);
    days := DaysSinceStart(start, now);
  }

  /** `isToday`: year, month and day of the month all match, i.e. the same calendar date. */
  function IsToday(date: Timestamp, now: Timestamp): (today: bool)
    ensures today <==> DaysSinceStart(date, now) == 0
  {
    date.day == now.day
  }

  /** On the anchor's own date the curriculum is on day 1, with 0 days elapsed. */
  lemma StartDateIsDayOne(start: Timestamp, now: Timestamp)
    requires IsToday(start, now)
    ensures DaysSinceStart(start, now) == 0
    ensures CurrentDay(start, now) == 1
  {
  }

  /** The time of day is ignored: two instants of one calendar date give the same day. */
  lemma TimeOfDayIgnored(start: Timestamp, t1: Timestamp, t2: Timestamp)
    requires IsToday(t1, t2)
    ensures CurrentDay(start, t1) == CurrentDay(start, t2)
    ensures DaysSinceStart(start, t1) == DaysSinceStart(start, t2)
  {
  }

  /** The curriculum day never goes backward as the date advances. */
  lemma CurrentDayMonotonic(start: Timestamp, t1: Timestamp, t2: Timestamp)
    requires t1.day <= t2.day
    ensures CurrentDay(start, t1) <= CurrentDay(start, t2)
  {
  }
}
