/**
 * The completion ledger (day to `true`) and the derived user profile, both
 * persisted in the store by whole-structure read-modify-write.
 */
module StorageHelpers {
  import opened Wrappers
  import opened JsMath
  import opened LocalStore

  /** The number of days in the curriculum. */
  const CurriculumLength: int := 60

  /** `getLessonProgress`: the stored ledger, or the empty ledger when the key is absent. */
  function LessonProgress(store: Store): (progress: map<int, bool>)
    reads store`lessonProgress
    ensures store.lessonProgress.None? ==> progress == map[]
    ensures store.lessonProgress.Some? ==> progress == store.lessonProgress.value
  {
    if store.lessonProgress.Some? then store.lessonProgress.value else map[]
  }

  /** `progress[day] || false`: the day has an entry and that entry is `true`. */
  predicate Completed(progress: map<int, bool>, day: int)
  {
    day in progress && progress[day]
  }

  /** `isLessonCompleted` */
  function IsLessonCompleted(store: Store, day: int): (done: bool)
    reads store`lessonProgress
    ensures done ==> store.lessonProgress.Some? && day in store.lessonProgress.value
  {
    Completed(LessonProgress(store), day)
  }

  /** The days `lo + 1 .. hi` are all completed and all at least 1. */
  ghost predicate Run(progress: map<int, bool>, lo: int, hi: int)
  {
    forall d :: lo < d <= hi ==> 1 <= d && Completed(progress, d)
  }

  /**
   * `s` is the streak ending at day `from`: the `s` days `from - s + 1 .. from`
   * form a run, and the chain stops just below them, because day `from - s` is
   * below 1 or is not completed.
   */
  ghost predicate IsStreak(progress: map<int, bool>, from: int, s: int)
  {
    && 0 <= s
    && Run(progress, from - s, from)
    && (from - s < 1 || !Completed(progress, from - s))
  }

  /** Every day of a streak is a completed day, at least 1. */
  lemma StreakDay(progress: map<int, bool>, from: int, s: int, d: int)
    requires IsStreak(progress, from, s)
    ensures from - s < d <= from ==> 1 <= d && Completed(progress, d)
  {
  }

  /** The streak ending at a day is unique. */
  lemma StreakUnique(progress: map<int, bool>, from: int, s1: int, s2: int)
    requires IsStreak(progress, from, s1) && IsStreak(progress, from, s2)
    ensures s1 == s2
  {
    StreakDay(progress, from, s1, from - s2);
    StreakDay(progress, from, s2, from - s1);
  }

  /** A day that is not completed ends every streak at 0, and a streak never reaches below day 1. */
  lemma StreakBounds(progress: map<int, bool>, from: int, s: int)
    requires IsStreak(progress, from, s)
    ensures !Completed(progress, from) ==> s == 0
    ensures s <= Max(0, from)
  {
    StreakDay(progress, from, s, from - s + 1);
  }

  /** The days `lo + 1 .. hi`. */
  function DayRange(lo: int, hi: int): (days: set<int>)
    requires lo <= hi
    ensures |days| == hi - lo
    ensures forall d :: d in days <==> lo < d <= hi
    decreases hi - lo
  {
    if lo == hi then {} else DayRange(lo, hi - 1) + {hi}
  }

  /** A streak never exceeds the number of ledger entries. */
  lemma StreakAtMostEntries(progress: map<int, bool>, from: int, s: int)
    requires IsStreak(progress, from, s)
    ensures s <= |progress|
  {
    var days := DayRange(from - s, from);
    forall d | d in days
      ensures d in progress.Keys
    {
      assert Completed(progress, d);
    }
    SubsetCardinality(days, progress.Keys);
  }

  lemma SubsetCardinality(a: set<int>, b: set<int>)
    requires a <= b
    ensures |a| <= |b|
  {
    assert b == a + (b - a);
  }

  /** The profile `getUserData` writes on first read. */
  function DefaultUserData(now: Timestamp): UserData
  {
    UserData(now, map[], 0, 0, 0)
  }

  /** What `getUserData` returns when it finds `stored` in the store. */
  function ProfileOrDefault(stored: Option<UserData>, now: Timestamp): UserData
  {
    if stored.Some? then stored.value else DefaultUserData(now)
  }

  /** `getUserData`: the stored profile, or a default profile that is stored first. */
  method GetUserData(store: Store, now: Timestamp) returns (data: UserData)
    modifies store`userData
    ensures old(store.userData).Some? ==> data == old(store.userData).value
    ensures old(store.userData).None? ==>
      data.startDate == now && data.lessonProgress == map[] &&
      data.streak == 0 && data.lastCompletedDay == 0 && data.totalLessonsCompleted == 0
    ensures store.userData == Some(data)
  {
    if store.userData.Some? {
      data := store.userData.value;
    } else {
      data := DefaultUserData(now);
      store.userData := Some(data);
    }
  }

  /**
   * `after` is the profile `updateUserData(completedDay)` leaves when it found
   * `before` stored and the ledger `progress`.
   */
  ghost predicate UpdatedProfile(before: Option<UserData>, progress: map<int, bool>, completedDay: int,
                                 now: Timestamp, after: Option<UserData>)
  {
    && after.Some?
    && var base, data := ProfileOrDefault(before, now), after.value;
    && data.startDate == base.startDate
    && data.lessonProgress == base.lessonProgress
    && data.lastCompletedDay == completedDay
    && data.totalLessonsCompleted == |progress|
    && IsStreak(progress, completedDay, data.streak)
  }

  /**
   * `updateUserData`: records the completed day, the uncapped number of ledger
   * entries and the streak ending at the completed day.
   */
  method UpdateUserData(store: Store, completedDay: int, now: Timestamp)
    modifies store`userData
    ensures UpdatedProfile(old(store.userData), LessonProgress(store), completedDay, now, store.userData)
    ensures store.userData.value.streak <= store.userData.value.totalLessonsCompleted
  {
    var data := GetUserData(store, now);
    var progress := LessonProgress(store);
    var streak := 0;
    var currentDay := completedDay;
    while Completed(progress, currentDay) && currentDay > 0
      invariant 0 <= streak && currentDay == completedDay - streak
      invariant Run(progress, currentDay, completedDay)
      decreases currentDay
    {
      streak := streak + 1;
      currentDay := currentDay - 1;
    }
    StreakAtMostEntries(progress, completedDay, streak);
    store.userData := Some(data.(totalLessonsCompleted := |progress|,
                                 lastCompletedDay := completedDay,
                                 streak := streak));
  }

  /** `setLessonCompleted`: marks `day` in the ledger, then refreshes the profile. */
  method SetLessonCompleted(store: Store, day: int, now: Timestamp)
    modifies store`lessonProgress, store`userData
    ensures store.lessonProgress == Some(old(LessonProgress(store))[day := true])
    ensures IsLessonCompleted(store, day)
    ensures forall d :: d != day ==> IsLessonCompleted(store, d) == old(IsLessonCompleted(store, d))
    ensures UpdatedProfile(old(store.userData), LessonProgress(store), day, now, store.userData)
  {
    var progress := LessonProgress(store);
    progress := progress[day := true];
    store.lessonProgress := Some(progress);
    UpdateUserData(store, day, now);
  }

  /** Marking a day twice leaves the ledger as marking it once. */
  method SetLessonCompletedTwice(store: Store, day: int, now: Timestamp)
    modifies store`lessonProgress, store`userData
    ensures store.lessonProgress == Some(old(LessonProgress(store))[day := true])
  {
    ghost var once := old(LessonProgress(store))[day := true];
    SetLessonCompleted(store, day, now);
    SetLessonCompleted(store, day, now);
    assert once[day := true] == once;
  }

  /** `getTotalProgress`: the number of ledger entries, capped at the curriculum length. */
  function GetTotalProgress(store: Store): (total: int)
    reads store`lessonProgress
    ensures 0 <= total <= CurriculumLength
    ensures |LessonProgress(store)| <= CurriculumLength ==> total == |LessonProgress(store)|
    ensures |LessonProgress(store)| >= CurriculumLength ==> total == CurriculumLength
  {
    Min(CurriculumLength, |LessonProgress(store)|)
  }

  /** `getProgressPercentage`: `Math.round(total / 60 * 100)`. */
  function GetProgressPercentage(store: Store): (percentage: int)
    reads store`lessonProgress
    ensures 2 * percentage * CurriculumLength - CurriculumLength
            <= 200 * GetTotalProgress(store)
            < 2 * percentage * CurriculumLength + CurriculumLength
    ensures 0 <= percentage <= 100
    ensures percentage == 100 <==> GetTotalProgress(store) == CurriculumLength
  {
    PercentBounds(GetTotalProgress(store), CurriculumLength);
    RoundDiv(100 * GetTotalProgress(store), CurriculumLength)
  }

  /** 27 completed lessons out of 60 are 45 percent. */
  lemma PercentageOf27(store: Store)
    requires GetTotalProgress(store) == 27
    ensures GetProgressPercentage(store) == 45
  {
  }

  /** `resetProgress`: removes the ledger, the profile and the start date. */
  method ResetProgress(store: Store)
    modifies store`lessonProgress, store`userData, store`startDate
    ensures store.lessonProgress == None && store.userData == None && store.startDate == None
    ensures forall d :: !IsLessonCompleted(store, d)
    ensures GetTotalProgress(store) == 0
  {
    store.lessonProgress := None;
    store.userData := None;
    store.startDate := None;
  }

  /** Days 1 to 3 completed: on day 3 the streak is 3, on day 4 it is 0. */
  lemma StreakExample(progress: map<int, bool>)
    requires progress == map[1 := true, 2 := true, 3 := true]
    ensures IsStreak(progress, 3, 3)
    ensures IsStreak(progress, 4, 0)
  {
  }
}
