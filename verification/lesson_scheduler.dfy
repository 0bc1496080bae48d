/**
 * The lesson scheduler: combines the curriculum clock and the completion ledger
 * with a read-only lesson catalog to answer today's, the next and the previous
 * lesson, completion filters, progress, the review flag and the streak.
 */
module Scheduler {
  import opened Wrappers
  import opened JsMath
  import opened LocalStore
  import opened DateHelpers
  import opened StorageHelpers

  datatype LessonType = Chat | Video

  /** A catalog entry: `prompt` is set for chat lessons, `youtubeId` for video lessons. */
  datatype Lesson = Lesson(
    day: int,
    kind: LessonType,
    title: string,
    prompt: Option<string>,
    youtubeId: Option<string>,
    objectives: string,
    reviewable: bool)

  /** The result of `getCurrentProgress`; a `None` percentage is the NaN of 0 / 0 on an empty catalog. */
  datatype Progress = Progress(completed: nat, total: nat, percentage: Option<int>)

  /** `lessons.find(lesson => lesson.day === day)`: the first entry for `day`, if any. */
  function Find(lessons: seq<Lesson>, day: int): (found: Option<Lesson>)
    ensures found.None? <==> forall i :: 0 <= i < |lessons| ==> lessons[i].day != day
    ensures found.Some? ==>
      exists i :: 0 <= i < |lessons| && lessons[i] == found.value && lessons[i].day == day &&
        forall j :: 0 <= j < i ==> lessons[j].day != day
  {
    if lessons == [] then None
    else if lessons[0].day == day then Some(lessons[0])
    else
      var found := Find(lessons[1..], day);
      assert found.Some? ==> exists i :: (1 <= i < |lessons| && lessons[i] == found.value && lessons[i].day == day &&
        forall j :: 0 <= j < i ==> lessons[j].day != day) by {
        if found.Some? {
          var k :| (0 <= k < |lessons[1..]| && lessons[1..][k] == found.value && lessons[1..][k].day == day &&
            forall j :: 0 <= j < k ==> lessons[1..][j].day != day);
          assert lessons[k + 1] == found.value;
          assert forall j :: 1 <= j < k + 1 ==> lessons[j].day == lessons[1..][j - 1].day;
        }
      }
      found
  }

  /** `getLessonByDay`: the catalog entry for `day`, `null` outside 1..60 or when none matches. */
  function LessonByDay(lessons: seq<Lesson>, day: int): (lesson: Option<Lesson>)
    ensures day < 1 || day > CurriculumLength ==> lesson.None?
    ensures lesson.Some? ==> lesson.value in lessons && lesson.value.day == day
    ensures 1 <= day <= CurriculumLength && (exists i :: 0 <= i < |lessons| && lessons[i].day == day) ==> lesson.Some?
  {
    if day < 1 || day > CurriculumLength then None else Find(lessons, day)
  }

  /** `getTodayLesson` on curriculum day `currentDay`: `null` once the curriculum is over. */
  function TodayLesson(lessons: seq<Lesson>, currentDay: int): (lesson: Option<Lesson>)
    ensures currentDay > CurriculumLength ==> lesson.None?
    ensures lesson.Some? ==> lesson.value in lessons && lesson.value.day == currentDay
    ensures currentDay <= CurriculumLength ==> lesson == Find(lessons, currentDay)
  {
    if currentDay > CurriculumLength then None else Find(lessons, currentDay)
  }

  /** `getNextLesson` on curriculum day `currentDay`. */
  function NextLesson(lessons: seq<Lesson>, currentDay: int): (lesson: Option<Lesson>)
    ensures currentDay + 1 > CurriculumLength ==> lesson.None?
    ensures currentDay + 1 <= CurriculumLength ==> lesson == LessonByDay(lessons, currentDay + 1)
    ensures lesson.Some? ==> lesson.value in lessons && lesson.value.day == currentDay + 1
  {
    if currentDay + 1 > CurriculumLength then None else LessonByDay(lessons, currentDay + 1)
  }

  /** `getPreviousLesson` on curriculum day `currentDay`. */
  function PreviousLesson(lessons: seq<Lesson>, currentDay: int): (lesson: Option<Lesson>)
    ensures currentDay - 1 < 1 ==> lesson.None?
    ensures currentDay - 1 >= 1 ==> lesson == LessonByDay(lessons, currentDay - 1)
    ensures lesson.Some? ==> lesson.value in lessons && lesson.value.day == currentDay - 1
  {
    if currentDay - 1 < 1 then None else LessonByDay(lessons, currentDay - 1)
  }

  /** `a` is `b` with some entries left out, the rest kept in order. */
  ghost predicate IsSubsequence<T>(a: seq<T>, b: seq<T>)
  {
    if a == [] then true
    else if b == [] then false
    else (a[0] == b[0] && IsSubsequence(a[1..], b[1..])) || IsSubsequence(a, b[1..])
  }

  /**
   * `lessons.filter(lesson => isLessonCompleted(lesson.day))` when `done`, and
   * the filter on `!isLessonCompleted(lesson.day)` otherwise.
   */
  function FilterByCompletion(lessons: seq<Lesson>, progress: map<int, bool>, done: bool): (kept: seq<Lesson>)
    ensures IsSubsequence(kept, lessons)
    ensures forall l :: l in kept <==> l in lessons && Completed(progress, l.day) == done
  {
    if lessons == [] then []
    else
      var rest := FilterByCompletion(lessons[1..], progress, done);
      if Completed(progress, lessons[0].day) == done then [lessons[0]] + rest else rest
  }

  /** The completed and the incomplete lessons partition the catalog. */
  lemma {:induction false} FilterPartition(lessons: seq<Lesson>, progress: map<int, bool>)
    ensures |FilterByCompletion(lessons, progress, true)| + |FilterByCompletion(lessons, progress, false)| == |lessons|
    ensures multiset(FilterByCompletion(lessons, progress, true)) + multiset(FilterByCompletion(lessons, progress, false))
            == multiset(lessons)
  {
    if lessons != [] {
      FilterPartition(lessons[1..], progress);
      assert lessons == [lessons[0]] + lessons[1..];
    }
  }

  /** Every lesson is kept by the completed filter exactly when every lesson is completed. */
  lemma {:induction false} FilterKeepsAll(lessons: seq<Lesson>, progress: map<int, bool>)
    ensures |FilterByCompletion(lessons, progress, true)| == |lessons|
            <==> forall i :: 0 <= i < |lessons| ==> Completed(progress, lessons[i].day)
  {
    if lessons != [] {
      FilterKeepsAll(lessons[1..], progress);
      FilterPartition(lessons[1..], progress);
      assert forall i :: 1 <= i < |lessons| ==> lessons[i] == lessons[1..][i - 1];
    }
  }

  /**
   * `getCurrentProgress`: completed catalog entries (not ledger entries), the
   * catalog size, and `Math.round(completed / total * 100)`.
   */
  function CurrentProgress(lessons: seq<Lesson>, progress: map<int, bool>): (p: Progress)
    ensures p.total == |lessons| && p.completed == |FilterByCompletion(lessons, progress, true)|
    ensures p.completed <= p.total
    ensures p.percentage.None? <==> p.total == 0
    ensures p.percentage.Some? ==>
      && 0 <= p.percentage.value <= 100
      && 2 * p.percentage.value * p.total - p.total <= 200 * p.completed < 2 * p.percentage.value * p.total + p.total
    ensures p.total > 0 && p.completed == p.total ==> p.percentage == Some(100)
    ensures 0 < p.total < 200 ==>
      (p.percentage == Some(100) <==> forall i :: 0 <= i < |lessons| ==> Completed(progress, lessons[i].day))
  {
    var completed := |FilterByCompletion(lessons, progress, true)|;
    var total := |lessons|;
    FilterPartition(lessons, progress);
    FilterKeepsAll(lessons, progress);
    if total == 0 then Progress(completed, total, None)
    else
      PercentBounds(completed, total);
      Progress(completed, total, Some(RoundDiv(100 * completed, total)))
  }

  /** `shouldShowReview` on curriculum day `currentDay`. */
  function ReviewFlag(lessons: seq<Lesson>, currentDay: int): (show: bool)
    ensures TodayLesson(lessons, currentDay).None? ==> !show
    ensures TodayLesson(lessons, currentDay).Some? ==> show == TodayLesson(lessons, currentDay).value.reviewable
  {
    match TodayLesson(lessons, currentDay)
    case Some(lesson) => lesson.reviewable
    case None => false
  }

  /**
   * `LessonScheduler`, constructed over a catalog and the store rather than as a
   * process-wide singleton. Every query that reads the current day may store the
   * anchor date on first use, so it modifies `store`startDate`.
   */
  class LessonScheduler {
    const lessons: seq<Lesson>
    const store: Store

    constructor (lessons: seq<Lesson>, store: Store)
      ensures this.lessons == lessons && this.store == store
    {
      this.lessons := lessons;
      this.store := store;
    }

    method GetTodayLesson(now: Timestamp) returns (lesson: Option<Lesson>)
      modifies store`startDate
      ensures store.startDate == Some(Anchor(old(store.startDate), now))
      ensures lesson == TodayLesson(lessons, ResolveDay(old(store.startDate), now))
    {
      var currentDay := GetCurrentDay(store, now);
      lesson := TodayLesson(lessons, currentDay);
    }

    method IsTodayLessonCompleted(now: Timestamp) returns (done: bool)
      modifies store`startDate
      ensures store.startDate == Some(Anchor(old(store.startDate), now))
      ensures done == Completed(LessonProgress(store), ResolveDay(old(store.startDate), now))
    {
      var currentDay := GetCurrentDay(store, now);
      done := IsLessonCompleted(store, currentDay);
    }

    /** `completeTodayLesson`: marks the current day, whatever its range. */
    method CompleteTodayLesson(now: Timestamp)
      modifies store`startDate, store`lessonProgress, store`userData
      ensures store.startDate == Some(Anchor(old(store.startDate), now))
      ensures var today := ResolveDay(old(store.startDate), now);
        && ResolveDay(store.startDate, now) == today
        && store.lessonProgress == Some(old(LessonProgress(store))[today := true])
        && Completed(LessonProgress(store), today)
        && (forall d :: d != today ==> Completed(LessonProgress(store), d) == old(Completed(LessonProgress(store), d)))
        && UpdatedProfile(old(store.userData), LessonProgress(store), today, now, store.userData)
    {
      var currentDay := GetCurrentDay(store, now);
      SetLessonCompleted(store, currentDay, now);
    }

    /** After completing today's lesson, asking whether it is completed answers yes. */
    method CompleteThenCheck(now: Timestamp) returns (done: bool)
      modifies store`startDate, store`lessonProgress, store`userData
      ensures done
    {
      CompleteTodayLesson(now);
      done := IsTodayLessonCompleted(now);
    }

    method GetNextLesson(now: Timestamp) returns (lesson: Option<Lesson>)
      modifies store`startDate
      ensures store.startDate == Some(Anchor(old(store.startDate), now))
      ensures lesson == NextLesson(lessons, ResolveDay(old(store.startDate), now))
    {
      var currentDay := GetCurrentDay(store, now);
      var nextDay := currentDay + 1;
      if nextDay > CurriculumLength {
        return None;
      }
      lesson := LessonByDay(lessons, nextDay);
    }

    method GetPreviousLesson(now: Timestamp) returns (lesson: Option<Lesson>)
      modifies store`startDate
      ensures store.startDate == Some(Anchor(old(store.startDate), now))
      ensures lesson == PreviousLesson(lessons, ResolveDay(old(store.startDate), now))
    {
      var currentDay := GetCurrentDay(store, now);
      var previousDay := currentDay - 1;
      if previousDay < 1 {
        return None;
      }
      lesson := LessonByDay(lessons, previousDay);
    }

    /** `getCompletedLessons` */
    function GetCompletedLessons(): (completed: seq<Lesson>)
      reads store`lessonProgress
      ensures IsSubsequence(completed, lessons)
      ensures forall l :: l in completed <==> l in lessons && IsLessonCompleted(store, l.day)
    {
      FilterByCompletion(lessons, LessonProgress(store), true)
    }

    /** `getIncompleteLessons` */
    function GetIncompleteLessons(): (incomplete: seq<Lesson>)
      reads store`lessonProgress
      ensures IsSubsequence(incomplete, lessons)
      ensures forall l :: l in incomplete <==> l in lessons && !IsLessonCompleted(store, l.day)
    {
      FilterByCompletion(lessons, LessonProgress(store), false)
    }

    /** `getCurrentProgress` */
    function GetCurrentProgress(): (p: Progress)
      reads store`lessonProgress
      ensures p.completed == |GetCompletedLessons()|
      ensures p.completed + |GetIncompleteLessons()| == p.total == |lessons|
    {
      FilterPartition(lessons, LessonProgress(store));
      CurrentProgress(lessons, LessonProgress(store))
    }

    method ShouldShowReview(now: Timestamp) returns (show: bool)
      modifies store`startDate
      ensures store.startDate == Some(Anchor(old(store.startDate), now))
      ensures show == ReviewFlag(lessons, ResolveDay(old(store.startDate), now))
    {
      var todayLesson := GetTodayLesson(now);
      show := todayLesson.Some? && todayLesson.value.reviewable;
    }

    /** `getStreakDays`: consecutive completed days counted back from today. */
    method GetStreakDays(now: Timestamp) returns (streak: int)
      modifies store`startDate
      ensures store.startDate == Some(Anchor(old(store.startDate), now))
      ensures IsStreak(LessonProgress(store), ResolveDay(old(store.startDate), now), streak)
      ensures 0 <= streak <= ResolveDay(old(store.startDate), now)
    {
      var currentDay := GetCurrentDay(store, now);
      streak := 0;
      var day := currentDay;
      while day >= 1
        invariant 0 <= streak && day == currentDay - streak
        invariant Run(LessonProgress(store), day, currentDay)
        decreases day
      {
        if IsLessonCompleted(store, day) {
          streak := streak + 1;
        } else {
          break;
        }
        day := day - 1;
      }
      StreakBounds(LessonProgress(store), currentDay, streak);
    }
  }
}
