/**
 * The browser's durable key/value store (`localStorage`) as the core uses it:
 * one field per key, `None` while the key is absent.
 */
module LocalStore {
  import opened Wrappers

  /** 1000 * 60 * 60 * 24 milliseconds. */
  const MsPerDay: int := 86_400_000

  /** Milliseconds into a day. */
  type MsOfDay = n: nat | n < MsPerDay

  /**
   * A wall-clock instant: the local calendar day it falls on (a day number,
   * consecutive dates having consecutive numbers) and the milliseconds elapsed
   * since that day's local midnight.
   */
  datatype Timestamp = Timestamp(day: int, msOfDay: MsOfDay)

  /** The cached learner profile stored under 'sambhashana_user_data'. */
  datatype UserData = UserData(
    startDate: Timestamp,
    lessonProgress: map<int, bool>,
    streak: int,
    lastCompletedDay: int,
    totalLessonsCompleted: int)

  /** One video's resume point in the table stored under 'sambhashana_video_progress'. */
  datatype Checkpoint = Checkpoint(timestamp: real, lastWatched: Timestamp, watchDuration: real)

  class Store {
    /** 'sambhashana_start_date': the anchor of the curriculum clock. */
    var startDate: Option<Timestamp>
    /** 'sambhashana_lesson_progress': the completion ledger, day to `true`. */
    var lessonProgress: Option<map<int, bool>>
    /** 'sambhashana_user_data': the derived profile. */
    var userData: Option<UserData>
    /** 'sambhashana_video_progress': playback checkpoints by video id. */
    var videoProgress: Option<map<string, Checkpoint>>

    /** A fresh browser profile: no key is set. */
    constructor ()
      ensures startDate == None && lessonProgress == None
      ensures userData == None && videoProgress == None
    {
      startDate := None;
      lessonProgress := None;
      userData := None;
      videoProgress := None;
    }
  }
}
