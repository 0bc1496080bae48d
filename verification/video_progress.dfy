/**
 * The playback checkpoint table: per video id, the last playback position,
 * when it was saved and the watched duration; last write wins. Also the
 * `m:ss` / `h:mm:ss` rendering of a number of seconds.
 */
module VideoProgress {
  import opened Wrappers
  import opened LocalStore

  /** `getVideoProgress`: the stored table, or the empty table when the key is absent. */
  function VideoProgressTable(store: Store): (table: map<string, Checkpoint>)
    reads store`videoProgress
    ensures store.videoProgress.None? ==> table == map[]
    ensures store.videoProgress.Some? ==> table == store.videoProgress.value
  {
    if store.videoProgress.Some? then store.videoProgress.value else map[]
  }

  /**
   * `saveVideoTimestamp`: overwrites the entry of `youtubeId`, stamped with
   * `now`; the watched duration defaults to 0.
   */
  method SaveVideoTimestamp(store: Store, youtubeId: string, timestamp: real, now: Timestamp,
                            watchDuration: real := 0.0)
    modifies store`videoProgress
    ensures store.videoProgress.Some?
    ensures VideoProgressTable(store).Keys == old(VideoProgressTable(store)).Keys + {youtubeId}
    ensures VideoProgressTable(store)[youtubeId] == Checkpoint(timestamp, now, watchDuration)
    ensures forall id :: id in old(VideoProgressTable(store)) && id != youtubeId ==>
      VideoProgressTable(store)[id] == old(VideoProgressTable(store))[id]
  {
    var progress := VideoProgressTable(store);
    progress := progress[youtubeId := Checkpoint(timestamp, now, watchDuration)];
    store.videoProgress := Some(progress);
  }

  /** `getVideoTimestamp`: the saved position, or 0 for a video never saved. */
  function GetVideoTimestamp(store: Store, youtubeId: string): (timestamp: real)
    reads store`videoProgress
    ensures youtubeId !in VideoProgressTable(store) ==> timestamp == 0.0
    ensures youtubeId in VideoProgressTable(store) ==>
      timestamp == VideoProgressTable(store)[youtubeId].timestamp
  {
    var progress := VideoProgressTable(store);
    if youtubeId in progress then progress[youtubeId].timestamp else 0.0
  }

  /** `getVideoProgressData`: the whole checkpoint, or `null` for a video never saved. */
  function GetVideoProgressData(store: Store, youtubeId: string): (data: Option<Checkpoint>)
    reads store`videoProgress
    ensures data.None? <==> youtubeId !in VideoProgressTable(store)
    ensures data.Some? ==>
      data.value == VideoProgressTable(store)[youtubeId] &&
      data.value.timestamp == GetVideoTimestamp(store, youtubeId)
  {
    var progress := VideoProgressTable(store);
    if youtubeId in progress then Some(progress[youtubeId]) else None
  }

  /**
   * `clearVideoProgress`: with a non-empty id, deletes that id's entry; with no
   * id, or the empty id (which JavaScript treats as false), removes the table.
   */
  method ClearVideoProgress(store: Store, youtubeId: Option<string>)
    modifies store`videoProgress
    ensures youtubeId.Some? && youtubeId.value != "" ==>
      && store.videoProgress.Some?
      && VideoProgressTable(store).Keys == old(VideoProgressTable(store)).Keys - {youtubeId.value}
      && forall id :: id in VideoProgressTable(store) ==>
           VideoProgressTable(store)[id] == old(VideoProgressTable(store))[id]
    ensures youtubeId.None? || youtubeId.value == "" ==> store.videoProgress == None
  {
    if youtubeId.Some? && youtubeId.value != "" {
      var progress := VideoProgressTable(store);
      progress := progress - {youtubeId.value};
      store.videoProgress := Some(progress);
    } else {
      store.videoProgress := None;
    }
  }

  /**
   * Saving 42.5 for "abc123" reads back 42.5 and keeps other videos; clearing
   * "abc123" then reads back 0.
   */
  method ResumeRoundTrip(store: Store, now: Timestamp) returns (saved: real, cleared: real)
    modifies store`videoProgress
    ensures saved == 42.5 && cleared == 0.0
    ensures forall id :: id != "abc123" ==>
      GetVideoProgressData(store, id) == old(GetVideoProgressData(store, id))
  {
    SaveVideoTimestamp(store, "abc123", 42.5, now);
    saved := GetVideoTimestamp(store, "abc123");
    ClearVideoProgress(store, Some("abc123"));
    cleared := GetVideoTimestamp(store, "abc123");
  }

  // ---------------------------------------------------------------------------
  // formatTime

  predicate IsDigit(c: char)
  {
    '0' <= c <= '9'
  }

  /** A non-empty string of decimal digits. */
  predicate IsNumeral(s: string)
  {
    |s| >= 1 && forall i :: 0 <= i < |s| ==> IsDigit(s[i])
  }

  function DigitChar(d: nat): (c: char)
    requires d < 10
    ensures IsDigit(c) && DigitValue(c) == d
  {
    (d + '0' as int) as char
  }

  /** `n.toString()`: decimal digits, most significant first, no leading zeros. */
  function DecimalString(n: nat): (s: string)
    ensures IsNumeral(s)
    ensures n < 10 ==> |s| == 1
    ensures 10 <= n < 100 ==> |s| == 2
  {
    if n < 10 then [DigitChar(n)] else DecimalString(n / 10) + [DigitChar(n % 10)]
  }

  function DigitValue(c: char): nat
    requires IsDigit(c)
  {
    c as int - '0' as int
  }

  /** The number a digit string denotes. */
  function DigitsValue(s: string): nat
    requires forall i :: 0 <= i < |s| ==> IsDigit(s[i])
  {
    if s == [] then 0 else DigitsValue(s[..|s| - 1]) * 10 + DigitValue(s[|s| - 1])
  }

  lemma {:induction false} DecimalStringValue(n: nat)
    ensures DigitsValue(DecimalString(n)) == n
  {
    if n >= 10 {
      var s := DecimalString(n);
      assert s[..|s| - 1] == DecimalString(n / 10);
      DecimalStringValue(n / 10);
    }
  }

  /** `padStart(2, '0')`: `s` left-filled with '0' up to length 2. */
  function PadStart2(s: string): (padded: string)
    ensures |padded| == if |s| >= 2 then |s| else 2
    ensures |s| >= 2 ==> padded == s
  {
    if |s| >= 2 then s else if |s| == 1 then ['0'] + s else "00"
  }

  /** `padStart` fills with '0' on the left and keeps `s` as the tail. */
  lemma PadStart2Fills(s: string)
    ensures forall i :: 0 <= i < |PadStart2(s)| ==>
      PadStart2(s)[i] == if i < |PadStart2(s)| - |s| then '0' else s[i - (|PadStart2(s)| - |s|)]
  {
  }

  lemma PadStart2Value(s: string)
    requires IsNumeral(s) && |s| <= 2
    ensures IsNumeral(PadStart2(s)) && |PadStart2(s)| == 2
    ensures DigitsValue(PadStart2(s)) == DigitsValue(s)
  {
    if |s| == 1 {
      var p := ['0'] + s;
      assert PadStart2(s) == p;
      assert p[..1] == ['0'];
      assert DigitsValue(['0']) == 0;
    }
  }

  /**
   * `formatTime`: `h:mm:ss` from one hour on, `m:ss` below it; either way the
   * text ends in ':' and the two-digit seconds of the minute.
   */
  function FormatTime(seconds: nat): (text: string)
    ensures |text| >= 4 && text[|text| - 3] == ':'
    ensures IsSexagesimalField(text[|text| - 2..]) && DigitsValue(text[|text| - 2..]) == seconds % 60
  {
    var hours := seconds / 3600;
    var minutes := (seconds % 3600) / 60;
    var secs := seconds % 60;
    PaddedField(secs);
    if hours > 0 then
      DecimalString(hours) + ":" + PadStart2(DecimalString(minutes)) + ":" + PadStart2(DecimalString(secs))
    else
      DecimalString(minutes) + ":" + PadStart2(DecimalString(secs))
  }

  /** The fields of a string separated by ':'. */
  function SplitColon(s: string): (fields: seq<string>)
    ensures |fields| >= 1
  {
    if s == [] then [""]
    else
      var rest := SplitColon(s[1..]);
      if s[0] == ':' then [""] + rest else [[s[0]] + rest[0]] + rest[1..]
  }

  lemma {:induction false} SplitColonPrefix(a: string, b: string)
    requires ':' !in a
    ensures SplitColon(a + b) == [a + SplitColon(b)[0]] + SplitColon(b)[1..]
  {
    var fields := SplitColon(b);
    if a == [] {
      assert a + b == b;
      assert a + fields[0] == fields[0];
      assert fields == [fields[0]] + fields[1..];
    } else {
      assert a[0] != ':';
      assert (a + b)[1..] == a[1..] + b;
      SplitColonPrefix(a[1..], b);
      var rest := SplitColon(a[1..] + b);
      assert rest[0] == a[1..] + fields[0];
      assert rest[1..] == fields[1..];
      assert [a[0]] + (a[1..] + fields[0]) == a + fields[0];
    }
  }

  /** A string without ':' is one field. */
  lemma SplitColonOne(a: string)
    requires ':' !in a
    ensures SplitColon(a) == [a]
  {
    SplitColonPrefix(a, "");
    assert a + "" == a;
  }

  /** `a:b` splits into its two fields. */
  lemma SplitColonTwo(a: string, b: string)
    requires ':' !in a && ':' !in b
    ensures SplitColon(a + ":" + b) == [a, b]
  {
    SplitColonOne(b);
    assert SplitColon(":" + b) == [""] + SplitColon(b);
    SplitColonPrefix(a, ":" + b);
    assert a + ":" + b == a + (":" + b);
    assert a + "" == a;
  }

  /** `a:b:c` splits into its three fields. */
  lemma SplitColonThree(a: string, b: string, c: string)
    requires ':' !in a && ':' !in b && ':' !in c
    ensures SplitColon(a + ":" + b + ":" + c) == [a, b, c]
  {
    SplitColonTwo(b, c);
    assert SplitColon(":" + (b + ":" + c)) == [""] + SplitColon(b + ":" + c);
    SplitColonPrefix(a, ":" + (b + ":" + c));
    assert a + ":" + b + ":" + c == a + (":" + (b + ":" + c));
    assert a + "" == a;
  }

  /** A field that holds a two-digit number below 60. */
  predicate IsSexagesimalField(s: string)
  {
    |s| == 2 && IsNumeral(s) && DigitsValue(s) < 60
  }

  /**
   * Reads a clock string back into seconds: `m:ss` with m below 60, or `h:mm:ss`
   * with h at least 1; the minutes and seconds after a ':' are two-digit fields
   * below 60.
   */
  function ParseTime(text: string): (r: Option<nat>)
    ensures r.Some? ==> 2 <= |SplitColon(text)| <= 3
    ensures r.Some? ==> (|SplitColon(text)| == 2 <==> r.value < 3600)
  {
    var f := SplitColon(text);
    if |f| == 2 && IsNumeral(f[0]) && DigitsValue(f[0]) < 60 && IsSexagesimalField(f[1]) then
      Some(DigitsValue(f[0]) * 60 + DigitsValue(f[1]))
    else if |f| == 3 && IsNumeral(f[0]) && DigitsValue(f[0]) > 0
            && IsSexagesimalField(f[1]) && IsSexagesimalField(f[2]) then
      Some(DigitsValue(f[0]) * 3600 + DigitsValue(f[1]) * 60 + DigitsValue(f[2]))
    else
      None
  }

  lemma NumeralHasNoColon(s: string)
    requires IsNumeral(s)
    ensures ':' !in s
  {
  }

  /** The three clock fields of a number of seconds recompose it. */
  lemma ClockFields(seconds: nat)
    ensures (seconds % 3600) / 60 < 60 && seconds % 60 < 60
    ensures seconds / 3600 * 3600 + (seconds % 3600) / 60 * 60 + seconds % 60 == seconds
  {
    var hours, rest := seconds / 3600, seconds % 3600;
    var minutes, secs := rest / 60, rest % 60;
    assert seconds == 60 * (60 * hours + minutes) + secs;
    DivModSixty(seconds, 60 * hours + minutes, secs);
  }

  lemma DivModSixty(a: int, q: int, r: int)
    requires 0 <= r < 60 && a == 60 * q + r
    ensures a / 60 == q && a % 60 == r
  {
  }

  /** A two-digit padded field of a number below 60. */
  lemma PaddedField(n: nat)
    requires n < 60
    ensures IsSexagesimalField(PadStart2(DecimalString(n)))
    ensures DigitsValue(PadStart2(DecimalString(n))) == n
    ensures ':' !in PadStart2(DecimalString(n))
  {
    PadStart2Value(DecimalString(n));
    DecimalStringValue(n);
    NumeralHasNoColon(PadStart2(DecimalString(n)));
  }

  lemma ParseTwoFields(m: string, s: string)
    requires IsNumeral(m) && DigitsValue(m) < 60 && IsSexagesimalField(s)
    ensures |SplitColon(m + ":" + s)| == 2
    ensures ParseTime(m + ":" + s) == Some(DigitsValue(m) * 60 + DigitsValue(s))
  {
    NumeralHasNoColon(m);
    NumeralHasNoColon(s);
    SplitColonTwo(m, s);
    var fields := SplitColon(m + ":" + s);
    assert fields[0] == m && fields[1] == s;
  }

  lemma ParseThreeFields(h: string, m: string, s: string)
    requires IsNumeral(h) && DigitsValue(h) > 0
    requires IsSexagesimalField(m) && IsSexagesimalField(s)
    ensures |SplitColon(h + ":" + m + ":" + s)| == 3
    ensures ParseTime(h + ":" + m + ":" + s) == Some(DigitsValue(h) * 3600 + DigitsValue(m) * 60 + DigitsValue(s))
  {
    NumeralHasNoColon(h);
    NumeralHasNoColon(m);
    NumeralHasNoColon(s);
    SplitColonThree(h, m, s);
    var fields := SplitColon(h + ":" + m + ":" + s);
    assert fields[0] == h && fields[1] == m && fields[2] == s;
  }

  /** `formatTime` from one hour on renders `h:mm:ss` and reads back. */
  lemma FormatHoursRoundTrip(seconds: nat)
    requires seconds >= 3600
    ensures |SplitColon(FormatTime(seconds))| == 3
    ensures ParseTime(FormatTime(seconds)) == Some(seconds)
  {
    var hours, minutes, secs := seconds / 3600, (seconds % 3600) / 60, seconds % 60;
    ClockFields(seconds);
    var h := DecimalString(hours);
    var m := PadStart2(DecimalString(minutes));
    var s := PadStart2(DecimalString(secs));
    PaddedField(minutes);
    PaddedField(secs);
    DecimalStringValue(hours);
    assert FormatTime(seconds) == h + ":" + m + ":" + s;
    ParseThreeFields(h, m, s);
  }

  /** `formatTime` below one hour renders `m:ss` and reads back. */
  lemma FormatMinutesRoundTrip(seconds: nat)
    requires seconds < 3600
    ensures |SplitColon(FormatTime(seconds))| == 2
    ensures ParseTime(FormatTime(seconds)) == Some(seconds)
  {
    var minutes, secs := (seconds % 3600) / 60, seconds % 60;
    ClockFields(seconds);
    var mm := DecimalString(minutes);
    var s := PadStart2(DecimalString(secs));
    PaddedField(secs);
    DecimalStringValue(minutes);
    assert FormatTime(seconds) == mm + ":" + s;
    ParseTwoFields(mm, s);
  }

  /**
   * `formatTime` round trip: the rendering splits into two fields below one hour
   * and three from one hour on, and reads back as the same number of seconds.
   */
  lemma FormatTimeRoundTrip(seconds: nat)
    ensures |SplitColon(FormatTime(seconds))| == (if seconds < 3600 then 2 else 3)
    ensures ParseTime(FormatTime(seconds)) == Some(seconds)
  {
    if seconds >= 3600 {
      FormatHoursRoundTrip(seconds);
    } else {
      FormatMinutesRoundTrip(seconds);
    }
  }
}
