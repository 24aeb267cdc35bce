/** The arithmetic of `videoThumbnails.js`: the capture-time schedule computed
    once the video's metadata is known, and the nearest-thumbnail lookup. The
    seek-and-capture event loop that walks the schedule is a browser collaborator. */
module VideoThumbnails {
  import opened Wrappers

  const DefaultInterval: real := 5.0
  const DefaultMaxThumbnails: int := 200

  /** The stepped capture times from `time` on, `count` of them already taken:
      `time`, `time + step`, … while below `duration` and under the cap `max`. */
  function Steps(duration: real, step: real, max: int, time: real, count: nat): seq<real>
    decreases if count < max then max - count else 0
  {
    if count < max && time < duration then [time] + Steps(duration, step, max, time + step, count + 1)
    else []
  }

  /** The interval actually used: a non-positive one falls back to the default. */
  function SafeInterval(interval: real): (r: real)
    ensures r > 0.0
    ensures interval > 0.0 ==> r == interval
  {
    if interval > 0.0 then interval else DefaultInterval
  }

  /** The schedule: nothing for a missing (non-finite) or zero duration;
      otherwise the stepped times, then the duration itself when it is not
      already last and the cap leaves room. */
  function Schedule(duration: Option<real>, interval: real, max: int): seq<real>
  {
    var d := if duration.Some? then duration.value else 0.0;
    if d == 0.0 then []
    else
      var steps := Steps(d, SafeInterval(interval), max, 0.0, 0);
      if (|steps| == 0 || steps[|steps| - 1] != d) && |steps| < max then steps + [d] else steps
  }

  /** `handleLoadedMetadata`'s loop. `duration` is absent when the element's
      duration is not finite. */
  method CaptureTimes(duration: Option<real>, interval: real, maxThumbnails: int) returns (times: seq<real>)
    ensures times == Schedule(duration, interval, maxThumbnails)
  {
    var d := if duration.Some? then duration.value else 0.0;
    if d == 0.0 {
      return [];
    }
    var safeInterval := if interval > 0.0 then interval else DefaultInterval;
    times := [];
    var time := 0.0;
    while time < d && |times| < maxThumbnails
      invariant times + Steps(d, safeInterval, maxThumbnails, time, |times|) == Steps(d, safeInterval, maxThumbnails, 0.0, 0)
      decreases maxThumbnails - |times|
    {
      assert Steps(d, safeInterval, maxThumbnails, time, |times|)
             == [time] + Steps(d, safeInterval, maxThumbnails, time + safeInterval, |times| + 1);
      times := times + [time];
      time := time + safeInterval;
    }
    assert times == Steps(d, safeInterval, maxThumbnails, 0.0, 0);
    if (|times| == 0 || times[|times| - 1] != d) && |times| < maxThumbnails {
      times := times + [d];
    }
  }

  /** The stepped times start at `time`, go up by `step` each, and stay below
      the duration and under the cap. */
  lemma {:induction false} StepsShape(duration: real, step: real, max: int, time: real, count: nat)
    requires step > 0.0
    ensures var s := Steps(duration, step, max, time, count);
            && (|s| > 0 ==> s[0] == time)
            && (forall i :: 0 <= i < |s| ==> time <= s[i] < duration && count + i < max)
            && (forall i :: 0 <= i < |s| - 1 ==> s[i + 1] == s[i] + step)
            && (forall i, j :: 0 <= i < j < |s| ==> s[i] < s[j])
    decreases if count < max then max - count else 0
  {
    if count < max && time < duration {
      var s := Steps(duration, step, max, time, count);
      var rest := Steps(duration, step, max, time + step, count + 1);
      StepsShape(duration, step, max, time + step, count + 1);
      assert s == [time] + rest;
      assert forall i :: 1 <= i < |s| ==> s[i] == rest[i - 1];
    }
  }

  /** A missing or zero duration gives no capture times. */
  lemma NoDurationNoTimes(duration: Option<real>, interval: real, max: int)
    requires duration.None? || duration.value == 0.0
    ensures Schedule(duration, interval, max) == []
  {
  }

  /** For a positive duration the schedule starts at 0 (when the cap allows one
      time), goes up by the safe interval, is strictly increasing, stays below the
      duration except for a final entry equal to it, never exceeds the cap, and
      ends with the duration exactly when the stepped times left room under the cap. */
  lemma ScheduleShape(duration: real, interval: real, max: int)
    requires duration > 0.0
    ensures var s := Schedule(Some(duration), interval, max);
            var steps := Steps(duration, SafeInterval(interval), max, 0.0, 0);
            && |s| <= (if max < 0 then 0 else max)
            && (max >= 1 ==> |s| >= 1 && s[0] == 0.0)
            && s[..|steps|] == steps
            && (forall i :: 0 <= i < |steps| - 1 ==> s[i + 1] == s[i] + SafeInterval(interval))
            && (forall i :: 0 <= i < |steps| ==> s[i] < duration)
            && (forall i, j :: 0 <= i < j < |s| ==> s[i] < s[j])
            && (|s| > 0 && s[|s| - 1] == duration <==> |steps| < max)
            && |s| - |steps| <= 1
  {
    var step := SafeInterval(interval);
    var steps := Steps(duration, step, max, 0.0, 0);
    var s := Schedule(Some(duration), interval, max);
    StepsShape(duration, step, max, 0.0, 0);
    if |steps| > 0 {
      assert steps[|steps| - 1] < duration;
    }
    if max >= 1 {
      assert steps == [0.0] + Steps(duration, step, max, step, 1);
    }
    assert s[..|steps|] == steps;
  }

  datatype Thumbnail = Thumbnail(time: real, image: string)

  function Abs(x: real): real { if x < 0.0 then -x else x }

  /** `getClosestThumbnail`: nothing for a missing or empty list; otherwise a
      thumbnail at minimal distance from `t`, the earliest such on a tie. */
  method GetClosestThumbnail(thumbnails: Option<seq<Thumbnail>>, t: real) returns (r: Option<Thumbnail>)
    ensures r.None? <==> thumbnails.None? || thumbnails.value == []
    ensures r.Some? ==>
              var ts := thumbnails.value;
              exists i :: 0 <= i < |ts| && ts[i] == r.value
                          && (forall j :: 0 <= j < |ts| ==> Abs(ts[i].time - t) <= Abs(ts[j].time - t))
                          && (forall j :: 0 <= j < i ==> Abs(ts[j].time - t) > Abs(ts[i].time - t))
  {
    if thumbnails.None? || |thumbnails.value| == 0 {
      return None;
    }
    var ts := thumbnails.value;
    var best := 0;
    var closest := ts[0];
    var minDiff := Abs(closest.time - t);
    for i := 1 to |ts|
      invariant 0 <= best < i && closest == ts[best] && minDiff == Abs(ts[best].time - t)
      invariant forall j :: 0 <= j < i ==> minDiff <= Abs(ts[j].time - t)
      invariant forall j :: 0 <= j < best ==> Abs(ts[j].time - t) > minDiff
    {
      var diff := Abs(ts[i].time - t);
      if diff < minDiff {
        best := i;
        closest := ts[i];
        minDiff := diff;
      }
    }
    r := Some(closest);
  }
}
