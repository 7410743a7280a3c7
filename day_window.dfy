/** The day-by-day walk of `getDailyMinutesMap` (`src/app/tracker-service.ts`) on clock
    readings in milliseconds: the map gets one entry for each step of one day from the
    start of the window while the step is not after the end reading. Days are taken as
    24 hours; time zones and summer time are not part of this model. */
module DayWindow {
  import opened Js

  /** Milliseconds in a day. */
  const DayMs := 86400000

  /** The instants `from`, `from + DayMs`, ... that are not after `end`. */
  function Walk(from: int, end: int): (r: seq<int>)
    ensures forall i :: 0 <= i < |r| ==> r[i] == from + i * DayMs && r[i] <= end
    ensures r != [] ==> r[|r| - 1] + DayMs > end
    ensures r == [] <==> from > end
    decreases end - from + DayMs
  {
    if from > end then [] else [from] + Walk(from + DayMs, end)
  }

  /** Starting `k` whole days before `end`, the walk visits `k + 1` instants. */
  lemma {:induction false} WalkFromWholeDays(end: int, k: nat)
    ensures |Walk(end - k * DayMs, end)| == k + 1
  {
    if k > 0 {
      WalkFromWholeDays(end, k - 1);
      assert end - k * DayMs + DayMs == end - (k - 1) * DayMs;
    }
  }

  /** Starting one millisecond later, it visits only `k`. */
  lemma {:induction false} WalkFromLateStart(end: int, k: nat)
    ensures |Walk(end + 1 - k * DayMs, end)| == k
  {
    if k > 0 {
      WalkFromLateStart(end, k - 1);
      assert end + 1 - k * DayMs + DayMs == end + 1 - (k - 1) * DayMs;
    }
  }

  /** The window as written: `end` and `start` are two separate clock readings, and
      `start` is moved `days - 1` days back. */
  function MapDaysAsWritten(endMs: int, startMs: int, days: int): (r: seq<int>)
    ensures forall i :: 0 <= i < |r| ==> r[i] <= endMs
    ensures startMs == endMs ==> r == MapDays(endMs, days)
  {
    Walk(startMs - (days - 1) * DayMs, endMs)
  }

  /** When the second reading falls one millisecond after the first, the map has one
      day fewer than asked for, and its last entry is a day before the end. */
  lemma {:induction false} LateStartDropsADay(endMs: int, days: int)
    requires days >= 1
    ensures |MapDaysAsWritten(endMs, endMs + 1, days)| == days - 1
    ensures days >= 2 ==> MapDaysAsWritten(endMs, endMs + 1, days)[days - 2] == endMs + 1 - DayMs
  {
    WalkFromLateStart(endMs, days - 1);
  }

  /** The window with `start` taken from the `end` reading: exactly `days` entries (none
      for a non-positive count), one a day, the last at `end`. */
  function MapDays(endMs: int, days: int): (r: seq<int>)
    ensures |r| == Max(days, 0)
    ensures forall i :: 0 <= i < |r| ==> r[i] == endMs - (days - 1 - i) * DayMs
    ensures days >= 1 ==> r[|r| - 1] == endMs
  {
    var r := Walk(endMs - (days - 1) * DayMs, endMs);
    assert days >= 1 ==> |r| == days by {
      if days >= 1 {
        WalkFromWholeDays(endMs, days - 1);
      }
    }
    r
  }

  /** Read as day numbers, the corrected window is the days `today - days + 1` up to
      `today`, where `today` is the day of the end reading: the window the tracker
      model's `DailyMinutes` walks. */
  lemma {:induction false} MapDaysAreWholeDays(endMs: int, days: int)
    ensures forall i :: 0 <= i < |MapDays(endMs, days)| ==>
              MapDays(endMs, days)[i] / DayMs == endMs / DayMs - days + 1 + i
  {
    var r := MapDays(endMs, days);
    forall i | 0 <= i < |r| ensures r[i] / DayMs == endMs / DayMs - days + 1 + i {
      DayOfShift(endMs, days - 1 - i);
    }
  }

  /** Moving a reading `k` whole days back moves its day number `k` back. */
  lemma {:induction false} DayOfShift(t: int, k: int)
    ensures (t - k * DayMs) / DayMs == t / DayMs - k
  {
    var q, m := t / DayMs, t % DayMs;
    assert t == q * DayMs + m && 0 <= m < DayMs;
    assert t - k * DayMs == (q - k) * DayMs + m;
  }
}
