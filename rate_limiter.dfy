/**
 * SimpleBlockingRateLimiter: paces calls in batches, spaces calls inside a
 * batch by a jittered interval, and holds calls outside a daily window.
 * Time is an integer count of milliseconds since the epoch; a day starts at
 * a multiple of 24 hours (local time zones are not modelled). A sleep lasts
 * exactly as long as asked, and a sleep whose length is NaN lasts 1 ms, as
 * Node's timers do.
 */
module Blocker {
  import opened Wrappers
  import ClockTime

  const MillisPerMinute := 60000
  const MillisPerDay := 86400000

  /** `getHours() * 60 + getMinutes()` of an instant. */
  function MinuteOfDay(t: nat): (m: nat)
    ensures m < ClockTime.MinutesPerDay
  {
    (t % MillisPerDay) / MillisPerMinute
  }

  /**
   * `isWithinTimeWindow`: both ends are inclusive, and a start after the end
   * is an overnight window; a time that did not parse (NaN) makes every
   * comparison false.
   */
  function IsWithinTimeWindow(current: int, start: Option<int>, end: Option<int>): (r: bool)
    ensures r ==> start.Some? && end.Some?
    ensures start.Some? && end.Some? && start.value <= end.value ==>
      (r <==> start.value <= current <= end.value)
    ensures start.Some? && end.Some? && start.value > end.value ==>
      (r <==> !(end.value < current < start.value))
  {
    match (start, end)
    case (Some(s), Some(e)) =>
      if s > e then current >= s || current <= e
      else current >= s && current <= e
    case _ => false
  }

  /** Distance from `a` forward to `b` on the 24-hour clock, in minutes. */
  function ClockDistance(a: int, b: int): (d: nat)
    ensures d < ClockTime.MinutesPerDay
  {
    (b - a) % ClockTime.MinutesPerDay
  }

  /**
   * The window check agrees with the cyclic reading of a window: a minute
   * is inside when, walking forward from the start, it is reached no later
   * than the end.
   */
  lemma WindowIsCyclicInterval(current: int, s: int, e: int)
    requires 0 <= current < ClockTime.MinutesPerDay
    requires 0 <= s < ClockTime.MinutesPerDay && 0 <= e < ClockTime.MinutesPerDay
    ensures IsWithinTimeWindow(current, Some(s), Some(e)) <==> ClockDistance(s, current) <= ClockDistance(s, e)
  {
    var n := ClockTime.MinutesPerDay;
    if current >= s {
      assert ClockDistance(s, current) == current - s;
    } else {
      assert ClockDistance(s, current) == current - s + n;
    }
    if e >= s {
      assert ClockDistance(s, e) == e - s;
    } else {
      assert ClockDistance(s, e) == e - s + n;
    }
  }

  /**
   * `getTimeUntilWindowStart`: milliseconds from `now` to the next instant at
   * the start time, today's if it is still ahead, otherwise tomorrow's. NaN
   * (None) when the start time did not parse.
   */
  function TimeUntilWindowStart(now: nat, start: Option<int>): (r: Option<int>)
    ensures r.None? <==> start.None?
    ensures start.Some? && 0 <= start.value < ClockTime.MinutesPerDay ==> 0 < r.value <= MillisPerDay
  {
    match start
    case None => None
    case Some(s) =>
      var today := now - now % MillisPerDay + s * MillisPerMinute;
      if today <= now then Some(today + MillisPerDay - now) else Some(today - now)
  }

  /** Waiting until the window start lands exactly on the start minute, at its first millisecond. */
  lemma WindowStartLanding(now: nat, s: nat)
    requires s < ClockTime.MinutesPerDay
    ensures var w := TimeUntilWindowStart(now, Some(s)).value;
      MinuteOfDay(now + w) == s && (now + w) % MillisPerMinute == 0
  {
    var w := TimeUntilWindowStart(now, Some(s)).value;
    var day := now / MillisPerDay;
    assert now - now % MillisPerDay == day * MillisPerDay;
    var k := if now - now % MillisPerDay + s * MillisPerMinute <= now then day + 1 else day;
    var t := now + w;
    assert t == k * MillisPerDay + s * MillisPerMinute;
    DayOffset(k, s * MillisPerMinute);
    MinuteOffset(s);
    MinuteOffset(k * ClockTime.MinutesPerDay + s);
  }

  /** The time of day of an instant `k` days and `r` milliseconds after the epoch is `r`. */
  lemma DayOffset(k: int, r: int)
    requires 0 <= r < MillisPerDay
    ensures (k * MillisPerDay + r) % MillisPerDay == r
  {
  }

  /** `m` whole minutes are `m` minutes and no spare millisecond. */
  lemma MinuteOffset(m: int)
    ensures (m * MillisPerMinute) / MillisPerMinute == m && (m * MillisPerMinute) % MillisPerMinute == 0
  {
  }

  /** The largest delay a timer accepts, in milliseconds. */
  const MaxTimerDelay := 0x7FFF_FFFF

  /**
   * How long `setTimeout(resolve, ms)` waits: `ms` itself when it is a
   * number from 1 to `MaxTimerDelay`, and 1 ms otherwise (NaN included).
   */
  function SleepLength(ms: Option<int>): (r: nat)
    ensures 1 <= r <= MaxTimerDelay
    ensures ms.Some? && 1 <= ms.value <= MaxTimerDelay ==> r == ms.value
    ensures (ms.None? || ms.value < 1 || ms.value > MaxTimerDelay) ==> r == 1
  {
    match ms
    case Some(v) => if 1 <= v <= MaxTimerDelay then v else 1
    case None => 1
  }

  /** A call held until the window start is released inside the window. */
  lemma SleepLandsInWindow(now: nat, s: int, e: int)
    requires 0 <= s < ClockTime.MinutesPerDay
    ensures IsWithinTimeWindow(MinuteOfDay(now + SleepLength(TimeUntilWindowStart(now, Some(s)))), Some(s), Some(e))
  {
    WindowStartLanding(now, s);
  }

  class RateLimiter {
    const batchInterval: nat
    const batchSize: nat
    const postInterval: nat
    const postIntervalEbb: nat
    const startTime: string
    const endTime: string
    /**
     * The two times read as minutes since midnight. The texts never change,
     * so reading them here gives the value every call reads again.
     */
    const startMinutes: Option<int>
    const endMinutes: Option<int>
    var currentBatchCount: nat
    var lastBatchStartTime: nat
    var lastExecutionTime: nat

    /** Durations are given in seconds and kept in milliseconds. */
    constructor (batchIntervalSeconds: nat, batchSize: nat, postIntervalSeconds: nat, postIntervalEbbSeconds: nat,
                 startTime: string, endTime: string)
      ensures this.batchInterval == batchIntervalSeconds * 1000 && this.batchSize == batchSize
      ensures postInterval == postIntervalSeconds * 1000 && postIntervalEbb == postIntervalEbbSeconds * 1000
      ensures this.startTime == startTime && this.endTime == endTime
      ensures startMinutes == ClockTime.ParseClock(startTime) && endMinutes == ClockTime.ParseClock(endTime)
      ensures currentBatchCount == 0 && lastBatchStartTime == 0 && lastExecutionTime == 0
    {
      this.batchInterval := batchIntervalSeconds * 1000;
      this.batchSize := batchSize;
      this.postInterval := postIntervalSeconds * 1000;
      this.postIntervalEbb := postIntervalEbbSeconds * 1000;
      this.startTime := startTime;
      this.endTime := endTime;
      startMinutes := ClockTime.ParseClock(startTime);
      endMinutes := ClockTime.ParseClock(endTime);
      currentBatchCount := 0;
      lastBatchStartTime := 0;
      lastExecutionTime := 0;
    }

    function MinInterval(): nat {
      if postInterval >= postIntervalEbb then postInterval - postIntervalEbb else 0
    }

    function MaxInterval(): nat {
      postInterval + postIntervalEbb
    }

    /**
     * `getRandomizedPostInterval`, with `Math.floor(Math.random() * (max - min + 1))`
     * given as `draw`, a whole number from 0 to max - min.
     */
    function RandomizedPostInterval(draw: nat): (r: nat)
      requires draw <= MaxInterval() - MinInterval()
      ensures (if postInterval >= postIntervalEbb then postInterval - postIntervalEbb else 0) <= r
      ensures r <= postInterval + postIntervalEbb
    {
      MinInterval() + draw
    }

    predicate StartsNewBatch()
      reads this
    {
      currentBatchCount == 0 || currentBatchCount >= batchSize
    }

    predicate InWindow(t: nat) {
      IsWithinTimeWindow(MinuteOfDay(t), startMinutes, endMinutes)
    }

    /**
     * `execute`, called at `now` with `draw` as the random choice of the
     * inter-post interval; `released` is the instant the call returns.
     */
    method Execute(now: nat, draw: nat) returns (released: nat)
      requires draw <= MaxInterval() - MinInterval()
      modifies this
      ensures released >= now && lastExecutionTime == released
      // A new batch starts exactly when the batch is empty or full.
      ensures old(StartsNewBatch()) ==> currentBatchCount == 1
      ensures !old(StartsNewBatch()) ==> currentBatchCount == old(currentBatchCount) + 1
      ensures batchSize >= 1 ==> 1 <= currentBatchCount <= batchSize
      // The batch wait: at least batchInterval after the previous batch start, and only when needed.
      ensures old(StartsNewBatch()) ==> now <= lastBatchStartTime <= released
      ensures old(StartsNewBatch()) && old(lastBatchStartTime) > 0 ==>
        lastBatchStartTime >= old(lastBatchStartTime) + batchInterval
      ensures old(StartsNewBatch()) && (old(lastBatchStartTime) == 0 || now >= old(lastBatchStartTime) + batchInterval) ==>
        lastBatchStartTime == now
      // The wait inside a batch: at least the drawn interval after the previous call.
      ensures !old(StartsNewBatch()) ==> lastBatchStartTime == old(lastBatchStartTime)
      ensures !old(StartsNewBatch()) ==> released >= old(lastExecutionTime) + RandomizedPostInterval(draw)
      ensures !old(StartsNewBatch()) && now >= old(lastExecutionTime) + RandomizedPostInterval(draw) && InWindow(now) ==>
        released == now
      // The call is released inside the window whenever both times parse and the start is a time of day.
      ensures startMinutes.Some? && endMinutes.Some? && 0 <= startMinutes.value < ClockTime.MinutesPerDay ==>
        InWindow(released)
    {
      var t := now;
      if currentBatchCount == 0 || currentBatchCount >= batchSize {
        if lastBatchStartTime > 0 {
          var timeToWait := batchInterval - (t - lastBatchStartTime);
          if timeToWait > 0 {
            t := t + timeToWait;
          }
        }
        currentBatchCount := 0;
        lastBatchStartTime := t;
      } else {
        var interval := RandomizedPostInterval(draw);
        var timeToWait := interval - (t - lastExecutionTime);
        if timeToWait > 0 {
          t := t + timeToWait;
        }
      }
      if !InWindow(t) {
        var waitTime := TimeUntilWindowStart(t, startMinutes);
        if startMinutes.Some? && endMinutes.Some? && 0 <= startMinutes.value < ClockTime.MinutesPerDay {
          SleepLandsInWindow(t, startMinutes.value, endMinutes.value);
        }
        t := t + SleepLength(waitTime);
      }
      lastExecutionTime := t;
      currentBatchCount := currentBatchCount + 1;
      released := t;
    }
  }
}
