/**
  The main loop's periodic timers. Each timer is the tick count of its last
  firing; it fires when at least its interval has passed since then, and
  firing advances that count by exactly the interval, not to the current
  time, so that lateness in one pass does not accumulate as drift.

  Tick counts are unbounded integer milliseconds: the wrap-around of the
  board's millisecond counter is not modelled.
 */
module Timers {

  const REFRESH_INTERVAL: nat := 3600 * 1000   // network resync
  const CLOCK_INTERVAL: nat := 1000            // local one-second tick
  const BLINK_INTERVAL: nat := 500             // alarm-setting blink
  const SCROLL_INTERVAL: nat := 80             // "WAKE UP " scroll step
  const WINK_INTERVAL: nat := 30000            // winking eyes
  const STATUS_SCROLL_INTERVAL: nat := 100     // "ON "/"OFF " scroll step
  const STATUS_DURATION: nat := 3000           // how long the status overlay shows
  const AUTO_SILENCE: nat := 60000             // how long the alarm rings at most

  /** `ticks_diff(now, since) >= interval`. */
  predicate Elapsed(now: int, since: int, interval: nat) {
    now - since >= interval
  }

  /** A timer's state after one poll at time `now`. */
  datatype Poll = Poll(fired: bool, last: int)

  /**
    Polls a timer last fired at `last`: it fires iff the interval has
    elapsed, and then its new reference point is exactly one interval on.
   */
  function PollTimer(last: int, interval: nat, now: int): (p: Poll)
    ensures p.fired <==> Elapsed(now, last, interval)
    ensures p.fired ==> p.last == last + interval && p.last <= now
    ensures !p.fired ==> p.last == last
  {
    if now - last >= interval then Poll(true, last + interval) else Poll(false, last)
  }

  /** Is the sequence of poll times non-decreasing, as a monotonic clock's is? */
  predicate Monotonic(times: seq<int>) {
    forall i, j :: 0 <= i < j < |times| ==> times[i] <= times[j]
  }

  /** How many times a timer fires when polled at each of `times` in turn. */
  function FireCount(last: int, interval: nat, times: seq<int>): nat
    decreases |times|
  {
    if |times| == 0 then 0
    else
      var p := PollTimer(last, interval, times[0]);
      (if p.fired then 1 else 0) + FireCount(p.last, interval, times[1..])
  }

  /** The reference point after polling at each of `times` in turn. */
  function LastAfter(last: int, interval: nat, times: seq<int>): int
    decreases |times|
  {
    if |times| == 0 then last
    else LastAfter(PollTimer(last, interval, times[0]).last, interval, times[1..])
  }

  /**
    No drift: after any run of polls the reference point has moved by
    exactly the interval times the number of firings, and it never runs
    ahead of the last poll time, so the k-th firing happens no earlier than
    k intervals after the start.
   */
  lemma {:induction false} NoDrift(last: int, interval: nat, times: seq<int>)
    requires Monotonic(times)
    ensures LastAfter(last, interval, times) == last + FireCount(last, interval, times) * interval
    ensures |times| > 0 && FireCount(last, interval, times) > 0
            ==> LastAfter(last, interval, times) <= times[|times| - 1]
    ensures |times| > 0 && Elapsed(times[|times| - 1], last, interval) ==> FireCount(last, interval, times) > 0
    decreases |times|
  {
    if |times| > 0 {
      var p := PollTimer(last, interval, times[0]);
      NoDrift(p.last, interval, times[1..]);
      var k := FireCount(p.last, interval, times[1..]);
      if p.fired {
        assert last + interval + k * interval == last + (1 + k) * interval;
      }
      if |times| > 1 && p.fired && k == 0 {
        assert times[0] <= times[|times| - 1];
      }
    }
  }
}
