/**
 * The rate-limit cooldown gate of the market-data client. After an HTTP 429
 * "Too Many Requests" answer (section 4 of RFC 6585) the application pauses
 * every market-data request for 90 seconds and shows a per-second countdown.
 * Times are integer milliseconds; `now` is passed in where the source reads the clock.
 */
module Cooldown {
  import opened Wrappers
  import opened Types

  /** Length of a cooldown, in milliseconds. */
  const COOLDOWN_MS := 90 * 1000

  /** `Math.ceil(n / d)` for a positive integer divisor. */
  function CeilDiv(n: int, d: int): (r: int)
    requires d > 0
    ensures (r - 1) * d < n <= r * d
  {
    var q := (-n) / d;
    assert -n == q * d + (-n) % d;
    -q
  }

  /** The countdown shown to the user: whole seconds left until `end`, rounded up and never negative. */
  function TimeLeft(end: int, now: int): (r: nat)
    ensures r == 0 <==> now >= end
    ensures r > 0 ==> (r - 1) * 1000 < end - now <= r * 1000
  {
    Max(0, CeilDiv(end - now, 1000))
  }

  /** A countdown started at `start` shows 90 seconds then. */
  lemma FreshCooldownShowsFullDuration(start: int)
    ensures TimeLeft(start + COOLDOWN_MS, start) == 90
  {
    var r := TimeLeft(start + COOLDOWN_MS, start);
    assert (r - 1) * 1000 < 90000 <= r * 1000;
  }

  /** The countdown never goes up as time passes. */
  lemma {:induction false} TimeLeftNeverIncreases(end: int, earlier: int, later: int)
    requires earlier <= later
    ensures TimeLeft(end, later) <= TimeLeft(end, earlier)
  {
    var a, b := TimeLeft(end, earlier), TimeLeft(end, later);
    if b > 0 {
      assert (b - 1) * 1000 < end - later <= end - earlier <= a * 1000;
      assert (b - 1) * 1000 < a * 1000;
    }
  }

  /**
   * The gate's state: the "globally rate limited" flag, the cooldown's end
   * time (`null` in the source when none is set) and the countdown on display
   * (`None` for the empty text).
   */
  class CooldownGate {
    var limited: bool
    var endTimestamp: Option<int>
    var display: Option<nat>

    /** The flag and the end time are set and cleared together. */
    ghost predicate Valid()
      reads this
    {
      limited <==> endTimestamp.Some?
    }

    constructor ()
      ensures Valid() && !limited && endTimestamp == None && display == None
    {
      limited := false;
      endTimestamp := None;
      display := None;
    }

    /** Enters the cooldown, or restarts it: requests stay paused until `now + 90000`. */
    method Activate(now: int)
      requires Valid()
      modifies this
      ensures Valid()
      ensures limited && endTimestamp == Some(now + COOLDOWN_MS) && display == old(display)
    {
      limited := true;
      endTimestamp := Some(now + COOLDOWN_MS);
    }

    /**
     * One tick of the countdown at time `now`. While the gate is closed with a
     * set end time it shows the seconds left and reopens once none are left;
     * otherwise it only clears the countdown text.
     */
    method Tick(now: int)
      requires Valid()
      modifies this
      ensures Valid()
      ensures old(limited && IsSet(endTimestamp)) ==>
        var left := TimeLeft(old(endTimestamp).value, now);
        && (limited <==> left != 0)
        && (limited <==> now < old(endTimestamp).value)
        && endTimestamp == (if left == 0 then None else old(endTimestamp))
        && display == (if left == 0 then None else Some(left))
      ensures !old(limited && IsSet(endTimestamp)) ==>
        limited == old(limited) && endTimestamp == old(endTimestamp) && display == None
    {
      if limited && IsSet(endTimestamp) {
        var left := TimeLeft(endTimestamp.value, now);
        display := Some(left);
        if left == 0 {
          limited := false;
          endTimestamp := None;
          display := None;
        }
      } else {
        display := None;
      }
    }
  }
}
