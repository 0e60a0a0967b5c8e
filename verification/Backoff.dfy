/**
 The reconnect delay of an outbound peer (src/internal/websocket/peer.go:66-110), in Go's
 64-bit nanosecond durations with their wrap-around.
 */
module Backoff {

  type Duration = x: int | -0x8000_0000_0000_0000 <= x < 0x8000_0000_0000_0000

  const LIMIT := 0x8000_0000_0000_0000

  function Wrap(x: int): Duration {
    (x + LIMIT) % 0x1_0000_0000_0000_0000 - LIMIT
  }

  /** `if backoff < max { backoff *= 2 }` */
  function Next(backoff: Duration, max: Duration): Duration {
    if backoff < max then Wrap(backoff * 2) else backoff
  }

  /** The wait after a failed dial that n failed dials in a row preceded. */
  function Delay(initial: Duration, max: Duration, n: nat): Duration {
    if n == 0 then initial else Next(Delay(initial, max, n - 1), max)
  }

  /** initial * 2^n */
  function Doubled(initial: int, n: nat): int {
    if n == 0 then initial else 2 * Doubled(initial, n - 1)
  }

  lemma {:induction false} DoubledFirst(initial: int, n: nat)
    ensures Doubled(2 * initial, n) == 2 * Doubled(initial, n)
  {
    if n > 0 {
      DoubledFirst(initial, n - 1);
    }
  }

  lemma {:induction false} DoubledMonotone(initial: int, m: nat, n: nat)
    requires initial > 0 && m <= n
    ensures initial <= Doubled(initial, m) <= Doubled(initial, n)
    ensures m < n ==> Doubled(initial, m) < Doubled(initial, n)
    decreases n
  {
    if m < n {
      DoubledMonotone(initial, m, n - 1);
    } else if m > 0 {
      DoubledMonotone(initial, m - 1, n - 1);
    }
  }

  /** The least m with initial * 2^m >= max. */
  function Doublings(initial: int, max: int): (m: nat)
    requires initial > 0
    ensures Doubled(initial, m) >= max
    ensures m > 0 ==> Doubled(initial, m - 1) < max
    decreases max - initial
  {
    if initial >= max then 0
    else
      var m := Doublings(2 * initial, max);
      DoubledFirst(initial, m);
      if m > 0 then DoubledFirst(initial, m - 1); 1 + m else 1
  }

  function Peak(initial: int, max: int): int
    requires initial > 0
  {
    Doubled(initial, Doublings(initial, max))
  }

  function Min(a: nat, b: nat): nat {
    if a < b then a else b
  }

  /** Doubling is exact while it fits, and wraps to a negative number when it just does not. */
  lemma NextDoubles(backoff: Duration, max: Duration)
    requires 0 < backoff < max
    ensures 2 * backoff < LIMIT ==> Next(backoff, max) == 2 * backoff
    ensures 2 * backoff >= LIMIT ==> Next(backoff, max) < 0
  {
  }

  lemma {:induction false} DelayBelowPeak(initial: Duration, max: Duration, n: nat)
    requires initial > 0 && n < Doublings(initial, max)
    ensures Delay(initial, max, n) == Doubled(initial, n) < max
  {
    DoubledMonotone(initial, n, Doublings(initial, max) - 1);
    if n > 0 {
      DelayBelowPeak(initial, max, n - 1);
      DoubledMonotone(initial, n - 1, n);
      NextDoubles(Delay(initial, max, n - 1), max);
    }
  }

  /** As long as doubling cannot overflow, the delay is initial * 2^min(n, m). */
  lemma {:induction false} DelayFormula(initial: Duration, max: Duration, n: nat)
    requires initial > 0 && Peak(initial, max) < LIMIT
    ensures Delay(initial, max, n) == Doubled(initial, Min(n, Doublings(initial, max)))
  {
    var m := Doublings(initial, max);
    if n < m {
      DelayBelowPeak(initial, max, n);
    } else if n == m && m > 0 {
      DelayBelowPeak(initial, max, m - 1);
      DoubledMonotone(initial, m - 1, m);
      NextDoubles(Delay(initial, max, m - 1), max);
    } else if n > m {
      DelayFormula(initial, max, n - 1);
    }
  }

  /**
   During an outage the delay never falls, stays positive, and is below twice the maximum unless
   the initial delay already was not.
   */
  lemma DelayBounds(initial: Duration, max: Duration, n: nat)
    requires initial > 0 && Peak(initial, max) < LIMIT
    ensures 0 < Delay(initial, max, n) <= Delay(initial, max, n + 1)
    ensures initial < max ==> Delay(initial, max, n) < 2 * max
    ensures initial >= max ==> Delay(initial, max, n) == initial
  {
    var m := Doublings(initial, max);
    DelayFormula(initial, max, n);
    DelayFormula(initial, max, n + 1);
    DoubledMonotone(initial, Min(n, m), Min(n + 1, m));
    DoubledMonotone(initial, Min(n, m), m);
  }

  /** Every maximum up to 2^62 nanoseconds is safe. */
  lemma ModerateMaxIsSafe(initial: Duration, max: Duration)
    requires initial > 0 && max <= 0x4000_0000_0000_0000
    ensures Peak(initial, max) < LIMIT
  {
    var m := Doublings(initial, max);
    assert m > 0 ==> Doubled(initial, m) == 2 * Doubled(initial, m - 1);
  }

  /** A peak that does not fit 63 bits is reached, and wraps around. */
  lemma OverflowTurnsNegative(initial: Duration, max: Duration) returns (m: nat)
    requires initial > 0 && Peak(initial, max) >= LIMIT
    ensures Delay(initial, max, m) < 0
  {
    m := Doublings(initial, max);
    DelayBelowPeak(initial, max, m - 1);
    DoubledMonotone(initial, m - 1, m);
    NextDoubles(Delay(initial, max, m - 1), max);
  }

  /** Some wait turns negative, so that the dial loop spins, exactly when the peak does not fit 63 bits. */
  lemma PositiveIff(initial: Duration, max: Duration)
    requires initial > 0
    ensures (forall n: nat :: Delay(initial, max, n) > 0) <==> Peak(initial, max) < LIMIT
  {
    if Peak(initial, max) < LIMIT {
      forall n: nat
        ensures Delay(initial, max, n) > 0
      {
        DelayBounds(initial, max, n);
      }
    } else {
      var m := OverflowTurnsNegative(initial, max);
    }
  }

  /** A maximum that is hit by doubling is the peak. */
  lemma HitIsPeak(initial: Duration, max: Duration, k: nat)
    requires initial > 0 && Doubled(initial, k) == max
    ensures Peak(initial, max) == max
  {
    var m := Doublings(initial, max);
    if k < m {
      DoubledMonotone(initial, k, m - 1);
    } else {
      DoubledMonotone(initial, m, k);
    }
  }

  lemma NeverAbovePeak(initial: Duration, max: Duration, n: nat)
    requires initial > 0 && Peak(initial, max) < LIMIT
    ensures 0 < Delay(initial, max, n) <= Peak(initial, max)
  {
    var m := Doublings(initial, max);
    DelayFormula(initial, max, n);
    DoubledMonotone(initial, Min(n, m), m);
  }

  lemma PeakIsReached(initial: Duration, max: Duration)
    requires initial > 0 && Peak(initial, max) < LIMIT
    ensures Delay(initial, max, Doublings(initial, max)) == Peak(initial, max)
  {
    DelayFormula(initial, max, Doublings(initial, max));
  }

  /**
   The configured maximum is not a maximum: waits are real and respect it exactly when it is the
   initial delay times a power of two.
   */
  lemma WithinMaxIff(initial: Duration, max: Duration)
    requires initial > 0
    ensures (forall n: nat :: 0 < Delay(initial, max, n) <= max) <==> exists k: nat :: Doubled(initial, k) == max
  {
    var m := Doublings(initial, max);
    if k: nat :| Doubled(initial, k) == max {
      HitIsPeak(initial, max, k);
      forall n: nat
        ensures 0 < Delay(initial, max, n) <= max
      {
        NeverAbovePeak(initial, max, n);
      }
    } else if Peak(initial, max) < LIMIT {
      PeakIsReached(initial, max);
      assert Doubled(initial, m) != max;
      assert Delay(initial, max, m) > max;
    } else {
      var n := OverflowTurnsNegative(initial, max);
      assert Delay(initial, max, n) < 0;
    }
  }

  /** The default timings, one second doubling towards thirty, wait 32 seconds. */
  lemma DefaultsExceedMax()
    ensures Delay(1_000_000_000, 30_000_000_000, 5) == 32_000_000_000
  {
    assert Delay(1_000_000_000, 30_000_000_000, 2) == 4_000_000_000;
    assert Delay(1_000_000_000, 30_000_000_000, 4) == 16_000_000_000;
  }

  // Whole outages and recoveries

  /** What one turn of the reconnect loop meets. */
  datatype Turn = DialFails | HelloFails | Session

  /** The value of `backoff` when turn i starts. */
  function BackoffAt(turns: seq<Turn>, initial: Duration, max: Duration, i: nat): Duration
    requires i <= |turns|
  {
    if i == 0 then initial
    else if turns[i - 1] == DialFails then Next(BackoffAt(turns, initial, max, i - 1), max)
    else initial
  }

  /** How many turns in a row just before turn i failed to dial. */
  function FailuresBefore(turns: seq<Turn>, i: nat): nat
    requires i <= |turns|
  {
    if i == 0 || turns[i - 1] != DialFails then 0 else 1 + FailuresBefore(turns, i - 1)
  }

  /** Only the current outage counts: a successful dial starts the delays over. */
  lemma {:induction false} OnlyOutageCounts(turns: seq<Turn>, initial: Duration, max: Duration, i: nat)
    requires i <= |turns|
    ensures BackoffAt(turns, initial, max, i) == Delay(initial, max, FailuresBefore(turns, i))
  {
    if i > 0 && turns[i - 1] == DialFails {
      OnlyOutageCounts(turns, initial, max, i - 1);
    }
  }
}
