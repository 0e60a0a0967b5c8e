/**
 The echo gate of `handleClipboard` (src/internal/websocket/handlers.go:129-140): one remembered
 key and the time it was let through.
 */
module Gates {
  import opened Codec

  /** A `time.Time`; `Never` is its zero value, outside every window. */
  datatype Stamp = Never | At(time: int)

  /** `time.Since(s) < window` at time `now` */
  predicate Within(s: Stamp, now: int, window: int) {
    s.At? && now - s.time < window
  }

  /** `lastBroadcast` and `lastBroadcastT` */
  datatype Gate = Gate(key: Key, at: Stamp)

  const CLOSED := Gate(NO_KEY, Never)

  predicate IsEcho(g: Gate, key: Key, now: int, window: int) {
    key == g.key && Within(g.at, now, window)
  }

  /** The gate after a clip with this key arrives: only an accepted clip moves it. */
  function Arrive(g: Gate, key: Key, now: int, window: int): Gate {
    if IsEcho(g, key, now, window) then g else Gate(key, At(now))
  }

  // Whole traces of arrivals

  datatype Arrival = Arrival(key: Key, time: int)

  predicate Monotone(g: Gate, trace: seq<Arrival>) {
    && (forall i, j :: 0 <= i < j < |trace| ==> trace[i].time <= trace[j].time)
    && (g.at.At? ==> forall i :: 0 <= i < |trace| ==> g.at.time <= trace[i].time)
  }

  /** The gate just before arrival i. */
  function GateAt(g: Gate, trace: seq<Arrival>, window: int, i: nat): Gate
    requires i <= |trace|
  {
    if i == 0 then g
    else Arrive(GateAt(g, trace, window, i - 1), trace[i - 1].key, trace[i - 1].time, window)
  }

  predicate Accepted(g: Gate, trace: seq<Arrival>, window: int, i: nat)
    requires i < |trace|
  {
    !IsEcho(GateAt(g, trace, window, i), trace[i].key, trace[i].time, window)
  }

  /** j is the latest arrival before i that was accepted. */
  predicate LatestAccepted(g: Gate, trace: seq<Arrival>, window: int, j: nat, i: nat)
    requires i <= |trace|
  {
    j < i && Accepted(g, trace, window, j)
    && forall k :: j < k < i ==> !Accepted(g, trace, window, k)
  }

  predicate NoneAccepted(g: Gate, trace: seq<Arrival>, window: int, i: nat)
    requires i <= |trace|
  {
    forall k :: 0 <= k < i ==> !Accepted(g, trace, window, k)
  }

  /** The gate remembers the latest accepted arrival, and a suppressed echo does not refresh it. */
  lemma {:induction false} GateRemembers(g: Gate, trace: seq<Arrival>, window: int, i: nat) returns (j: int)
    requires i <= |trace|
    ensures j == -1 ==> NoneAccepted(g, trace, window, i) && GateAt(g, trace, window, i) == g
    ensures j != -1 ==> 0 <= j && LatestAccepted(g, trace, window, j, i)
                        && GateAt(g, trace, window, i) == Gate(trace[j].key, At(trace[j].time))
  {
    if i == 0 {
      j := -1;
    } else if Accepted(g, trace, window, i - 1) {
      j := i - 1;
    } else {
      j := GateRemembers(g, trace, window, i - 1);
    }
  }

  /**
   A clip is suppressed exactly when it repeats the latest accepted key inside that key's window
   (or, before anything was accepted, what the gate already held).
   */
  lemma SuppressedIff(g: Gate, trace: seq<Arrival>, window: int, i: nat)
    requires i < |trace|
    ensures !Accepted(g, trace, window, i) <==>
            || (NoneAccepted(g, trace, window, i) && IsEcho(g, trace[i].key, trace[i].time, window))
            || (exists j: nat :: LatestAccepted(g, trace, window, j, i) && trace[j].key == trace[i].key
                                 && trace[i].time - trace[j].time < window)
  {
    var j := GateRemembers(g, trace, window, i);
    if j != -1 {
      forall k: nat | LatestAccepted(g, trace, window, k, i)
        ensures j == k
      {
        LatestIsUnique(g, trace, window, j, k, i);
      }
    }
  }

  lemma LatestIsUnique(g: Gate, trace: seq<Arrival>, window: int, j: nat, k: nat, i: nat)
    requires i <= |trace| && LatestAccepted(g, trace, window, j, i) && LatestAccepted(g, trace, window, k, i)
    ensures j == k
  {
  }

  /** Accepted clips with equal keys and no other accepted clip between them are a window apart. */
  lemma AcceptedSpacing(g: Gate, trace: seq<Arrival>, window: int, i: nat, j: nat)
    requires j < |trace| && LatestAccepted(g, trace, window, i, j)
    requires Accepted(g, trace, window, j) && trace[i].key == trace[j].key
    ensures trace[j].time - trace[i].time >= window
  {
    SuppressedIff(g, trace, window, j);
  }

  function AcceptedCount(g: Gate, trace: seq<Arrival>, window: int, lo: nat, hi: nat): nat
    requires lo <= hi <= |trace|
  {
    if lo == hi then 0
    else AcceptedCount(g, trace, window, lo, hi - 1) + if Accepted(g, trace, window, hi - 1) then 1 else 0
  }

  lemma {:induction false} AcceptedSpread(g: Gate, trace: seq<Arrival>, window: int, lo: nat, hi: nat, key: Key)
    requires lo < hi <= |trace| && Monotone(g, trace)
    requires forall i :: lo <= i < hi ==> trace[i].key == key
    requires AcceptedCount(g, trace, window, lo, hi) > 0
    ensures var gate := GateAt(g, trace, window, hi);
            gate.key == key && gate.at.At? && gate.at.time <= trace[hi - 1].time
            && gate.at.time - trace[lo].time >= (AcceptedCount(g, trace, window, lo, hi) - 1) * window
  {
    var n := AcceptedCount(g, trace, window, lo, hi);
    if AcceptedCount(g, trace, window, lo, hi - 1) > 0 {
      AcceptedSpread(g, trace, window, lo, hi - 1, key);
      if Accepted(g, trace, window, hi - 1) {
        MulStep(n - 2, window);
      }
    }
  }

  /** While only one key arrives, an interval of length L lets at most floor(L / window) + 1 clips through. */
  lemma RateBound(g: Gate, trace: seq<Arrival>, window: int, lo: nat, hi: nat, key: Key)
    requires window > 0
    requires lo < hi <= |trace| && Monotone(g, trace)
    requires forall i :: lo <= i < hi ==> trace[i].key == key
    ensures AcceptedCount(g, trace, window, lo, hi) <= (trace[hi - 1].time - trace[lo].time) / window + 1
  {
    var n := AcceptedCount(g, trace, window, lo, hi);
    var length := trace[hi - 1].time - trace[lo].time;
    if n > 0 {
      AcceptedSpread(g, trace, window, lo, hi, key);
      AtMostQuotient(n - 1, window, length);
    }
  }

  lemma AtMostQuotient(n: nat, d: int, x: int)
    requires d > 0 && n * d <= x
    ensures n <= x / d
  {
    MulCancel(n, x / d + 1, d);
  }

  lemma MulStep(n: int, d: int)
    ensures (n + 1) * d == n * d + d
  {
  }

  lemma MulCancel(m: int, n: int, d: int)
    requires d > 0 && m * d < n * d
    ensures m < n
  {
  }
}
