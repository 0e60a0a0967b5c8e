/** Connection ids: a 64-bit sequence number printed in base 36 (src/internal/websocket/helpers.go). */
module Ids {

  const WRAP := 0x1_0000_0000_0000_0000

  function DigitChar(d: nat): char
    requires d < 36
  {
    if d < 10 then '0' + d as char else 'a' + (d - 10) as char
  }

  function DigitValue(c: char): nat {
    if '0' <= c <= '9' then (c - '0') as nat
    else if 'a' <= c <= 'z' then (c - 'a') as nat + 10
    else 0
  }

  /** `strconv.FormatUint(n, 36)` */
  function Format(n: nat): string {
    if n < 36 then [DigitChar(n)] else Format(n / 36) + [DigitChar(n % 36)]
  }

  function Parse(s: string): nat
    decreases |s|
  {
    if s == "" then 0 else Parse(s[..|s| - 1]) * 36 + DigitValue(s[|s| - 1])
  }

  lemma DigitRoundTrip(d: nat)
    requires d < 36
    ensures DigitValue(DigitChar(d)) == d
  {
  }

  lemma {:induction false} RoundTrip(n: nat)
    ensures Format(n) != "" && Parse(Format(n)) == n
  {
    DigitRoundTrip(n % 36);
    var s := Format(n);
    if n >= 36 {
      RoundTrip(n / 36);
      assert s[..|s| - 1] == Format(n / 36);
    } else {
      assert s[..|s| - 1] == "";
    }
  }

  lemma Injective(m: nat, n: nat)
    ensures Format(m) == Format(n) <==> m == n
  {
    RoundTrip(m);
    RoundTrip(n);
  }

  class Sequence {
    var last: nat

    ghost predicate Valid()
      reads this
    {
      last < WRAP
    }

    constructor ()
      ensures Valid() && last == 0
    {
      last := 0;
    }

    /** Until the counter wraps, every id printed so far differs from the new one. */
    method NewID() returns (id: string)
      requires Valid()
      modifies this
      ensures Valid() && last == (old(last) + 1) % WRAP
      ensures id == Format(last)
      ensures old(last) + 1 < WRAP ==> forall n: nat :: n <= old(last) ==> Format(n) != id
    {
      last := (last + 1) % WRAP;
      id := Format(last);
      forall n: nat | n != last
        ensures Format(n) != id
      {
        Injective(n, last);
      }
    }
  }
}
