/**
 Standard padded base64 (section 4 of RFC 4648), as `encoding/base64.StdEncoding` reads and
 writes it: the decoder skips line breaks and does not insist that the unused bits of the
 last digit are zero.
 */
module Base64 {
  import opened Prelude

  type Digit = x: int | 0 <= x < 64

  const PAD: Byte := 61

  /** The alphabet A-Z a-z 0-9 + / as ASCII codes. */
  function Char(d: Digit): Byte {
    if d < 26 then 65 + d
    else if d < 52 then 97 + d - 26
    else if d < 62 then 48 + d - 52
    else if d == 62 then 43 else 47
  }

  function DigitOf(c: Byte): Option<Digit> {
    if 65 <= c <= 90 then Some(c - 65)
    else if 97 <= c <= 122 then Some(c - 97 + 26)
    else if 48 <= c <= 57 then Some(c - 48 + 52)
    else if c == 43 then Some(62)
    else if c == 47 then Some(63)
    else None
  }

  function EncodeGroup(a: Byte, b: Byte, c: Byte): Bytes {
    [Char(a / 4), Char(a % 4 * 16 + b / 16), Char(b % 16 * 4 + c / 64), Char(c % 64)]
  }

  function DecodeGroup(d0: Digit, d1: Digit, d2: Digit, d3: Digit): Bytes {
    var a: Byte, b: Byte, c: Byte := d0 * 4 + d1 / 16, d1 % 16 * 16 + d2 / 4, d2 % 4 * 64 + d3;
    [a, b, c]
  }

  function Encode(data: Bytes): Bytes
    decreases |data|
  {
    if |data| == 0 then []
    else if |data| == 1 then EncodeGroup(data[0], 0, 0)[..2] + [PAD, PAD]
    else if |data| == 2 then EncodeGroup(data[0], data[1], 0)[..3] + [PAD]
    else EncodeGroup(data[0], data[1], data[2]) + Encode(data[3..])
  }

  predicate LineBreak(c: Byte) {
    c == 10 || c == 13
  }

  function StripLineBreaks(s: Bytes): Bytes
    decreases |s|
  {
    if s == [] then [] else (if LineBreak(s[0]) then [] else [s[0]]) + StripLineBreaks(s[1..])
  }

  /** Reads four characters at a time; padding may appear only in the last group. */
  function DecodeGroups(s: Bytes): Option<Bytes>
    decreases |s|
  {
    if s == [] then Some([])
    else if |s| < 4 then None
    else
      match (DigitOf(s[0]), DigitOf(s[1]))
      case (Some(d0), Some(d1)) =>
        if s[2] == PAD then
          if s[3] == PAD && |s| == 4 then Some(DecodeGroup(d0, d1, 0, 0)[..1]) else None
        else (
          match (DigitOf(s[2]), DigitOf(s[3]))
          case (Some(d2), Some(d3)) => (
            match DecodeGroups(s[4..])
            case Some(rest) => Some(DecodeGroup(d0, d1, d2, d3) + rest)
            case None => None)
          case (Some(d2), None) =>
            if s[3] == PAD && |s| == 4 then Some(DecodeGroup(d0, d1, d2, 0)[..2]) else None
          case _ => None)
      case _ => None
  }

  function Decode(s: Bytes): Option<Bytes> {
    DecodeGroups(StripLineBreaks(s))
  }

  lemma CharDigit(d: Digit)
    ensures DigitOf(Char(d)) == Some(d) && Char(d) != PAD && !LineBreak(Char(d))
  {
  }

  lemma {:induction false} StripKeeps(s: Bytes)
    requires forall c :: c in s ==> !LineBreak(c)
    ensures StripLineBreaks(s) == s
    decreases |s|
  {
    if s != [] {
      StripKeeps(s[1..]);
    }
  }

  lemma {:induction false} EncodedHasNoLineBreak(data: Bytes)
    ensures forall c :: c in Encode(data) ==> !LineBreak(c)
    decreases |data|
  {
    if |data| >= 3 {
      EncodedHasNoLineBreak(data[3..]);
    }
  }

  lemma GroupRoundTrip(a: Byte, b: Byte, c: Byte)
    ensures DecodeGroup(a / 4, a % 4 * 16 + b / 16, b % 16 * 4 + c / 64, c % 64) == [a, b, c]
  {
    Rejoin(a % 4, b / 16, 16);
    Rejoin(b % 16, c / 64, 4);
  }

  /** Two numbers packed into one digit come apart again. */
  lemma Rejoin(high: nat, low: nat, base: nat)
    requires (base == 4 || base == 16) && low < base
    ensures (high * base + low) / base == high && (high * base + low) % base == low
  {
  }

  lemma GroupDigits(a: Byte, b: Byte, c: Byte)
    ensures var g := EncodeGroup(a, b, c);
            DigitOf(g[0]) == Some(a / 4) && DigitOf(g[1]) == Some(a % 4 * 16 + b / 16)
            && DigitOf(g[2]) == Some(b % 16 * 4 + c / 64) && DigitOf(g[3]) == Some(c % 64)
            && g[2] != PAD && g[3] != PAD
  {
    CharDigit(a / 4);
    CharDigit(a % 4 * 16 + b / 16);
    CharDigit(b % 16 * 4 + c / 64);
    CharDigit(c % 64);
  }

  lemma DecodeFullGroup(g: Bytes, s: Bytes, d0: Digit, d1: Digit, d2: Digit, d3: Digit)
    requires |g| == 4 && g[2] != PAD && DecodeGroups(s).Some?
    requires DigitOf(g[0]) == Some(d0) && DigitOf(g[1]) == Some(d1)
    requires DigitOf(g[2]) == Some(d2) && DigitOf(g[3]) == Some(d3)
    ensures DecodeGroups(g + s) == Some(DecodeGroup(d0, d1, d2, d3) + DecodeGroups(s).value)
  {
    assert (g + s)[4..] == s;
  }

  lemma FullGroup(a: Byte, b: Byte, c: Byte, s: Bytes, rest: Bytes)
    requires DecodeGroups(s) == Some(rest)
    ensures DecodeGroups(EncodeGroup(a, b, c) + s) == Some([a, b, c] + rest)
  {
    GroupDigits(a, b, c);
    GroupRoundTrip(a, b, c);
    var g := EncodeGroup(a, b, c);
    assert (g + s)[..4] == g && (g + s)[4..] == s;
    DecodeFullGroup(g, s, a / 4, a % 4 * 16 + b / 16, b % 16 * 4 + c / 64, c % 64);
  }

  lemma OneByteGroup(a: Byte)
    ensures DecodeGroups(Encode([a])) == Some([a])
  {
    GroupDigits(a, 0, 0);
    GroupRoundTrip(a, 0, 0);
    var s := Encode([a]);
    assert |s| == 4 && s[2] == s[3] == PAD;
    assert DecodeGroup(a / 4, a % 4 * 16, 0, 0)[..1] == [a];
  }

  lemma TwoByteGroup(a: Byte, b: Byte)
    ensures DecodeGroups(Encode([a, b])) == Some([a, b])
  {
    GroupDigits(a, b, 0);
    GroupRoundTrip(a, b, 0);
    var s := Encode([a, b]);
    assert |s| == 4 && s[3] == PAD && s[2] == EncodeGroup(a, b, 0)[2];
    assert DecodeGroup(a / 4, a % 4 * 16 + b / 16, b % 16 * 4, 0)[..2] == [a, b];
  }

  lemma {:induction false} GroupsRoundTrip(data: Bytes)
    ensures DecodeGroups(Encode(data)) == Some(data)
    decreases |data|
  {
    if |data| >= 3 {
      GroupsRoundTrip(data[3..]);
      FullGroup(data[0], data[1], data[2], Encode(data[3..]), data[3..]);
      assert [data[0], data[1], data[2]] + data[3..] == data;
    } else if |data| == 2 {
      TwoByteGroup(data[0], data[1]);
      assert data == [data[0], data[1]];
    } else if |data| == 1 {
      OneByteGroup(data[0]);
      assert data == [data[0]];
    }
  }

  lemma RoundTrip(data: Bytes)
    ensures Decode(Encode(data)) == Some(data)
  {
    EncodedHasNoLineBreak(data);
    StripKeeps(Encode(data));
    GroupsRoundTrip(data);
  }
}
