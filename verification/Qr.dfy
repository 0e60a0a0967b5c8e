/**
 The QR envelope: segments behind big-endian 16-bit length prefixes (src/internal/certs/qr.go),
 and the reader the payload format is locked down with (src/internal/certs/cert_test.go).
 */
module Qr {
  import opened Prelude

  /** `byte(len>>8), byte(len)`: the length modulo 65536. */
  function Prefix(n: nat): Bytes {
    [n / 256 % 256, n % 256]
  }

  function Length(hi: Byte, lo: Byte): nat {
    (hi as int) * 256 + lo
  }

  function Seg(data: Bytes): Bytes {
    Prefix(|data|) + data
  }

  function Encode(segs: seq<Bytes>): Bytes
    decreases |segs|
  {
    if segs == [] then [] else Seg(segs[0]) + Encode(segs[1..])
  }

  /** Reads n non-empty segments and then insists on the end of the envelope. */
  function Decode(body: Bytes, n: nat): Option<seq<Bytes>> {
    if n == 0 then if body == [] then Some([]) else None
    else if |body| < 2 then None
    else
      var len := Length(body[0], body[1]);
      if len == 0 || |body| < 2 + len then None
      else
        match Decode(body[2 + len..], n - 1)
        case None => None
        case Some(rest) => Some([body[2..2 + len]] + rest)
  }

  predicate Fits(seg: Bytes) {
    1 <= |seg| <= 65535
  }

  predicate AllFit(segs: seq<Bytes>) {
    forall i :: 0 <= i < |segs| ==> Fits(segs[i])
  }

  function Prepend(segs: seq<Bytes>, r: Option<seq<Bytes>>): Option<seq<Bytes>> {
    match r
    case None => None
    case Some(rest) => Some(segs + rest)
  }

  method AppendSeg(dst: Bytes, data: Bytes) returns (r: Bytes)
    ensures r == dst + Seg(data)
  {
    r := dst + [|data| / 256 % 256, |data| % 256];
    r := r + data;
  }

  /** The body `QrBytes` compresses comes back segment by segment exactly when all three fit. */
  method Envelope(key: Bytes, leaf: Bytes, ca: Bytes) returns (body: Bytes)
    ensures body == Encode([key, leaf, ca])
    ensures Decode(body, 3) == Some([key, leaf, ca]) <==> Fits(key) && Fits(leaf) && Fits(ca)
  {
    body := [];
    body := AppendSeg(body, key);
    body := AppendSeg(body, leaf);
    body := AppendSeg(body, ca);
    EncodeThree(key, leaf, ca);
    ThreeReadBackIff(key, leaf, ca);
  }

  /** The same from an offset into the body, as the reading loop goes. */
  function DecodeFrom(body: Bytes, off: nat, n: nat): Option<seq<Bytes>>
    requires off <= |body|
    decreases n
  {
    if n == 0 then if off == |body| then Some([]) else None
    else if off + 2 > |body| then None
    else
      var end := off + 2 + Length(body[off], body[off + 1]);
      if end == off + 2 || end > |body| then None
      else Prepend([body[off + 2..end]], DecodeFrom(body, end, n - 1))
  }

  lemma {:induction false} DecodeFromSlice(body: Bytes, off: nat, n: nat)
    requires off <= |body|
    ensures DecodeFrom(body, off, n) == Decode(body[off..], n)
    decreases n
  {
    if n > 0 && off + 2 <= |body| {
      var end := off + 2 + Length(body[off], body[off + 1]);
      if end <= |body| {
        DecodeFromSlice(body, end, n - 1);
        assert body[off..][end - off..] == body[end..];
        assert body[off..][2..end - off] == body[off + 2..end];
      }
    }
  }

  lemma PrependTwice(segs: seq<Bytes>, seg: Bytes, r: Option<seq<Bytes>>)
    ensures Prepend(segs, Prepend([seg], r)) == Prepend(segs + [seg], r)
    ensures Prepend([], r) == r
    ensures Prepend(segs, Some([])) == Some(segs)
  {
    assert segs + [] == segs;
    if r.Some? {
      assert segs + ([seg] + r.value) == segs + [seg] + r.value;
      assert [] + r.value == r.value;
    }
  }

  /** The reading loop. */
  method Read(body: Bytes, n: nat) returns (r: Option<seq<Bytes>>)
    ensures r == Decode(body, n)
  {
    DecodeFromSlice(body, 0, n);
    assert body[0..] == body;
    var off, i := 0, 0;
    var segs: seq<Bytes> := [];
    PrependTwice([], [], DecodeFrom(body, 0, n));
    while i < n
      invariant 0 <= i <= n && 0 <= off <= |body|
      invariant Decode(body, n) == Prepend(segs, DecodeFrom(body, off, n - i))
    {
      if off + 2 > |body| {
        return None;
      }
      var len := Length(body[off], body[off + 1]);
      if off + 2 + len > |body| || len == 0 {
        return None;
      }
      var seg := body[off + 2..off + 2 + len];
      PrependTwice(segs, seg, DecodeFrom(body, off + 2 + len, n - i - 1));
      segs := segs + [seg];
      off := off + 2 + len;
      i := i + 1;
    }
    if off != |body| {
      return None;
    }
    PrependTwice(segs, [], None);
    r := Some(segs);
  }

  lemma EncodeThree(a: Bytes, b: Bytes, c: Bytes)
    ensures Encode([a, b, c]) == [] + Seg(a) + Seg(b) + Seg(c)
  {
    assert [a, b, c][1..] == [b, c] && [b, c][1..] == [c] && [c][1..] == [];
    assert Encode([c]) == Seg(c);
    assert Encode([b, c]) == Seg(b) + Seg(c);
  }

  lemma ThreeReadBackIff(a: Bytes, b: Bytes, c: Bytes)
    ensures Decode(Encode([a, b, c]), 3) == Some([a, b, c]) <==> Fits(a) && Fits(b) && Fits(c)
  {
    var segs := [a, b, c];
    assert segs[0] == a && segs[1] == b && segs[2] == c;
    RoundTripIff(segs);
  }

  lemma SplitBody(body: Bytes)
    requires |body| >= 2 && |body| >= 2 + Length(body[0], body[1])
    ensures var len := Length(body[0], body[1]);
            body == Seg(body[2..2 + len]) + body[2 + len..]
  {
    var len := Length(body[0], body[1]);
    assert |body[2..2 + len]| == len;
    assert Prefix(len) == [body[0], body[1]];
  }

  lemma JoinBody(seg: Bytes, tail: Bytes)
    requires Fits(seg)
    ensures var body := Seg(seg) + tail;
            Length(body[0], body[1]) == |seg| && body[2..2 + |seg|] == seg && body[2 + |seg|..] == tail
  {
    assert Length(|seg| / 256 % 256, |seg| % 256) == |seg|;
  }

  lemma DecodeJoined(seg: Bytes, tail: Bytes, n: nat)
    requires Fits(seg) && Decode(tail, n).Some?
    ensures Decode(Seg(seg) + tail, n + 1) == Some([seg] + Decode(tail, n).value)
  {
    JoinBody(seg, tail);
  }

  /** What is read always fits, and spells the whole body again. */
  lemma {:induction false} DecodedReencodes(body: Bytes, n: nat)
    requires Decode(body, n).Some?
    ensures var segs := Decode(body, n).value;
            |segs| == n && AllFit(segs) && Encode(segs) == body
  {
    if n != 0 {
      var len := Length(body[0], body[1]);
      var rest := Decode(body[2 + len..], n - 1).value;
      DecodedReencodes(body[2 + len..], n - 1);
      SplitBody(body);
      assert ([body[2..2 + len]] + rest)[1..] == rest;
    }
  }

  lemma {:induction false} FittingRoundTrip(segs: seq<Bytes>)
    requires AllFit(segs)
    ensures Decode(Encode(segs), |segs|) == Some(segs)
    decreases |segs|
  {
    if segs != [] {
      var rest := segs[1..];
      assert AllFit(rest) by {
        forall i | 0 <= i < |rest| ensures Fits(rest[i]) { assert rest[i] == segs[i + 1]; }
      }
      FittingRoundTrip(rest);
      DecodeJoined(segs[0], Encode(rest), |rest|);
      assert [segs[0]] + rest == segs;
    }
  }

  /** An envelope reads back as written exactly when no segment is empty or longer than 65535 bytes. */
  lemma RoundTripIff(segs: seq<Bytes>)
    ensures Decode(Encode(segs), |segs|) == Some(segs) <==> AllFit(segs)
  {
    if AllFit(segs) {
      FittingRoundTrip(segs);
    } else if Decode(Encode(segs), |segs|) == Some(segs) {
      DecodedReencodes(Encode(segs), |segs|);
    }
  }

  /** For a fixed number of segments the encoding is injective. */
  lemma EncodeInjective(segs: seq<Bytes>, others: seq<Bytes>)
    requires AllFit(segs) && AllFit(others) && |segs| == |others|
    requires Encode(segs) == Encode(others)
    ensures segs == others
  {
    RoundTripIff(segs);
    RoundTripIff(others);
  }
}
