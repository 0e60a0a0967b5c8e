/**
 Clipboard content, its wire form and its loop-protection key
 (src/internal/protocol/codec.go, src/internal/clip/clip.go).
 */
module Codec {
  import opened Prelude
  import Base64
  import Fnv

  /** `clip.Content`; every kind other than an image is handled as text. */
  datatype Content = Text(text: Bytes) | Image(image: Bytes, mime: Bytes)

  /** `protocol.ClipboardMsg` after JSON decoding. */
  datatype ClipboardMsg =
    ClipboardMsg(kind: string, text: Bytes, data: Bytes, mime: Bytes, ts: int, from: string)

  /** A 64-bit hash, which is never computed with, only compared. */
  datatype Key = Key(bits: Fnv.Word)

  /** The zero value of a key field. */
  const NO_KEY := Key(0)

  const CONTENT_IMAGE := "image"
  const CONTENT_TEXT := "text"

  /** "image/png" */
  const DEFAULT_IMAGE_MIME: Bytes := [105, 109, 97, 103, 101, 47, 112, 110, 103]

  function ContentMsg(c: Content, ts: int, from: string): ClipboardMsg {
    match c
    case Image(image, mime) =>
      ClipboardMsg(CONTENT_IMAGE, [], Base64.Encode(image),
                   if mime == [] then DEFAULT_IMAGE_MIME else mime, ts, from)
    case Text(text) => ClipboardMsg(CONTENT_TEXT, text, [], [], ts, from)
  }

  function MsgToContent(m: ClipboardMsg): Option<Content> {
    if m.kind == CONTENT_IMAGE then
      match Base64.Decode(m.data)
      case None => None
      case Some(data) =>
        if data == [] then None
        else Some(Image(data, if m.mime == [] then DEFAULT_IMAGE_MIME else m.mime))
    else if m.text == [] then None
    else Some(Text(m.text))
  }

  /** What the other end of a link makes of content sent over it. */
  function Received(c: Content): Option<Content> {
    match c
    case Text(text) => if text == [] then None else Some(c)
    case Image(image, mime) =>
      if image == [] then None else Some(Image(image, if mime == [] then DEFAULT_IMAGE_MIME else mime))
  }

  /** Content that survives a hop unchanged. */
  predicate Stable(c: Content) {
    match c
    case Text(text) => text != []
    case Image(image, mime) => image != [] && mime != []
  }

  /** Encoding then decoding loses nothing but an empty payload and an empty image type. */
  lemma WireRoundTrip(c: Content, ts: int, from: string)
    ensures MsgToContent(ContentMsg(c, ts, from)) == Received(c)
  {
    if c.Image? {
      Base64.RoundTrip(c.image);
    }
  }

  /** Whatever a daemon decodes, from any sender at all, passes every further hop unchanged. */
  lemma DecodedIsStable(m: ClipboardMsg, c: Content, ts: int, from: string)
    requires MsgToContent(m) == Some(c)
    ensures Stable(c)
    ensures MsgToContent(ContentMsg(c, ts, from)) == Some(c)
  {
    WireRoundTrip(c, ts, from);
  }

  /** Content after being sent, decoded and re-sent over a series of hops. */
  function AfterHops(c: Content, hops: seq<(int, string)>): Option<Content>
    decreases |hops|
  {
    if hops == [] then Some(c)
    else
      match MsgToContent(ContentMsg(c, hops[0].0, hops[0].1))
      case None => None
      case Some(d) => AfterHops(d, hops[1..])
  }

  /** Every daemon on a relay path sees what the first one saw, hence the same key. */
  lemma {:induction false} HopsAgree(c: Content, hops: seq<(int, string)>)
    requires hops != []
    ensures AfterHops(c, hops) == Received(c)
    decreases |hops|
  {
    WireRoundTrip(c, hops[0].0, hops[0].1);
    if Received(c).Some? && |hops| > 1 {
      HopsAgree(Received(c).value, hops[1..]);
    }
  }

  /** The origin itself sees that same content exactly when there was nothing to default. */
  lemma OriginAgreesIff(c: Content)
    ensures Received(c) == Some(c) <==> Stable(c)
    ensures Received(c) == None <==> !Stable(c) && !(c.Image? && c.image != [])
  {
  }

  // Keys

  function HashInput(c: Content): Bytes {
    match c
    case Image(image, mime) => [0] + image + mime
    case Text(text) => [1] + text
  }

  function KeyOf(c: Content): Key {
    Key(Fnv.Sum(Fnv.OFFSET_BASIS, HashInput(c)))
  }

  /** `protocol.ContentKey`: feeds a hasher piece by piece. */
  method ContentKey(c: Content) returns (key: Key)
    ensures key == KeyOf(c)
  {
    var h := new Fnv.Hasher();
    if c.Image? {
      h.Write([0]);
      h.Write(c.image);
      h.Write(c.mime);
      Fnv.SumConcat(Fnv.OFFSET_BASIS, [0], c.image);
      Fnv.SumConcat(Fnv.OFFSET_BASIS, [0] + c.image, c.mime);
    } else {
      h.Write([1]);
      h.Write(c.text);
      Fnv.SumConcat(Fnv.OFFSET_BASIS, [1], c.text);
    }
    key := Key(h.sum);
  }

  /** Texts of equal length that differ in one byte never share a key. */
  lemma TextsOneByteApart(pre: Bytes, a: Byte, b: Byte, post: Bytes)
    ensures KeyOf(Text(pre + [a] + post)) == KeyOf(Text(pre + [b] + post)) <==> a == b
  {
    assert HashInput(Text(pre + [a] + post)) == ([1] + pre) + [a] + post;
    assert HashInput(Text(pre + [b] + post)) == ([1] + pre) + [b] + post;
    Fnv.OneByteApart(Fnv.OFFSET_BASIS, [1] + pre, a, b, post);
  }

  /** Two texts with different keys. */
  predicate Rivals(a: Content, b: Content) {
    a.Text? && b.Text? && Stable(a) && Stable(b) && KeyOf(a) != KeyOf(b)
  }

  lemma SomeRivals() returns (a: Content, b: Content)
    ensures Rivals(a, b)
  {
    var x, y: Byte := 97, 98;
    a, b := Text([x]), Text([y]);
    TextsOneByteApart([], x, y, []);
    assert [] + [x] + [] == [x] && [] + [y] + [] == [y];
  }

  /** Nor do an image and the text its bytes followed by its type spell. */
  lemma TextIsNotItsImage(image: Bytes, mime: Bytes)
    ensures KeyOf(Text(image + mime)) != KeyOf(Image(image, mime))
  {
    Fnv.OneByteApart(Fnv.OFFSET_BASIS, [], 0, 1, image + mime);
    assert [] + [0] + (image + mime) == [0] + image + mime;
    assert [] + [1] + (image + mime) == [1] + (image + mime);
  }

  lemma HashInputShape(c: Content)
    ensures HashInput(c)[0] == if c.Image? then 0 else 1
    ensures HashInput(c)[1..] == if c.Image? then c.image + c.mime else c.text
    ensures HashInput(c) == [HashInput(c)[0]] + HashInput(c)[1..]
  {
  }

  /**
   The hasher is fed the same bytes for two contents exactly when they are equal or are images
   that only draw the line between bytes and type elsewhere: that line is not hashed.
   */
  lemma SameHashInputIff(c: Content, d: Content)
    ensures HashInput(c) == HashInput(d)
       <==> c == d || (c.Image? && d.Image? && c.image + c.mime == d.image + d.mime)
  {
    HashInputShape(c);
    HashInputShape(d);
  }

  /** So distinct images can share a key however good the hash is. */
  lemma KeyIgnoresImageBoundary(image: Bytes, b: Byte, mime: Bytes)
    ensures Image(image + [b], mime) != Image(image, [b] + mime)
    ensures KeyOf(Image(image + [b], mime)) == KeyOf(Image(image, [b] + mime))
  {
    assert |image + [b]| != |image|;
    assert (image + [b]) + mime == image + ([b] + mime);
    SameHashInputIff(Image(image + [b], mime), Image(image, [b] + mime));
  }
}
