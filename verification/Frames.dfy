/** The envelope: its wire form, the strict one-frame decoder, and the stream reader. */
module Frames {
  import opened Wrappers
  import opened Bytes
  import opened Utf8

  const HELLO: Byte := 1
  const WELCOME: Byte := 2
  const PROVIDERS_LIST: Byte := 3
  const PROVIDERS: Byte := 4
  const PEER_CONNECTED: Byte := 5
  const PEER_DISCONNECTED: Byte := 6
  const ERROR: Byte := 7
  const AUTH: Byte := 8
  const RESPONSE: Byte := 17

  const HEADER: nat := 11
  const MAX_FRAME: nat := 64 * 1024 * 1024

  datatype Error =
    | Truncated      // fewer bytes than a field needs
    | Disagrees      // the frame length is not the sum of its fields
    | Trailing       // bytes after a control body's last field
    | BadLength      // a length prefix outside HEADER..MAX_FRAME
    | NotWhole       // not exactly one frame
    | UnexpectedEof  // the stream ended inside a frame

  datatype Frame = Frame(typ: Byte, flags: U16, from: Str, to: Str, payload: seq<Byte>)

  /** `Frame::new`. */
  function NewFrame(typ: Byte, from: Str, to: Str, payload: seq<Byte>): Frame {
    Frame(typ, 0, from, to, payload)
  }

  /** The bytes after the length prefix. */
  function BodySize(f: Frame): nat {
    HEADER + |f.from| + |f.to| + |f.payload|
  }

  function Header(f: Frame): (b: seq<Byte>)
    ensures |b| == HEADER
  {
    [f.typ] + Le16(f.flags) + Le16(|f.from|) + Le16(|f.to|) + Le32(|f.payload|)
  }

  function Encode(f: Frame): (b: seq<Byte>)
    ensures |b| == 4 + BodySize(f)
  {
    Le32(BodySize(f)) + (Header(f) + (f.from + (f.to + f.payload)))
  }

  /** `Frame::encode`, appending field by field. */
  method EncodeFrame(f: Frame) returns (b: seq<Byte>)
    ensures b == Encode(f)
  {
    var from, to := f.from, f.to;
    var body := HEADER + |from| + |to| + |f.payload|;
    b := [];
    b := b + Le32(body);
    b := b + [f.typ];
    b := b + Le16(f.flags);
    b := b + Le16(|from|);
    b := b + Le16(|to|);
    b := b + Le32(|f.payload|);
    b := b + from;
    b := b + to;
    b := b + f.payload;
  }

  /** The layout the header announces: where each field of a body lies. */
  datatype Layout = Layout(from: nat, to: nat, payload: nat)

  function LayoutOf(buf: seq<Byte>): (l: Layout)
    requires |buf| >= HEADER
  {
    Layout(From16(buf[3..5]), From16(buf[5..7]), From32(buf[7..11]))
  }

  function RawFrom(buf: seq<Byte>): seq<Byte>
    requires |buf| >= HEADER && HEADER + LayoutOf(buf).from <= |buf|
  {
    buf[HEADER..HEADER + LayoutOf(buf).from]
  }

  function RawTo(buf: seq<Byte>): seq<Byte>
    requires |buf| >= HEADER && HEADER + LayoutOf(buf).from + LayoutOf(buf).to <= |buf|
  {
    buf[HEADER + LayoutOf(buf).from..HEADER + LayoutOf(buf).from + LayoutOf(buf).to]
  }

  /** What a frame body means, read off its layout. */
  function Body(buf: seq<Byte>): (r: Result<Frame, Error>)
    ensures r.Ok? ==> |buf| >= HEADER && |buf| == HEADER + LayoutOf(buf).from + LayoutOf(buf).to + LayoutOf(buf).payload
  {
    if |buf| < HEADER then
      Err(Truncated)
    else
      var l := LayoutOf(buf);
      var size := HEADER + l.from + l.to + l.payload;
      if |buf| < size then Err(Truncated)
      else if |buf| > size then Err(Disagrees)
      else Ok(Frame(buf[0], From16(buf[1..3]), Lossy(RawFrom(buf)), Lossy(RawTo(buf)), buf[HEADER + l.from + l.to..]))
  }

  /** `Frame::decode`: exactly one whole frame. */
  function Decode(b: seq<Byte>): (r: Result<Frame, Error>)
    ensures r.Ok? ==> |b| >= 4 + HEADER && From32(b[..4]) == |b| - 4 <= MAX_FRAME && Body(b[4..]) == r
  {
    if |b| >= 4 && From32(b[..4]) + 4 == |b| && HEADER <= From32(b[..4]) <= MAX_FRAME then
      Body(b[4..])
    else
      Err(NotWhole)
  }

  /** Both strings of an accepted frame were valid UTF-8 on the wire. */
  predicate CleanFrame(b: seq<Byte>)
    requires Decode(b).Ok?
  {
    Valid(RawFrom(b[4..])) && Valid(RawTo(b[4..]))
  }

  /** Every field fits its width and the whole fits the frame limit. */
  predicate Fits(f: Frame) {
    |f.from| < TWO16 && |f.to| < TWO16 && BodySize(f) <= MAX_FRAME
  }

  // ── the bounds-checked reader ──────────────────────────────────────────────

  class Cursor {
    const b: seq<Byte>
    var p: nat

    ghost predicate Valid()
      reads this
    {
      p <= |b|
    }

    ghost function Rest(): seq<Byte>
      reads this
      requires Valid()
    {
      b[p..]
    }

    constructor (b: seq<Byte>)
      ensures Valid() && p == 0 && this.b == b
    {
      this.b := b;
      p := 0;
    }

    /** The next `n` bytes, or an error that moves nothing. */
    method Take(n: nat) returns (r: Result<seq<Byte>, Error>)
      requires Valid()
      modifies this
      ensures Valid()
      ensures old(p) + n <= |b| ==> p == old(p) + n && r == Ok(b[old(p)..p])
      ensures old(p) + n > |b| ==> p == old(p) && r == Err(Truncated)
    {
      if p + n > |b| {
        return Err(Truncated);
      }
      var s := b[p..p + n];
      p := p + n;
      return Ok(s);
    }

    method U8() returns (r: Result<Byte, Error>)
      requires Valid()
      modifies this
      ensures Valid()
      ensures old(p) < |b| ==> p == old(p) + 1 && r == Ok(b[old(p)])
      ensures old(p) == |b| ==> p == old(p) && r == Err(Truncated)
    {
      var s :- Take(1);
      return Ok(s[0]);
    }

    method Get16() returns (r: Result<U16, Error>)
      requires Valid()
      modifies this
      ensures Valid()
      ensures old(p) + 2 <= |b| ==> p == old(p) + 2 && r == Ok(From16(b[old(p)..p]))
      ensures old(p) + 2 > |b| ==> p == old(p) && r == Err(Truncated)
    {
      var s :- Take(2);
      return Ok(From16(s));
    }

    method Get32() returns (r: Result<nat, Error>)
      requires Valid()
      modifies this
      ensures Valid()
      ensures old(p) + 4 <= |b| ==> p == old(p) + 4 && r == Ok(From32(b[old(p)..p]))
      ensures old(p) + 4 > |b| ==> p == old(p) && r == Err(Truncated)
    {
      var s :- Take(4);
      return Ok(From32(s));
    }

    method String(n: nat) returns (r: Result<Str, Error>)
      requires Valid()
      modifies this
      ensures Valid()
      ensures old(p) + n <= |b| ==> p == old(p) + n && r == Ok(Lossy(b[old(p)..p]))
      ensures old(p) + n > |b| ==> p == old(p) && r == Err(Truncated)
    {
      var s :- Take(n);
      return Ok(Lossy(s));
    }

    method End() returns (r: Result<(), Error>)
      requires Valid()
      ensures r.Ok? <==> p == |b|
      ensures r.Err? ==> r.error == Trailing
    {
      if p == |b| {
        return Ok(());
      } else {
        return Err(Trailing);
      }
    }
  }

  /** `Frame::body`: the cursor's walk finds what the layout says. */
  method DecodeBody(buf: seq<Byte>) returns (r: Result<Frame, Error>)
    ensures r == Body(buf)
  {
    hide From16, From32, Lossy, Valid;
    var c := new Cursor(buf);
    var typ :- c.U8();
    var flags :- c.Get16();
    var fromLen :- c.Get16();
    var toLen :- c.Get16();
    var payLen :- c.Get32();
    var from :- c.String(fromLen);
    var to :- c.String(toLen);
    var payload :- c.Take(payLen);
    if c.p != |buf| {
      return Err(Disagrees);
    }
    assert buf[..|buf|] == buf;
    return Ok(Frame(typ, flags, from, to, payload));
  }

  /** `Frame::decode`. */
  method DecodeFrame(b: seq<Byte>) returns (r: Result<Frame, Error>)
    ensures r == Decode(b)
  {
    if |b| >= 4 {
      var n := From32(b[..4]);
      if n + 4 == |b| && n >= HEADER && n <= MAX_FRAME {
        r := DecodeBody(b[4..]);
        return;
      }
    }
    return Err(NotWhole);
  }

  // ── decode and encode are inverse exactly where the widths allow ───────────

  lemma HeaderFields(f: Frame)
    ensures var h := Header(f);
            && h[0] == f.typ && h[1..3] == Le16(f.flags)
            && h[3..5] == Le16(|f.from|) && h[5..7] == Le16(|f.to|) && h[7..11] == Le32(|f.payload|)
  {
  }

  /** The fixed fields of a body depend on its first eleven bytes alone. */
  lemma HeaderFieldsOf(h: seq<Byte>, tail: seq<Byte>)
    requires |h| == HEADER
    ensures var buf := h + tail;
            && buf[0] == h[0] && buf[1..3] == h[1..3]
            && buf[3..5] == h[3..5] && buf[5..7] == h[5..7] && buf[7..11] == h[7..11]
  {
  }

  lemma Slices(h: seq<Byte>, a: seq<Byte>, b: seq<Byte>, c: seq<Byte>)
    ensures var s := h + (a + (b + c));
            && s[|h|..|h| + |a|] == a
            && s[|h| + |a|..|h| + |a| + |b|] == b
            && s[|h| + |a| + |b|..] == c
  {
  }

  /** The body made of a header and three strings, read by the lengths in the header. */
  lemma BodyOfParts(h: seq<Byte>, a: seq<Byte>, b: seq<Byte>, c: seq<Byte>)
    requires |h| == HEADER
    requires From16(h[3..5]) <= |a| && From16(h[5..7]) <= |b| && From32(h[7..11]) <= |c|
    ensures Body(h + (a + (b + c))) ==
            if From16(h[3..5]) == |a| && From16(h[5..7]) == |b| && From32(h[7..11]) == |c|
            then Ok(Frame(h[0], From16(h[1..3]), Lossy(a), Lossy(b), c))
            else Err(Disagrees)
  {
    hide From16, From32, Lossy, Valid;
    HeaderFieldsOf(h, a + (b + c));
    Slices(h, a, b, c);
  }

  /** Reading back the body of an encoding, whatever the widths. */
  lemma BodyOfEncoding(f: Frame)
    ensures Body(Header(f) + (f.from + (f.to + f.payload))) ==
            if |f.from| < TWO16 && |f.to| < TWO16 && |f.payload| < TWO32 then Ok(f) else Err(Disagrees)
  {
    HeaderFields(f);
    Widths(f);
    hide Body, Header, From16, From32, Le16, Le32, Lossy, Valid;
    BodyOfParts(Header(f), f.from, f.to, f.payload);
    LossyIdentity(f.from);
    LossyIdentity(f.to);
  }

  /** What the width-limited fields of a header hold. */
  lemma Widths(f: Frame)
    ensures From16(Le16(f.flags)) == f.flags
    ensures From16(Le16(|f.from|)) <= |f.from| && (From16(Le16(|f.from|)) == |f.from| <==> |f.from| < TWO16)
    ensures From16(Le16(|f.to|)) <= |f.to| && (From16(Le16(|f.to|)) == |f.to| <==> |f.to| < TWO16)
    ensures From32(Le32(|f.payload|)) <= |f.payload|
            && (From32(Le32(|f.payload|)) == |f.payload| <==> |f.payload| < TWO32)
    ensures From32(Le32(BodySize(f))) == BodySize(f) <==> BodySize(f) < TWO32
  {
    hide Le16, Le32, From16, From32;
    Le16RoundTrip(f.flags);
    Le16RoundTrip(|f.from|);
    Le16RoundTrip(|f.to|);
    Le32RoundTrip(|f.payload|);
    Le32RoundTrip(BodySize(f));
  }

  /** Decoding an encoding gives the frame back if and only if it fits; otherwise
      it is refused, never misread. */
  lemma {:induction false} DecodeEncode(f: Frame)
    ensures Fits(f) ==> Decode(Encode(f)) == Ok(f)
    ensures !Fits(f) ==> Decode(Encode(f)).Err?
  {
    BodyOfEncoding(f);
    Widths(f);
    hide Body, Header, From16, From32, Le16, Le32, Lossy, Valid;
    assert Encode(f)[..4] == Le32(BodySize(f));
    assert Encode(f)[4..] == Header(f) + (f.from + (f.to + f.payload));
  }

  /** The header bytes are the header of the frame they announce. */
  lemma CleanHeader(buf: seq<Byte>, f: Frame)
    requires |buf| >= HEADER
    requires f.typ == buf[0] && f.flags == From16(buf[1..3])
    requires LayoutOf(buf) == Layout(|f.from|, |f.to|, |f.payload|)
    ensures Header(f) == buf[..HEADER]
  {
    Le16Canonical(buf[1..3]);
    Le16Canonical(buf[3..5]);
    Le16Canonical(buf[5..7]);
    Le32Canonical(buf[7..11]);
    hide From16, From32, Le16, Le32, Lossy, Valid;
    assert buf[..HEADER] == [buf[0]] + buf[1..3] + buf[3..5] + buf[5..7] + buf[7..11];
  }

  /** A body whose strings were clean is the envelope of the frame it means. */
  lemma CleanBody(buf: seq<Byte>)
    requires Body(buf).Ok? && Valid(RawFrom(buf)) && Valid(RawTo(buf))
    ensures var f := Body(buf).value;
            BodySize(f) == |buf| && buf == Header(f) + (f.from + (f.to + f.payload))
  {
    hide From16, From32, Header, Lossy, Valid;
    var f := Body(buf).value;
    LossyIdentity(RawFrom(buf));
    LossyIdentity(RawTo(buf));
    CleanHeader(buf, f);
    Rejoin(buf, LayoutOf(buf).from, LayoutOf(buf).to);
  }

  lemma Rejoin(buf: seq<Byte>, m: nat, n: nat)
    requires HEADER + m + n <= |buf|
    ensures buf == buf[..HEADER] + (buf[HEADER..HEADER + m] + (buf[HEADER + m..HEADER + m + n] + buf[HEADER + m + n..]))
  {
  }

  /** An accepted frame re-encodes to the very same bytes if and only if its two
      strings were valid UTF-8. */
  lemma {:induction false} EncodeDecode(b: seq<Byte>)
    requires Decode(b).Ok?
    ensures Encode(Decode(b).value) == b <==> CleanFrame(b)
  {
    var f, buf := Decode(b).value, b[4..];
    if CleanFrame(b) {
      CleanBody(buf);
      Le32Canonical(b[..4]);
      hide Body, Header, From16, From32, Le16, Le32, Lossy, Valid, RawFrom, RawTo;
      assert b == b[..4] + buf;
    } else if Encode(f) == b {
      DecodeEncode(f);
      RawOfEncoding(f);
    }
  }

  /** The strings of an encoding are where the header says. */
  lemma RawOfEncoding(f: Frame)
    requires Fits(f)
    ensures Decode(Encode(f)).Ok? && RawFrom(Encode(f)[4..]) == f.from && RawTo(Encode(f)[4..]) == f.to
  {
    var buf := Encode(f)[4..];
    assert buf == Header(f) + (f.from + (f.to + f.payload));
    HeaderFields(f);
    HeaderFieldsOf(Header(f), f.from + (f.to + f.payload));
    Widths(f);
    BodyOfEncoding(f);
    Slices(Header(f), f.from, f.to, f.payload);
    DecodeEncode(f);
  }
}
