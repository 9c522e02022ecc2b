/** Reading frames off a byte stream, and what a stream cut short can still say. */
module Streams {
  import opened Wrappers
  import opened Bytes
  import opened Frames

  datatype Read =
    | Eof                                // `Ok(None)`
    | Bad(error: Error)
    | Got(frame: Frame, rest: seq<Byte>)

  /** One `Frame::read`: fewer than four bytes left is a clean end of stream. */
  function ReadFrame(b: seq<Byte>): (r: Read)
    ensures r.Got? ==> |r.rest| < |b|
  {
    if |b| < 4 then
      Eof
    else
      var len := From32(b[..4]);
      if len > MAX_FRAME || len < HEADER then Bad(BadLength)
      else if |b| < 4 + len then Bad(UnexpectedEof)
      else match Body(b[4..4 + len])
        case Err(e) => Bad(e)
        case Ok(f) => Got(f, b[4 + len..])
  }

  /** Everything a reader gets before it stops, and whether it stopped cleanly. */
  datatype Heard = Heard(frames: seq<Frame>, clean: bool)

  function ReadAll(b: seq<Byte>): (h: Heard)
    decreases |b|
  {
    match ReadFrame(b)
    case Eof => Heard([], true)
    case Bad(_) => Heard([], false)
    case Got(f, rest) => var h := ReadAll(rest); Heard([f] + h.frames, h.clean)
  }

  /** The byte stream a connection reads from. */
  class Reader {
    var rest: seq<Byte>

    constructor (b: seq<Byte>)
      ensures rest == b
    {
      rest := b;
    }

    /** `read_exact`: short input is consumed and reported. */
    method ReadExact(n: nat) returns (r: Result<seq<Byte>, Error>)
      modifies this
      ensures |old(rest)| >= n ==> r == Ok(old(rest)[..n]) && rest == old(rest)[n..]
      ensures |old(rest)| < n ==> r == Err(UnexpectedEof) && rest == []
    {
      if |rest| < n {
        rest := [];
        return Err(UnexpectedEof);
      }
      r := Ok(rest[..n]);
      rest := rest[n..];
    }

    /** `Frame::read`. */
    method Read() returns (r: Result<Option<Frame>, Error>)
      modifies this
      ensures match ReadFrame(old(rest))
              case Eof => r == Ok(None)
              case Bad(e) => r == Err(e)
              case Got(f, tail) => r == Ok(Some(f)) && rest == tail
    {
      hide Body, From32;
      ghost var b := rest;
      var lenb := ReadExact(4);
      if lenb.Err? {
        return Ok(None);
      }
      var len := From32(lenb.value);
      if len > MAX_FRAME || len < HEADER {
        return Err(BadLength);
      }
      var buf :- ReadExact(len);
      assert buf == b[4..4 + len] && rest == b[4 + len..];
      var f :- DecodeBody(buf);
      return Ok(Some(f));
    }
  }

  /** The stream a writer makes of whole messages. */
  function Join(bs: seq<seq<Byte>>): seq<Byte> {
    if bs == [] then [] else bs[0] + Join(bs[1..])
  }

  /** A length prefix no reader accepts: what encoding an oversize frame gives. */
  predicate Oversize(b: seq<Byte>) {
    |b| >= 4 + HEADER && From32(b[..4]) == |b| - 4 > MAX_FRAME
  }

  /** How many messages a reader of the first `n` bytes gets: those whole within
      them, up to the first oversize one. */
  function Whole(bs: seq<seq<Byte>>, n: nat): (k: nat)
    ensures k <= |bs|
  {
    if bs == [] || n < |bs[0]| || Oversize(bs[0]) then 0 else 1 + Whole(bs[1..], n - |bs[0]|)
  }

  /** The bytes after those messages. */
  function Leftover(bs: seq<seq<Byte>>, n: nat): nat {
    if bs == [] || n < |bs[0]| || Oversize(bs[0]) then n else Leftover(bs[1..], n - |bs[0]|)
  }

  /** Every one of them is a whole frame. */
  predicate AllFrames(bs: seq<seq<Byte>>) {
    forall i | 0 <= i < |bs| :: Decode(bs[i]).Ok?
  }

  function Decoded(bs: seq<seq<Byte>>): (fs: seq<Frame>)
    requires AllFrames(bs)
    ensures |fs| == |bs|
  {
    if bs == [] then [] else [Decode(bs[0]).value] + Decoded(bs[1..])
  }

  /** Every message is a whole frame or an oversize one. */
  predicate Messages(bs: seq<seq<Byte>>) {
    forall i | 0 <= i < |bs| :: Decode(bs[i]).Ok? || Oversize(bs[i])
  }

  /** A reader at the head of a cut stream takes the first message or stops there. */
  lemma ReadHead(b: seq<Byte>, tail: seq<Byte>, n: nat)
    requires Decode(b).Ok? || Oversize(b)
    requires n <= |b + tail|
    ensures var r := ReadFrame((b + tail)[..n]);
            if n < 4 then r == Eof
            else if n < |b| || Oversize(b) then r.Bad?
            else r == Got(Decode(b).value, tail[..n - |b|])
  {
    hide Body, From32;
    var s := (b + tail)[..n];
    if n >= 4 {
      assert s[..4] == b[..4];
      if n >= |b| {
        assert s[4..|b|] == b[4..];
        assert s[|b|..] == tail[..n - |b|];
      }
    }
  }

  lemma MessagesSplit(bs: seq<seq<Byte>>)
    requires bs != [] && Messages(bs)
    ensures (Decode(bs[0]).Ok? || Oversize(bs[0])) && |bs[0]| >= 4 && Messages(bs[1..])
  {
    assert forall i | 0 <= i < |bs[1..]| :: bs[1..][i] == bs[i + 1];
  }

  lemma DecodedCons(b: seq<Byte>, bs: seq<seq<Byte>>)
    requires Decode(b).Ok? && AllFrames(bs)
    ensures AllFrames([b] + bs) && Decoded([b] + bs) == [Decode(b).value] + Decoded(bs)
  {
    hide Decode;
    assert ([b] + bs)[1..] == bs;
  }

  /** Cutting a stream of messages at any byte and reading it repeatedly yields
      exactly the messages whole within the cut, in order and unaltered, up to the
      first oversize one; then a clean end if and only if fewer than four bytes
      are left over, and an error otherwise. */
  lemma {:induction false} ReadCut(bs: seq<seq<Byte>>, n: nat)
    requires Messages(bs) && n <= |Join(bs)|
    ensures AllFrames(bs[..Whole(bs, n)])
    ensures ReadAll(Join(bs)[..n]) == Heard(Decoded(bs[..Whole(bs, n)]), Leftover(bs, n) < 4)
  {
    if bs != [] {
      var b, tail := bs[0], Join(bs[1..]);
      MessagesSplit(bs);
      ReadHead(b, tail, n);
      hide Decode, Oversize, Messages, AllFrames, Decoded, ReadFrame;
      if n >= |b| && !Oversize(b) {
        var k := Whole(bs[1..], n - |b|);
        ReadCut(bs[1..], n - |b|);
        DecodedCons(b, bs[1..][..k]);
        assert bs[..k + 1] == [b] + bs[1..][..k];
      } else {
        NoneDecoded(bs[..0]);
      }
    }
  }

  lemma NoneDecoded(bs: seq<seq<Byte>>)
    requires bs == []
    ensures AllFrames(bs) && Decoded(bs) == []
  {
  }

  function Encodings(fs: seq<Frame>): (bs: seq<seq<Byte>>)
    ensures |bs| == |fs| && forall i | 0 <= i < |fs| :: bs[i] == Encode(fs[i])
  {
    seq(|fs|, i requires 0 <= i < |fs| => Encode(fs[i]))
  }

  /** Fields within their widths; the whole may still pass the frame limit. */
  predicate Sized(f: Frame) {
    |f.from| < TWO16 && |f.to| < TWO16 && BodySize(f) < TWO32
  }

  lemma {:induction false} EncodingIsMessage(f: Frame)
    requires Sized(f)
    ensures if Fits(f) then Decode(Encode(f)) == Ok(f) else Oversize(Encode(f))
  {
    DecodeEncode(f);
    Widths(f);
    hide From32, Le32, Decode;
    assert Encode(f)[..4] == Le32(BodySize(f));
  }

  /** What any reader makes of one encoding, whatever follows it. */
  lemma {:induction false} ReadEncoding(f: Frame, rest: seq<Byte>)
    requires Sized(f)
    ensures Fits(f) ==> Decode(Encode(f)) == Ok(f) && ReadFrame(Encode(f) + rest) == Got(f, rest)
    ensures !Fits(f) ==> Decode(Encode(f)).Err? && ReadFrame(Encode(f) + rest).Bad?
  {
    hide Decode, Encode, ReadFrame;
    var b := Encode(f);
    DecodeEncode(f);
    EncodingIsMessage(f);
    ReadHead(b, rest, |b + rest|);
    assert (b + rest)[..|b + rest|] == b + rest;
    assert rest[..|rest|] == rest;
  }

  /** A writer cut off at any byte, whatever it had queued, has told its reader a
      prefix of the frames queued, and nothing else. */
  lemma {:induction false} AbortedWriter(fs: seq<Frame>, n: nat)
    requires forall i | 0 <= i < |fs| :: Sized(fs[i])
    requires n <= |Join(Encodings(fs))|
    ensures ReadAll(Join(Encodings(fs))[..n]).frames <= fs
    ensures n == |Join(Encodings(fs))| && (forall i | 0 <= i < |fs| :: Fits(fs[i])) ==>
              ReadAll(Join(Encodings(fs))[..n]) == Heard(fs, true)
  {
    var bs := Encodings(fs);
    forall i | 0 <= i < |fs|
      ensures Decode(bs[i]).Ok? || Oversize(bs[i])
      ensures Decode(bs[i]).Ok? ==> Decode(bs[i]).value == fs[i]
    {
      EncodingIsMessage(fs[i]);
    }
    hide Decode, Encode, Oversize, ReadAll, Decoded, AllFrames, Fits;
    ReadCut(bs, n);
    DecodedIs(bs[..Whole(bs, n)], fs[..Whole(bs, n)]);
    if n == |Join(bs)| && forall i | 0 <= i < |fs| :: Fits(fs[i]) {
      forall i | 0 <= i < |fs| ensures !Oversize(bs[i]) {
        EncodingIsMessage(fs[i]);
        NotBoth(bs[i]);
      }
      WholeAll(bs);
      assert fs[..|fs|] == fs;
    }
  }

  /** What a reader gets of it fits the frame limit. */
  lemma {:induction false} HeardFits(fs: seq<Frame>, n: nat)
    requires forall i | 0 <= i < |fs| :: Sized(fs[i])
    requires n <= |Join(Encodings(fs))|
    ensures |ReadAll(Join(Encodings(fs))[..n]).frames| <= |fs|
    ensures forall i | 0 <= i < |ReadAll(Join(Encodings(fs))[..n]).frames| :: Fits(fs[i])
  {
    var bs := Encodings(fs);
    hide Decode, Encode, Oversize, ReadAll, Decoded, Fits, Sized;
    forall i | 0 <= i < |fs| ensures Decode(bs[i]).Ok? || Oversize(bs[i]) {
      EncodingIsMessage(fs[i]);
    }
    ReadCut(bs, n);
    forall i | 0 <= i < Whole(bs, n) ensures Fits(fs[i]) {
      assert Decode(bs[..Whole(bs, n)][i]).Ok?;
      EncodingIsMessage(fs[i]);
      NotBoth(bs[i]);
    }
  }

  lemma NotBoth(b: seq<Byte>)
    ensures !(Decode(b).Ok? && Oversize(b))
  {
  }

  lemma {:induction false} DecodedIs(bs: seq<seq<Byte>>, fs: seq<Frame>)
    requires |bs| == |fs| && forall i | 0 <= i < |bs| :: Decode(bs[i]) == Ok(fs[i])
    ensures AllFrames(bs)
    ensures Decoded(bs) == fs
  {
    hide Decode;
    if bs != [] {
      assert forall i | 0 <= i < |bs[1..]| :: bs[1..][i] == bs[i + 1];
      DecodedIs(bs[1..], fs[1..]);
    }
  }

  lemma {:induction false} WholeAll(bs: seq<seq<Byte>>)
    requires forall i | 0 <= i < |bs| :: !Oversize(bs[i])
    ensures Whole(bs, |Join(bs)|) == |bs| && Leftover(bs, |Join(bs)|) == 0
  {
    hide Oversize;
    if bs != [] {
      assert forall i | 0 <= i < |bs[1..]| :: bs[1..][i] == bs[i + 1];
      WholeAll(bs[1..]);
    }
  }
}
