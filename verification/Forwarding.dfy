/** What a forwarded frame keeps of the frame it was. */
module Forwarding {
  import opened Wrappers
  import opened Bytes
  import opened Utf8
  import opened Frames
  import opened Streams
  import opened Ids

  /** `f.from = id`: what the router sends on. */
  function Restamp(f: Frame, id: Str): Frame {
    f.(from := id)
  }

  /** Lossy decoding never creates a match: a `to` that equals an id was that id on
      the wire. */
  lemma {:induction false} ToIsExact(raw: seq<Byte>, id: seq<Byte>, host: Host)
    requires IsId(id, host) && Lossy(raw) == id
    ensures raw == id
  {
    IdFacts(id, host);
    LossyAscii(raw);
  }

  /** A frame read off the wire and forwarded between two registered ids loses
      nothing but its `from`: no length field truncates, the size changes by exactly
      the difference of the two `from`s, and any reader gets the frame back if and
      only if that size is within the limit, refusing it otherwise. */
  lemma {:induction false} ForwardKeepsMeaning(buf: seq<Byte>, id: Str, dest: Str, host: Host, rest: seq<Byte>)
    requires |buf| <= MAX_FRAME && Body(buf).Ok?
    requires IsId(id, host) && IsId(dest, host)
    requires Body(buf).value.to == dest
    ensures var g := Restamp(Body(buf).value, id);
            var size := |buf| - |RawFrom(buf)| + |id|;
            && RawTo(buf) == dest
            && Sized(g)
            && BodySize(g) == size <= |buf| + 41
            && (size <= MAX_FRAME ==> Decode(Encode(g)) == Ok(g) && ReadFrame(Encode(g) + rest) == Got(g, rest))
            && (size > MAX_FRAME ==> Decode(Encode(g)).Err? && ReadFrame(Encode(g) + rest).Bad?)
  {
    hide *;
    ForwardSize(buf, id, dest, host);
    FitsIffSmall(Restamp(Body(buf).value, id));
    ReadEncoding(Restamp(Body(buf).value, id), rest);
  }

  lemma FitsIffSmall(g: Frame)
    requires Sized(g)
    ensures Fits(g) <==> BodySize(g) <= MAX_FRAME
  {
  }

  lemma ForwardSize(buf: seq<Byte>, id: Str, dest: Str, host: Host)
    requires |buf| <= MAX_FRAME && Body(buf).Ok?
    requires IsId(id, host) && IsId(dest, host)
    requires Body(buf).value.to == dest
    ensures RawTo(buf) == dest && |id| <= 41
    ensures var g := Restamp(Body(buf).value, id);
            Sized(g) && BodySize(g) == |buf| - |RawFrom(buf)| + |id|
  {
    hide IsId, IsAscii, Lossy, From32, From16, Body, RawFrom, RawTo, LayoutOf, Valid;
    IdFacts(id, host);
    IdFacts(dest, host);
    RawSizes(buf);
    ToIsExact(RawTo(buf), dest, host);
  }

  lemma RawSizes(buf: seq<Byte>)
    requires Body(buf).Ok?
    ensures Body(buf).value.to == Lossy(RawTo(buf))
    ensures |buf| == HEADER + |RawFrom(buf)| + |RawTo(buf)| + |Body(buf).value.payload|
  {
    hide Lossy, From32, From16;
  }

  /** Restamping can push an accepted frame past the limit: a frame of the greatest
      size from a node that left `from` empty is refused by whoever it is sent to. */
  lemma {:induction false} RestampCanOverflow(f: Frame, id: Str, host: Host)
    requires IsId(id, host)
    requires f.from == [] && |f.to| < TWO16 && BodySize(f) == MAX_FRAME
    ensures Decode(Encode(f)) == Ok(f)
    ensures Decode(Encode(Restamp(f, id))).Err?
  {
    hide Decode, Encode, IsId, IsAscii;
    IdFacts(id, host);
    DecodeEncode(f);
    DecodeEncode(Restamp(f, id));
  }
}
