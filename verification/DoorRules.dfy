/** What the browser door lets through, and the pipe it makes for the router. */
module DoorRules {
  import opened Wrappers
  import opened Bytes
  import opened Utf8
  import opened Frames
  import opened Streams
  import opened Ids

  /** `originates`: a frame that calls another node. */
  predicate Originates(f: Frame) {
    f.to != [] && f.typ != RESPONSE
  }

  /** `browser_hello`: the first frame after the proof. */
  predicate IsBrowserHello(f: Frame) {
    f.typ == HELLO && Kind(f.from) == BROWSER
  }

  /** What one WebSocket message does to the relay. */
  datatype Verdict = Pass | Forbid(to: Str) | Close

  function Judge(b: seq<Byte>): Verdict {
    match Decode(b)
    case Err(_) => Close
    case Ok(f) => if Originates(f) then Forbid(f.to) else Pass
  }

  /** The messages the relay writes to the router's pipe: those that pass, until one
      that is not a frame closes the connection. */
  function Passed(ms: seq<seq<Byte>>): (ps: seq<seq<Byte>>)
    ensures forall i | 0 <= i < |ps| :: Decode(ps[i]).Ok? && !Originates(Decode(ps[i]).value)
  {
    if ms == [] then []
    else match Judge(ms[0])
      case Close => []
      case Forbid(_) => Passed(ms[1..])
      case Pass => [ms[0]] + Passed(ms[1..])
  }

  /** The answers sent straight back to a browser that tried to call. */
  function Forbidden(ms: seq<seq<Byte>>): seq<Str> {
    if ms == [] then []
    else match Judge(ms[0])
      case Close => []
      case Forbid(to) => [to] + Forbidden(ms[1..])
      case Pass => Forbidden(ms[1..])
  }

  lemma JudgeStep(ms: seq<seq<Byte>>, i: nat)
    requires i < |ms|
    ensures match Judge(ms[i])
            case Close => Join(Passed(ms[i..])) == [] && Forbidden(ms[i..]) == []
            case Forbid(to) =>
              && Passed(ms[i..]) == Passed(ms[i + 1..])
              && Forbidden(ms[i..]) == [to] + Forbidden(ms[i + 1..])
            case Pass =>
              && Join(Passed(ms[i..])) == ms[i] + Join(Passed(ms[i + 1..]))
              && Forbidden(ms[i..]) == Forbidden(ms[i + 1..])
  {
    hide Judge;
    var rest := ms[i..];
    assert rest[0] == ms[i] && rest[1..] == ms[i + 1..];
    if Judge(ms[i]).Pass? {
      assert Passed(rest)[1..] == Passed(ms[i + 1..]);
    }
  }

  /** The relay loop of `admit`, browser to router: `hello` first, then every message
      in turn. */
  method Relay(hello: seq<Byte>, ms: seq<seq<Byte>>) returns (pipe: seq<Byte>, refused: seq<Str>)
    ensures pipe == hello + Join(Passed(ms))
    ensures refused == Forbidden(ms)
  {
    hide Decode, Originates, Passed, Forbidden, Join;
    pipe, refused := hello, [];
    var i := 0;
    assert ms[0..] == ms;
    while i < |ms|
      invariant 0 <= i <= |ms|
      invariant pipe + Join(Passed(ms[i..])) == hello + Join(Passed(ms))
      invariant refused + Forbidden(ms[i..]) == Forbidden(ms)
    {
      JudgeStep(ms, i);
      var d := DecodeFrame(ms[i]);
      if d.Err? {
        return;
      }
      if Originates(d.value) {
        refused := refused + [d.value.to];
      } else {
        pipe := pipe + ms[i];
      }
      i := i + 1;
    }
    assert ms[i..] == [];
    assert Join(Passed(ms[i..])) == [] && Forbidden(ms[i..]) == [] by {
      NothingLeft();
    }
  }

  lemma NothingLeft()
    ensures Join(Passed([])) == [] && Forbidden([]) == []
  {
  }

  /** What the router can read from that pipe, cut at any byte: the HELLO and then
      frames that address the router or answer a call, each exactly as the browser's
      message decodes, in order. */
  lemma {:induction false} PipeIsFiltered(hello: seq<Byte>, ms: seq<seq<Byte>>, n: nat)
    requires Decode(hello).Ok? && IsBrowserHello(Decode(hello).value)
    requires n <= |hello + Join(Passed(ms))|
    ensures var fs := ReadAll((hello + Join(Passed(ms)))[..n]).frames;
            && fs <= [Decode(hello).value] + Decoded(Passed(ms))
            && forall i | 1 <= i < |fs| :: !Originates(fs[i])
  {
    hide Decode, Originates, IsBrowserHello, ReadAll, Passed;
    var ps := Passed(ms);
    var bs := [hello] + ps;
    assert bs[1..] == ps;
    ReadCut(bs, n);
    assert AllFrames(ps);
    var k := Whole(bs, n);
    DecodedPrefix(bs, k);
    DecodedEach(ps);
  }

  lemma {:induction false} DecodedPrefix(bs: seq<seq<Byte>>, k: nat)
    requires k <= |bs| && AllFrames(bs)
    ensures AllFrames(bs[..k]) && Decoded(bs[..k]) == Decoded(bs)[..k]
  {
    hide Decode;
    if k > 0 {
      assert bs[..k][1..] == bs[1..][..k - 1];
      DecodedPrefix(bs[1..], k - 1);
    }
  }

  lemma {:induction false} DecodedEach(bs: seq<seq<Byte>>)
    requires AllFrames(bs)
    ensures forall i | 0 <= i < |bs| :: Decoded(bs)[i] == Decode(bs[i]).value
  {
    hide Decode;
    if bs != [] {
      DecodedEach(bs[1..]);
    }
  }

  // ── router to browser ──────────────────────────────────────────────────────

  /** One turn of the relay's `select!`, seen from the pipe: a read that comes to its end,
      or one dropped for something else after it has taken some bytes. */
  datatype Turn = Finished | Dropped(taken: nat)

  datatype Ending = Going | Clean | Broken

  datatype Relayed = Relayed(frames: seq<Frame>, end: Ending)

  /** The frames read off the pipe in these turns: what a dropped read has taken is gone. */
  function RelayTurns(b: seq<Byte>, turns: seq<Turn>): Relayed
    decreases |turns|
  {
    if turns == [] then Relayed([], Going)
    else match turns[0]
      case Dropped(n) => RelayTurns(After(b, n), turns[1..])
      case Finished =>
        match ReadFrame(b)
        case Eof => Relayed([], Clean)
        case Bad(_) => Relayed([], Broken)
        case Got(f, rest) =>
          var r := RelayTurns(rest, turns[1..]);
          Relayed([f] + r.frames, r.end)
  }

  function After(b: seq<Byte>, n: nat): seq<Byte> {
    if n < |b| then b[n..] else []
  }

  lemma EncodingsSnoc(fs: seq<Frame>, f: Frame)
    ensures Encodings(fs) + [Encode(f)] == Encodings(fs + [f])
  {
    hide Encode;
  }

  lemma TurnsStep(b: seq<Byte>, turns: seq<Turn>, i: nat)
    requires i < |turns|
    ensures var r := RelayTurns(b, turns[i..]);
            match turns[i]
            case Dropped(n) => r == RelayTurns(After(b, n), turns[i + 1..])
            case Finished =>
              match ReadFrame(b)
              case Eof => r == Relayed([], Clean)
              case Bad(_) => r == Relayed([], Broken)
              case Got(f, rest) =>
                var more := RelayTurns(rest, turns[i + 1..]);
                r == Relayed([f] + more.frames, more.end)
  {
    hide ReadFrame, After;
    assert turns[i..][0] == turns[i] && turns[i..][1..] == turns[i + 1..];
  }

  /** The other half of the loop: every frame read off the pipe is one message to the
      browser, until the pipe ends or cannot be read. */
  method RelayBack(pipe: Reader, turns: seq<Turn>) returns (ms: seq<seq<Byte>>, end: Ending)
    modifies pipe
    ensures ms == Encodings(RelayTurns(old(pipe.rest), turns).frames)
    ensures end == RelayTurns(old(pipe.rest), turns).end
  {
    hide ReadFrame, RelayTurns, Encode;
    ghost var told: seq<Frame> := [];
    ghost var all := RelayTurns(pipe.rest, turns);
    ms := [];
    var i := 0;
    assert turns[0..] == turns;
    while i < |turns|
      invariant i <= |turns| && ms == Encodings(told)
      invariant var more := RelayTurns(pipe.rest, turns[i..]); all == Relayed(told + more.frames, more.end)
    {
      TurnsStep(pipe.rest, turns, i);
      match turns[i] {
        case Dropped(n) =>
          var _ := pipe.ReadExact(n);
        case Finished =>
          var f := pipe.Read();
          match f {
            case Err(_) =>
              assert all.frames == told;
              return ms, Broken;
            case Ok(None) =>
              assert all.frames == told;
              return ms, Clean;
            case Ok(Some(frame)) =>
              EncodingsSnoc(told, frame);
              ms := ms + [Encode(frame)];
              told := told + [frame];
          }
      }
      i := i + 1;
    }
    NoTurns(pipe.rest, turns[i..]);
    end := Going;
  }

  lemma NoTurns(b: seq<Byte>, turns: seq<Turn>)
    requires turns == []
    ensures RelayTurns(b, turns) == Relayed([], Going)
  {
  }

  /** No read was dropped with bytes in its hands. */
  predicate NothingTaken(turns: seq<Turn>) {
    forall i | 0 <= i < |turns| :: turns[i].Dropped? ==> turns[i].taken == 0
  }

  /** Then the relay reads the pipe like anybody else. */
  lemma {:induction false} RelayReadsAll(b: seq<Byte>, turns: seq<Turn>)
    requires NothingTaken(turns)
    ensures var r := RelayTurns(b, turns);
            && r.frames <= ReadAll(b).frames
            && (!r.end.Going? ==> r.frames == ReadAll(b).frames && (r.end.Clean? <==> ReadAll(b).clean))
    decreases |turns|
  {
    hide ReadFrame;
    if turns != [] {
      assert forall i | 0 <= i < |turns[1..]| :: turns[1..][i] == turns[i + 1];
      var rest := match ReadFrame(b) case Got(_, rest) => rest case _ => b;
      RelayReadsAll(if turns[0].Dropped? then b else rest, turns[1..]);
    }
  }

  /** A dropped read does no harm if and only if it had taken nothing: after `n` bytes of a
      frame between named nodes, the next read gives that frame exactly for `n` zero. */
  lemma {:induction false} DropIsHarmlessExactly(f: Frame, rest: seq<Byte>, n: nat)
    requires Sized(f) && Fits(f) && IsAscii(f.from) && IsAscii(f.to) && n < |Encode(f)|
    ensures ReadFrame(After(Encode(f) + rest, n)) == Got(f, rest) <==> n == 0
  {
    ReadEncoding(f, rest);
    var b := After(Encode(f) + rest, n);
    assert |b| == |Encode(f)| + |rest| - n;
    assert |Encode(f)| == 4 + BodySize(f);
    hide Encode, After;
    if ReadFrame(b) == Got(f, rest) {
      GotSize(b, f, rest);
    }
  }

  lemma GotSize(b: seq<Byte>, f: Frame, rest: seq<Byte>)
    requires ReadFrame(b) == Got(f, rest) && IsAscii(f.from) && IsAscii(f.to)
    ensures |b| == 4 + BodySize(f) + |rest|
  {
    var buf := b[4..4 + From32(b[..4])];
    hide Body, From32, Lossy;
    RawAscii(buf);
  }

  lemma RawAscii(buf: seq<Byte>)
    requires Body(buf).Ok? && IsAscii(Body(buf).value.from) && IsAscii(Body(buf).value.to)
    ensures |buf| == BodySize(Body(buf).value)
  {
    LossyAscii(RawFrom(buf));
    LossyAscii(RawTo(buf));
    hide Lossy, From16, From32;
  }

  /** And dropped between a frame's length and its body, it always ends the connection:
      what stands there, read as a length, is past the limit. */
  lemma {:induction false} DropAfterLength(f: Frame, rest: seq<Byte>, more: seq<Turn>)
    requires 4 <= |f.from| < 0x100 && (|f.from| == 4 ==> f.typ > 0)
    ensures RelayTurns(Encode(f) + rest, [Dropped(4), Finished] + more) == Relayed([], Broken)
  {
    var b := After(Encode(f) + rest, 4);
    var turns := [Dropped(4), Finished] + more;
    BodyAsLength(f, rest);
    hide Encode, ReadFrame, After;
    assert turns[1..] == [Finished] + more;
    assert RelayTurns(b, [Finished] + more) == Relayed([], Broken);
  }

  lemma FourDigits(b: seq<Byte>)
    requires |b| == 4
    ensures From32(b) == b[0] as int + 0x100 * b[1] as int + 0x1_0000 * b[2] as int + 0x100_0000 * b[3] as int
  {
    assert From(b[3..]) == b[3] && b[2..][1..] == b[3..];
    assert From(b[2..]) == b[2] as int + 0x100 * b[3] as int && b[1..][1..] == b[2..];
    assert From(b[1..]) == b[1] + 0x100 * From(b[2..]);
  }

  lemma HeaderStarts(f: Frame)
    ensures Header(f)[0] == f.typ && Header(f)[3] == |f.from| % 0x100
  {
    assert Le16(|f.from|)[0] == |f.from| % 0x100;
    hide Le16, Le32;
  }

  lemma BodyAsLength(f: Frame, rest: seq<Byte>)
    requires 4 <= |f.from| < 0x100 && (|f.from| == 4 ==> f.typ > 0)
    ensures ReadFrame(After(Encode(f) + rest, 4)) == Bad(BadLength)
  {
    var b := After(Encode(f) + rest, 4);
    hide Header, From32, Le32, Body;
    assert b[..4] == Header(f)[..4];
    FourDigits(b[..4]);
    HeaderStarts(f);
  }

  /** Wherever the router's writer stops, the messages the browser gets are its frames, in
      order, each exactly as it was queued, unless a read was dropped with bytes taken. */
  lemma {:induction false} BrowserHearsAPrefix(fs: seq<Frame>, n: nat, turns: seq<Turn>)
    requires forall i | 0 <= i < |fs| :: Sized(fs[i])
    requires n <= |Join(Encodings(fs))| && NothingTaken(turns)
    ensures var ms := Encodings(RelayTurns(Join(Encodings(fs))[..n], turns).frames);
            |ms| <= |fs| && forall i | 0 <= i < |ms| :: Decode(ms[i]) == Ok(fs[i])
  {
    hide Decode, Encode, ReadAll, Join, Fits, Sized, RelayTurns, NothingTaken;
    AbortedWriter(fs, n);
    HeardFits(fs, n);
    RelayReadsAll(Join(Encodings(fs))[..n], turns);
    var heard := RelayTurns(Join(Encodings(fs))[..n], turns).frames;
    forall i | 0 <= i < |heard| ensures Decode(Encode(heard[i])) == Ok(fs[i]) {
      DecodeEncode(fs[i]);
    }
  }

  // ── a whole relay ──────────────────────────────────────────────────────────

  /** There are `n` reads that come to their end, and none dropped before the last of them
      had taken anything. */
  predicate Unhurt(turns: seq<Turn>, n: nat)
    decreases |turns|
  {
    n == 0
    || (turns != []
        && match turns[0]
           case Dropped(taken) => taken == 0 && Unhurt(turns[1..], n)
           case Finished => Unhurt(turns[1..], n - 1))
  }

  /** Between nodes with names, and within every limit. */
  predicate Plain(f: Frame) {
    Sized(f) && Fits(f) && IsAscii(f.from) && IsAscii(f.to)
  }

  predicate AllPlain(fs: seq<Frame>) {
    forall i | 0 <= i < |fs| :: Plain(fs[i])
  }

  lemma AllPlainCons(fs: seq<Frame>)
    requires AllPlain(fs) && fs != []
    ensures Plain(fs[0]) && AllPlain(fs[1..])
  {
    hide Plain;
    assert forall i | 0 <= i < |fs[1..]| :: fs[1..][i] == fs[i + 1];
  }

  lemma JoinCons(fs: seq<Frame>)
    requires fs != []
    ensures Join(Encodings(fs)) == Encode(fs[0]) + Join(Encodings(fs[1..]))
  {
    hide Encode;
    assert Encodings(fs)[1..] == Encodings(fs[1..]);
  }

  lemma TurnsCons(b: seq<Byte>, turns: seq<Turn>)
    requires turns != []
    ensures match turns[0]
            case Dropped(n) => RelayTurns(b, turns) == RelayTurns(After(b, n), turns[1..])
            case Finished =>
              match ReadFrame(b)
              case Got(f, rest) =>
                var more := RelayTurns(rest, turns[1..]);
                RelayTurns(b, turns) == Relayed([f] + more.frames, more.end)
              case _ => RelayTurns(b, turns).frames == []
  {
    hide ReadFrame, After;
  }

  /** Frames cost the bytes of their encodings, so whoever gets them all from no more than
      those bytes has lost none. */
  lemma {:induction false} HearingAllTakesAll(b: seq<Byte>, turns: seq<Turn>, fs: seq<Frame>)
    requires AllPlain(fs) && fs <= RelayTurns(b, turns).frames
    ensures |b| >= |Join(Encodings(fs))|
    ensures |b| == |Join(Encodings(fs))| ==> Unhurt(turns, |fs|)
    decreases |turns|
  {
    if fs == [] {
      NothingJoined(fs);
    } else if turns == [] {
      NoTurns(b, turns);
    } else {
      TurnsCons(b, turns);
      AllPlainCons(fs);
      JoinCons(fs);
      hide RelayTurns, ReadFrame, Join, Encodings, AllPlain, Encode;
      match turns[0] {
        case Dropped(n) =>
          HearingAllTakesAll(After(b, n), turns[1..], fs);
        case Finished =>
          var f, rest := ReadFrame(b).frame, ReadFrame(b).rest;
          GotSize(b, f, rest);
          HearingAllTakesAll(rest, turns[1..], fs[1..]);
      }
    }
  }

  lemma NothingJoined(fs: seq<Frame>)
    requires fs == []
    ensures Join(Encodings(fs)) == []
  {
  }

  lemma AfterNothing(b: seq<Byte>)
    ensures After(b, 0) == b
  {
  }

  lemma PrefixCons(fs: seq<Frame>, gs: seq<Frame>)
    requires fs != [] && fs[1..] <= gs
    ensures fs <= [fs[0]] + gs
  {
    assert fs == [fs[0]] + fs[1..];
  }

  lemma {:induction false} UnhurtHearsAll(fs: seq<Frame>, rest: seq<Byte>, turns: seq<Turn>)
    requires AllPlain(fs) && Unhurt(turns, |fs|)
    ensures fs <= RelayTurns(Join(Encodings(fs)) + rest, turns).frames
    decreases |turns|
  {
    if fs != [] {
      var b := Join(Encodings(fs)) + rest;
      AllPlainCons(fs);
      TurnsCons(b, turns);
      hide RelayTurns, ReadFrame, Join, Encodings, AllPlain, Encode, After;
      match turns[0] {
        case Dropped(n) =>
          AfterNothing(b);
          UnhurtHearsAll(fs, rest, turns[1..]);
        case Finished =>
          hide Unhurt;
          HeadOfJoin(fs, rest);
          UnhurtHearsAll(fs[1..], rest, turns[1..]);
          PrefixCons(fs, RelayTurns(Join(Encodings(fs[1..])) + rest, turns[1..]).frames);
      }
    }
  }

  lemma HeadOfJoin(fs: seq<Frame>, rest: seq<Byte>)
    requires fs != [] && Plain(fs[0])
    ensures ReadFrame(Join(Encodings(fs)) + rest) == Got(fs[0], Join(Encodings(fs[1..])) + rest)
  {
    hide ReadFrame, Join, Encodings, Encode;
    JoinCons(fs);
    Associate(Encode(fs[0]), Join(Encodings(fs[1..])), rest);
    ReadEncoding(fs[0], Join(Encodings(fs[1..])) + rest);
  }

  /** Everything the router wrote reaches the browser, in order and unchanged, if and only
      if there are as many whole reads as frames and no read dropped before the last of
      them had taken a byte. */
  lemma BrowserHearsAllExactly(fs: seq<Frame>, turns: seq<Turn>)
    requires AllPlain(fs)
    ensures fs <= RelayTurns(Join(Encodings(fs)), turns).frames <==> Unhurt(turns, |fs|)
  {
    hide *;
    var b := Join(Encodings(fs));
    if fs <= RelayTurns(b, turns).frames {
      HearingAllTakesAll(b, turns, fs);
    }
    if Unhurt(turns, |fs|) {
      UnhurtHearsAll(fs, [], turns);
      assert b + [] == b;
    }
  }

  lemma AfterWhole(a: seq<Byte>, b: seq<Byte>)
    ensures After(a + b, |a|) == b
  {
  }

  lemma AfterTwice(b: seq<Byte>, m: nat, n: nat)
    ensures After(After(b, m), n) == After(b, m + n)
  {
  }

  /** One way to lose a frame without a sign of it: a read dropped within it, and the next
      within the bytes it left, too few for a length. The relay goes on with what follows. */
  lemma {:induction false} DropsSwallowAFrame(f: Frame, rest: seq<Byte>, left: nat, more: seq<Turn>)
    requires 0 < left < 4
    ensures left < |Encode(f)|
    ensures RelayTurns(Encode(f) + rest, [Dropped(|Encode(f)| - left), Dropped(left)] + more) == RelayTurns(rest, more)
  {
    assert |Encode(f)| >= 4;
    var b, n := Encode(f) + rest, |Encode(f)| - left;
    var turns := [Dropped(n), Dropped(left)] + more;
    assert turns[1..] == [Dropped(left)] + more && turns[1..][1..] == more;
    hide Encode, RelayTurns, After;
    TurnsCons(b, turns);
    TurnsCons(After(b, n), turns[1..]);
    AfterTwice(b, n, left);
    AfterWhole(Encode(f), rest);
  }

  /** And one way to hear a frame nobody sent: where the payload of `f` ends in the bytes of
      `g`, a read dropped just before them leaves `g` to be read, with whatever `from`
      those bytes say. */
  lemma {:induction false} DropUncoversAFrame(f: Frame, g: Frame, x: seq<Byte>, rest: seq<Byte>, more: seq<Turn>)
    requires f.payload == x + Encode(g) && Sized(g) && Fits(g)
    ensures 0 < |Encode(f)| - |Encode(g)|
    ensures var r := RelayTurns(rest, more);
            RelayTurns(Encode(f) + rest, [Dropped(|Encode(f)| - |Encode(g)|), Finished] + more) ==
            Relayed([g] + r.frames, r.end)
  {
    var n := |Encode(f)| - |Encode(g)|;
    assert |Encode(f)| == 4 + BodySize(f);
    var head := Le32(BodySize(f)) + (Header(f) + (f.from + (f.to + x)));
    EncodeEndsIn(f, x, Encode(g));
    assert |head| == n;
    var b := Encode(f) + rest;
    assert b == head + (Encode(g) + rest);
    var turns := [Dropped(n), Finished] + more;
    assert turns[1..] == [Finished] + more && turns[1..][1..] == more;
    hide Encode, RelayTurns, After, ReadFrame, Header, Le32;
    TurnsCons(b, turns);
    AfterWhole(head, Encode(g) + rest);
    TurnsCons(Encode(g) + rest, turns[1..]);
    ReadEncoding(g, rest);
  }

  lemma EncodeEndsIn(f: Frame, x: seq<Byte>, y: seq<Byte>)
    requires f.payload == x + y
    ensures Encode(f) == Le32(BodySize(f)) + (Header(f) + (f.from + (f.to + x))) + y
  {
    hide Le32, Header;
    Associate(f.to, x, y);
    Associate(f.from, f.to + x, y);
    Associate(Header(f), f.from + (f.to + x), y);
    Associate(Le32(BodySize(f)), Header(f) + (f.from + (f.to + x)), y);
  }

  lemma Associate(a: seq<Byte>, b: seq<Byte>, c: seq<Byte>)
    ensures a + (b + c) == a + b + c
  {
  }
}
