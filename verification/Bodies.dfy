/** The router's own control bodies: HELLO descriptors, PROVIDERS lists, peer ids. */
module Bodies {
  import opened Wrappers
  import opened Bytes
  import opened Utf8
  import opened Frames

  datatype Descriptor = Descriptor(role: Byte, brand: Str, caps: seq<Str>, attrs: seq<(Str, Str)>)

  datatype Entry = Entry(id: Str, desc: Descriptor)

  // ── wire forms ─────────────────────────────────────────────────────────────

  function PutStr(s: Str): seq<Byte> {
    Le16(|s|) + s
  }

  function PutPair(kv: (Str, Str)): seq<Byte> {
    PutStr(kv.0) + PutStr(kv.1)
  }

  function PutAll<T>(put: T -> seq<Byte>, xs: seq<T>): seq<Byte> {
    if xs == [] then [] else put(xs[0]) + PutAll(put, xs[1..])
  }

  /** A u16 count, then that many items. */
  function PutCounted<T>(put: T -> seq<Byte>, xs: seq<T>): seq<Byte> {
    Le16(|xs|) + PutAll(put, xs)
  }

  function PutDescriptor(d: Descriptor): seq<Byte> {
    [d.role] + (PutStr(d.brand) + (PutCounted(PutStr, d.caps) + PutCounted(PutPair, d.attrs)))
  }

  function PutEntry(e: Entry): seq<Byte> {
    PutStr(e.id) + PutDescriptor(e.desc)
  }

  // ── parsing ────────────────────────────────────────────────────────────────

  /** A value read off the front, what is left, and whether every string read was
      valid UTF-8 on the wire. */
  datatype Parsed<+T> = Fail | Got(value: T, rest: seq<Byte>, clean: bool)

  function ParseStr(b: seq<Byte>): Parsed<Str> {
    if |b| < 2 || |b| < 2 + From16(b[..2]) then
      Fail
    else
      var raw := b[2..2 + From16(b[..2])];
      Got(Lossy(raw), b[2 + From16(b[..2])..], Valid(raw))
  }

  function ParsePair(b: seq<Byte>): Parsed<(Str, Str)> {
    match ParseStr(b)
    case Fail => Fail
    case Got(k, r, ck) =>
      match ParseStr(r)
      case Fail => Fail
      case Got(v, r', cv) => Got((k, v), r', ck && cv)
  }

  function Many<T>(parse: seq<Byte> -> Parsed<T>, n: nat, b: seq<Byte>): (r: Parsed<seq<T>>)
    ensures r.Got? ==> |r.value| == n
  {
    if n == 0 then
      Got([], b, true)
    else
      match parse(b)
      case Fail => Fail
      case Got(x, r, c) =>
        match Many(parse, n - 1, r)
        case Fail => Fail
        case Got(xs, r', c') => Got([x] + xs, r', c && c')
  }

  function Counted<T>(parse: seq<Byte> -> Parsed<T>, b: seq<Byte>): (r: Parsed<seq<T>>)
    ensures r.Got? ==> |r.value| < TWO16
  {
    if |b| < 2 then Fail else Many(parse, From16(b[..2]), b[2..])
  }

  function ParseDescriptor(b: seq<Byte>): Parsed<Descriptor> {
    if |b| < 1 then
      Fail
    else
      match ParseStr(b[1..])
      case Fail => Fail
      case Got(brand, r1, c1) =>
        match Counted(ParseStr, r1)
        case Fail => Fail
        case Got(caps, r2, c2) =>
          match Counted(ParsePair, r2)
          case Fail => Fail
          case Got(attrs, r3, c3) => Got(Descriptor(b[0], brand, caps, attrs), r3, c1 && c2 && c3)
  }

  function ParseEntry(b: seq<Byte>): Parsed<Entry> {
    match ParseStr(b)
    case Fail => Fail
    case Got(id, r, c) =>
      match ParseDescriptor(r)
      case Fail => Fail
      case Got(d, r', c') => Got(Entry(id, d), r', c && c')
  }

  // ── what fits its widths ───────────────────────────────────────────────────

  predicate StrFits(s: Str) {
    |s| < TWO16
  }

  predicate PairFits(kv: (Str, Str)) {
    StrFits(kv.0) && StrFits(kv.1)
  }

  predicate AllFit<T>(fits: T -> bool, xs: seq<T>) {
    forall i | 0 <= i < |xs| :: fits(xs[i])
  }

  predicate DescriptorFits(d: Descriptor) {
    StrFits(d.brand) && |d.caps| < TWO16 && |d.attrs| < TWO16 && AllFit(StrFits, d.caps) && AllFit(PairFits, d.attrs)
  }

  predicate EntryFits(e: Entry) {
    StrFits(e.id) && DescriptorFits(e.desc)
  }

  /** A wire form and its parser agree: what fits is read back whatever follows, only
      what fits is read back, and what was read cleanly is the wire form. */
  ghost predicate Law<T(!new)>(put: T -> seq<Byte>, parse: seq<Byte> -> Parsed<T>, fits: T -> bool) {
    && (forall x, r | fits(x) :: parse(put(x) + r) == Got(x, r, true))
    && (forall x, r | parse(put(x) + r).Got? && parse(put(x) + r).value == x :: fits(x))
    && (forall b | parse(b).Got? && parse(b).clean :: fits(parse(b).value) && b == put(parse(b).value) + parse(b).rest)
  }

  lemma StrRoundTrip(s: Str, r: seq<Byte>)
    ensures StrFits(s) ==> ParseStr(PutStr(s) + r) == Got(s, r, true)
    ensures ParseStr(PutStr(s) + r).Got? && ParseStr(PutStr(s) + r).value == s ==> StrFits(s)
  {
    var b := PutStr(s) + r;
    var n := |s| % TWO16;
    Le16RoundTrip(|s|);
    hide Le16, From16, Lossy, Valid;
    assert b[..2] == Le16(|s|);
    assert b[2..2 + n] == s[..n];
    if StrFits(s) {
      LossyIdentity(s);
      assert s[..n] == s;
      assert b[2 + n..] == r;
    } else {
      LossyOfCut(s, n);
    }
  }

  lemma StrCanonical(b: seq<Byte>)
    requires ParseStr(b).Got? && ParseStr(b).clean
    ensures StrFits(ParseStr(b).value) && b == PutStr(ParseStr(b).value) + ParseStr(b).rest
  {
    Le16Canonical(b[..2]);
    LossyIdentity(b[2..2 + From16(b[..2])]);
    hide Le16, From16, Lossy, Valid;
    assert b == b[..2] + b[2..2 + From16(b[..2])] + b[2 + From16(b[..2])..];
  }

  lemma StrLaw()
    ensures Law(PutStr, ParseStr, StrFits)
  {
    forall s: Str, r { StrRoundTrip(s, r); }
    forall b | ParseStr(b).Got? && ParseStr(b).clean { StrCanonical(b); }
  }

  lemma PairRoundTrip(kv: (Str, Str), r: seq<Byte>)
    ensures PairFits(kv) ==> ParsePair(PutPair(kv) + r) == Got(kv, r, true)
    ensures ParsePair(PutPair(kv) + r).Got? && ParsePair(PutPair(kv) + r).value == kv ==> PairFits(kv)
  {
    hide PutStr, ParseStr, StrFits;
    assert PutPair(kv) + r == PutStr(kv.0) + (PutStr(kv.1) + r);
    StrRoundTrip(kv.0, PutStr(kv.1) + r);
    StrRoundTrip(kv.1, r);
  }

  lemma PairCanonical(b: seq<Byte>)
    requires ParsePair(b).Got? && ParsePair(b).clean
    ensures PairFits(ParsePair(b).value) && b == PutPair(ParsePair(b).value) + ParsePair(b).rest
  {
    hide PutStr, ParseStr, StrFits;
    StrCanonical(b);
    StrCanonical(ParseStr(b).rest);
  }

  lemma PairLaw()
    ensures Law(PutPair, ParsePair, PairFits)
  {
    hide PutPair, ParsePair, PairFits;
    forall kv: (Str, Str), r { PairRoundTrip(kv, r); }
    forall b | ParsePair(b).Got? && ParsePair(b).clean { PairCanonical(b); }
  }

  lemma AllFitStep<T>(fits: T -> bool, xs: seq<T>)
    requires xs != []
    ensures AllFit(fits, xs) <==> fits(xs[0]) && AllFit(fits, xs[1..])
  {
    assert forall i | 0 <= i < |xs[1..]| :: xs[1..][i] == xs[i + 1];
    assert forall i | 0 < i < |xs| :: xs[i] == xs[1..][i - 1];
  }

  lemma ManyCons<T>(parse: seq<Byte> -> Parsed<T>, xs: seq<T>, b: seq<Byte>, rest: seq<Byte>, r: seq<Byte>)
    requires xs != [] && parse(b) == Got(xs[0], rest, true)
    ensures Many(parse, |xs| - 1, rest) == Got(xs[1..], r, true) ==> Many(parse, |xs|, b) == Got(xs, r, true)
  {
    assert xs == [xs[0]] + xs[1..];
  }

  lemma ManyUncons<T>(parse: seq<Byte> -> Parsed<T>, xs: seq<T>, b: seq<Byte>)
    requires xs != [] && Many(parse, |xs|, b).Got? && Many(parse, |xs|, b).value == xs
    ensures parse(b).Got? && parse(b).value == xs[0]
    ensures var m := Many(parse, |xs| - 1, parse(b).rest); m.Got? && m.value == xs[1..]
  {
    assert Many(parse, |xs|, b).value[1..] == xs[1..];
  }

  lemma HeadRoundTrip<T(!new)>(put: T -> seq<Byte>, parse: seq<Byte> -> Parsed<T>, fits: T -> bool,
      xs: seq<T>, r: seq<Byte>)
    requires Law(put, parse, fits) && xs != []
    ensures var b, rest := PutAll(put, xs) + r, PutAll(put, xs[1..]) + r;
            && (fits(xs[0]) ==> parse(b) == Got(xs[0], rest, true))
            && (parse(b).Got? && parse(b).value == xs[0] ==> fits(xs[0]))
  {
    assert PutAll(put, xs) + r == put(xs[0]) + (PutAll(put, xs[1..]) + r);
  }

  lemma {:induction false} ManyRoundTrip<T(!new)>(put: T -> seq<Byte>, parse: seq<Byte> -> Parsed<T>,
      fits: T -> bool, xs: seq<T>, r: seq<Byte>)
    requires Law(put, parse, fits)
    ensures AllFit(fits, xs) ==> Many(parse, |xs|, PutAll(put, xs) + r) == Got(xs, r, true)
    ensures var m := Many(parse, |xs|, PutAll(put, xs) + r); m.Got? && m.value == xs ==> AllFit(fits, xs)
  {
    if xs == [] {
      assert PutAll(put, xs) + r == r;
    } else {
      hide Law, AllFit, PutAll, Many;
      var b, rest := PutAll(put, xs) + r, PutAll(put, xs[1..]) + r;
      ManyRoundTrip(put, parse, fits, xs[1..], r);
      HeadRoundTrip(put, parse, fits, xs, r);
      AllFitStep(fits, xs);
      if fits(xs[0]) {
        ManyCons(parse, xs, b, rest, r);
      }
      if Many(parse, |xs|, b).Got? && Many(parse, |xs|, b).value == xs {
        ManyUncons(parse, xs, b);
      }
    }
  }

  lemma ManySteps<T>(parse: seq<Byte> -> Parsed<T>, n: nat, b: seq<Byte>)
    requires n > 0 && Many(parse, n, b).Got?
    ensures parse(b).Got?
    ensures var more := Many(parse, n - 1, parse(b).rest);
            && more.Got?
            && Many(parse, n, b) == Got([parse(b).value] + more.value, more.rest, parse(b).clean && more.clean)
  {
  }

  lemma PutAllCons<T>(put: T -> seq<Byte>, x: T, xs: seq<T>)
    ensures PutAll(put, [x] + xs) == put(x) + PutAll(put, xs)
  {
    assert ([x] + xs)[1..] == xs;
  }

  lemma {:induction false} ManyCanonical<T(!new)>(put: T -> seq<Byte>, parse: seq<Byte> -> Parsed<T>, fits: T -> bool,
      n: nat, b: seq<Byte>)
    requires Law(put, parse, fits)
    requires Many(parse, n, b).Got? && Many(parse, n, b).clean
    ensures AllFit(fits, Many(parse, n, b).value)
    ensures b == PutAll(put, Many(parse, n, b).value) + Many(parse, n, b).rest
  {
    if n == 0 {
    } else {
      ManySteps(parse, n, b);
      var x, r := parse(b).value, parse(b).rest;
      assert fits(x) && b == put(x) + r;
      hide Law, Many, PutAll, AllFit;
      ManyCanonical(put, parse, fits, n - 1, r);
      var xs := Many(parse, n - 1, r).value;
      PutAllCons(put, x, xs);
      AllFitStep(fits, [x] + xs);
      assert ([x] + xs)[1..] == xs;
    }
  }

  lemma CountedRoundTrip<T(!new)>(put: T -> seq<Byte>, parse: seq<Byte> -> Parsed<T>, fits: T -> bool, xs: seq<T>,
      r: seq<Byte>)
    requires Law(put, parse, fits)
    ensures |xs| < TWO16 && AllFit(fits, xs) ==> Counted(parse, PutCounted(put, xs) + r) == Got(xs, r, true)
    ensures var m := Counted(parse, PutCounted(put, xs) + r); m.Got? && m.value == xs ==>
            |xs| < TWO16 && AllFit(fits, xs)
  {
    Le16RoundTrip(|xs|);
    ManyRoundTrip(put, parse, fits, xs, r);
    hide Le16, From16, Law, AllFit;
    var b := PutCounted(put, xs) + r;
    assert b[..2] == Le16(|xs|);
    assert b[2..] == PutAll(put, xs) + r;
  }

  lemma CountedCanonical<T(!new)>(put: T -> seq<Byte>, parse: seq<Byte> -> Parsed<T>, fits: T -> bool, b: seq<Byte>)
    requires Law(put, parse, fits)
    requires Counted(parse, b).Got? && Counted(parse, b).clean
    ensures AllFit(fits, Counted(parse, b).value)
    ensures b == PutCounted(put, Counted(parse, b).value) + Counted(parse, b).rest
  {
    Le16Canonical(b[..2]);
    ManyCanonical(put, parse, fits, From16(b[..2]), b[2..]);
    hide Le16, From16, Law, AllFit;
    assert b == b[..2] + b[2..];
  }

  lemma {:induction false} DescriptorRoundTrip(d: Descriptor, r: seq<Byte>)
    ensures DescriptorFits(d) ==> ParseDescriptor(PutDescriptor(d) + r) == Got(d, r, true)
    ensures var m := ParseDescriptor(PutDescriptor(d) + r); m.Got? && m.value == d ==> DescriptorFits(d)
  {
    StrLaw();
    PairLaw();
    hide Law, AllFit, StrFits, PutStr, ParseStr, PutCounted, Counted;
    var b3 := PutCounted(PutPair, d.attrs) + r;
    var b2 := PutCounted(PutStr, d.caps) + b3;
    var b1 := PutStr(d.brand) + b2;
    assert PutDescriptor(d) + r == [d.role] + b1;
    assert ([d.role] + b1)[1..] == b1;
    StrRoundTrip(d.brand, b2);
    CountedRoundTrip(PutStr, ParseStr, StrFits, d.caps, b3);
    CountedRoundTrip(PutPair, ParsePair, PairFits, d.attrs, r);
  }

  lemma DescriptorCanonical(b: seq<Byte>)
    requires ParseDescriptor(b).Got? && ParseDescriptor(b).clean
    ensures DescriptorFits(ParseDescriptor(b).value)
    ensures b == PutDescriptor(ParseDescriptor(b).value) + ParseDescriptor(b).rest
  {
    StrLaw();
    PairLaw();
    hide Law, AllFit, StrFits, PutStr, ParseStr, PutCounted, Counted;
    var r1 := ParseStr(b[1..]).rest;
    StrCanonical(b[1..]);
    CountedCanonical(PutStr, ParseStr, StrFits, r1);
    CountedCanonical(PutPair, ParsePair, PairFits, Counted(ParseStr, r1).rest);
    assert |Counted(ParseStr, r1).value| < TWO16 && |Counted(ParsePair, Counted(ParseStr, r1).rest).value| < TWO16;
    assert b == [b[0]] + b[1..];
  }

  lemma EntryRoundTrip(e: Entry, r: seq<Byte>)
    ensures EntryFits(e) ==> ParseEntry(PutEntry(e) + r) == Got(e, r, true)
    ensures ParseEntry(PutEntry(e) + r).Got? && ParseEntry(PutEntry(e) + r).value == e ==> EntryFits(e)
  {
    hide PutStr, ParseStr, PutDescriptor, ParseDescriptor, StrFits, DescriptorFits;
    assert PutEntry(e) + r == PutStr(e.id) + (PutDescriptor(e.desc) + r);
    StrRoundTrip(e.id, PutDescriptor(e.desc) + r);
    DescriptorRoundTrip(e.desc, r);
  }

  lemma EntryCanonical(b: seq<Byte>)
    requires ParseEntry(b).Got? && ParseEntry(b).clean
    ensures EntryFits(ParseEntry(b).value) && b == PutEntry(ParseEntry(b).value) + ParseEntry(b).rest
  {
    hide PutStr, ParseStr, PutDescriptor, ParseDescriptor, StrFits, DescriptorFits;
    StrCanonical(b);
    DescriptorCanonical(ParseStr(b).rest);
  }

  lemma EntryLaw()
    ensures Law(PutEntry, ParseEntry, EntryFits)
  {
    hide PutEntry, ParseEntry, EntryFits;
    forall e: Entry, r { EntryRoundTrip(e, r); }
    forall b | ParseEntry(b).Got? && ParseEntry(b).clean { EntryCanonical(b); }
  }

  // ── whole bodies ───────────────────────────────────────────────────────────

  /** A control body is exactly its fields. */
  function Exactly<T>(p: Parsed<T>): Result<T, Error> {
    if p.Fail? then Err(Truncated)
    else if p.rest != [] then Err(Trailing)
    else Ok(p.value)
  }

  function EncodeHello(d: Descriptor): seq<Byte> {
    PutDescriptor(d)
  }

  function DecodeHello(b: seq<Byte>): Result<Descriptor, Error> {
    Exactly(ParseDescriptor(b))
  }

  function EncodeProviders(es: seq<Entry>): seq<Byte> {
    PutCounted(PutEntry, es)
  }

  function DecodeProviders(b: seq<Byte>): Result<seq<Entry>, Error> {
    Exactly(Counted(ParseEntry, b))
  }

  function EncodePeer(id: Str): seq<Byte> {
    PutStr(id)
  }

  /** The brand a PROVIDERS_LIST asks for; trailing bytes are ignored and a body
      too short to hold a string asks for everything. */
  function DecodeBrandFilter(b: seq<Byte>): Str {
    if ParseStr(b).Got? then ParseStr(b).value else []
  }

  /** HELLO descriptors survive the wire exactly when every length fits 16 bits. */
  lemma {:induction false} HelloRoundTrip(d: Descriptor)
    ensures DecodeHello(EncodeHello(d)) == Ok(d) <==> DescriptorFits(d)
  {
    hide PutDescriptor, ParseDescriptor, DescriptorFits;
    DescriptorRoundTrip(d, []);
    assert PutDescriptor(d) + [] == PutDescriptor(d);
  }

  /** An accepted HELLO body is the wire form of what it means exactly when all its
      strings were valid UTF-8. */
  lemma {:induction false} HelloCanonical(b: seq<Byte>)
    requires DecodeHello(b).Ok?
    ensures EncodeHello(DecodeHello(b).value) == b <==> ParseDescriptor(b).clean
  {
    hide PutDescriptor, ParseDescriptor, DescriptorFits;
    var d := DecodeHello(b).value;
    DescriptorRoundTrip(d, []);
    assert PutDescriptor(d) + [] == PutDescriptor(d);
    if ParseDescriptor(b).clean {
      DescriptorCanonical(b);
    }
  }

  predicate ProvidersFit(es: seq<Entry>) {
    |es| < TWO16 && AllFit(EntryFits, es)
  }

  /** A PROVIDERS list survives the wire exactly when its count and every length in
      it fit 16 bits. */
  lemma {:induction false} ProvidersRoundTrip(es: seq<Entry>)
    ensures DecodeProviders(EncodeProviders(es)) == Ok(es) <==> ProvidersFit(es)
  {
    EntryLaw();
    hide Law, AllFit, PutCounted, Counted;
    CountedRoundTrip(PutEntry, ParseEntry, EntryFits, es, []);
    assert PutCounted(PutEntry, es) + [] == PutCounted(PutEntry, es);
  }

  lemma {:induction false} ProvidersCanonical(b: seq<Byte>)
    requires DecodeProviders(b).Ok?
    ensures EncodeProviders(DecodeProviders(b).value) == b <==> Counted(ParseEntry, b).clean
  {
    EntryLaw();
    hide Law, AllFit, PutCounted, Counted;
    var es := DecodeProviders(b).value;
    CountedRoundTrip(PutEntry, ParseEntry, EntryFits, es, []);
    assert PutCounted(PutEntry, es) + [] == PutCounted(PutEntry, es);
    if Counted(ParseEntry, b).clean {
      CountedCanonical(PutEntry, ParseEntry, EntryFits, b);
    }
  }

  lemma {:induction false} MalformedTriples(s: seq<Byte>)
    requires forall i | 0 <= i < |s| :: s[i] == 0xFF
    ensures |Lossy(s)| == 3 * |s|
  {
    if s != [] {
      MalformedTriples(s[1..]);
    }
  }

  /** A HELLO that gives a role and these bytes as its brand, and nothing else. */
  function BrandHello(role: Byte, brand: seq<Byte>): seq<Byte> {
    [role] + (Le16(|brand|) + (brand + (Le16(0) + Le16(0))))
  }

  lemma Slices(a: seq<Byte>, b: seq<Byte>, c: seq<Byte>)
    ensures var s := a + (b + c); s[..|a|] == a && s[|a|..|a| + |b|] == b && s[|a| + |b|..] == c
  {
  }

  lemma StrAt(b: seq<Byte>, raw: seq<Byte>, rest: seq<Byte>)
    requires |b| >= 2 + |raw| && From16(b[..2]) == |raw| && b[2..2 + |raw|] == raw && b[2 + |raw|..] == rest
    ensures ParseStr(b) == Got(Lossy(raw), rest, Valid(raw))
  {
    hide From16, Lossy, Valid;
  }

  lemma RawStrRead(raw: seq<Byte>, rest: seq<Byte>)
    requires |raw| < TWO16
    ensures ParseStr(Le16(|raw|) + (raw + rest)) == Got(Lossy(raw), rest, Valid(raw))
  {
    hide *;
    Le16Exact(|raw|);
    Slices(Le16(|raw|), raw, rest);
    StrAt(Le16(|raw|) + (raw + rest), raw, rest);
  }

  lemma NothingCounted<T>(parse: seq<Byte> -> Parsed<T>, rest: seq<Byte>)
    ensures Counted(parse, Le16(0) + rest) == Got([], rest, true)
  {
    Le16RoundTrip(0);
    hide Le16, From16;
    var b := Le16(0) + rest;
    assert b[..2] == Le16(0) && b[2..] == rest;
  }

  lemma TwoZeroCounts()
    ensures Counted(ParseStr, Le16(0) + Le16(0)) == Got([], Le16(0), true)
    ensures Counted(ParsePair, Le16(0)) == Got([], [], true)
  {
    hide *;
    NothingCounted(ParseStr, Le16(0));
    NothingCounted(ParsePair, []);
    assert Le16(0) + [] == Le16(0);
  }

  lemma Tail(x: Byte, xs: seq<Byte>)
    ensures ([x] + xs)[0] == x && ([x] + xs)[1..] == xs
  {
  }

  lemma DescriptorOf(b: seq<Byte>, brand: Str, clean: bool)
    requires |b| > 0 && ParseStr(b[1..]) == Got(brand, Le16(0) + Le16(0), clean)
    ensures ParseDescriptor(b) == Got(Descriptor(b[0], brand, [], []), [], clean)
  {
    TwoZeroCounts();
    hide Le16, ParseStr, ParsePair, Counted;
  }

  /** Whatever the bytes of the brand, the HELLO is accepted, with the brand they decode
      to; nothing in it was malformed exactly if they are valid UTF-8. */
  lemma BrandHelloAccepted(role: Byte, brand: seq<Byte>)
    requires |brand| < TWO16
    ensures DecodeHello(BrandHello(role, brand)) == Ok(Descriptor(role, Lossy(brand), [], []))
    ensures ParseDescriptor(BrandHello(role, brand)) == Got(Descriptor(role, Lossy(brand), [], []), [], Valid(brand))
  {
    RawStrRead(brand, Le16(0) + Le16(0));
    hide Le16, ParseStr, ParseDescriptor, Lossy, Valid;
    Tail(role, Le16(|brand|) + (brand + (Le16(0) + Le16(0))));
    DescriptorOf(BrandHello(role, brand), Lossy(brand), Valid(brand));
  }

  /** A HELLO the router accepts whose descriptor does not fit the wire again, exactly
      from 21846 malformed bytes on: with it in the list, no PROVIDERS reply decodes to
      what the router holds. */
  lemma {:induction false} MalformedBrandHidesRegistry(role: Byte, brand: seq<Byte>, es: seq<Entry>, i: nat)
    requires |brand| < TWO16 && forall j | 0 <= j < |brand| :: brand[j] == 0xFF
    ensures var d := Descriptor(role, Lossy(brand), [], []);
            && DecodeHello(BrandHello(role, brand)) == Ok(d)
            && (DescriptorFits(d) <==> |brand| < 0x5556)
            && (|brand| >= 0x5556 && i < |es| && es[i].desc == d ==> DecodeProviders(EncodeProviders(es)) != Ok(es))
  {
    BrandHelloAccepted(role, brand);
    MalformedTriples(brand);
    var d := Descriptor(role, Lossy(brand), [], []);
    assert DescriptorFits(d) <==> |brand| < 0x5556;
    hide DecodeProviders, EncodeProviders, DescriptorFits, DecodeHello;
    ProvidersRoundTrip(es);
  }

  // ── the loops ──────────────────────────────────────────────────────────────

  /** What a cursor method returns and leaves, next to the parser it follows. */
  ghost predicate Follows<T>(r: Result<T, Error>, rest: seq<Byte>, p: Parsed<T>) {
    if p.Fail? then r == Err(Truncated) else r == Ok(p.value) && rest == p.rest
  }

  /** A stretch of what is left is a stretch of the whole. */
  lemma WithinRest(whole: seq<Byte>, p: nat, m: nat, n: nat)
    requires p + m + n <= |whole|
    ensures whole[p..][m..m + n] == whole[p + m..p + m + n]
    ensures whole[p..][m + n..] == whole[p + m + n..]
  {
  }

  method TakeStr(c: Cursor) returns (r: Result<Str, Error>)
    requires c.Valid()
    modifies c
    ensures c.Valid()
    ensures Follows(r, c.Rest(), ParseStr(old(c.Rest())))
  {
    hide Lossy, Valid, From16;
    ghost var p := c.p;
    if p + 2 <= |c.b| {
      WithinRest(c.b, p, 0, 2);
    }
    var n :- c.Get16();
    if p + 2 + n as int <= |c.b| {
      WithinRest(c.b, p, 2, n);
    }
    r := c.String(n);
  }

  method TakePair(c: Cursor) returns (r: Result<(Str, Str), Error>)
    requires c.Valid()
    modifies c
    ensures c.Valid()
    ensures Follows(r, c.Rest(), ParsePair(old(c.Rest())))
  {
    hide ParseStr;
    var k :- TakeStr(c);
    var v :- TakeStr(c);
    return Ok((k, v));
  }

  /** The items already read, then whatever the rest gives. */
  ghost predicate Continues<T>(whole: Parsed<seq<T>>, out: seq<T>, tail: Parsed<seq<T>>) {
    if tail.Fail? then whole.Fail?
    else whole.Got? && whole.value == out + tail.value && whole.rest == tail.rest
  }

  lemma ManyStarts<T>(parse: seq<Byte> -> Parsed<T>, n: nat, b: seq<Byte>)
    ensures Continues(Many(parse, n, b), [], Many(parse, n, b))
  {
    var w := Many(parse, n, b);
    if w.Got? {
      assert [] + w.value == w.value;
    }
  }

  /** One more item read: it fails the whole, or joins the items already out. */
  lemma ManyMoves<T>(parse: seq<Byte> -> Parsed<T>, whole: Parsed<seq<T>>, out: seq<T>, n: nat, b: seq<Byte>)
    requires n > 0 && Continues(whole, out, Many(parse, n, b))
    ensures match parse(b)
            case Fail => whole.Fail?
            case Got(x, r, _) => Continues(whole, out + [x], Many(parse, n - 1, r))
  {
    if parse(b).Got? && Many(parse, n - 1, parse(b).rest).Got? {
      var xs := Many(parse, n - 1, parse(b).rest).value;
      assert out + ([parse(b).value] + xs) == out + [parse(b).value] + xs;
    }
  }

  lemma ManyEnds<T>(parse: seq<Byte> -> Parsed<T>, whole: Parsed<seq<T>>, out: seq<T>, b: seq<Byte>)
    requires Continues(whole, out, Many(parse, 0, b))
    ensures whole.Got? && whole.value == out && whole.rest == b
  {
  }

  method TakeCaps(c: Cursor) returns (r: Result<seq<Str>, Error>)
    requires c.Valid()
    modifies c
    ensures c.Valid()
    ensures Follows(r, c.Rest(), Counted(ParseStr, old(c.Rest())))
  {
    hide ParseStr, ParsePair, From16, Many, Continues;
    ghost var b := c.Rest();
    assert |b| >= 2 ==> c.b[c.p..c.p + 2] == b[..2];
    var n :- c.Get16();
    assert c.Rest() == b[2..];
    ghost var whole := Many(ParseStr, n, b[2..]);
    assert Counted(ParseStr, b) == whole;
    hide Counted;
    ManyStarts(ParseStr, n, b[2..]);
    var out: seq<Str> := [];
    for i := 0 to n
      invariant c.Valid() && Continues(whole, out, Many(ParseStr, n - i, c.Rest()))
    {
      ManyMoves(ParseStr, whole, out, n - i, c.Rest());
      var s :- TakeStr(c);
      out := out + [s];
    }
    ManyEnds(ParseStr, whole, out, c.Rest());
    return Ok(out);
  }

  method TakeAttrs(c: Cursor) returns (r: Result<seq<(Str, Str)>, Error>)
    requires c.Valid()
    modifies c
    ensures c.Valid()
    ensures Follows(r, c.Rest(), Counted(ParsePair, old(c.Rest())))
  {
    hide ParseStr, ParsePair, From16, Many, Continues;
    ghost var b := c.Rest();
    assert |b| >= 2 ==> c.b[c.p..c.p + 2] == b[..2];
    var n :- c.Get16();
    assert c.Rest() == b[2..];
    ghost var whole := Many(ParsePair, n, b[2..]);
    assert Counted(ParsePair, b) == whole;
    hide Counted;
    ManyStarts(ParsePair, n, b[2..]);
    var out: seq<(Str, Str)> := [];
    for i := 0 to n
      invariant c.Valid() && Continues(whole, out, Many(ParsePair, n - i, c.Rest()))
    {
      ManyMoves(ParsePair, whole, out, n - i, c.Rest());
      var kv :- TakePair(c);
      out := out + [kv];
    }
    ManyEnds(ParsePair, whole, out, c.Rest());
    return Ok(out);
  }

  /** `Descriptor::take`. */
  method TakeDescriptor(c: Cursor) returns (r: Result<Descriptor, Error>)
    requires c.Valid()
    modifies c
    ensures c.Valid()
    ensures Follows(r, c.Rest(), ParseDescriptor(old(c.Rest())))
  {
    hide ParseStr, Counted;
    ghost var b := c.Rest();
    var role :- c.U8();
    assert c.Rest() == b[1..];
    var brand :- TakeStr(c);
    var caps :- TakeCaps(c);
    var attrs :- TakeAttrs(c);
    return Ok(Descriptor(role, brand, caps, attrs));
  }

  /** `decode_hello`. */
  method ReadHello(payload: seq<Byte>) returns (r: Result<Descriptor, Error>)
    ensures r == DecodeHello(payload)
  {
    hide ParseDescriptor;
    var c := new Cursor(payload);
    assert c.Rest() == payload;
    var d :- TakeDescriptor(c);
    var _ :- c.End();
    return Ok(d);
  }

  /** `decode_providers`. */
  method ReadProviders(payload: seq<Byte>) returns (r: Result<seq<Entry>, Error>)
    ensures r == DecodeProviders(payload)
  {
    hide ParseStr, ParseDescriptor, From16, Many, Continues;
    var c := new Cursor(payload);
    assert c.Rest() == payload;
    assert |payload| >= 2 ==> c.b[0..2] == payload[..2];
    var n :- c.Get16();
    assert c.Rest() == payload[2..];
    ghost var whole := Many(ParseEntry, n, payload[2..]);
    ManyStarts(ParseEntry, n, payload[2..]);
    var out: seq<Entry> := [];
    for i := 0 to n
      invariant c.Valid() && Continues(whole, out, Many(ParseEntry, n - i, c.Rest()))
    {
      ManyMoves(ParseEntry, whole, out, n - i, c.Rest());
      var id :- TakeStr(c);
      var d :- TakeDescriptor(c);
      out := out + [Entry(id, d)];
    }
    ManyEnds(ParseEntry, whole, out, c.Rest());
    hide ParseEntry;
    var _ :- c.End();
    return Ok(out);
  }

  method AppendCaps(b: seq<Byte>, caps: seq<Str>) returns (r: seq<Byte>)
    ensures r == b + PutCounted(PutStr, caps)
  {
    hide Le16, PutStr;
    r := b + Le16(|caps|);
    ghost var s := b + PutCounted(PutStr, caps);
    assert s == r + PutAll(PutStr, caps) && caps[0..] == caps;
    for i := 0 to |caps|
      invariant r + PutAll(PutStr, caps[i..]) == s
    {
      assert caps[i..][1..] == caps[i + 1..];
      r := r + PutStr(caps[i]);
    }
  }

  method AppendAttrs(b: seq<Byte>, attrs: seq<(Str, Str)>) returns (r: seq<Byte>)
    ensures r == b + PutCounted(PutPair, attrs)
  {
    hide Le16, PutStr;
    r := b + Le16(|attrs|);
    ghost var s := b + PutCounted(PutPair, attrs);
    assert s == r + PutAll(PutPair, attrs) && attrs[0..] == attrs;
    for i := 0 to |attrs|
      invariant r + PutAll(PutPair, attrs[i..]) == s
    {
      assert attrs[i..][1..] == attrs[i + 1..];
      ghost var before := r;
      r := r + PutStr(attrs[i].0);
      r := r + PutStr(attrs[i].1);
      assert r == before + PutPair(attrs[i]);
    }
  }

  /** `Descriptor::put`, appending to a buffer. */
  method AppendDescriptor(b: seq<Byte>, d: Descriptor) returns (r: seq<Byte>)
    ensures r == b + PutDescriptor(d)
  {
    hide PutStr, PutCounted;
    r := b + [d.role];
    r := r + PutStr(d.brand);
    r := AppendCaps(r, d.caps);
    r := AppendAttrs(r, d.attrs);
  }

  /** `encode_providers`. */
  method WriteProviders(es: seq<Entry>) returns (b: seq<Byte>)
    ensures b == EncodeProviders(es)
  {
    hide Le16, PutStr, PutDescriptor;
    b := Le16(|es|);
    ghost var s := b + PutAll(PutEntry, es);
    for i := 0 to |es|
      invariant b + PutAll(PutEntry, es[i..]) == s
    {
      assert es[i..][1..] == es[i + 1..];
      b := b + PutStr(es[i].id);
      b := AppendDescriptor(b, es[i].desc);
    }
  }
}
