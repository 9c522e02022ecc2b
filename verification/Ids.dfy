/** Node ids: `<kind>/<host>/<name>`. */
module Ids {
  import opened Wrappers
  import opened Bytes
  import opened Utf8

  const SLASH: Byte := 0x2F
  const DASH: Byte := 0x2D

  /** `str::split` on one ASCII byte. */
  function Split(s: seq<Byte>, sep: Byte): (parts: seq<seq<Byte>>)
    ensures parts != []
  {
    if s == [] then
      [[]]
    else
      var rest := Split(s[1..], sep);
      if s[0] == sep then [[]] + rest else [[s[0]] + rest[0]] + rest[1..]
  }

  const KINDS: seq<string> := ["agent", "browser", "cli", "desktop", "dev", "engine", "gpu", "host", "ide", "mcp",
    "router", "sandbox"]

  lemma KindLetters()
    ensures forall i | 0 <= i < |KINDS| ::
              3 <= |KINDS[i]| <= 7 && forall j | 0 <= j < |KINDS[i]| :: 'a' <= KINDS[i][j] <= 'z'
  {
  }

  /** One of `KINDS`, as bytes. */
  predicate IsKind(k: seq<Byte>) {
    KindLetters();
    exists i | 0 <= i < |KINDS| :: k == Ascii(KINDS[i])
  }

  const BROWSER: seq<Byte> := Ascii("browser")
  const ZAPD: Str := (AsciiValid(Ascii("zapd")); Ascii("zapd"))

  predicate Lower(c: nat) {
    0x61 <= c <= 0x7A
  }

  predicate Digit(c: nat) {
    0x30 <= c <= 0x39
  }

  /** `[a-z0-9-]` */
  predicate LabelChar(c: nat) {
    Lower(c) || Digit(c) || c == DASH
  }

  /** One character of a hostname (a Unicode scalar value) as it appears in a label. */
  function Fold(c: nat): (b: Byte)
    ensures LabelChar(b) && (LabelChar(c) ==> b == c)
  {
    var l := if 0x41 <= c <= 0x5A then c + 0x20 else c;
    if LabelChar(l) then l else DASH
  }

  /** The characters before the first '.'. */
  function First(hostname: seq<nat>): (r: seq<nat>)
    ensures |r| <= |hostname| && r == hostname[..|r|]
    ensures |r| < |hostname| ==> hostname[|r|] == 0x2E
    ensures 0x2E !in r
  {
    if hostname == [] || hostname[0] == 0x2E then [] else [hostname[0]] + First(hostname[1..])
  }

  function FoldAll(s: seq<nat>): (r: seq<Byte>)
    ensures |r| == |s| && forall i | 0 <= i < |s| :: r[i] == Fold(s[i])
  {
    if s == [] then [] else [Fold(s[0])] + FoldAll(s[1..])
  }

  const LOCAL: seq<Byte> := Ascii("local")

  /** A host label, from a hostname given as its characters. */
  function Label(hostname: seq<nat>): seq<Byte> {
    var first := First(hostname);
    var l := FoldAll(if |first| > 16 then first[..16] else first);
    if l == [] then LOCAL else l
  }

  /** What `label` promises: `[a-z0-9-]{1,16}`. */
  predicate IsLabel(h: seq<Byte>) {
    1 <= |h| <= 16 && forall i | 0 <= i < |h| :: LabelChar(h[i])
  }

  type Host = h: seq<Byte> | IsLabel(h) witness LOCAL

  predicate NameOk(n: seq<Byte>) {
    1 <= |n| <= 16 && (Lower(n[0]) || Digit(n[0])) && forall i | 0 <= i < |n| :: LabelChar(n[i])
  }

  /** `format!("{kind}/{host}/{name}")` */
  function Id(kind: seq<Byte>, host: seq<Byte>, name: seq<Byte>): seq<Byte> {
    kind + ([SLASH] + (host + ([SLASH] + name)))
  }

  /** `stamp`: the id a proposal registers as, or nothing if it does not name a kind
      and a well-formed name. */
  function Stamp(proposed: seq<Byte>, host: Host): Option<Str> {
    var parts := Split(proposed, SLASH);
    if |parts| == 2 || |parts| == 3 then
      var kind, name := parts[0], parts[|parts| - 1];
      if IsKind(kind) && NameOk(name) then
        IdValid(kind, host, name);
        Some(Id(kind, host, name))
      else
        None
    else
      None
  }

  function Kind(id: seq<Byte>): seq<Byte> {
    Split(id, SLASH)[0]
  }

  // ── labels ─────────────────────────────────────────────────────────────────

  lemma LabelIsLabel(hostname: seq<nat>)
    ensures IsLabel(Label(hostname))
  {
  }

  lemma {:induction false} FirstOfLabel(h: seq<Byte>)
    requires forall i | 0 <= i < |h| :: LabelChar(h[i])
    ensures First(h) == h && FoldAll(h) == h
  {
    if h != [] {
      assert LabelChar(h[0]);
      FirstOfLabel(h[1..]);
    }
  }

  /** Labelling a label changes nothing. */
  lemma LabelIdempotent(hostname: seq<nat>)
    ensures Label(Label(hostname)) == Label(hostname)
  {
    LabelIsLabel(hostname);
    FirstOfLabel(Label(hostname));
  }

  // ── ids ────────────────────────────────────────────────────────────────────

  lemma {:induction false} SplitOne(s: seq<Byte>, sep: Byte)
    requires sep !in s
    ensures Split(s, sep) == [s]
  {
    if s != [] {
      assert s[0] in s && forall b <- s[1..] :: b in s;
      SplitOne(s[1..], sep);
      assert [s[0]] + s[1..] == s;
    }
  }

  lemma {:induction false} SplitFirst(a: seq<Byte>, b: seq<Byte>, sep: Byte)
    requires sep !in a
    ensures Split(a + ([sep] + b), sep) == [a] + Split(b, sep)
  {
    var s := a + ([sep] + b);
    if a == [] {
      assert s == [sep] + b && s[1..] == b;
    } else {
      assert a[0] in a && forall x <- a[1..] :: x in a;
      SplitFirst(a[1..], b, sep);
      assert s[1..] == a[1..] + ([sep] + b);
      assert [a[0]] + a[1..] == a;
    }
  }

  lemma KindFacts(kind: seq<Byte>)
    requires IsKind(kind)
    ensures SLASH !in kind && 3 <= |kind| <= 7 && IsAscii(kind)
  {
    KindLetters();
    var i :| 0 <= i < |KINDS| && kind == Ascii(KINDS[i]);
    assert forall j | 0 <= j < |kind| :: kind[j] == KINDS[i][j] as int;
  }

  lemma AsciiConcat(a: seq<Byte>, b: seq<Byte>)
    requires IsAscii(a) && IsAscii(b)
    ensures IsAscii(a + b)
  {
  }

  lemma NoSlash(s: seq<Byte>)
    requires forall i | 0 <= i < |s| :: LabelChar(s[i])
    ensures SLASH !in s && IsAscii(s)
  {
  }

  /** An id falls apart into exactly the three parts it was made of. */
  lemma SplitId(kind: seq<Byte>, host: seq<Byte>, name: seq<Byte>)
    requires SLASH !in kind && SLASH !in host && SLASH !in name
    ensures Split(Id(kind, host, name), SLASH) == [kind, host, name]
  {
    SplitFirst(kind, host + ([SLASH] + name), SLASH);
    SplitFirst(host, name, SLASH);
    SplitOne(name, SLASH);
  }

  /** The ids a router on `host` gives out. */
  ghost predicate IsId(id: seq<Byte>, host: seq<Byte>) {
    exists kind, name | IsKind(kind) && NameOk(name) :: id == Id(kind, host, name)
  }

  /** What stamping gives is an id of this host: three parts, the proposer's kind and
      name, and a second stamp by the same host leaves it alone. */
  lemma {:induction false} Stamped(proposed: seq<Byte>, host: Host)
    requires Stamp(proposed, host).Some?
    ensures var id := Stamp(proposed, host).value;
            var parts := Split(proposed, SLASH);
            && Split(id, SLASH) == [parts[0], host, parts[|parts| - 1]]
            && Kind(id) == Kind(proposed)
            && Stamp(id, host) == Some(id)
            && IsId(id, host)
  {
    hide IsKind, Ascii, IsAscii, Valid, Split;
    var parts := Split(proposed, SLASH);
    var kind, name := parts[0], parts[|parts| - 1];
    KindFacts(kind);
    NoSlash(name);
    NoSlash(host);
    SplitId(kind, host, name);
  }

  lemma IdAscii(kind: seq<Byte>, host: seq<Byte>, name: seq<Byte>)
    requires IsAscii(kind) && IsAscii(host) && IsAscii(name)
    ensures IsAscii(Id(kind, host, name))
  {
    AsciiConcat([SLASH], name);
    AsciiConcat(host, [SLASH] + name);
    AsciiConcat([SLASH], host + ([SLASH] + name));
    AsciiConcat(kind, [SLASH] + (host + ([SLASH] + name)));
  }

  lemma LocalName()
    ensures |ZAPD| == 4
  {
  }

  lemma IdValid(kind: seq<Byte>, host: Host, name: seq<Byte>)
    requires IsKind(kind) && NameOk(name)
    ensures Valid(Id(kind, host, name))
  {
    hide IsKind, Ascii, IsAscii, Valid;
    KindFacts(kind);
    NoSlash(name);
    NoSlash(host);
    IdAscii(kind, host, name);
    AsciiValid(Id(kind, host, name));
  }

  /** An id is short, ASCII, a valid string, not empty, and not the router's own name. */
  lemma {:induction false} IdFacts(id: seq<Byte>, host: Host)
    requires IsId(id, host)
    ensures 6 <= |id| <= 41 && IsAscii(id) && Valid(id) && id != [] && id != ZAPD
  {
    hide IsKind, Ascii, IsAscii, Valid;
    var kind, name :| IsKind(kind) && NameOk(name) && id == Id(kind, host, name);
    KindFacts(kind);
    NoSlash(name);
    NoSlash(host);
    LocalName();
    IdAscii(kind, host, name);
    IdValid(kind, host, name);
  }

  /** Two proposals register under one id exactly when they name the same kind and name. */
  lemma {:induction false} StampInjective(p: seq<Byte>, q: seq<Byte>, host: Host)
    requires Stamp(p, host).Some? && Stamp(q, host).Some?
    ensures Stamp(p, host) == Stamp(q, host) <==>
            Split(p, SLASH)[0] == Split(q, SLASH)[0]
              && Split(p, SLASH)[|Split(p, SLASH)| - 1] == Split(q, SLASH)[|Split(q, SLASH)| - 1]
  {
    hide Split, IsKind, NameOk, IsLabel, IsId;
    Stamped(p, host);
    Stamped(q, host);
    var x, y := Split(Stamp(p, host).value, SLASH), Split(Stamp(q, host).value, SLASH);
    assert x[0] == Split(p, SLASH)[0] && y[0] == Split(q, SLASH)[0];
    assert x[2] == Split(p, SLASH)[|Split(p, SLASH)| - 1] && y[2] == Split(q, SLASH)[|Split(q, SLASH)| - 1];
  }

  /** Another router's stamp on an id replaces the host and nothing else. */
  lemma {:induction false} Restamped(proposed: seq<Byte>, host: Host, other: Host)
    requires Stamp(proposed, host).Some?
    ensures var id := Stamp(proposed, host).value;
            Stamp(id, other).Some? && Split(Stamp(id, other).value, SLASH) == Split(id, SLASH)[1 := other]
  {
    hide Split, IsKind, NameOk, IsLabel, IsId;
    Stamped(proposed, host);
    Stamped(Stamp(proposed, host).value, other);
  }
}
