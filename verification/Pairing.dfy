/** The pairing code: `ws://127.0.0.1:<port>/#<key in hex>`. */
module Pairing {
  import opened Wrappers
  import opened Bytes

  type Key = k: seq<Byte> | |k| == 32 witness seq(32, i => 0)

  datatype Pairing = Pairing(port: U16, key: Key)

  const SCHEME: string := "ws://127.0.0.1:"
  const HASH: string := "/#"

  // ── hex ────────────────────────────────────────────────────────────────────

  function HexDigit(n: nat): (c: char)
    requires n < 16
    ensures IsHexDigit(c)
  {
    if n < 10 then ('0' as int + n) as char else ('a' as int + n - 10) as char
  }

  /** Lowercase only. */
  predicate IsHexDigit(c: char) {
    '0' <= c <= '9' || 'a' <= c <= 'f'
  }

  function HexValue(c: char): (n: nat)
    requires IsHexDigit(c)
    ensures n < 16 && HexDigit(n) == c
  {
    if c <= '9' then c as int - '0' as int else c as int - 'a' as int + 10
  }

  lemma DigitValueOf(n: nat)
    requires n < 16
    ensures HexValue(HexDigit(n)) == n
  {
  }

  function Hex(b: seq<Byte>): (s: string)
    ensures |s| == 2 * |b| && forall i | 0 <= i < |s| :: IsHexDigit(s[i])
  {
    if b == [] then "" else [HexDigit(b[0] / 16), HexDigit(b[0] % 16)] + Hex(b[1..])
  }

  predicate AllHex(s: string) {
    forall i | 0 <= i < |s| :: IsHexDigit(s[i])
  }

  /** The bytes that pairs of hex digits stand for. */
  function FromHex(s: string): (b: seq<Byte>)
    requires |s| % 2 == 0 && AllHex(s)
    ensures |b| == |s| / 2
  {
    if s == "" then [] else [16 * HexValue(s[0]) + HexValue(s[1])] + FromHex(s[2..])
  }

  lemma {:induction false} FromHexAt(s: string, i: nat)
    requires |s| % 2 == 0 && AllHex(s) && 2 * i < |s|
    ensures FromHex(s)[i] == 16 * HexValue(s[2 * i]) + HexValue(s[2 * i + 1])
  {
    if i > 0 {
      FromHexAt(s[2..], i - 1);
    }
  }

  function Unhex(s: string): Option<Key> {
    if |s| != 64 || !AllHex(s) then None else Some(FromHex(s))
  }

  /** `unhex`: fills a 32-byte array pair by pair. */
  method UnhexArray(s: string) returns (k: Option<array<Byte>>)
    ensures k.None? <==> Unhex(s).None?
    ensures k.Some? ==> k.value[..] == Unhex(s).value
  {
    if |s| != 64 || !AllHex(s) {
      return None;
    }
    var a := new Byte[32](i => 0);
    for i := 0 to 32
      invariant forall j | 0 <= j < i :: a[j] == FromHex(s)[j]
    {
      FromHexAt(s, i);
      a[i] := 16 * HexValue(s[2 * i]) + HexValue(s[2 * i + 1]);
    }
    return Some(a);
  }

  lemma {:induction false} UnhexHexAll(b: seq<Byte>)
    ensures FromHex(Hex(b)) == b
  {
    if b != [] {
      UnhexHexAll(b[1..]);
      DigitValueOf(b[0] / 16);
      DigitValueOf(b[0] % 16);
      hide HexDigit, HexValue, IsHexDigit;
      var s := Hex(b);
      assert s[0] == HexDigit(b[0] / 16) && s[1] == HexDigit(b[0] % 16) && s[2..] == Hex(b[1..]);
      assert 16 * (b[0] / 16) + b[0] % 16 == b[0];
    }
  }

  lemma {:induction false} HexUnhexAll(s: string)
    requires |s| % 2 == 0 && AllHex(s)
    ensures Hex(FromHex(s)) == s
  {
    if s != "" {
      HexUnhexAll(s[2..]);
      var h, l := HexValue(s[0]), HexValue(s[1]);
      var b := FromHex(s);
      assert b[0] == 16 * h + l && b[1..] == FromHex(s[2..]);
      hide FromHex, HexValue, IsHexDigit, HexDigit;
      assert b[0] / 16 == h && b[0] % 16 == l;
      assert Hex(b) == [HexDigit(h), HexDigit(l)] + s[2..];
      assert s == [s[0], s[1]] + s[2..];
    }
  }

  /** `hex` and `unhex` are inverse between 32-byte keys and 64 lowercase hex digits,
      and `unhex` takes nothing else. */
  lemma HexRoundTrip(k: Key, s: string)
    ensures Unhex(Hex(k)) == Some(k)
    ensures Unhex(s) == Some(k) <==> s == Hex(k)
  {
    UnhexHexAll(k);
    if Unhex(s).Some? {
      HexUnhexAll(s);
    }
  }

  // ── decimal ────────────────────────────────────────────────────────────────

  predicate IsDigit(c: char) {
    '0' <= c <= '9'
  }

  predicate AllDigits(s: string) {
    forall i | 0 <= i < |s| :: IsDigit(s[i])
  }

  function DigitValue(c: char): nat
    requires IsDigit(c)
  {
    c as int - '0' as int
  }

  function Value(s: string): nat
    requires AllDigits(s)
  {
    if s == "" then 0 else 10 * Value(s[..|s| - 1]) + DigitValue(s[|s| - 1])
  }

  /** `format!("{}", n)` */
  function Decimal(n: nat): (s: string)
    ensures s != "" && AllDigits(s)
  {
    var d := ('0' as int + n % 10) as char;
    if n < 10 then [d] else Decimal(n / 10) + [d]
  }

  /** `u16::from_str`: an optional `+`, digits, no overflow; leading zeros are fine. */
  function ParseU16(s: string): Option<U16> {
    var digits := if |s| > 1 && s[0] == '+' then s[1..] else s;
    if digits != "" && AllDigits(digits) && Value(digits) < TWO16 then Some(Value(digits)) else None
  }

  /** The one way `format!` writes a number. */
  predicate Canonical(s: string) {
    s != "" && AllDigits(s) && (s[0] == '0' ==> |s| == 1)
  }

  lemma {:induction false} ValueOfDecimal(n: nat)
    ensures Value(Decimal(n)) == n && Canonical(Decimal(n)) && (n > 0 ==> Decimal(n)[0] != '0')
  {
    if n >= 10 {
      ValueOfDecimal(n / 10);
      var s := Decimal(n);
      assert s[..|s| - 1] == Decimal(n / 10);
      assert s[0] == Decimal(n / 10)[0];
    }
  }

  lemma {:induction false} DecimalOfValue(s: string)
    requires Canonical(s)
    ensures Decimal(Value(s)) == s && (s[0] != '0' ==> Value(s) > 0)
  {
    var init, d := s[..|s| - 1], s[|s| - 1];
    if |s| > 1 {
      assert init[0] == s[0];
      DecimalOfValue(init);
      assert Value(s) / 10 == Value(init) && Value(s) % 10 == DigitValue(d);
      assert s == init + [d];
    } else {
      assert init == "" && s == [d];
    }
  }

  lemma DecimalParses(n: U16)
    ensures ParseU16(Decimal(n)) == Some(n)
  {
    ValueOfDecimal(n);
    assert IsDigit(Decimal(n)[0]);
  }

  /** A parsed number prints as it was written exactly when it was written so. */
  lemma ParsePrints(s: string)
    requires ParseU16(s).Some?
    ensures Decimal(ParseU16(s).value) == s <==> Canonical(s)
  {
    if Canonical(s) {
      assert IsDigit(s[0]);
      DecimalOfValue(s);
    } else {
      ValueOfDecimal(ParseU16(s).value);
    }
  }

  // ── the code ───────────────────────────────────────────────────────────────

  /** `char::is_whitespace`: Unicode White_Space. */
  predicate IsSpace(c: char) {
    var n := c as int;
    0x09 <= n <= 0x0D || n == 0x20 || n == 0x85 || n == 0xA0 || n == 0x1680 || 0x2000 <= n <= 0x200A
    || n == 0x2028 || n == 0x2029 || n == 0x202F || n == 0x205F || n == 0x3000
  }

  predicate AllSpace(s: string) {
    forall i | 0 <= i < |s| :: IsSpace(s[i])
  }

  function TrimStart(s: string): string {
    if s != "" && IsSpace(s[0]) then TrimStart(s[1..]) else s
  }

  function TrimEnd(s: string): string {
    if s != "" && IsSpace(s[|s| - 1]) then TrimEnd(s[..|s| - 1]) else s
  }

  function Trim(s: string): string {
    TrimEnd(TrimStart(s))
  }

  function StripPrefix(s: string, p: string): Option<string> {
    if p <= s then Some(s[|p|..]) else None
  }

  /** What stands before and after the first "/#". */
  function SplitHash(s: string): Option<(string, string)> {
    if |s| < 2 then None
    else if s[..2] == HASH then Some(("", s[2..]))
    else match SplitHash(s[1..])
      case None => None
      case Some((a, b)) => Some(([s[0]] + a, b))
  }

  function Code(p: Pairing): string {
    SCHEME + (Decimal(p.port) + (HASH + Hex(p.key)))
  }

  /** The port as written in a code, if it is shaped like one. */
  function Parts(code: string): Option<(string, string)> {
    match StripPrefix(Trim(code), SCHEME)
    case None => None
    case Some(rest) => SplitHash(rest)
  }

  function Parse(code: string): Option<Pairing> {
    match Parts(code)
    case None => None
    case Some((port, key)) =>
      match (ParseU16(port), Unhex(key))
      case (Some(n), Some(k)) => if n == 0 then None else Some(Pairing(n, k))
      case _ => None
  }

  lemma {:induction false} TrimStartDrops(ws: string, s: string)
    requires AllSpace(ws) && s != "" && !IsSpace(s[0])
    ensures TrimStart(ws + s) == s
  {
    if ws == "" {
      assert ws + s == s;
    } else {
      assert (ws + s)[1..] == ws[1..] + s;
      TrimStartDrops(ws[1..], s);
    }
  }

  lemma {:induction false} TrimEndDrops(s: string, ws: string)
    requires AllSpace(ws) && s != "" && !IsSpace(s[|s| - 1])
    ensures TrimEnd(s + ws) == s
  {
    if ws == "" {
      assert s + ws == s;
    } else {
      assert (s + ws)[..|s + ws| - 1] == s + ws[..|ws| - 1];
      TrimEndDrops(s, ws[..|ws| - 1]);
    }
  }

  lemma TrimDrops(before: string, s: string, after: string)
    requires AllSpace(before) && AllSpace(after) && s != "" && !IsSpace(s[0]) && !IsSpace(s[|s| - 1])
    ensures Trim(before + s + after) == s
  {
    assert before + s + after == before + (s + after);
    TrimStartDrops(before, s + after);
    TrimEndDrops(s, after);
  }

  lemma {:induction false} SplitAtHash(a: string, b: string)
    requires AllDigits(a)
    ensures SplitHash(a + (HASH + b)) == Some((a, b))
  {
    var s := a + (HASH + b);
    if a == "" {
      assert s == HASH + b;
    } else {
      assert IsDigit(a[0]) && s[0] == a[0] != '/';
      assert s[..2][0] == s[0];
      assert s[1..] == a[1..] + (HASH + b);
      SplitAtHash(a[1..], b);
      assert a == [a[0]] + a[1..];
    }
  }

  /** A code's own two parts. */
  lemma PartsOfCode(p: Pairing, before: string, after: string)
    requires AllSpace(before) && AllSpace(after)
    ensures Parts(before + Code(p) + after) == Some((Decimal(p.port), Hex(p.key)))
  {
    hide Decimal, Hex, Value;
    var c := Code(p);
    var tail := Decimal(p.port) + (HASH + Hex(p.key));
    assert c[0] == 'w' && c[|c| - 1] == Hex(p.key)[63];
    TrimDrops(before, c, after);
    assert c[|SCHEME|..] == tail;
    SplitAtHash(Decimal(p.port), Hex(p.key));
  }

  /** Parsing a printed code, with any whitespace around it, gives back the pairing,
      exactly when its port is not zero. */
  lemma CodeRoundTrip(p: Pairing, before: string, after: string)
    requires AllSpace(before) && AllSpace(after)
    ensures Parse(before + Code(p) + after) == if p.port != 0 then Some(p) else None
  {
    PartsOfCode(p, before, after);
    DecimalParses(p.port);
    HexRoundTrip(p.key, "");
    hide Parts, Code, ParseU16, Unhex, AllSpace;
  }

  lemma {:induction false} SplitJoins(s: string)
    requires SplitHash(s).Some?
    ensures s == SplitHash(s).value.0 + (HASH + SplitHash(s).value.1)
  {
    if s[..2] == HASH {
      assert s == HASH + s[2..];
    } else {
      SplitJoins(s[1..]);
      var (a, b) := SplitHash(s[1..]).value;
      hide SplitHash;
      assert s == [s[0]] + (a + (HASH + b)) == [s[0]] + a + (HASH + b);
    }
  }

  /** The other way round: a code that parses is the code its pairing prints, whitespace
      apart, exactly when its port is written canonically: `+21000` and `021000` parse
      too. */
  lemma ParsedCodePrints(code: string)
    requires Parse(code).Some?
    ensures Code(Parse(code).value) == Trim(code) <==> Canonical(Parts(code).value.0)
  {
    var p := Parse(code).value;
    var (port, key) := Parts(code).value;
    var rest := Trim(code)[|SCHEME|..];
    assert Trim(code) == SCHEME + rest;
    SplitJoins(rest);
    HexRoundTrip(p.key, key);
    ParsePrints(port);
    hide Trim, Parts, Parse, ParseU16, Unhex, Canonical, Decimal, Hex;
    var tail := HASH + key;
    if Code(p) == Trim(code) {
      SamePrefix(Decimal(p.port), port, tail);
    }
  }

  lemma SamePrefix(a: string, b: string, tail: string)
    requires SCHEME + (a + tail) == SCHEME + (b + tail)
    ensures a == b
  {
    assert (SCHEME + (a + tail))[|SCHEME|..] == a + tail;
    assert (SCHEME + (b + tail))[|SCHEME|..] == b + tail;
    assert (a + tail)[..|a|] == a && (b + tail)[..|b|] == b;
  }
}
