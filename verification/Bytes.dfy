/** Bytes and the little-endian integers of the wire. */
module Bytes {
  type Byte = x: int | 0 <= x < 0x100
  type U16 = x: int | 0 <= x < 0x1_0000

  const TWO16: nat := 0x1_0000
  const TWO32: nat := 0x1_0000_0000

  /** The low `k` bytes of `n`, lowest first: wider values lose their high bits. */
  function Le(n: nat, k: nat): (b: seq<Byte>)
    ensures |b| == k
  {
    if k == 0 then [] else [n % 0x100] + Le(n / 0x100, k - 1)
  }

  function From(b: seq<Byte>): nat {
    if b == [] then 0 else b[0] + 0x100 * From(b[1..])
  }

  /** `(n as u16).to_le_bytes()` */
  function Le16(n: nat): (b: seq<Byte>)
    ensures |b| == 2
  {
    Le(n, 2)
  }

  /** `(n as u32).to_le_bytes()` */
  function Le32(n: nat): (b: seq<Byte>)
    ensures |b| == 4
  {
    Le(n, 4)
  }

  function From16(b: seq<Byte>): (n: U16)
    requires |b| == 2
  {
    FromBound(b);
    From(b)
  }

  function From32(b: seq<Byte>): (n: nat)
    requires |b| == 4
    ensures n < TWO32
  {
    FromBound(b);
    From(b)
  }

  function Range(k: nat): (r: nat)
    ensures r > 0
  {
    if k == 0 then 1 else 0x100 * Range(k - 1)
  }

  lemma Ranges()
    ensures Range(2) == TWO16 && Range(4) == TWO32
  {
    assert Range(1) == 0x100 && Range(2) == 0x100 * Range(1);
    assert Range(3) == 0x100 * Range(2) && Range(4) == 0x100 * Range(3);
  }

  lemma {:induction false} BelowRange(b: seq<Byte>)
    ensures From(b) < Range(|b|)
  {
    if b != [] {
      BelowRange(b[1..]);
    }
  }

  lemma FromBound(b: seq<Byte>)
    ensures |b| == 2 ==> From(b) < TWO16
    ensures |b| == 4 ==> From(b) < TWO32
  {
    BelowRange(b);
    Ranges();
  }

  /** Reading back what was written: what is left of a number in `k` bytes. */
  lemma {:induction false} FromLe(n: nat, k: nat)
    ensures From(Le(n, k)) <= n && (From(Le(n, k)) == n <==> n < Range(k))
  {
    if k > 0 {
      FromLe(n / 0x100, k - 1);
      assert Le(n, k)[1..] == Le(n / 0x100, k - 1);
      assert n == n % 0x100 + 0x100 * (n / 0x100);
    }
  }

  lemma {:induction false} LeFrom(b: seq<Byte>)
    ensures Le(From(b), |b|) == b
  {
    if b != [] {
      LeFrom(b[1..]);
      var n := From(b);
      assert n % 0x100 == b[0] && n / 0x100 == From(b[1..]);
      assert b == [b[0]] + b[1..];
    }
  }

  lemma TwoDigits(n: nat)
    ensures n % 0x100 + 0x100 * (n / 0x100 % 0x100) == n % TWO16
  {
    assert n == TWO16 * (n / 0x100 / 0x100) + (n % 0x100 + 0x100 * (n / 0x100 % 0x100));
  }

  lemma OneByte(n: nat)
    ensures Le(n, 1) == [n % 0x100] && From(Le(n, 1)) == n % 0x100
  {
  }

  lemma Le16RoundTrip(n: nat)
    ensures From16(Le16(n)) == n % TWO16
  {
    var low, high := n % 0x100, n / 0x100;
    assert Le(n, 2) == [low] + Le(high, 1);
    assert From(Le(n, 2)) == low + 0x100 * From(Le(high, 1)) by {
      assert Le(n, 2)[1..] == Le(high, 1);
    }
    hide Le, From;
    OneByte(high);
    TwoDigits(n);
  }

  lemma Le16Exact(n: nat)
    requires n < TWO16
    ensures From16(Le16(n)) == n
  {
    Le16RoundTrip(n);
  }

  lemma Le32RoundTrip(n: nat)
    ensures From32(Le32(n)) <= n && (From32(Le32(n)) == n <==> n < TWO32)
  {
    FromLe(n, 4);
    Ranges();
  }

  lemma Le16Canonical(b: seq<Byte>)
    requires |b| == 2
    ensures Le16(From16(b)) == b
  {
    LeFrom(b);
  }

  lemma Le32Canonical(b: seq<Byte>)
    requires |b| == 4
    ensures Le32(From32(b)) == b
  {
    LeFrom(b);
  }

  predicate IsAscii(s: seq<Byte>) {
    forall i | 0 <= i < |s| :: s[i] < 0x80
  }

  /** The bytes of an ASCII literal. */
  function Ascii(s: string): (b: seq<Byte>)
    requires forall i | 0 <= i < |s| :: s[i] as int < 0x80
    ensures |b| == |s| && IsAscii(b)
    ensures forall i :: 0 <= i < |s| ==> b[i] == s[i] as int
  {
    seq(|s|, i requires 0 <= i < |s| => s[i] as Byte)
  }
}
