/** UTF-8 as section 4 of RFC 3629 defines it, and Rust's lossy decoding of it. */
module Utf8 {
  import opened Bytes

  /** What stands at the head of a byte string: one well-formed sequence, or the
      longest prefix that could have begun one and did not. */
  datatype Chunk = Chunk(valid: bool, len: nat)

  predicate Within(s: seq<Byte>, i: nat, lo: Byte, hi: Byte) {
    i < |s| && lo <= s[i] <= hi
  }

  function Head(s: seq<Byte>): (c: Chunk)
    requires s != []
    ensures 1 <= c.len <= |s|
    ensures c.len <= if c.valid then 4 else 3
  {
    var b := s[0];
    if b < 0x80 then
      Chunk(true, 1)
    else if 0xC2 <= b <= 0xDF then
      if Within(s, 1, 0x80, 0xBF) then Chunk(true, 2) else Chunk(false, 1)
    else if 0xE0 <= b <= 0xEF then
      if !Within(s, 1, if b == 0xE0 then 0xA0 else 0x80, if b == 0xED then 0x9F else 0xBF) then Chunk(false, 1)
      else if Within(s, 2, 0x80, 0xBF) then Chunk(true, 3)
      else Chunk(false, 2)
    else if 0xF0 <= b <= 0xF4 then
      if !Within(s, 1, if b == 0xF0 then 0x90 else 0x80, if b == 0xF4 then 0x8F else 0xBF) then Chunk(false, 1)
      else if !Within(s, 2, 0x80, 0xBF) then Chunk(false, 2)
      else if Within(s, 3, 0x80, 0xBF) then Chunk(true, 4)
      else Chunk(false, 3)
    else
      Chunk(false, 1)
  }

  predicate Valid(s: seq<Byte>) {
    s == [] || (Head(s).valid && Valid(s[Head(s).len..]))
  }

  /** A Rust string: bytes that are valid UTF-8. */
  type Str = s: seq<Byte> | Valid(s)

  /** U+FFFD. */
  const REPLACEMENT: seq<Byte> := [0xEF, 0xBF, 0xBD]

  /** `String::from_utf8_lossy`. */
  function Lossy(s: seq<Byte>): (r: Str)
  {
    if s == [] then
      []
    else
      var c := Head(s);
      var first := if c.valid then s[..c.len] else REPLACEMENT;
      PrependValid(first, Lossy(s[c.len..]));
      first + Lossy(s[c.len..])
  }

  /** One well-formed sequence before a valid string makes a valid string. */
  lemma PrependValid(a: seq<Byte>, s: seq<Byte>)
    requires a != [] && Head(a) == Chunk(true, |a|) && Valid(s)
    ensures Valid(a + s)
  {
    assert (a + s)[|a|..] == s;
  }

  /** Lossy decoding changes exactly the invalid inputs. */
  lemma {:induction false} LossyIdentity(s: seq<Byte>)
    ensures Lossy(s) == s <==> Valid(s)
  {
    if s != [] {
      var c := Head(s);
      var tail := s[c.len..];
      LossyIdentity(tail);
      if c.valid {
        assert s == s[..c.len] + tail;
        assert Lossy(s)[c.len..] == Lossy(tail);
      }
    }
  }

  /** It at most triples the length. */
  lemma {:induction false} LossyLength(s: seq<Byte>)
    ensures |Lossy(s)| <= 3 * |s|
  {
    if s != [] {
      LossyLength(s[Head(s).len..]);
    }
  }

  /** An ASCII result was the input: the replacement character is not ASCII. */
  lemma {:induction false} LossyAscii(s: seq<Byte>)
    requires IsAscii(Lossy(s))
    ensures Lossy(s) == s
  {
    if s != [] {
      var c := Head(s);
      var tail := s[c.len..];
      var first := if c.valid then s[..c.len] else REPLACEMENT;
      assert Lossy(s) == first + Lossy(tail);
      assert Lossy(s)[0] == first[0];
      assert Lossy(tail) == Lossy(s)[|first|..];
      LossyAscii(tail);
      assert s == s[..c.len] + tail;
    }
  }

  lemma {:induction false} AsciiValid(s: seq<Byte>)
    requires IsAscii(s)
    ensures Valid(s)
  {
    if s != [] {
      assert s[0] < 0x80;
      AsciiValid(s[1..]);
    }
  }

  /** Cutting a valid string anywhere and decoding it adds at most two bytes. */
  lemma {:induction false} LossyOfCut(s: Str, n: nat)
    requires n <= |s|
    ensures |Lossy(s[..n])| <= n + 2
  {
    if n == 0 {
    } else if n < Head(s).len {
      assert Head(s[..n]) == Chunk(false, n);
      assert s[..n][n..] == [];
    } else {
      var c := Head(s);
      assert Head(s[..n]) == c;
      assert s[..n][c.len..] == s[c.len..][..n - c.len];
      LossyOfCut(s[c.len..], n - c.len);
    }
  }
}
