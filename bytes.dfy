/**
 * Byte strings as the relANNIS importer builds its disk-map keys from them: the UTF-8
 * bytes of a Rust string, the lossy decoding back to characters, and big-endian
 * fixed-width integers.
 */
module Bytes {
  type byte = x: int | 0 <= x < 256

  // ---------------------------------------------------------------------------
  // UTF-8
  // ---------------------------------------------------------------------------

  /** The UTF-8 encoding of one Unicode scalar value: one to four bytes. */
  function EncodeChar(c: char): (bs: seq<byte>)
    ensures 1 <= |bs| <= 4
    ensures (0 in bs) <==> c == '\0'
  {
    var n := c as int;
    if n < 0x80 then [n]
    else if n < 0x800 then [0xC0 + n / 64, 0x80 + n % 64]
    else if n < 0x10000 then [0xE0 + n / 4096, 0x80 + (n / 64) % 64, 0x80 + n % 64]
    else [0xF0 + n / 262144, 0x80 + (n / 4096) % 64, 0x80 + (n / 64) % 64, 0x80 + n % 64]
  }

  /** `str::as_bytes`: the encodings of the characters, one after the other. */
  function Encode(s: string): seq<byte>
  {
    if s == [] then [] else EncodeChar(s[0]) + Encode(s[1..])
  }

  predicate IsContinuation(b: byte)
  {
    0x80 <= b < 0xC0
  }

  /** The length of the sequence a leading byte announces; 0 for a byte that cannot lead one. */
  function SequenceLength(b: byte): nat
  {
    if b < 0x80 then 1
    else if 0xC2 <= b < 0xE0 then 2
    else if 0xE0 <= b < 0xF0 then 3
    else if 0xF0 <= b < 0xF5 then 4
    else 0
  }

  /**
   * The bytes allowed second in a sequence: the narrowed ranges rule out overlong forms,
   * surrogates and values beyond U+10FFFF.
   */
  predicate SecondOk(lead: byte, b: byte)
  {
    if lead == 0xE0 then 0xA0 <= b < 0xC0
    else if lead == 0xED then 0x80 <= b < 0xA0
    else if lead == 0xF0 then 0x90 <= b < 0xC0
    else if lead == 0xF4 then 0x80 <= b < 0x90
    else IsContinuation(b)
  }

  /**
   * How many of the bytes after a leading byte of a `len`-byte sequence can belong to it:
   * the longest acceptable prefix, cut at the first unacceptable byte or the end of input.
   */
  function Accepted(bs: seq<byte>, len: nat): (k: nat)
    requires |bs| > 0 && 2 <= len <= 4
    ensures k < len && k < |bs|
  {
    if |bs| < 2 || !SecondOk(bs[0], bs[1]) then 0
    else if len == 2 then 1
    else if |bs| < 3 || !IsContinuation(bs[2]) then 1
    else if len == 3 then 2
    else if |bs| < 4 || !IsContinuation(bs[3]) then 2
    else 3
  }

  const Replacement: char := '�'

  /** The scalar value of a complete, acceptable sequence. */
  function SequenceValue(bs: seq<byte>, len: nat): (n: int)
    requires 2 <= len <= 4 && |bs| >= len && SequenceLength(bs[0]) == len
    requires SecondOk(bs[0], bs[1]) && forall i :: 2 <= i < len ==> IsContinuation(bs[i])
    ensures 0x80 <= n < 0xD800 || 0xE000 <= n < 0x11_0000
  {
    var b0: int, b1: int := bs[0], bs[1];
    if len == 2 then (b0 - 0xC0) * 64 + (b1 - 0x80)
    else
      var b2: int := bs[2];
      assert IsContinuation(bs[2]);
      assert len == 3 ==> 0xE0 <= b0 < 0xF0 && 0x80 <= b1 < 0xC0;
      assert len == 3 && b0 == 0xE0 ==> b1 >= 0xA0;
      assert len == 3 && b0 == 0xED ==> b1 < 0xA0;
      if len == 3 then (b0 - 0xE0) * 4096 + (b1 - 0x80) * 64 + (b2 - 0x80)
      else
        var b3: int := bs[3];
        assert IsContinuation(bs[2]) && IsContinuation(bs[3]);
        assert 0xF0 <= b0 <= 0xF4 && 0x80 <= b1 < 0xC0;
        assert b0 == 0xF4 ==> b1 < 0x90;
        assert b0 == 0xF0 ==> b1 >= 0x90;
        (b0 - 0xF0) * 262144 + (b1 - 0x80) * 4096 + (b2 - 0x80) * 64 + (b3 - 0x80)
  }

  /**
   * The first character of a lossy decoding and the number of bytes it takes: a complete
   * sequence gives its character; otherwise U+FFFD replaces the maximal acceptable prefix
   * (at least the one leading byte), as `String::from_utf8_lossy` does.
   */
  function DecodeOne(bs: seq<byte>): (r: (char, nat))
    requires |bs| > 0
    ensures 1 <= r.1 <= |bs|
  {
    var len := SequenceLength(bs[0]);
    if len == 1 then (bs[0] as char, 1)
    else if len == 0 then (Replacement, 1)
    else
      var k := Accepted(bs, len);
      if k == len - 1 then (SequenceValue(bs, len) as char, len) else (Replacement, 1 + k)
  }

  /** `String::from_utf8_lossy`. */
  function Decode(bs: seq<byte>): string
    decreases |bs|
  {
    if bs == [] then []
    else
      var r := DecodeOne(bs);
      [r.0] + Decode(bs[r.1..])
  }

  lemma DecodeTwo(c: char, rest: seq<byte>)
    requires 0x80 <= c as int < 0x800
    ensures DecodeOne(EncodeChar(c) + rest) == (c, 2)
  {
    var n := c as int;
    var bs := EncodeChar(c) + rest;
    assert bs[0] == 0xC0 + n / 64 && bs[1] == 0x80 + n % 64;
    assert SequenceLength(bs[0]) == 2;
    assert Accepted(bs, 2) == 1;
    assert SequenceValue(bs, 2) == n;
  }

  /** The three digits, base 64, of a three-byte scalar value put back together. */
  lemma DigitsThree(n: int)
    requires 0x800 <= n < 0x10000
    ensures (n / 4096) * 4096 + ((n / 64) % 64) * 64 + n % 64 == n
    ensures n / 4096 == 0 ==> n / 64 >= 32
    ensures n / 4096 == 13 && (n < 0xD800 || 0xE000 <= n) ==> (n / 64) % 64 < 32
  {
    var q := n / 64;
    assert q * 64 + n % 64 == n;
    assert (q / 64) * 64 + q % 64 == q;
    assert n / 4096 == q / 64;
  }

  lemma DecodeThree(c: char, rest: seq<byte>)
    requires 0x800 <= c as int < 0x10000
    ensures DecodeOne(EncodeChar(c) + rest) == (c, 3)
  {
    var n := c as int;
    var bs := EncodeChar(c) + rest;
    var b0, b1, b2 := 0xE0 + n / 4096, 0x80 + (n / 64) % 64, 0x80 + n % 64;
    assert bs[0] == b0 && bs[1] == b1 && bs[2] == b2;
    DigitsThree(n);
    assert SecondOk(b0, b1);
    assert SequenceLength(bs[0]) == 3;
    assert Accepted(bs, 3) == 2;
    assert SequenceValue(bs, 3) == n;
  }

  /** The four digits, base 64, of a four-byte scalar value put back together. */
  lemma DigitsFour(n: int)
    requires 0x10000 <= n < 0x11_0000
    ensures (n / 262144) * 262144 + ((n / 4096) % 64) * 4096 + ((n / 64) % 64) * 64 + n % 64 == n
    ensures n / 262144 == 0 ==> n / 4096 >= 16
    ensures n / 262144 == 4 ==> (n / 4096) % 64 < 16
  {
    var q := n / 64;
    assert q * 64 + n % 64 == n;
    assert (q / 64) * 64 + q % 64 == q;
    assert n / 4096 == q / 64;
    assert ((q / 64) / 64) * 64 + (q / 64) % 64 == q / 64;
    assert n / 262144 == (q / 64) / 64;
  }

  lemma DecodeFour(c: char, rest: seq<byte>)
    requires 0x10000 <= c as int
    ensures DecodeOne(EncodeChar(c) + rest) == (c, 4)
  {
    var n := c as int;
    var bs := EncodeChar(c) + rest;
    var b0, b1, b2, b3 := 0xF0 + n / 262144, 0x80 + (n / 4096) % 64, 0x80 + (n / 64) % 64, 0x80 + n % 64;
    assert bs[0] == b0 && bs[1] == b1 && bs[2] == b2 && bs[3] == b3;
    DigitsFour(n);
    assert SecondOk(b0, b1);
    assert SequenceLength(bs[0]) == 4;
    assert Accepted(bs, 4) == 3;
    assert SequenceValue(bs, 4) == n;
  }

  /** The encoding of a character decodes to that character and uses up exactly its bytes. */
  lemma DecodeOneEncodeChar(c: char, rest: seq<byte>)
    ensures DecodeOne(EncodeChar(c) + rest) == (c, |EncodeChar(c)|)
  {
    var n := c as int;
    if n < 0x80 {
    } else if n < 0x800 {
      DecodeTwo(c, rest);
    } else if n < 0x10000 {
      DecodeThree(c, rest);
    } else {
      DecodeFour(c, rest);
    }
  }

  /** Decoding undoes encoding, whatever bytes follow. */
  lemma {:induction false} DecodeEncodeAppend(s: string, rest: seq<byte>)
    ensures Decode(Encode(s) + rest) == s + Decode(rest)
  {
    if s != [] {
      var e := EncodeChar(s[0]);
      assert Encode(s) + rest == e + (Encode(s[1..]) + rest);
      var bs := e + (Encode(s[1..]) + rest);
      DecodeOneEncodeChar(s[0], Encode(s[1..]) + rest);
      assert bs[|e|..] == Encode(s[1..]) + rest;
      assert Decode(bs) == [s[0]] + Decode(bs[|e|..]);
      DecodeEncodeAppend(s[1..], rest);
      assert Decode(bs) == [s[0]] + (s[1..] + Decode(rest));
      assert [s[0]] + (s[1..] + Decode(rest)) == ([s[0]] + s[1..]) + Decode(rest);
      assert s == [s[0]] + s[1..];
    } else {
      assert Encode(s) + rest == rest;
    }
  }

  /** The round trip of the UTF-8 codec. */
  lemma DecodeEncode(s: string)
    ensures Decode(Encode(s)) == s
  {
    DecodeEncodeAppend(s, []);
    assert Encode(s) + [] == Encode(s);
  }

  /** A zero byte appears in the encoding exactly where the string has a NUL character. */
  lemma {:induction false} EncodeNul(s: string)
    ensures (0 in Encode(s)) <==> '\0' in s
  {
    if s != [] {
      EncodeNul(s[1..]);
      assert s == [s[0]] + s[1..];
    }
  }

  /** The characters before the first NUL: the first piece of `split_terminator('\0')`, or "" if there is none. */
  function BeforeNul(s: string): (r: string)
    ensures '\0' !in r
    ensures |r| <= |s| && r == s[..|r|]
    ensures |r| < |s| ==> s[|r|] == '\0'
  {
    if s == [] || s[0] == '\0' then [] else [s[0]] + BeforeNul(s[1..])
  }

  /** What follows the first NUL does not matter. */
  lemma {:induction false} BeforeNulAppend(a: string, b: string)
    ensures BeforeNul(a + ['\0'] + b) == BeforeNul(a)
  {
    if a != [] {
      assert (a + ['\0'] + b)[1..] == a[1..] + ['\0'] + b;
      BeforeNulAppend(a[1..], b);
    } else {
      assert (a + ['\0'] + b)[0] == '\0';
    }
  }

  lemma BeforeNulNone(s: string)
    requires '\0' !in s
    ensures BeforeNul(s) == s
  {
  }

  // ---------------------------------------------------------------------------
  // Big-endian integers
  // ---------------------------------------------------------------------------

  function Pow256(n: nat): (p: nat)
    ensures p >= 1
  {
    if n == 0 then 1 else 256 * Pow256(n - 1)
  }

  const U32Bound: nat := 0x1_0000_0000
  const U64Bound: nat := 0x1_0000_0000_0000_0000
  type u32 = x: nat | x < 0x1_0000_0000
  type u64 = x: nat | x < 0x1_0000_0000_0000_0000

  lemma Pow256Widths()
    ensures Pow256(4) == U32Bound && Pow256(8) == U64Bound
  {
  }

  /** `to_be_bytes` of an `n`-byte unsigned integer: the most significant byte first. */
  function ToBigEndian(x: nat, n: nat): (bs: seq<byte>)
    requires x < Pow256(n)
    ensures |bs| == n
  {
    if n == 0 then []
    else ToBigEndian(x / 256, n - 1) + [x % 256]
  }

  /** `from_be_bytes`: the number the bytes denote, most significant first. */
  function FromBigEndian(bs: seq<byte>): (x: nat)
    ensures x < Pow256(|bs|)
  {
    if bs == [] then 0
    else
      var high := FromBigEndian(bs[..|bs| - 1]);
      assert high * 256 + bs[|bs| - 1] < Pow256(|bs|) by {
        assert high <= Pow256(|bs| - 1) - 1;
        assert high * 256 <= Pow256(|bs|) - 256;
      }
      high * 256 + bs[|bs| - 1]
  }

  /** The round trip of the integer codec. */
  lemma {:induction false} FromToBigEndian(x: nat, n: nat)
    requires x < Pow256(n)
    ensures FromBigEndian(ToBigEndian(x, n)) == x
  {
    if n > 0 {
      var bs := ToBigEndian(x, n);
      assert bs[..n - 1] == ToBigEndian(x / 256, n - 1);
      FromToBigEndian(x / 256, n - 1);
      assert (x / 256) * 256 + x % 256 == x;
    }
  }
}
