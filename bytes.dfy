/** Byte-level encodings the protocol relies on: the fixed-width
    little-endian integers of `u64::to_le_bytes` / `u64::from_le_bytes`,
    and the UTF-8 bytes of a Rust `String` (`str::as_bytes`). */
module Bytes {
  import opened Base

  const TWO_64: nat := 0x1_0000_0000_0000_0000

  function Pow256(k: nat): (r: nat)
    ensures r >= 1
  {
    if k == 0 then 1 else 256 * Pow256(k - 1)
  }

  lemma Pow256Eight()
    ensures Pow256(8) == TWO_64
  {
  }

  /** The low `k` bytes of `n`, least significant first. */
  function ToLe(n: nat, k: nat): (r: seq<byte>)
    ensures |r| == k
  {
    if k == 0 then [] else [n % 256] + ToLe(n / 256, k - 1)
  }

  /** The number whose little-endian bytes are `b`. */
  function FromLe(b: seq<byte>): (r: nat)
    ensures r < Pow256(|b|)
  {
    if |b| == 0 then 0 else b[0] + 256 * FromLe(b[1..])
  }

  /** `u64::to_le_bytes` of `n`: eight bytes, the value taken modulo 2^64 as
      `as u64` does. */
  function U64Le(n: nat): (r: seq<byte>)
    ensures |r| == 8
  {
    ToLe(n % TWO_64, 8)
  }

  lemma {:induction false} FromToLe(n: nat, k: nat)
    requires n < Pow256(k)
    ensures FromLe(ToLe(n, k)) == n
  {
    if k > 0 {
      assert n / 256 < Pow256(k - 1);
      FromToLe(n / 256, k - 1);
      assert ToLe(n, k)[1..] == ToLe(n / 256, k - 1);
    }
  }

  lemma {:induction false} ToFromLe(b: seq<byte>)
    ensures ToLe(FromLe(b), |b|) == b
  {
    if |b| > 0 {
      ToFromLe(b[1..]);
      var n := FromLe(b);
      assert n % 256 == b[0] && n / 256 == FromLe(b[1..]);
    }
  }

  /** Decoding the eight bytes `write` puts in front of a payload gives back
      its length, whenever that length fits in a `u64`. */
  lemma U64LeRoundTrip(n: nat)
    requires n < TWO_64
    ensures FromLe(U64Le(n)) == n
  {
    Pow256Eight();
    assert n % TWO_64 == n;
    FromToLe(n, 8);
  }

  /** The UTF-8 encoding of one Unicode scalar value. */
  function EncodeChar(c: char): (r: seq<byte>)
    ensures 1 <= |r| <= 4
    ensures (c as int < 0x80) <==> (|r| == 1)
    ensures c as int < 0x80 ==> r[0] == c as int
  {
    var cp := c as int;
    if cp < 0x80 then [cp]
    else if cp < 0x800 then [0xC0 + cp / 0x40, 0x80 + cp % 0x40]
    else if cp < 0x1_0000 then [0xE0 + cp / 0x1000, 0x80 + (cp / 0x40) % 0x40, 0x80 + cp % 0x40]
    else [0xF0 + cp / 0x4_0000, 0x80 + (cp / 0x1000) % 0x40, 0x80 + (cp / 0x40) % 0x40, 0x80 + cp % 0x40]
  }

  /** `s.as_bytes()`: the UTF-8 bytes of a string. */
  function Utf8(s: string): (r: seq<byte>)
    ensures |r| >= |s|
  {
    if |s| == 0 then [] else Utf8(s[..|s| - 1]) + EncodeChar(s[|s| - 1])
  }

  predicate IsAscii(s: string)
  {
    forall i :: 0 <= i < |s| ==> s[i] as int < 0x80
  }

  /** The bytes of an ASCII literal such as Rust's `b"..."`: each
      character's code. */
  function AsciiBytes(s: string): (r: seq<byte>)
    requires IsAscii(s)
    ensures |r| == |s|
  {
    seq(|s|, i requires 0 <= i < |s| => s[i] as int)
  }

  /** The bytes of a concatenation are the concatenated bytes. */
  lemma {:induction false} Utf8Append(a: string, b: string)
    ensures Utf8(a + b) == Utf8(a) + Utf8(b)
  {
    if |b| > 0 {
      var b' := b[..|b| - 1];
      assert (a + b)[..|a + b| - 1] == a + b';
      Utf8Append(a, b');
    } else {
      assert a + b == a;
    }
  }

  /** ASCII text is its own byte string: one byte per character, holding
      the character's code. */
  lemma {:induction false} Utf8Ascii(s: string)
    requires IsAscii(s)
    ensures |Utf8(s)| == |s|
    ensures forall i :: 0 <= i < |s| ==> Utf8(s)[i] == s[i] as int
  {
    if |s| > 0 {
      Utf8Ascii(s[..|s| - 1]);
    }
  }
}
