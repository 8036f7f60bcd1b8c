/**
 * Fixed-width integers and their little-endian byte encoding, as the save
 * block accessors read and write them (BinaryPrimitives' LittleEndian
 * reads and writes), plus the "splice" of a byte run into a buffer that
 * every setter performs.
 */
module Bytes {
  type byte = x: int | 0 <= x < 0x100
  type uint16 = x: int | 0 <= x < 0x1_0000
  type uint32 = x: int | 0 <= x < 0x1_0000_0000
  type uint64 = x: int | 0 <= x < 0x1_0000_0000_0000_0000
  type int32 = x: int | -0x8000_0000 <= x < 0x8000_0000

  /** 256 to the power n: one more than the largest n-byte value. */
  function Pow256(n: nat): (r: nat)
    ensures r > 0
  {
    if n == 0 then 1 else 256 * Pow256(n - 1)
  }

  /** The value of a little-endian byte string (first byte least significant). */
  function FromLE(b: seq<byte>): (r: nat)
    ensures r < Pow256(|b|)
  {
    if b == [] then 0 else b[0] + 256 * FromLE(b[1..])
  }

  /** The n low-order bytes of v, least significant first. */
  function ToLE(v: nat, n: nat): (b: seq<byte>)
    ensures |b| == n
  {
    if n == 0 then [] else [v % 256] + ToLE(v / 256, n - 1)
  }

  /** n zero bytes. */
  function Zeros(n: nat): (b: seq<byte>)
    ensures |b| == n
    ensures forall i :: 0 <= i < n ==> b[i] == 0
  {
    seq(n, _ => 0)
  }

  /** Decoding what was encoded gives the value back, whenever it fits in n bytes. */
  lemma {:induction false} FromToLE(v: nat, n: nat)
    requires v < Pow256(n)
    ensures FromLE(ToLE(v, n)) == v
  {
    if n > 0 {
      FromToLE(v / 256, n - 1);
      assert ToLE(v, n)[1..] == ToLE(v / 256, n - 1);
    }
  }

  /** Encoding what was decoded gives the bytes back. */
  lemma {:induction false} ToFromLE(b: seq<byte>)
    ensures ToLE(FromLE(b), |b|) == b
  {
    if b != [] {
      ToFromLE(b[1..]);
      var r := FromLE(b[1..]);
      assert (b[0] + 256 * r) % 256 == b[0];
      assert (b[0] + 256 * r) / 256 == r;
    }
  }

  /** The encoding of zero is all zero bytes. */
  lemma {:induction false} ToLEZero(n: nat)
    ensures ToLE(0, n) == Zeros(n)
  {
    if n > 0 {
      ToLEZero(n - 1);
    }
  }

  /**
   * Writing a value that fits in k bytes into a wider n-byte field puts
   * its k-byte encoding first and zero bytes after it.
   */
  lemma {:induction false} ToLEWidened(v: nat, k: nat, n: nat)
    requires v < Pow256(k) && k <= n
    ensures ToLE(v, n) == ToLE(v, k) + Zeros(n - k)
  {
    if k == 0 {
      ToLEZero(n);
    } else {
      ToLEWidened(v / 256, k - 1, n - 1);
    }
  }

  /** A two-byte little-endian value, spelled out. */
  lemma FromLE2(b: seq<byte>)
    requires |b| == 2
    ensures FromLE(b) == b[0] as int + 0x100 * b[1] as int
  {
    assert b[1..][1..] == [];
  }

  /** A four-byte little-endian value, spelled out. */
  lemma FromLE4(b: seq<byte>)
    requires |b| == 4
    ensures FromLE(b) == b[0] as int + 0x100 * b[1] as int + 0x1_0000 * b[2] as int + 0x100_0000 * b[3] as int
  {
    var b1 := b[1..];
    var b2 := b1[1..];
    var b3 := b2[1..];
    assert b3[1..] == [];
    assert FromLE(b3) == b[3] as int;
    assert FromLE(b2) == b[2] as int + 0x100 * b[3] as int;
    assert FromLE(b1) == b[1] as int + 0x100 * b[2] as int + 0x1_0000 * b[3] as int;
  }

  /** The unsigned 32-bit pattern of a C# int (two's complement). */
  function Int32Bits(v: int32): uint32
  {
    if v < 0 then v + 0x1_0000_0000 else v
  }

  /** The C# int whose bit pattern is u: the unchecked cast (int)u. */
  function Int32FromBits(u: uint32): int32
  {
    if u < 0x8000_0000 then u else u - 0x1_0000_0000
  }

  /** The two conversions are inverse to each other. */
  lemma Int32BitsRoundTrip(v: int32, u: uint32)
    ensures Int32FromBits(Int32Bits(v)) == v
    ensures Int32Bits(Int32FromBits(u)) == u
  {
  }

  /** Each conversion keeps the value modulo 2^32: both read the same 32 bits. */
  lemma Int32BitsCongruent(v: int32, u: uint32)
    ensures Int32Bits(v) % 0x1_0000_0000 == v % 0x1_0000_0000
    ensures Int32FromBits(u) % 0x1_0000_0000 == u
  {
  }

  /** s with the bytes at at..at+|x| replaced by x. */
  function Splice(s: seq<byte>, at: nat, x: seq<byte>): (r: seq<byte>)
    requires at + |x| <= |s|
    ensures |r| == |s|
  {
    s[..at] + x + s[at + |x|..]
  }

  /** The splice puts x in place and leaves every other byte as it was. */
  lemma SpliceFacts(s: seq<byte>, at: nat, x: seq<byte>)
    requires at + |x| <= |s|
    ensures Splice(s, at, x)[at..at + |x|] == x
    ensures forall i :: at <= i < at + |x| ==> Splice(s, at, x)[i] == x[i - at]
    ensures forall i :: 0 <= i < |s| && !(at <= i < at + |x|) ==> Splice(s, at, x)[i] == s[i]
  {
  }

  /** A run of bytes that the splice does not reach is left as it was. */
  lemma SpliceKeeps(s: seq<byte>, at: nat, x: seq<byte>, lo: nat, hi: nat)
    requires at + |x| <= |s| && lo <= hi <= |s|
    requires hi <= at || at + |x| <= lo
    ensures Splice(s, at, x)[lo..hi] == s[lo..hi]
  {
    SpliceFacts(s, at, x);
    var r := Splice(s, at, x);
    assert forall i :: lo <= i < hi ==> r[i] == s[i];
  }

  /** The values of Pow256 at the widths the save blocks use. */
  lemma Pow256Widths()
    ensures Pow256(1) == 0x100 && Pow256(2) == 0x1_0000 && Pow256(3) == 0x100_0000
    ensures Pow256(4) == 0x1_0000_0000 && Pow256(8) == 0x1_0000_0000_0000_0000
  {
  }

  /** Copies x into a at position at, in place. */
  method WriteBytes(a: array<byte>, at: nat, x: seq<byte>)
    requires at + |x| <= a.Length
    modifies a
    ensures a[..] == Splice(old(a[..]), at, x)
  {
    forall i | at <= i < at + |x| {
      a[i] := x[i - at];
    }
    SpliceFacts(old(a[..]), at, x);
    assert forall i :: 0 <= i < a.Length ==> a[..][i] == Splice(old(a[..]), at, x)[i];
  }
}
