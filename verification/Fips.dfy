/**
 SHA-256 as FIPS 180-4 defines it: functions (4.1.2), constants (4.2.2), padding (5.1.1), parsing (5.2.1),
 initial value (5.3.3) and hash computation (6.2.2). Messages are whole numbers of bytes.
 */
module Fips {
  import opened Bits

  /** Addition mod 2^32. Sums are nested applications of it, one for each binary addition. */
  function Plus(x: bv32, y: bv32): (r: bv32) { x + y }

  // ----- Section 4.1.2 -----

  function Ch(x: bv32, y: bv32, z: bv32): (r: bv32) { (x & y) ^ (!x & z) }

  function Maj(x: bv32, y: bv32, z: bv32): (r: bv32) { (x & y) ^ (x & z) ^ (y & z) }

  function BigSigma0(x: bv32): (r: bv32) { x.RotateRight(2) ^ x.RotateRight(13) ^ x.RotateRight(22) }

  function BigSigma1(x: bv32): (r: bv32) { x.RotateRight(6) ^ x.RotateRight(11) ^ x.RotateRight(25) }

  function SmallSigma0(x: bv32): (r: bv32) { x.RotateRight(7) ^ x.RotateRight(18) ^ (x >> 3) }

  function SmallSigma1(x: bv32): (r: bv32) { x.RotateRight(17) ^ x.RotateRight(19) ^ (x >> 10) }

  // ----- Section 4.2.2 -----

  const K0: seq<bv32> := [
    0x428a2f98, 0x71374491, 0xb5c0fbcf, 0xe9b5dba5,
    0x3956c25b, 0x59f111f1, 0x923f82a4, 0xab1c5ed5]

  const K8: seq<bv32> := [
    0xd807aa98, 0x12835b01, 0x243185be, 0x550c7dc3,
    0x72be5d74, 0x80deb1fe, 0x9bdc06a7, 0xc19bf174]

  const K16: seq<bv32> := [
    0xe49b69c1, 0xefbe4786, 0x0fc19dc6, 0x240ca1cc,
    0x2de92c6f, 0x4a7484aa, 0x5cb0a9dc, 0x76f988da]

  const K24: seq<bv32> := [
    0x983e5152, 0xa831c66d, 0xb00327c8, 0xbf597fc7,
    0xc6e00bf3, 0xd5a79147, 0x06ca6351, 0x14292967]

  const K32: seq<bv32> := [
    0x27b70a85, 0x2e1b2138, 0x4d2c6dfc, 0x53380d13,
    0x650a7354, 0x766a0abb, 0x81c2c92e, 0x92722c85]

  const K40: seq<bv32> := [
    0xa2bfe8a1, 0xa81a664b, 0xc24b8b70, 0xc76c51a3,
    0xd192e819, 0xd6990624, 0xf40e3585, 0x106aa070]

  const K48: seq<bv32> := [
    0x19a4c116, 0x1e376c08, 0x2748774c, 0x34b0bcb5,
    0x391c0cb3, 0x4ed8aa4a, 0x5b9cca4f, 0x682e6ff3]

  const K56: seq<bv32> := [
    0x748f82ee, 0x78a5636f, 0x84c87814, 0x8cc70208,
    0x90befffa, 0xa4506ceb, 0xbef9a3f7, 0xc67178f2]

  const K: seq<bv32> := K0 + K8 + K16 + K24 + K32 + K40 + K48 + K56

  lemma ConstantCount()
    ensures |K| == 64
  {
  }

  // ----- Section 5.1.1 -----

  /** The 64-bit big-endian block of a bit count. */
  function LengthBytes(bits: nat): (s: seq<bv8>)
    requires bits < TWO64
    ensures |s| == 8
  {
    [Byte(bits / 0x100_0000_0000_0000), Byte(bits / 0x1_0000_0000_0000 % 256),
     Byte(bits / 0x100_0000_0000 % 256), Byte(bits / 0x1_0000_0000 % 256),
     Byte(bits / 0x100_0000 % 256), Byte(bits / 0x1_0000 % 256),
     Byte(bits / 0x100 % 256), Byte(bits % 256)]
  }

  function Zeros(n: nat): (s: seq<bv8>)
    ensures |s| == n
  {
    seq(n, _ => 0)
  }

  predicate LeavesLength(n: nat, z: nat) { (n + 1 + z) % 64 == 56 }

  /** The least number of zero bytes after the 0x80: k = 8z + 7 of section 5.1.1 in whole bytes. */
  function PadZeros(n: nat): (z: nat)
    ensures z < 64 && LeavesLength(n, z)
    ensures forall y: nat :: y < z ==> !LeavesLength(n, y)
  {
    (119 - n % 64) % 64
  }

  lemma PadLength(n: nat)
    ensures (n + 1 + PadZeros(n) + 8) % 64 == 0
  {
    assert LeavesLength(n, PadZeros(n));
  }

  /** The padded message; the standard covers fewer than 2^61 bytes, beyond that the length is taken mod 2^64. */
  function Pad(m: seq<bv8>): (p: seq<bv8>)
    ensures |p| == |m| + 1 + PadZeros(|m|) + 8 && |p| % 64 == 0
  {
    PadLength(|m|);
    m + [0x80] + Zeros(PadZeros(|m|)) + LengthBytes(8 * |m| % TWO64)
  }

  // ----- Section 5.2.1 -----

  predicate IsBlock(b: seq<bv8>) { |b| == 64 }

  predicate AreBlocks(bs: seq<seq<bv8>>) { forall i :: 0 <= i < |bs| ==> IsBlock(bs[i]) }

  function Parse(s: seq<bv8>): (bs: seq<seq<bv8>>)
    requires |s| % 64 == 0
    ensures AreBlocks(bs) && 64 * |bs| == |s|
  {
    if s == [] then [] else Parse(s[..|s| - 64]) + [s[|s| - 64..]]
  }

  // ----- Sections 5.3.3 and 6.2.2 -----

  /** The eight words of a hash value, or of the working variables. */
  datatype Words = Words(a: bv32, b: bv32, c: bv32, d: bv32, e: bv32, f: bv32, g: bv32, h: bv32)

  const H0: Words := Words(
    0x6a09e667, 0xbb67ae85, 0x3c6ef372, 0xa54ff53a, 0x510e527f, 0x9b05688c, 0x1f83d9ab, 0x5be0cd19)

  function BigEndian(b0: bv8, b1: bv8, b2: bv8, b3: bv8): (r: bv32) {
    ((b0 as bv32) << 24) | ((b1 as bv32) << 16) | ((b2 as bv32) << 8) | (b3 as bv32)
  }

  /** The message schedule. */
  function W(block: seq<bv8>, t: nat): (r: bv32)
    requires IsBlock(block)
  {
    if t < 16 then BigEndian(block[4 * t], block[4 * t + 1], block[4 * t + 2], block[4 * t + 3])
    else Plus(Plus(Plus(SmallSigma1(W(block, t - 2)), W(block, t - 7)), SmallSigma0(W(block, t - 15))),
              W(block, t - 16))
  }

  function T1(v: Words, k: bv32, w: bv32): (r: bv32) {
    Plus(Plus(Plus(Plus(v.h, BigSigma1(v.e)), Ch(v.e, v.f, v.g)), k), w)
  }

  function T2(v: Words): (r: bv32) {
    Plus(BigSigma0(v.a), Maj(v.a, v.b, v.c))
  }

  function Round(v: Words, k: bv32, w: bv32): (r: Words) {
    Words(Plus(T1(v, k, w), T2(v)), v.a, v.b, v.c, Plus(v.d, T1(v, k, w)), v.e, v.f, v.g)
  }

  /** The working variables after `t` rounds. */
  function Rounds(v: Words, block: seq<bv8>, t: nat): (r: Words)
    requires IsBlock(block) && t <= 64
  {
    if t == 0 then v
    else
      ConstantCount();
      Round(Rounds(v, block, t - 1), K[t - 1], W(block, t - 1))
  }

  function Add(x: Words, y: Words): (r: Words) {
    Words(Plus(x.a, y.a), Plus(x.b, y.b), Plus(x.c, y.c), Plus(x.d, y.d),
          Plus(x.e, y.e), Plus(x.f, y.f), Plus(x.g, y.g), Plus(x.h, y.h))
  }

  function Compress(v: Words, block: seq<bv8>): (r: Words)
    requires IsBlock(block)
  {
    Add(v, Rounds(v, block, 64))
  }

  /** The hash value after all the blocks. */
  function Fold(v: Words, bs: seq<seq<bv8>>): (r: Words)
    requires AreBlocks(bs)
  {
    if bs == [] then v else Compress(Fold(v, bs[..|bs| - 1]), bs[|bs| - 1])
  }

  function WordBytes(w: bv32): (s: seq<bv8>)
    ensures |s| == 4
  {
    [((w >> 24) & 0xFF) as bv8, ((w >> 16) & 0xFF) as bv8, ((w >> 8) & 0xFF) as bv8, (w & 0xFF) as bv8]
  }

  function Digest(v: Words): (s: seq<bv8>)
    ensures |s| == 32
  {
    WordBytes(v.a) + WordBytes(v.b) + WordBytes(v.c) + WordBytes(v.d)
    + WordBytes(v.e) + WordBytes(v.f) + WordBytes(v.g) + WordBytes(v.h)
  }

  /** SHA-256 of a message. */
  function Hash(m: seq<bv8>): (s: seq<bv8>)
    ensures |s| == 32
  {
    Digest(Fold(H0, Parse(Pad(m))))
  }
}
