/**
 What a context holds while it absorbs a message byte by byte (src/Sha256.cpp:109-147), on values: which blocks
 reach the transform, and that they are the blocks of the padded message the code never builds.
 */
module Streaming {
  import opened Bits
  import opened Fips
  import opened Sequences

  /**
   The value of a context between calls. `fed` records the blocks handed to the transform so far; the chaining
   words are their fold.
   */
  datatype Context = Context(data: seq<bv8>, datalen: nat, bitlen: nat, fed: seq<seq<bv8>>)
  {
    ghost predicate Live() {
      IsBlock(data) && datalen < 64 && bitlen < TWO64 && AreBlocks(fed)
    }

    ghost predicate Fresh() {
      IsBlock(data) && datalen == 0 && bitlen == 0 && fed == []
    }
  }

  /** One iteration of the loop of Sha256Update. */
  ghost function AbsorbByte(c: Context, x: bv8): (r: Context)
    requires c.Live()
    ensures r.Live()
  {
    var data := c.data[c.datalen := x];
    if c.datalen + 1 == 64 then Context(data, 0, (c.bitlen + 512) % TWO64, c.fed + [data])
    else Context(data, c.datalen + 1, c.bitlen, c.fed)
  }

  ghost function Absorb(c: Context, s: seq<bv8>): (r: Context)
    requires c.Live()
    ensures r.Live()
  {
    if s == [] then c else AbsorbByte(Absorb(c, s[..|s| - 1]), s[|s| - 1])
  }

  /** The block flushed early when the 0x80 leaves no room for the length. */
  ghost function Flushed(c: Context): (bs: seq<seq<bv8>>)
    requires c.Live()
    ensures AreBlocks(bs)
  {
    if c.datalen < 56 then [] else [c.data[..c.datalen] + [0x80] + Zeros(63 - c.datalen)]
  }

  /** The 56 bytes in front of the length in the last block. */
  ghost function Front(c: Context): (s: seq<bv8>)
    requires c.Live()
    ensures |s| == 56
  {
    if c.datalen < 56 then c.data[..c.datalen] + [0x80] + Zeros(55 - c.datalen) else Zeros(56)
  }

  /** The one or two blocks Sha256Final hands to the transform. */
  ghost function LastBlocks(c: Context): (bs: seq<seq<bv8>>)
    requires c.Live()
    ensures AreBlocks(bs)
  {
    Flushed(c) + [Front(c) + LengthBytes((c.bitlen + c.datalen * 8) % TWO64)]
  }

  lemma AbsorbSnoc(c: Context, s: seq<bv8>, x: bv8)
    requires c.Live()
    ensures Absorb(c, s + [x]) == AbsorbByte(Absorb(c, s), x)
  {
    assert (s + [x])[..|s|] == s;
  }

  /** Absorbing in pieces leaves the very context that absorbing at once leaves, stale buffer bytes included. */
  lemma {:induction false} AbsorbSplit(c: Context, a: seq<bv8>, b: seq<bv8>)
    requires c.Live()
    ensures Absorb(Absorb(c, a), b) == Absorb(c, a + b)
    decreases |b|
  {
    if b == [] {
      assert a + b == a;
    } else {
      var init, x := b[..|b| - 1], b[|b| - 1];
      AbsorbSplit(c, a, init);
      assert a + b == (a + init) + [x];
      AbsorbSnoc(c, a + init, x);
    }
  }

  lemma ParseSnoc(s: seq<bv8>, b: seq<bv8>)
    requires |s| % 64 == 0 && IsBlock(b)
    ensures Parse(s + b) == Parse(s) + [b]
  {
    assert (s + b)[..|s|] == s && (s + b)[|s|..] == b;
  }

  /** How many bytes of an `n`-byte message have been compressed. */
  function Whole(n: nat): (w: nat)
    ensures w <= n < w + 64 && w % 64 == 0
  {
    n - n % 64
  }

  /** The state of the buffer after `m`: exactly the blocks of the whole part fed, exactly the rest buffered. */
  ghost predicate Holds(c: Context, m: seq<bv8>)
    requires c.Live()
  {
    && c.fed == Parse(m[..Whole(|m|)])
    && c.datalen == |m| - Whole(|m|)
    && c.data[..c.datalen] == m[Whole(|m|)..]
    && c.bitlen == 8 * Whole(|m|) % TWO64
  }

  lemma WholeMoves(n: nat)
    ensures n - Whole(n) == 63 ==> Whole(n + 1) == n + 1
    ensures n - Whole(n) < 63 ==> Whole(n + 1) == Whole(n)
  {
    hide Whole;
    var p, q := Whole(n) / 64, Whole(n + 1) / 64;
    assert Whole(n) == 64 * p && Whole(n + 1) == 64 * q;
  }

  lemma CountsOn(x: nat)
    ensures (x % TWO64 + 512) % TWO64 == (x + 512) % TWO64
  {
  }

  lemma WholeNext(n: nat)
    ensures n - Whole(n) == 63 ==> Whole(n + 1) == n + 1
    ensures n - Whole(n) < 63 ==> Whole(n + 1) == Whole(n)
    ensures (8 * Whole(n) % TWO64 + 512) % TWO64 == (8 * Whole(n) + 512) % TWO64
  {
    hide Whole;
    WholeMoves(n);
    CountsOn(8 * Whole(n));
  }

  lemma HoldsFull(c: Context, m: seq<bv8>, x: bv8)
    requires c.Live() && Holds(c, m) && c.datalen == 63
    ensures Holds(AbsorbByte(c, x), m + [x])
  {
    var w, data, n := Whole(|m|), c.data[63 := x], m + [x];
    WholeNext(|m|);
    assert n[w..] == m[w..] + [x] == data[..63] + [x] == data;
    assert n[..|n|] == m[..w] + data;
    ParseSnoc(m[..w], data);
  }

  lemma HoldsMore(c: Context, m: seq<bv8>, x: bv8)
    requires c.Live() && Holds(c, m) && c.datalen < 63
    ensures Holds(AbsorbByte(c, x), m + [x])
  {
    var w, data, n := Whole(|m|), c.data[c.datalen := x], m + [x];
    WholeNext(|m|);
    assert n[..w] == m[..w];
    assert n[w..] == m[w..] + [x] == data[..c.datalen] + [x] == data[..c.datalen + 1];
  }

  /** The buffering invariant, for every message and whatever the buffer held at first. */
  lemma {:induction false} AbsorbHolds(c: Context, m: seq<bv8>)
    requires c.Fresh() && c.Live()
    ensures Holds(Absorb(c, m), m)
  {
    if m == [] {
    } else {
      var init, x := m[..|m| - 1], m[|m| - 1];
      AbsorbHolds(c, init);
      assert init + [x] == m;
      if Absorb(c, init).datalen == 63 {
        HoldsFull(Absorb(c, init), init, x);
      } else {
        HoldsMore(Absorb(c, init), init, x);
      }
    }
  }

  /** The bits counted by the end, mod 2^64. */
  lemma CountedBits(c: Context, m: seq<bv8>)
    requires c.Live() && Holds(c, m)
    ensures (c.bitlen + c.datalen * 8) % TWO64 == 8 * |m| % TWO64
  {
  }

  /** The tail and its padding are exactly one block. */
  lemma OneLastBlock(whole: seq<bv8>, tail: seq<bv8>, length: seq<bv8>)
    requires |whole| % 64 == 0 && |tail| < 56 && |length| == 8
    ensures Parse(whole + tail + [0x80] + Zeros(55 - |tail|) + length)
         == Parse(whole) + [tail + [0x80] + Zeros(55 - |tail|) + length]
  {
    var last := tail + [0x80] + Zeros(55 - |tail|) + length;
    assert whole + tail + [0x80] + Zeros(55 - |tail|) + length == whole + last;
    ParseSnoc(whole, last);
  }

  /** The tail and its padding are exactly two blocks. */
  lemma TwoLastBlocks(whole: seq<bv8>, tail: seq<bv8>, length: seq<bv8>)
    requires |whole| % 64 == 0 && 56 <= |tail| < 64 && |length| == 8
    ensures Parse(whole + tail + [0x80] + Zeros(119 - |tail|) + length)
         == Parse(whole) + [tail + [0x80] + Zeros(63 - |tail|)] + [Zeros(56) + length]
  {
    var flushed := tail + [0x80] + Zeros(63 - |tail|);
    assert Zeros(119 - |tail|) == Zeros(63 - |tail|) + Zeros(56);
    assert whole + tail + [0x80] + Zeros(119 - |tail|) + length == (whole + flushed) + (Zeros(56) + length);
    ParseSnoc(whole, flushed);
    ParseSnoc(whole + flushed, Zeros(56) + length);
  }

  lemma PadZerosTail(n: nat)
    ensures PadZeros(n) == if n - Whole(n) < 56 then 55 - (n - Whole(n)) else 119 - (n - Whole(n))
  {
  }

  lemma LastBlocksPad(whole: seq<bv8>, tail: seq<bv8>, e: Context)
    requires e.Live() && |whole| == Whole(|whole + tail|) && |tail| == e.datalen && e.data[..e.datalen] == tail
    requires (e.bitlen + e.datalen * 8) % TWO64 == 8 * |whole + tail| % TWO64
    ensures Parse(whole) + LastBlocks(e) == Parse(Pad(whole + tail))
  {
    hide LengthBytes, Zeros, Parse;
    var length := LengthBytes(8 * |whole + tail| % TWO64);
    PadZerosTail(|whole + tail|);
    if |tail| < 56 {
      OneLastBlock(whole, tail, length);
    } else {
      TwoLastBlocks(whole, tail, length);
      Associate(Parse(whole), Flushed(e), [Front(e) + length]);
    }
  }

  /** Everything fed, flushed block included, is the parsed padded message. */
  lemma StreamedBlocks(c: Context, m: seq<bv8>)
    requires c.Fresh() && c.Live()
    ensures Absorb(c, m).fed + LastBlocks(Absorb(c, m)) == Parse(Pad(m))
  {
    AbsorbHolds(c, m);
    CountedBits(Absorb(c, m), m);
    var w := Whole(|m|);
    assert m == m[..w] + m[w..];
    LastBlocksPad(m[..w], m[w..], Absorb(c, m));
  }
}
