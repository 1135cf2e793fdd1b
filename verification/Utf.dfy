/**
 The UTF-8 / UTF-16 transcoders of the wire codec (src/Protocol.cpp:62-121).

 Bytes are `bv8`, UTF-16 units `bv16` and code points `bv32`, so every mask and shift is the source's own.
 `ToUtf16` and `ToUtf8` are total: neither the decoder nor the encoder ever reports an error.
 */
module Utf {
  import opened Sequences

  predicate IsHigh(u: bv16) { 0xD800 <= u <= 0xDBFF }

  predicate IsLow(u: bv16) { 0xDC00 <= u <= 0xDFFF }

  /** Length announced by a leading byte; 0 for a byte that cannot lead. */
  function LeadLength(c: bv8): (n: nat)
    ensures n <= 4
  {
    if c < 0x80 then 1
    else if c & 0xE0 == 0xC0 then 2
    else if c & 0xF0 == 0xE0 then 3
    else if c & 0xF8 == 0xF0 then 4
    else 0
  }

  /** The code point bits a leading byte contributes. */
  function LeadBits(c: bv8): (r: bv32) {
    if c < 0x80 then c as bv32
    else if c & 0xE0 == 0xC0 then (c & 0x1F) as bv32
    else if c & 0xF0 == 0xE0 then (c & 0x0F) as bv32
    else (c & 0x07) as bv32
  }

  /** Append six payload bits; the top two bits of `c` are ignored, not checked. */
  function Continue(cp: bv32, c: bv8): (r: bv32) {
    (cp << 6) | ((c as bv32) & 0x3F)
  }

  /** The code point read from the first `n` bytes of `s`. */
  function CodePoint(s: seq<bv8>, n: nat): (r: bv32)
    requires 1 <= n <= |s|
  {
    if n == 1 then LeadBits(s[0]) else Continue(CodePoint(s, n - 1), s[n - 1])
  }

  /** The units pushed for one code point; nothing beyond U+10FFFF. */
  function Units(cp: bv32): (u: seq<bv16>)
    ensures |u| <= 2
    ensures cp < 0x10000 ==> |u| == 1
  {
    if cp < 0x10000 then [(cp & 0xFFFF) as bv16]
    else if cp <= 0x10FFFF then
      [(((cp - 0x10000) >> 10) + 0xD800) as bv16, (((cp - 0x10000) & 0x3FF) + 0xDC00) as bv16]
    else []
  }

  /** What Utf8ToUtf16 returns: at most one unit per input byte. */
  function ToUtf16(s: seq<bv8>): (u: seq<bv16>)
    ensures |u| <= |s|
    decreases |s|
  {
    if s == [] then []
    else
      var n := LeadLength(s[0]);
      if n == 0 then ToUtf16(s[1..])
      else if |s| < n then []
      else
        assert n == 1 ==> CodePoint(s, n) < 0x10000;
        Units(CodePoint(s, n)) + ToUtf16(s[n..])
  }

  /** The inner loop of src/Protocol.cpp:76-78. */
  method ReadCodePoint(utf8: seq<bv8>, i: nat, len: nat) returns (cp: bv32)
    requires 1 <= len && i + len <= |utf8|
    ensures cp == CodePoint(utf8[i..], len)
  {
    hide LeadBits, Continue;
    cp := LeadBits(utf8[i]);
    for j := 1 to len
      invariant cp == CodePoint(utf8[i..], j)
    {
      cp := Continue(cp, utf8[i + j]);
    }
  }

  lemma DecodeStep(s: seq<bv8>)
    ensures ToUtf16([]) == []
    ensures s != [] ==>
      var n := LeadLength(s[0]);
      ToUtf16(s) == if n == 0 then ToUtf16(s[1..]) else if |s| < n then [] else Units(CodePoint(s, n)) + ToUtf16(s[n..])
  {
    hide LeadLength, CodePoint, Units;
  }

  method Utf8ToUtf16(utf8: seq<bv8>) returns (utf16: seq<bv16>)
    ensures utf16 == ToUtf16(utf8)
  {
    hide LeadLength, CodePoint, Units, ToUtf16;
    utf16 := [];
    var i := 0;
    DecodeStep(utf8);
    while i < |utf8|
      invariant i <= |utf8|
      invariant ToUtf16([]) == []
      invariant ToUtf16(utf8) == utf16 + ToUtf16(utf8[i..])
      decreases |utf8| - i
    {
      ghost var here := utf8[i..];
      DecodeStep(here);
      var len := LeadLength(utf8[i]);
      if len == 0 {
        assert here[1..] == utf8[i + 1..];
        i := i + 1;
        continue;
      }
      if |utf8| < i + len {
        break;
      }
      var cp := ReadCodePoint(utf8, i, len);
      assert here[len..] == utf8[i + len..];
      i := i + len;
      Associate(utf16, Units(cp), ToUtf16(utf8[i..]));
      utf16 := utf16 + Units(cp);
    }
  }

  /** The octets pushed for one code point. */
  function Octets(cp: bv32): (s: seq<bv8>)
    requires cp <= 0x10FFFF
    ensures 1 <= |s| <= 4
    ensures cp < 0x10000 ==> |s| <= 3
  {
    if cp < 0x80 then [cp as bv8]
    else if cp < 0x800 then [((cp >> 6) | 0xC0) as bv8, ((cp & 0x3F) | 0x80) as bv8]
    else if cp < 0x10000 then
      [((cp >> 12) | 0xE0) as bv8, (((cp >> 6) & 0x3F) | 0x80) as bv8, ((cp & 0x3F) | 0x80) as bv8]
    else
      [((cp >> 18) | 0xF0) as bv8, (((cp >> 12) & 0x3F) | 0x80) as bv8,
       (((cp >> 6) & 0x3F) | 0x80) as bv8, ((cp & 0x3F) | 0x80) as bv8]
  }

  /** The supplementary code point of a surrogate pair. */
  function PairCodePoint(high: bv16, low: bv16): (cp: bv32)
    requires IsHigh(high) && IsLow(low)
    ensures 0x10000 <= cp <= 0x10FFFF
  {
    (((high as bv32) - 0xD800) << 10) + ((low as bv32) - 0xDC00) + 0x10000
  }

  predicate StartsWithPair(u: seq<bv16>) {
    |u| >= 2 && IsHigh(u[0]) && IsLow(u[1])
  }

  /** What Utf16ToUtf8 returns; an unpaired surrogate is encoded like any other unit. */
  function ToUtf8(u: seq<bv16>): (s: seq<bv8>)
    ensures |u| <= |s| <= 3 * |u|
  {
    if u == [] then []
    else if StartsWithPair(u) then
      var o := Octets(PairCodePoint(u[0], u[1]));
      assert |o| == 4;
      o + ToUtf8(u[2..])
    else Octets(u[0] as bv32) + ToUtf8(u[1..])
  }

  method Utf16ToUtf8(utf16: seq<bv16>) returns (utf8: seq<bv8>)
    ensures utf8 == ToUtf8(utf16)
  {
    utf8 := [];
    var i := 0;
    while i < |utf16|
      invariant i <= |utf16|
      invariant ToUtf8(utf16) == utf8 + ToUtf8(utf16[i..])
      decreases |utf16| - i
    {
      ghost var here := utf16[i..];
      assert here[1..] == utf16[i + 1..];
      assert |here| >= 2 ==> here[1] == utf16[i + 1] && here[2..] == utf16[i + 2..];
      var cp := utf16[i] as bv32;
      i := i + 1;
      if IsHigh(utf16[i - 1]) && i < |utf16| {
        var trail := utf16[i];
        if IsLow(trail) {
          cp := PairCodePoint(utf16[i - 1], trail);
          i := i + 1;
        }
      }
      Associate(utf8, Octets(cp), ToUtf8(utf16[i..]));
      utf8 := utf8 + Octets(cp);
    }
  }
}
