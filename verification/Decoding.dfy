/**
 What Utf8ToUtf16 makes of any bytes, well-formed or not, in arithmetic: no masks, no shifts, no functions of the
 decoder. Numbers are 32 bits wide and stay below 2^21, so nothing wraps.
 */
module Decoding {
  import opened Utf

  /** How many bytes a leading byte announces; none for 80-BF and F8-FF. */
  function Announced(c: bv8): (n: nat)
    ensures n <= 4
  {
    if c < 128 then 1 else if c < 192 then 0 else if c < 224 then 2 else if c < 240 then 3 else if c < 248 then 4 else 0
  }

  /** Of a following byte only the remainder by 64 counts, whatever its top two bits. */
  function Follows(value: bv32, c: bv8): (r: bv32) {
    value * 64 + (c as bv32) % 64
  }

  /** The number in the first `n` bytes. */
  function Value(s: seq<bv8>, n: nat): (r: bv32)
    requires 1 <= n <= |s| && n <= 4
  {
    var c := s[0] as bv32;
    if n == 1 then c
    else if n == 2 then Follows(c % 32, s[1])
    else if n == 3 then Follows(Follows(c % 16, s[1]), s[2])
    else Follows(Follows(Follows(c % 8, s[1]), s[2]), s[3])
  }

  /** Its units: itself, a surrogate pair, or nothing beyond U+10FFFF. */
  function Pushed(v: bv32): (u: seq<bv16>) {
    if v < 0x1_0000 then [v as bv16]
    else if v < 0x11_0000 then
      [(0xD800 + (v - 0x1_0000) / 1024) as bv16, (0xDC00 + (v - 0x1_0000) % 1024) as bv16]
    else []
  }

  /** A byte that announces nothing is skipped; a sequence cut short ends the text. */
  function Decoded(s: seq<bv8>): (u: seq<bv16>)
    decreases |s|
  {
    if s == [] then []
    else
      var n := Announced(s[0]);
      if n == 0 then Decoded(s[1..]) else if n > |s| then [] else Pushed(Value(s, n)) + Decoded(s[n..])
  }

  lemma AnnouncedLength(c: bv8)
    ensures LeadLength(c) == Announced(c)
  {
  }

  lemma LeadRemainder(c: bv8)
    ensures LeadLength(c) == 1 ==> LeadBits(c) == c as bv32
    ensures LeadLength(c) == 2 ==> LeadBits(c) == (c as bv32) % 32
    ensures LeadLength(c) == 3 ==> LeadBits(c) == (c as bv32) % 16
    ensures LeadLength(c) == 4 ==> LeadBits(c) == (c as bv32) % 8
  {
  }

  lemma ContinueFollows(value: bv32, c: bv8)
    ensures Continue(value, c) == Follows(value, c)
  {
  }

  lemma ReadInNumbers(s: seq<bv8>, n: nat)
    requires 1 <= n <= |s| && n == LeadLength(s[0])
    ensures CodePoint(s, n) == Value(s, n)
  {
    hide LeadLength, LeadBits, Continue, Follows;
    LeadRemainder(s[0]);
    if n >= 2 {
      ContinueFollows(LeadBits(s[0]), s[1]);
      assert CodePoint(s, 2) == Continue(CodePoint(s, 1), s[1]);
    }
    if n >= 3 {
      ContinueFollows(CodePoint(s, 2), s[2]);
      assert CodePoint(s, 3) == Continue(CodePoint(s, 2), s[2]);
    }
    if n >= 4 {
      ContinueFollows(CodePoint(s, 3), s[3]);
      assert CodePoint(s, 4) == Continue(CodePoint(s, 3), s[3]);
    }
  }

  lemma UnitsPushed(v: bv32)
    ensures Units(v) == Pushed(v)
  {
  }

  /** The decoder, on all bytes. */
  lemma {:induction false} DecodesAllBytes(s: seq<bv8>)
    ensures ToUtf16(s) == Decoded(s)
    decreases |s|
  {
    hide LeadLength, Announced, CodePoint, Value, Units, Pushed;
    if s != [] {
      AnnouncedLength(s[0]);
      var n := LeadLength(s[0]);
      if n == 0 {
        DecodesAllBytes(s[1..]);
      } else if n <= |s| {
        DecodesAllBytes(s[n..]);
        ReadInNumbers(s, n);
        UnitsPushed(CodePoint(s, n));
      }
    }
  }

  // ----- The top two bits of following bytes -----

  /** The same leading bytes, and following bytes that differ in nothing but their top two bits. */
  predicate Alike(s: seq<bv8>, t: seq<bv8>)
    decreases |s|
  {
    && |s| == |t|
    && (s != [] ==>
        var n := Announced(s[0]);
        && t[0] == s[0]
        && (n == 0 ==> Alike(s[1..], t[1..]))
        && (1 <= n <= |s| ==>
            (forall i :: 1 <= i < n ==> t[i] % 64 == s[i] % 64) && Alike(s[n..], t[n..])))
  }

  lemma SameRemainder(value: bv32, c: bv8, d: bv8)
    requires c % 64 == d % 64
    ensures Follows(value, c) == Follows(value, d)
  {
  }

  lemma SameValue(s: seq<bv8>, t: seq<bv8>, n: nat)
    requires 1 <= n <= 4 && n <= |s| && n <= |t| && s[0] == t[0] && forall i :: 1 <= i < n ==> t[i] % 64 == s[i] % 64
    ensures Value(s, n) == Value(t, n)
  {
    hide Follows;
    forall i: nat, value: bv32 | 1 <= i < n
      ensures Follows(value, s[i]) == Follows(value, t[i])
    {
      SameRemainder(value, s[i], t[i]);
    }
  }

  /** They are decoded alike. */
  lemma {:induction false} FollowingBitsIgnored(s: seq<bv8>, t: seq<bv8>)
    requires Alike(s, t)
    ensures ToUtf16(s) == ToUtf16(t)
    decreases |s|
  {
    hide Announced, Value, Pushed, ToUtf16;
    DecodesAllBytes(s);
    DecodesAllBytes(t);
    if s != [] {
      var n := Announced(s[0]);
      if n == 0 {
        FollowingBitsIgnored(s[1..], t[1..]);
        DecodesAllBytes(s[1..]);
        DecodesAllBytes(t[1..]);
      } else if n <= |s| {
        FollowingBitsIgnored(s[n..], t[n..]);
        DecodesAllBytes(s[n..]);
        DecodesAllBytes(t[n..]);
        SameValue(s, t, n);
      }
    }
  }
}
