/** The reference texts: the octet grammar of RFC 3629 (section 4) and the encoding of RFC 2781 (section 2.1). */
module Rfc {
  import opened Utf

  predicate IsScalar(cp: bv32) { cp <= 0x10FFFF && !(0xD800 <= cp <= 0xDFFF) }

  predicate Tail(b: bv8) { 0x80 <= b <= 0xBF }

  predicate TwoOctets(a: bv8, b: bv8) {
    0xC2 <= a <= 0xDF && Tail(b)
  }

  predicate ThreeOctets(a: bv8, b: bv8, c: bv8) {
    && Tail(c)
    && (
      || (a == 0xE0 && 0xA0 <= b <= 0xBF)
      || (0xE1 <= a <= 0xEC && Tail(b))
      || (a == 0xED && 0x80 <= b <= 0x9F)
      || (0xEE <= a <= 0xEF && Tail(b))
    )
  }

  predicate FourOctets(a: bv8, b: bv8, c: bv8, d: bv8) {
    && Tail(c) && Tail(d)
    && (
      || (a == 0xF0 && 0x90 <= b <= 0xBF)
      || (0xF1 <= a <= 0xF3 && Tail(b))
      || (a == 0xF4 && 0x80 <= b <= 0x8F)
    )
  }

  /** Length of the UTF8-char of RFC 3629, section 4, that starts `s`; 0 when none does. */
  function CharLength(s: seq<bv8>): (n: nat)
    ensures n <= |s| && n <= 4
  {
    if |s| >= 1 && s[0] <= 0x7F then 1
    else if |s| >= 2 && TwoOctets(s[0], s[1]) then 2
    else if |s| >= 3 && ThreeOctets(s[0], s[1], s[2]) then 3
    else if |s| >= 4 && FourOctets(s[0], s[1], s[2], s[3]) then 4
    else 0
  }

  /** UTF8-octets: a sequence of UTF8-chars. */
  predicate WellFormed(s: seq<bv8>)
    decreases |s|
  {
    s == [] || (CharLength(s) > 0 && WellFormed(s[CharLength(s)..]))
  }

  /** Three octets that would encode a high (low) surrogate; the RFC's grammar has no such UTF8-char. */
  predicate HighForm(s: seq<bv8>) {
    |s| >= 3 && s[0] == 0xED && 0xA0 <= s[1] <= 0xAF && Tail(s[2])
  }

  predicate LowForm(s: seq<bv8>) {
    |s| >= 3 && s[0] == 0xED && 0xB0 <= s[1] <= 0xBF && Tail(s[2])
  }

  /**
   UTF-8 in which unpaired surrogates are allowed too: the grammar of section 4 extended with HighForm and
   LowForm, except that a HighForm is never directly followed by a LowForm.
   */
  predicate Generalized(s: seq<bv8>)
    decreases |s|
  {
    || s == []
    || (CharLength(s) > 0 && Generalized(s[CharLength(s)..]))
    || (HighForm(s) && !LowForm(s[3..]) && Generalized(s[3..]))
    || (LowForm(s) && Generalized(s[3..]))
  }

  predicate PairedAt(u: seq<bv16>, i: nat)
    requires i < |u|
  {
    && (IsHigh(u[i]) ==> i + 1 < |u| && IsLow(u[i + 1]))
    && (IsLow(u[i]) ==> i > 0 && IsHigh(u[i - 1]))
  }

  /** Every high surrogate is directly followed by a low one, every low one directly preceded by a high one. */
  predicate Paired(u: seq<bv16>) {
    forall i :: 0 <= i < |u| ==> PairedAt(u, i)
  }

  /** RFC 2781, section 2.1: W1 holds the ten high bits of U' = U - 0x10000, W2 the ten low bits. */
  function Words(cp: bv32): (r: seq<bv16>)
    requires IsScalar(cp)
  {
    if cp < 0x10000 then [cp as bv16]
    else
      var reduced := cp - 0x10000;
      [(0xD800 | (reduced >> 10)) as bv16, (0xDC00 | (reduced & 0x3FF)) as bv16]
  }

  /** RFC 3629, section 3: the bits of the character number filled in from the lowest, six to a following octet. */
  function Utf8Char(cp: bv32): (s: seq<bv8>)
    requires IsScalar(cp)
    ensures |s| > 0
  {
    if cp <= 0x7F then [(cp & 0x7F) as bv8]
    else if cp <= 0x7FF then
      [0xC0 | (((cp & 0x7C0) >> 6) as bv8), 0x80 | ((cp & 0x3F) as bv8)]
    else if cp <= 0xFFFF then
      [0xE0 | (((cp & 0xF000) >> 12) as bv8), 0x80 | (((cp & 0xFC0) >> 6) as bv8), 0x80 | ((cp & 0x3F) as bv8)]
    else
      [0xF0 | (((cp & 0x1C_0000) >> 18) as bv8), 0x80 | (((cp & 0x3_F000) >> 12) as bv8),
       0x80 | (((cp & 0xFC0) >> 6) as bv8), 0x80 | ((cp & 0x3F) as bv8)]
  }

  ghost predicate Scalars(cps: seq<bv32>) {
    forall i :: 0 <= i < |cps| ==> IsScalar(cps[i])
  }

  function Utf8Encoding(cps: seq<bv32>): (r: seq<bv8>)
    requires Scalars(cps)
  {
    if cps == [] then [] else Utf8Char(cps[0]) + Utf8Encoding(cps[1..])
  }

  function Utf16Encoding(cps: seq<bv32>): (r: seq<bv16>)
    requires Scalars(cps)
  {
    if cps == [] then [] else Words(cps[0]) + Utf16Encoding(cps[1..])
  }
}
