/**
 What the transcoders keep: the round trip on every unit sequence, the exact byte strings the opposite
 composite leaves alone, and the agreement with RFC 3629 and RFC 2781.
 */
module UtfProofs {
  import opened Rfc
  import opened Utf

  // ----- One code point -----

  lemma {:induction false} CodePointPrefix(o: seq<bv8>, rest: seq<bv8>, n: nat)
    requires 1 <= n <= |o|
    ensures CodePoint(o + rest, n) == CodePoint(o, n)
  {
    if n > 1 {
      CodePointPrefix(o, rest, n - 1);
    }
  }

  lemma CodePointUnfolds(s: seq<bv8>)
    ensures |s| >= 1 ==> CodePoint(s, 1) == LeadBits(s[0])
    ensures |s| >= 2 ==> CodePoint(s, 2) == Continue(LeadBits(s[0]), s[1])
    ensures |s| >= 3 ==> CodePoint(s, 3) == Continue(Continue(LeadBits(s[0]), s[1]), s[2])
    ensures |s| >= 4 ==> CodePoint(s, 4) == Continue(Continue(Continue(LeadBits(s[0]), s[1]), s[2]), s[3])
  {
    assert |s| >= 2 ==> CodePoint(s, 2) == Continue(CodePoint(s, 1), s[1]);
    assert |s| >= 3 ==> CodePoint(s, 3) == Continue(CodePoint(s, 2), s[2]);
    assert |s| >= 4 ==> CodePoint(s, 4) == Continue(CodePoint(s, 3), s[3]);
  }

  lemma ReadTwo(cp: bv32, a: bv8, b: bv8)
    requires 0x80 <= cp < 0x800
    requires a == ((cp >> 6) | 0xC0) as bv8 && b == ((cp & 0x3F) | 0x80) as bv8
    ensures LeadLength(a) == 2 && Continue(LeadBits(a), b) == cp
  {
  }

  lemma ReadThree(cp: bv32, a: bv8, b: bv8, c: bv8)
    requires 0x800 <= cp < 0x10000
    requires a == ((cp >> 12) | 0xE0) as bv8 && b == (((cp >> 6) & 0x3F) | 0x80) as bv8
    requires c == ((cp & 0x3F) | 0x80) as bv8
    ensures LeadLength(a) == 3 && Continue(Continue(LeadBits(a), b), c) == cp
  {
  }

  lemma ReadFour(cp: bv32, a: bv8, b: bv8, c: bv8, d: bv8)
    requires 0x10000 <= cp <= 0x10FFFF
    requires a == ((cp >> 18) | 0xF0) as bv8 && b == (((cp >> 12) & 0x3F) | 0x80) as bv8
    requires c == (((cp >> 6) & 0x3F) | 0x80) as bv8 && d == ((cp & 0x3F) | 0x80) as bv8
    ensures LeadLength(a) == 4 && Continue(Continue(Continue(LeadBits(a), b), c), d) == cp
  {
  }

  /** The octets of a code point announce their own number and read back as the code point. */
  lemma OctetsReadBack(cp: bv32)
    requires cp <= 0x10FFFF
    ensures LeadLength(Octets(cp)[0]) == |Octets(cp)|
    ensures CodePoint(Octets(cp), |Octets(cp)|) == cp
  {
    var o := Octets(cp);
    CodePointUnfolds(o);
    if cp < 0x80 {
    } else if cp < 0x800 {
      ReadTwo(cp, o[0], o[1]);
    } else if cp < 0x10000 {
      ReadThree(cp, o[0], o[1], o[2]);
    } else {
      ReadFour(cp, o[0], o[1], o[2], o[3]);
    }
  }

  lemma DecodeOctets(cp: bv32, rest: seq<bv8>)
    requires cp <= 0x10FFFF
    ensures ToUtf16(Octets(cp) + rest) == Units(cp) + ToUtf16(rest)
  {
    var o := Octets(cp);
    OctetsReadBack(cp);
    CodePointPrefix(o, rest, |o|);
    assert (o + rest)[|o|..] == rest;
  }

  /** A pair is decoded to the two units it came from, a single unit to itself. */
  lemma PairUnits(high: bv16, low: bv16)
    requires IsHigh(high) && IsLow(low)
    ensures Units(PairCodePoint(high, low)) == [high, low]
  {
  }

  lemma UnitUnits(u: bv16)
    ensures Units(u as bv32) == [u]
  {
  }

  lemma SingleStep(u: seq<bv16>)
    requires u != [] && !StartsWithPair(u)
    ensures ToUtf8(u) == Octets(u[0] as bv32) + ToUtf8(u[1..])
  {
  }

  lemma PairStep(u: seq<bv16>)
    requires StartsWithPair(u)
    ensures ToUtf8(u) == Octets(PairCodePoint(u[0], u[1])) + ToUtf8(u[2..])
  {
  }

  lemma RoundTripPair(u: seq<bv16>)
    requires StartsWithPair(u) && ToUtf16(ToUtf8(u[2..])) == u[2..]
    ensures ToUtf16(ToUtf8(u)) == u
  {
    PairStep(u);
    PairUnits(u[0], u[1]);
    DecodeOctets(PairCodePoint(u[0], u[1]), ToUtf8(u[2..]));
  }

  lemma RoundTripSingle(u: seq<bv16>)
    requires u != [] && !StartsWithPair(u) && ToUtf16(ToUtf8(u[1..])) == u[1..]
    ensures ToUtf16(ToUtf8(u)) == u
  {
    SingleStep(u);
    UnitUnits(u[0]);
    DecodeOctets(u[0] as bv32, ToUtf8(u[1..]));
  }

  /**
   Encoding to UTF-8 and decoding again gives back every unit sequence, unpaired surrogates included.
   */
  lemma {:induction false} RoundTripUnits(u: seq<bv16>)
    ensures ToUtf16(ToUtf8(u)) == u
    decreases |u|
  {
    if u == [] {
    } else if StartsWithPair(u) {
      RoundTripUnits(u[2..]);
      RoundTripPair(u);
    } else {
      RoundTripUnits(u[1..]);
      RoundTripSingle(u);
    }
  }

  // ----- Reading a character of the grammar -----

  lemma TwoIdentity(a: bv8, b: bv8, cp: bv32)
    requires TwoOctets(a, b) && cp == Continue(LeadBits(a), b)
    ensures LeadLength(a) == 2 && 0x80 <= cp < 0x800
    ensures ((cp >> 6) | 0xC0) as bv8 == a && ((cp & 0x3F) | 0x80) as bv8 == b
  {
  }

  /** Three octets, the surrogate forms included. */
  lemma ThreeIdentity(a: bv8, b: bv8, c: bv8, cp: bv32)
    requires ThreeOctets(a, b, c) || (a == 0xED && 0xA0 <= b <= 0xBF && Tail(c))
    requires cp == Continue(Continue(LeadBits(a), b), c)
    ensures LeadLength(a) == 3 && 0x800 <= cp < 0x10000
    ensures ((cp >> 12) | 0xE0) as bv8 == a && (((cp >> 6) & 0x3F) | 0x80) as bv8 == b
    ensures ((cp & 0x3F) | 0x80) as bv8 == c
  {
  }

  lemma SurrogateOctets(a: bv8, b: bv8, c: bv8, cp: bv32)
    requires cp == Continue(Continue(LeadBits(a), b), c) && a & 0xF0 == 0xE0 && Tail(b)
    ensures 0xD800 <= cp <= 0xDBFF <==> a == 0xED && 0xA0 <= b <= 0xAF
    ensures 0xDC00 <= cp <= 0xDFFF <==> a == 0xED && 0xB0 <= b <= 0xBF
  {
  }

  lemma FourIdentity(a: bv8, b: bv8, c: bv8, d: bv8, cp: bv32)
    requires FourOctets(a, b, c, d) && cp == Continue(Continue(Continue(LeadBits(a), b), c), d)
    ensures LeadLength(a) == 4 && 0x10000 <= cp <= 0x10FFFF
    ensures ((cp >> 18) | 0xF0) as bv8 == a && (((cp >> 12) & 0x3F) | 0x80) as bv8 == b
    ensures (((cp >> 6) & 0x3F) | 0x80) as bv8 == c && ((cp & 0x3F) | 0x80) as bv8 == d
  {
  }

  predicate SurrogateForm(s: seq<bv8>) { HighForm(s) || LowForm(s) }

  lemma CharOfTwo(s: seq<bv8>)
    requires |s| >= 2 && TwoOctets(s[0], s[1])
    ensures LeadLength(s[0]) == 2 && IsScalar(CodePoint(s, 2)) && Octets(CodePoint(s, 2)) == s[..2]
  {
    hide Continue, LeadBits, LeadLength;
    CodePointUnfolds(s);
    TwoIdentity(s[0], s[1], CodePoint(s, 2));
    assert s[..2] == [s[0], s[1]];
  }

  lemma OctetsOfThree(cp: bv32, a: bv8, b: bv8, c: bv8)
    requires 0x800 <= cp < 0x10000
    requires ((cp >> 12) | 0xE0) as bv8 == a && (((cp >> 6) & 0x3F) | 0x80) as bv8 == b
    requires ((cp & 0x3F) | 0x80) as bv8 == c
    ensures Octets(cp) == [a, b, c]
  {
  }

  lemma ThreeRead(a: bv8, b: bv8, c: bv8, cp: bv32)
    requires ThreeOctets(a, b, c) || (a == 0xED && 0xA0 <= b <= 0xBF && Tail(c))
    requires cp == Continue(Continue(LeadBits(a), b), c)
    ensures LeadLength(a) == 3 && 0x800 <= cp < 0x10000 && Octets(cp) == [a, b, c]
  {
    ThreeIdentity(a, b, c, cp);
    OctetsOfThree(cp, a, b, c);
  }

  lemma CharOfThree(s: seq<bv8>)
    requires |s| >= 3 && (ThreeOctets(s[0], s[1], s[2]) || SurrogateForm(s))
    ensures LeadLength(s[0]) == 3 && CodePoint(s, 3) < 0x10000 && Octets(CodePoint(s, 3)) == s[..3]
  {
    CodePointUnfolds(s);
    assert s[..3] == [s[0], s[1], s[2]];
    ThreeRead(s[0], s[1], s[2], CodePoint(s, 3));
  }

  lemma ClassOfThree(s: seq<bv8>)
    requires |s| >= 3 && (ThreeOctets(s[0], s[1], s[2]) || SurrogateForm(s))
    ensures HighForm(s) <==> 0xD800 <= CodePoint(s, 3) <= 0xDBFF
    ensures LowForm(s) <==> 0xDC00 <= CodePoint(s, 3) <= 0xDFFF
  {
    CodePointUnfolds(s);
    SurrogateOctets(s[0], s[1], s[2], CodePoint(s, 3));
  }

  lemma OctetsOfFour(cp: bv32, a: bv8, b: bv8, c: bv8, d: bv8)
    requires 0x10000 <= cp <= 0x10FFFF
    requires ((cp >> 18) | 0xF0) as bv8 == a && (((cp >> 12) & 0x3F) | 0x80) as bv8 == b
    requires (((cp >> 6) & 0x3F) | 0x80) as bv8 == c && ((cp & 0x3F) | 0x80) as bv8 == d
    ensures Octets(cp) == [a, b, c, d]
  {
  }

  lemma FourRead(a: bv8, b: bv8, c: bv8, d: bv8, cp: bv32)
    requires FourOctets(a, b, c, d) && cp == Continue(Continue(Continue(LeadBits(a), b), c), d)
    ensures LeadLength(a) == 4 && 0x10000 <= cp <= 0x10FFFF && Octets(cp) == [a, b, c, d]
  {
    FourIdentity(a, b, c, d, cp);
    OctetsOfFour(cp, a, b, c, d);
  }

  lemma CharOfFour(s: seq<bv8>)
    requires |s| >= 4 && FourOctets(s[0], s[1], s[2], s[3])
    ensures LeadLength(s[0]) == 4 && 0x10000 <= CodePoint(s, 4) <= 0x10FFFF
    ensures Octets(CodePoint(s, 4)) == s[..4]
  {
    hide Octets, Continue, LeadBits, LeadLength;
    CodePointUnfolds(s);
    assert s[..4] == [s[0], s[1], s[2], s[3]];
    FourRead(s[0], s[1], s[2], s[3], CodePoint(s, 4));
  }

  /** A character of the grammar is decoded to a scalar value whose octets it is. */
  lemma CharIdentity(s: seq<bv8>)
    requires CharLength(s) > 0
    ensures LeadLength(s[0]) == CharLength(s)
    ensures IsScalar(CodePoint(s, CharLength(s))) && Octets(CodePoint(s, CharLength(s))) == s[..CharLength(s)]
  {
    var n := CharLength(s);
    if n == 1 {
      assert s[..1] == [s[0]];
    } else if n == 2 {
      CharOfTwo(s);
    } else if n == 3 {
      CharOfThree(s);
      ClassOfThree(s);
    } else {
      CharOfFour(s);
    }
  }

  predicate StartsLow(u: seq<bv16>) { u != [] && IsLow(u[0]) }

  lemma SupplementaryBits(cp: bv32, high: bv16, low: bv16)
    requires 0x10000 <= cp <= 0x10FFFF
    requires high == (((cp - 0x10000) >> 10) + 0xD800) as bv16
    requires low == (((cp - 0x10000) & 0x3FF) + 0xDC00) as bv16
    ensures IsHigh(high) && IsLow(low) && PairCodePoint(high, low) == cp
  {
  }

  lemma UnitBits(cp: bv32, unit: bv16)
    requires cp < 0x10000 && unit == (cp & 0xFFFF) as bv16
    ensures unit as bv32 == cp
    ensures IsHigh(unit) <==> 0xD800 <= cp <= 0xDBFF
    ensures IsLow(unit) <==> 0xDC00 <= cp <= 0xDFFF
  {
  }

  lemma EncodeFirst(unit: bv16, w: seq<bv16>)
    requires !(IsHigh(unit) && StartsLow(w))
    ensures ToUtf8([unit] + w) == Octets(unit as bv32) + ToUtf8(w)
  {
    hide ToUtf8, Octets;
    var u := [unit] + w;
    assert u[0] == unit && u[1..] == w && (w != [] ==> u[1] == w[0]);
    assert !StartsWithPair(u);
    SingleStep(u);
  }

  lemma EncodeUnit(cp: bv32, w: seq<bv16>)
    requires cp < 0x10000 && !(0xD800 <= cp <= 0xDBFF && StartsLow(w))
    ensures ToUtf8(Units(cp) + w) == Octets(cp) + ToUtf8(w)
  {
    var unit := (cp & 0xFFFF) as bv16;
    UnitBits(cp, unit);
    EncodeFirst(unit, w);
  }

  lemma EncodePair(cp: bv32, w: seq<bv16>)
    requires 0x10000 <= cp <= 0x10FFFF
    ensures ToUtf8(Units(cp) + w) == Octets(cp) + ToUtf8(w)
  {
    var u := Units(cp) + w;
    SupplementaryBits(cp, u[0], u[1]);
    assert u[2..] == w;
  }

  /** Encoding after decoding one code point, unless it would become the high half of a pair. */
  lemma EncodeUnits(cp: bv32, w: seq<bv16>)
    requires cp <= 0x10FFFF
    requires !(0xD800 <= cp <= 0xDBFF && StartsLow(w))
    ensures ToUtf8(Units(cp) + w) == Octets(cp) + ToUtf8(w)
  {
    if cp < 0x10000 {
      EncodeUnit(cp, w);
    } else {
      EncodePair(cp, w);
    }
  }

  /** Decoding a character that is no low surrogate never yields a leading low surrogate. */
  lemma DecodedStart(s: seq<bv8>)
    requires Generalized(s) && !LowForm(s)
    ensures !StartsLow(ToUtf16(s))
  {
    if s == [] {
    } else if CharLength(s) > 0 {
      CharIdentity(s);
      ScalarUnits(CodePoint(s, CharLength(s)));
    } else {
      CharOfThree(s);
    }
  }

  lemma ScalarUnits(cp: bv32)
    requires IsScalar(cp)
    ensures Units(cp) != [] && !StartsLow(Units(cp))
  {
  }

  /** One decoding step over a prefix that is a character or a surrogate form. */
  lemma DecodeHead(s: seq<bv8>, n: nat)
    requires 1 <= n <= |s| && LeadLength(s[0]) == n && CodePoint(s, n) <= 0x10FFFF
    requires Octets(CodePoint(s, n)) == s[..n]
    requires 0xD800 <= CodePoint(s, n) <= 0xDBFF ==> !StartsLow(ToUtf16(s[n..]))
    requires ToUtf8(ToUtf16(s[n..])) == s[n..]
    ensures ToUtf8(ToUtf16(s)) == s
  {
    hide Octets, Units, LeadLength, CodePoint, ToUtf8, ToUtf16;
    DecodeStep(s);
    EncodeUnits(CodePoint(s, n), ToUtf16(s[n..]));
    assert s == s[..n] + s[n..];
  }

  /** Decoding and encoding again gives back every generalized UTF-8 string. */
  lemma {:induction false} RoundTripGeneralized(s: seq<bv8>)
    requires Generalized(s)
    ensures ToUtf8(ToUtf16(s)) == s
    decreases |s|
  {
    if s == [] {
    } else if CharLength(s) > 0 && Generalized(s[CharLength(s)..]) {
      CharIdentity(s);
      RoundTripGeneralized(s[CharLength(s)..]);
      DecodeHead(s, CharLength(s));
    } else {
      CharOfThree(s);
      ClassOfThree(s);
      RoundTripGeneralized(s[3..]);
      if HighForm(s) {
        DecodedStart(s[3..]);
      }
      DecodeHead(s, 3);
    }
  }

  // ----- The encoder's output against the grammar -----

  lemma GrammarTwo(cp: bv32, a: bv8, b: bv8)
    requires 0x80 <= cp < 0x800
    requires ((cp >> 6) | 0xC0) as bv8 == a && ((cp & 0x3F) | 0x80) as bv8 == b
    ensures TwoOctets(a, b) && 0x7F < a
  {
  }

  lemma GrammarThree(cp: bv32, a: bv8, b: bv8, c: bv8)
    requires 0x800 <= cp < 0x10000
    requires ((cp >> 12) | 0xE0) as bv8 == a && (((cp >> 6) & 0x3F) | 0x80) as bv8 == b
    requires ((cp & 0x3F) | 0x80) as bv8 == c
    ensures 0xDF < a && Tail(b) && Tail(c)
    ensures ThreeOctets(a, b, c) <==> IsScalar(cp)
    ensures 0xD800 <= cp <= 0xDBFF <==> a == 0xED && 0xA0 <= b <= 0xAF
    ensures 0xDC00 <= cp <= 0xDFFF <==> a == 0xED && 0xB0 <= b <= 0xBF
  {
  }

  lemma GrammarFour(cp: bv32, a: bv8, b: bv8, c: bv8, d: bv8)
    requires 0x10000 <= cp <= 0x10FFFF
    requires ((cp >> 18) | 0xF0) as bv8 == a && (((cp >> 12) & 0x3F) | 0x80) as bv8 == b
    requires (((cp >> 6) & 0x3F) | 0x80) as bv8 == c && ((cp & 0x3F) | 0x80) as bv8 == d
    ensures FourOctets(a, b, c, d) && 0xEF < a
  {
  }

  lemma OctetsAreChar(cp: bv32, rest: seq<bv8>)
    requires IsScalar(cp)
    ensures CharLength(Octets(cp) + rest) == |Octets(cp)|
    ensures !LowForm(Octets(cp) + rest)
  {
    var s := Octets(cp) + rest;
    if cp < 0x80 {
      AsciiBits(cp, s[0]);
    } else if cp < 0x800 {
      GrammarTwo(cp, s[0], s[1]);
    } else if cp < 0x10000 {
      GrammarThree(cp, s[0], s[1], s[2]);
    } else {
      GrammarFour(cp, s[0], s[1], s[2], s[3]);
    }
  }

  lemma AsciiBits(cp: bv32, a: bv8)
    requires cp < 0x80 && a == cp as bv8
    ensures a <= 0x7F
  {
  }

  lemma OctetsAreSurrogate(cp: bv32, rest: seq<bv8>)
    requires 0xD800 <= cp <= 0xDFFF
    ensures |Octets(cp)| == 3 && CharLength(Octets(cp) + rest) == 0
    ensures HighForm(Octets(cp) + rest) <==> cp <= 0xDBFF
    ensures LowForm(Octets(cp) + rest) <==> 0xDC00 <= cp
  {
    var s := Octets(cp) + rest;
    GrammarThree(cp, s[0], s[1], s[2]);
  }

  lemma UnitClass(u: bv16)
    ensures IsHigh(u) <==> 0xD800 <= u as bv32 <= 0xDBFF
    ensures IsLow(u) <==> 0xDC00 <= u as bv32 <= 0xDFFF
    ensures u as bv32 <= 0xFFFF
  {
  }

  /** The encoded form opens with the three octets of a low surrogate only if the units do. */
  lemma EncodedStart(u: seq<bv16>)
    ensures LowForm(ToUtf8(u)) ==> StartsLow(u)
  {
    if u == [] {
    } else if StartsWithPair(u) {
      PairStep(u);
      OctetsAreChar(PairCodePoint(u[0], u[1]), ToUtf8(u[2..]));
    } else {
      SingleStep(u);
      UnitClass(u[0]);
      if !IsHigh(u[0]) && !IsLow(u[0]) {
        OctetsAreChar(u[0] as bv32, ToUtf8(u[1..]));
      } else {
        OctetsAreSurrogate(u[0] as bv32, ToUtf8(u[1..]));
      }
    }
  }

  lemma CharThenGeneralized(o: seq<bv8>, rest: seq<bv8>)
    requires CharLength(o + rest) == |o| > 0
    ensures Generalized(rest) ==> Generalized(o + rest)
    ensures WellFormed(o + rest) <==> WellFormed(rest)
  {
    assert (o + rest)[|o|..] == rest;
  }

  lemma SurrogateThenGeneralized(o: seq<bv8>, rest: seq<bv8>)
    requires |o| == 3 && CharLength(o + rest) == 0 && SurrogateForm(o + rest)
    ensures Generalized(rest) && (HighForm(o + rest) ==> !LowForm(rest)) ==> Generalized(o + rest)
    ensures !WellFormed(o + rest)
  {
    assert (o + rest)[3..] == rest;
  }

  /** Whatever the units, the encoder's output is generalized UTF-8. */
  lemma {:induction false} EncodedIsGeneralized(u: seq<bv16>)
    ensures Generalized(ToUtf8(u))
    decreases |u|
  {
    if u == [] {
    } else if StartsWithPair(u) {
      var cp := PairCodePoint(u[0], u[1]);
      PairStep(u);
      EncodedIsGeneralized(u[2..]);
      OctetsAreChar(cp, ToUtf8(u[2..]));
      CharThenGeneralized(Octets(cp), ToUtf8(u[2..]));
    } else {
      var cp, rest := u[0] as bv32, ToUtf8(u[1..]);
      SingleStep(u);
      EncodedIsGeneralized(u[1..]);
      UnitClass(u[0]);
      if !IsHigh(u[0]) && !IsLow(u[0]) {
        OctetsAreChar(cp, rest);
        CharThenGeneralized(Octets(cp), rest);
      } else {
        EncodedStart(u[1..]);
        OctetsAreSurrogate(cp, rest);
        SurrogateThenGeneralized(Octets(cp), rest);
      }
    }
  }

  /**
   Decoding a byte string and encoding it again returns it exactly when it is generalized UTF-8; on any
   bytes, malformed, overlong or truncated, doing it twice is doing it once.
   */
  lemma ByteRoundTripExactly(s: seq<bv8>)
    ensures ToUtf8(ToUtf16(s)) == s <==> Generalized(s)
    ensures var once := ToUtf8(ToUtf16(s)); ToUtf8(ToUtf16(once)) == once
  {
    EncodedIsGeneralized(ToUtf16(s));
    RoundTripUnits(ToUtf16(s));
    if Generalized(s) {
      RoundTripGeneralized(s);
    }
  }

  lemma {:induction false} WellFormedIsGeneralized(s: seq<bv8>)
    requires WellFormed(s)
    ensures Generalized(s)
    decreases |s|
  {
    if s != [] {
      WellFormedIsGeneralized(s[CharLength(s)..]);
    }
  }

  /** Text well-formed by RFC 3629 survives the trip through UTF-16. */
  lemma WellFormedRoundTrip(s: seq<bv8>)
    requires WellFormed(s)
    ensures ToUtf8(ToUtf16(s)) == s
  {
    WellFormedIsGeneralized(s);
    RoundTripGeneralized(s);
  }

  lemma PairedPair(u: seq<bv16>)
    requires StartsWithPair(u)
    ensures Paired(u) <==> Paired(u[2..])
  {
    var v := u[2..];
    assert PairedAt(u, 0) && PairedAt(u, 1);
    forall i: nat | i < |v|
      ensures PairedAt(u, i + 2) <==> PairedAt(v, i)
    {
      assert v[i] == u[i + 2] && (i > 0 ==> v[i - 1] == u[i + 1]) && (i + 1 < |v| ==> v[i + 1] == u[i + 3]);
    }
    assert forall j :: 2 <= j < |u| ==> (PairedAt(u, j) <==> PairedAt(v, j - 2));
  }

  lemma PairedSingle(u: seq<bv16>)
    requires u != [] && !StartsWithPair(u)
    ensures Paired(u) <==> !IsHigh(u[0]) && !IsLow(u[0]) && Paired(u[1..])
  {
    var v := u[1..];
    assert PairedAt(u, 0) <==> !IsHigh(u[0]) && !IsLow(u[0]);
    if PairedAt(u, 0) {
      forall i: nat | i < |v|
        ensures PairedAt(u, i + 1) <==> PairedAt(v, i)
      {
        assert v[i] == u[i + 1] && (i > 0 ==> v[i - 1] == u[i]) && (i + 1 < |v| ==> v[i + 1] == u[i + 2]);
      }
      assert forall j :: 1 <= j < |u| ==> (PairedAt(u, j) <==> PairedAt(v, j - 1));
    }
  }

  /** The encoder's output is well-formed by RFC 3629 exactly when no surrogate is unpaired. */
  lemma {:induction false} EncodedWellFormedExactly(u: seq<bv16>)
    ensures WellFormed(ToUtf8(u)) <==> Paired(u)
    decreases |u|
  {
    if u == [] {
    } else if StartsWithPair(u) {
      var cp := PairCodePoint(u[0], u[1]);
      PairStep(u);
      PairedPair(u);
      EncodedWellFormedExactly(u[2..]);
      OctetsAreChar(cp, ToUtf8(u[2..]));
      CharThenGeneralized(Octets(cp), ToUtf8(u[2..]));
    } else {
      var cp, rest := u[0] as bv32, ToUtf8(u[1..]);
      SingleStep(u);
      PairedSingle(u);
      EncodedWellFormedExactly(u[1..]);
      UnitClass(u[0]);
      if !IsHigh(u[0]) && !IsLow(u[0]) {
        OctetsAreChar(cp, rest);
        CharThenGeneralized(Octets(cp), rest);
      } else {
        OctetsAreSurrogate(cp, rest);
        SurrogateThenGeneralized(Octets(cp), rest);
      }
    }
  }

  // ----- Agreement with the two RFCs -----

  lemma WordsAreUnits(cp: bv32)
    requires IsScalar(cp)
    ensures Units(cp) == Words(cp)
  {
  }

  lemma CharOfTable(cp: bv32)
    requires IsScalar(cp)
    ensures cp < 0x80 ==> (cp & 0x7F) as bv8 == cp as bv8
    ensures 0x80 <= cp < 0x800 ==> 0xC0 | (((cp & 0x7C0) >> 6) as bv8) == ((cp >> 6) | 0xC0) as bv8
    ensures 0x800 <= cp < 0x10000 ==> 0xE0 | (((cp & 0xF000) >> 12) as bv8) == ((cp >> 12) | 0xE0) as bv8
    ensures 0x10000 <= cp ==> 0xF0 | (((cp & 0x1C_0000) >> 18) as bv8) == ((cp >> 18) | 0xF0) as bv8
  {
  }

  lemma TailsOfTable(cp: bv32)
    ensures 0x80 | ((cp & 0x3F) as bv8) == ((cp & 0x3F) | 0x80) as bv8
    ensures 0x80 | (((cp & 0xFC0) >> 6) as bv8) == (((cp >> 6) & 0x3F) | 0x80) as bv8
    ensures 0x80 | (((cp & 0x3_F000) >> 12) as bv8) == (((cp >> 12) & 0x3F) | 0x80) as bv8
  {
  }

  /** The octets the encoder pushes are those of the table of RFC 3629, section 3. */
  lemma OctetsAreTable(cp: bv32)
    requires IsScalar(cp)
    ensures Octets(cp) == Utf8Char(cp)
  {
    CharOfTable(cp);
    TailsOfTable(cp);
  }

  /** On sequences of scalar values both transcoders translate one RFC's encoding into the other's. */
  lemma {:induction false} BetweenEncodings(cps: seq<bv32>)
    requires Scalars(cps)
    ensures ToUtf16(Utf8Encoding(cps)) == Utf16Encoding(cps)
    ensures ToUtf8(Utf16Encoding(cps)) == Utf8Encoding(cps)
    ensures WellFormed(Utf8Encoding(cps))
  {
    if cps != [] {
      var cp, rest := cps[0], cps[1..];
      BetweenEncodings(rest);
      WordsAreUnits(cp);
      OctetsAreTable(cp);
      DecodeOctets(cp, Utf8Encoding(rest));
      EncodeUnits(cp, Utf16Encoding(rest));
      OctetsAreChar(cp, Utf8Encoding(rest));
      CharThenGeneralized(Octets(cp), Utf8Encoding(rest));
    }
  }

  lemma SpelledFirst(s: seq<bv8>, rest: seq<bv32>)
    requires CharLength(s) > 0 && Scalars(rest) && Utf8Encoding(rest) == s[CharLength(s)..]
    ensures var cps := [CodePoint(s, CharLength(s))] + rest; Scalars(cps) && Utf8Encoding(cps) == s
  {
    hide Octets, Utf8Char, CodePoint, LeadLength;
    CharIdentity(s);
    OctetsAreTable(CodePoint(s, CharLength(s)));
    var cps := [CodePoint(s, CharLength(s))] + rest;
    assert cps[1..] == rest;
    assert s == s[..CharLength(s)] + s[CharLength(s)..];
  }

  /** The scalar values a well-formed string spells. */
  ghost function Spelled(s: seq<bv8>): (cps: seq<bv32>)
    requires WellFormed(s)
    ensures Scalars(cps) && Utf8Encoding(cps) == s
    decreases |s|
  {
    if s == [] then []
    else
      SpelledFirst(s, Spelled(s[CharLength(s)..]));
      [CodePoint(s, CharLength(s))] + Spelled(s[CharLength(s)..])
  }

  /** For well-formed text the decoded form is the RFC 2781 encoding of the scalar values it spells. */
  lemma MiddleForm(s: seq<bv8>)
    requires WellFormed(s)
    ensures ToUtf16(s) == Utf16Encoding(Spelled(s))
    ensures Paired(ToUtf16(s))
  {
    BetweenEncodings(Spelled(s));
    WellFormedRoundTrip(s);
    EncodedWellFormedExactly(ToUtf16(s));
  }
}
