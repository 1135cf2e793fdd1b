/** Properties of the compression rounds and of the blocks they are given. */
module Sha256Proofs {
  import opened Bits
  import opened Fips
  import opened Sequences
  import opened Streaming

  // ----- The 64 rounds are a bijection -----

  /** Subtraction mod 2^32. */
  function Minus(x: bv32, y: bv32): (r: bv32) { x - y }

  lemma AddThenSubtract(x: bv32, y: bv32)
    ensures Minus(Plus(x, y), y) == x
  {
    assert Plus(x, y) == x + y && Minus(x + y, y) == x;
  }

  lemma SubtractThenAdd(x: bv32, y: bv32)
    ensures Plus(Minus(x, y), y) == x
  {
    assert Minus(x, y) == x - y && Plus(x - y, y) == x;
  }

  lemma PlusMinus(x: bv32, y: bv32)
    ensures Minus(Plus(x, y), y) == x && Plus(Minus(x, y), y) == x
  {
    AddThenSubtract(x, y);
    SubtractThenAdd(x, y);
  }

  /** The working variables before the round that left `v`. */
  function Unround(v: Words, k: bv32, w: bv32): (r: Words) {
    var t1 := Minus(v.a, Plus(BigSigma0(v.b), Maj(v.b, v.c, v.d)));
    Words(v.b, v.c, v.d, Minus(v.e, t1), v.f, v.g, v.h,
          Minus(Minus(Minus(Minus(t1, w), k), Ch(v.f, v.g, v.h)), BigSigma1(v.f)))
  }

  lemma PeelSum(h: bv32, s: bv32, c: bv32, k: bv32, w: bv32)
    ensures Minus(Minus(Minus(Minus(Plus(Plus(Plus(Plus(h, s), c), k), w), w), k), c), s) == h
    ensures Plus(Plus(Plus(Plus(Minus(Minus(Minus(Minus(h, w), k), c), s), s), c), k), w) == h
  {
    PlusMinus(Plus(Plus(Plus(h, s), c), k), w);
    PlusMinus(Plus(Plus(h, s), c), k);
    PlusMinus(Plus(h, s), c);
    PlusMinus(h, s);
    PlusMinus(Minus(Minus(Minus(h, w), k), c), s);
    PlusMinus(Minus(Minus(h, w), k), c);
    PlusMinus(Minus(h, w), k);
    PlusMinus(h, w);
  }

  lemma UnroundRound(v: Words, k: bv32, w: bv32)
    ensures Unround(Round(v, k, w), k, w) == v
  {
    PlusMinus(T1(v, k, w), T2(v));
    PlusMinus(v.d, T1(v, k, w));
    PeelSum(v.h, BigSigma1(v.e), Ch(v.e, v.f, v.g), k, w);
  }

  lemma RoundUnround(v: Words, k: bv32, w: bv32)
    ensures Round(Unround(v, k, w), k, w) == v
  {
    var t2 := Plus(BigSigma0(v.b), Maj(v.b, v.c, v.d));
    var t1 := Minus(v.a, t2);
    PlusMinus(v.a, t2);
    PlusMinus(v.e, t1);
    PeelSum(t1, BigSigma1(v.f), Ch(v.f, v.g, v.h), k, w);
  }

  /** The inverse rounds `t - 1` down to 0. */
  function Unrounds(v: Words, block: seq<bv8>, t: nat): (r: Words)
    requires IsBlock(block) && t <= 64
    decreases t
  {
    if t == 0 then v
    else
      ConstantCount();
      Unrounds(Unround(v, K[t - 1], W(block, t - 1)), block, t - 1)
  }

  lemma {:induction false} UnroundsRounds(v: Words, block: seq<bv8>, t: nat)
    requires IsBlock(block) && t <= 64
    ensures Unrounds(Rounds(v, block, t), block, t) == v
    decreases t
  {
    hide Round, Unround, W;
    if t > 0 {
      ConstantCount();
      UnroundRound(Rounds(v, block, t - 1), K[t - 1], W(block, t - 1));
      UnroundsRounds(v, block, t - 1);
    }
  }

  lemma {:induction false} RoundsUnrounds(v: Words, block: seq<bv8>, t: nat)
    requires IsBlock(block) && t <= 64
    ensures Rounds(Unrounds(v, block, t), block, t) == v
    decreases t
  {
    hide Round, Unround, W;
    if t > 0 {
      ConstantCount();
      var k, w := K[t - 1], W(block, t - 1);
      RoundsUnrounds(Unround(v, k, w), block, t - 1);
      RoundUnround(v, k, w);
    }
  }

  /** For every block the rounds map the eight words one to one onto the eight words. */
  lemma RoundsBijective(block: seq<bv8>, x: Words, y: Words)
    requires IsBlock(block)
    ensures Rounds(x, block, 64) == Rounds(y, block, 64) ==> x == y
    ensures exists v :: Rounds(v, block, 64) == y
  {
    UnroundsRounds(x, block, 64);
    UnroundsRounds(y, block, 64);
    RoundsUnrounds(y, block, 64);
  }

  // ----- The rounds as two recurrences -----

  datatype Pair = Pair(a: bv32, e: bv32)

  /** A(t) and E(t) with A(3), E(3) the first a, e and A(0..2), E(0..2) their delayed copies. */
  function Recurrence(v: Words, block: seq<bv8>, t: nat): (r: Pair)
    requires IsBlock(block) && t <= 67
  {
    if t == 0 then Pair(v.d, v.h)
    else if t == 1 then Pair(v.c, v.g)
    else if t == 2 then Pair(v.b, v.f)
    else if t == 3 then Pair(v.a, v.e)
    else
      ConstantCount();
      var p1, p2 := Recurrence(v, block, t - 1), Recurrence(v, block, t - 2);
      var p3, p4 := Recurrence(v, block, t - 3), Recurrence(v, block, t - 4);
      var t1 := Plus(Plus(Plus(Plus(p4.e, BigSigma1(p1.e)), Ch(p1.e, p2.e, p3.e)), K[t - 4]), W(block, t - 4));
      Pair(Plus(t1, Plus(BigSigma0(p1.a), Maj(p1.a, p2.a, p3.a))), Plus(p4.a, t1))
  }

  lemma RecurrenceStep(v: Words, block: seq<bv8>, t: nat, u: Words)
    requires IsBlock(block) && 4 <= t <= 67 && |K| == 64
    requires u.a == Recurrence(v, block, t - 1).a && u.e == Recurrence(v, block, t - 1).e
    requires u.b == Recurrence(v, block, t - 2).a && u.f == Recurrence(v, block, t - 2).e
    requires u.c == Recurrence(v, block, t - 3).a && u.g == Recurrence(v, block, t - 3).e
    requires u.d == Recurrence(v, block, t - 4).a && u.h == Recurrence(v, block, t - 4).e
    ensures var r := Round(u, K[t - 4], W(block, t - 4)); Recurrence(v, block, t) == Pair(r.a, r.e)
  {
    hide BigSigma0, BigSigma1, Ch, Maj, Plus, W, K;
  }

  /** b, c, d and f, g, h are never more than a and e delayed by one, two and three rounds. */
  lemma {:induction false} RoundsAreRecurrence(v: Words, block: seq<bv8>, t: nat)
    requires IsBlock(block) && t <= 64
    ensures Rounds(v, block, t) == Words(
      Recurrence(v, block, t + 3).a, Recurrence(v, block, t + 2).a,
      Recurrence(v, block, t + 1).a, Recurrence(v, block, t).a,
      Recurrence(v, block, t + 3).e, Recurrence(v, block, t + 2).e,
      Recurrence(v, block, t + 1).e, Recurrence(v, block, t).e)
  {
    hide BigSigma0, BigSigma1, Ch, Maj, Plus, W, T1, T2, K;
    if t > 0 {
      ConstantCount();
      RoundsAreRecurrence(v, block, t - 1);
      RecurrenceStep(v, block, t + 3, Rounds(v, block, t - 1));
    }
  }

  // ----- The blocks determine the message -----

  lemma ParseEnds(s: seq<bv8>)
    requires |s| % 64 == 0 && s != []
    ensures |Parse(s)| > 0 && Parse(s)[..|Parse(s)| - 1] == Parse(s[..|s| - 64])
    ensures Parse(s)[|Parse(s)| - 1] == s[|s| - 64..]
  {
  }

  lemma {:induction false} ParseInjective(s: seq<bv8>, t: seq<bv8>)
    requires |s| % 64 == 0 && |t| % 64 == 0 && Parse(s) == Parse(t)
    ensures s == t
    decreases |s|
  {
    hide Parse;
    assert |s| == |t|;
    if s != [] {
      ParseEnds(s);
      ParseEnds(t);
      ParseInjective(s[..|s| - 64], t[..|t| - 64]);
      assert s == s[..|s| - 64] + s[|s| - 64..] && t == t[..|t| - 64] + t[|t| - 64..];
    }
  }

  lemma Between(p: nat, q: nat, m: nat)
    requires p < q
    ensures p * m + m <= q * m
  {
    var k := q - p - 1;
    assert q == p + k + 1;
    assert (p + k + 1) * m == p * m + k * m + m;
  }

  lemma QuotientUnique(p: nat, t: nat, q: nat, r: nat, m: nat)
    requires p * m + t == q * m + r && t < m && r < m
    ensures p == q
  {
    if p < q {
      Between(p, q, m);
    } else if q < p {
      Between(q, p, m);
    }
  }

  lemma Regrouped(p: nat, s: nat, d: nat)
    requires s < 256
    ensures (256 * p + s) * d == p * (256 * d) + s * d && s * d <= 255 * d
  {
    Between(s, 256, d);
    assert 256 * d == 255 * d + d;
  }

  function Quotient(x: nat, d: nat): (r: nat)
    requires d > 0
  {
    x / d
  }

  function Remainder(x: nat, d: nat): (r: nat)
    requires d > 0
  {
    x % d
  }

  lemma Divided(x: nat, d: nat)
    requires d > 0
    ensures x == Quotient(x, d) * d + Remainder(x, d) && Remainder(x, d) < d
  {
  }

  /** A quotient by `d`, and the one by the next power of 256. */
  lemma Digit(q: nat, r: nat, d: nat, upper: nat, rest: nat, next: nat)
    requires q * d + r == upper * next + rest && r < d && rest < next && next == 256 * d
    ensures q == 256 * upper + q % 256
  {
    var p, s := q / 256, q % 256;
    Regrouped(p, s, d);
    QuotientUnique(p, s * d + r, upper, rest, next);
  }

  /** If the digits at `d` are equal, equality above them is equality. */
  lemma BothDigits(x: nat, y: nat, d: nat, next: nat)
    requires 0 < d && next == 256 * d && Quotient(x, d) % 256 == Quotient(y, d) % 256
    ensures Quotient(x, next) == Quotient(y, next) ==> Quotient(x, d) == Quotient(y, d)
  {
    hide Quotient, Remainder;
    Divided(x, d);
    Divided(x, next);
    Digit(Quotient(x, d), Remainder(x, d), d, Quotient(x, next), Remainder(x, next), next);
    Divided(y, d);
    Divided(y, next);
    Digit(Quotient(y, d), Remainder(y, d), d, Quotient(y, next), Remainder(y, next), next);
  }

  lemma DigitsDetermine(x: nat, y: nat)
    requires x % 256 == y % 256 && x / 0x100 % 256 == y / 0x100 % 256
    requires x / 0x1_0000 % 256 == y / 0x1_0000 % 256 && x / 0x100_0000 % 256 == y / 0x100_0000 % 256
    requires x / 0x1_0000_0000 % 256 == y / 0x1_0000_0000 % 256
    requires x / 0x100_0000_0000 % 256 == y / 0x100_0000_0000 % 256
    requires x / 0x1_0000_0000_0000 % 256 == y / 0x1_0000_0000_0000 % 256
    requires x / 0x100_0000_0000_0000 == y / 0x100_0000_0000_0000
    ensures x == y
  {
    BothDigits(x, y, 1, 0x100);
    BothDigits(x, y, 0x100, 0x1_0000);
    BothDigits(x, y, 0x1_0000, 0x100_0000);
    BothDigits(x, y, 0x100_0000, 0x1_0000_0000);
    BothDigits(x, y, 0x1_0000_0000, 0x100_0000_0000);
    BothDigits(x, y, 0x100_0000_0000, 0x1_0000_0000_0000);
    BothDigits(x, y, 0x1_0000_0000_0000, 0x100_0000_0000_0000);
  }

  lemma SameByte(x: nat, y: nat)
    requires x < 256 && y < 256 && Byte(x) == Byte(y)
    ensures x == y
  {
  }

  lemma LengthInjective(x: nat, y: nat)
    requires x < TWO64 && y < TWO64 && LengthBytes(x) == LengthBytes(y)
    ensures x == y
  {
    var s, t := LengthBytes(x), LengthBytes(y);
    assert s[0] == t[0] && s[1] == t[1] && s[2] == t[2] && s[3] == t[3];
    assert s[4] == t[4] && s[5] == t[5] && s[6] == t[6] && s[7] == t[7];
    SameByte(x / 0x100_0000_0000_0000, y / 0x100_0000_0000_0000);
    SameByte(x / 0x1_0000_0000_0000 % 256, y / 0x1_0000_0000_0000 % 256);
    SameByte(x / 0x100_0000_0000 % 256, y / 0x100_0000_0000 % 256);
    SameByte(x / 0x1_0000_0000 % 256, y / 0x1_0000_0000 % 256);
    SameByte(x / 0x100_0000 % 256, y / 0x100_0000 % 256);
    SameByte(x / 0x1_0000 % 256, y / 0x1_0000 % 256);
    SameByte(x / 0x100 % 256, y / 0x100 % 256);
    SameByte(x % 256, y % 256);
    DigitsDetermine(x, y);
  }

  function Octet(b: bv8): (n: nat) {
    b as int
  }

  /** The number eight bytes spell, most significant first. */
  function BigEndianValue(s: seq<bv8>): (n: nat) {
    if s == [] then 0 else 256 * BigEndianValue(s[..|s| - 1]) + Octet(s[|s| - 1])
  }

  lemma ValueMore(s: seq<bv8>, b: bv8)
    ensures BigEndianValue(s + [b]) == 256 * BigEndianValue(s) + Octet(b)
  {
    assert (s + [b])[..|s|] == s;
  }

  lemma DigitAt(x: nat, d: nat, next: nat)
    requires 0 < d && next == 256 * d
    ensures Quotient(x, d) == 256 * Quotient(x, next) + Quotient(x, d) % 256
  {
    hide Quotient, Remainder;
    Divided(x, d);
    Divided(x, next);
    Digit(Quotient(x, d), Remainder(x, d), d, Quotient(x, next), Remainder(x, next), next);
  }

  lemma ValueFour(s: seq<bv8>, a: bv8, b: bv8, c: bv8, d: bv8)
    ensures BigEndianValue(s + [a] + [b] + [c] + [d])
         == 256 * (256 * (256 * (256 * BigEndianValue(s) + Octet(a)) + Octet(b)) + Octet(c)) + Octet(d)
  {
    hide BigEndianValue, Octet;
    ValueMore(s, a);
    ValueMore(s + [a], b);
    ValueMore(s + [a] + [b], c);
    ValueMore(s + [a] + [b] + [c], d);
  }

  lemma ValueEight(a: bv8, b: bv8, c: bv8, d: bv8, e: bv8, f: bv8, g: bv8, h: bv8)
    ensures BigEndianValue([a, b, c, d, e, f, g, h])
         == 256 * (256 * (256 * (256 * (256 * (256 * (256 * Octet(a) + Octet(b)) + Octet(c)) + Octet(d)) + Octet(e))
              + Octet(f)) + Octet(g)) + Octet(h)
  {
    hide BigEndianValue, Octet;
    ValueNothing();
    ValueFour([], a, b, c, d);
    ValueFour([] + [a] + [b] + [c] + [d], e, f, g, h);
    assert [] + [a] + [b] + [c] + [d] + [e] + [f] + [g] + [h] == [a, b, c, d, e, f, g, h];
  }

  lemma ValueNothing()
    ensures BigEndianValue([]) == 0
  {
  }

  /** The field's bytes are the digits in base 256. */
  lemma LengthDigits(bits: nat)
    requires bits < TWO64
    ensures var s := LengthBytes(bits);
      && Octet(s[7]) == Quotient(bits, 1) % 256 && Octet(s[6]) == Quotient(bits, 0x100) % 256
      && Octet(s[5]) == Quotient(bits, 0x1_0000) % 256 && Octet(s[4]) == Quotient(bits, 0x100_0000) % 256
      && Octet(s[3]) == Quotient(bits, 0x1_0000_0000) % 256 && Octet(s[2]) == Quotient(bits, 0x100_0000_0000) % 256
      && Octet(s[1]) == Quotient(bits, 0x1_0000_0000_0000) % 256
      && Octet(s[0]) == Quotient(bits, 0x100_0000_0000_0000) && Quotient(bits, 1) == bits
  {
  }

  lemma Horner(q0: nat, q1: nat, q2: nat, q3: nat, q4: nat, q5: nat, q6: nat, q7: nat,
               d0: nat, d1: nat, d2: nat, d3: nat, d4: nat, d5: nat, d6: nat)
    requires q0 == 256 * q1 + d0 && q1 == 256 * q2 + d1 && q2 == 256 * q3 + d2 && q3 == 256 * q4 + d3
    requires q4 == 256 * q5 + d4 && q5 == 256 * q6 + d5 && q6 == 256 * q7 + d6
    ensures q0 == 256 * (256 * (256 * (256 * (256 * (256 * (256 * q7 + d6) + d5) + d4) + d3) + d2) + d1) + d0
  {
  }

  /** Eight digits in base 256 and the number they make. */
  lemma DigitsMake(x: nat, d0: nat, d1: nat, d2: nat, d3: nat, d4: nat, d5: nat, d6: nat, d7: nat)
    requires d0 == Quotient(x, 1) % 256 && d1 == Quotient(x, 0x100) % 256 && d2 == Quotient(x, 0x1_0000) % 256
    requires d3 == Quotient(x, 0x100_0000) % 256 && d4 == Quotient(x, 0x1_0000_0000) % 256
    requires d5 == Quotient(x, 0x100_0000_0000) % 256 && d6 == Quotient(x, 0x1_0000_0000_0000) % 256
    requires d7 == Quotient(x, 0x100_0000_0000_0000)
    ensures Quotient(x, 1)
         == 256 * (256 * (256 * (256 * (256 * (256 * (256 * d7 + d6) + d5) + d4) + d3) + d2) + d1) + d0
  {
    hide Quotient;
    DigitAt(x, 1, 0x100);
    DigitAt(x, 0x100, 0x1_0000);
    DigitAt(x, 0x1_0000, 0x100_0000);
    DigitAt(x, 0x100_0000, 0x1_0000_0000);
    DigitAt(x, 0x1_0000_0000, 0x100_0000_0000);
    DigitAt(x, 0x100_0000_0000, 0x1_0000_0000_0000);
    DigitAt(x, 0x1_0000_0000_0000, 0x100_0000_0000_0000);
    Horner(Quotient(x, 1), Quotient(x, 0x100), Quotient(x, 0x1_0000), Quotient(x, 0x100_0000),
           Quotient(x, 0x1_0000_0000), Quotient(x, 0x100_0000_0000), Quotient(x, 0x1_0000_0000_0000), d7,
           d0, d1, d2, d3, d4, d5, d6);
  }

  /** The length field is the bit count, most significant byte first. */
  lemma LengthIsBigEndian(bits: nat)
    requires bits < TWO64
    ensures BigEndianValue(LengthBytes(bits)) == bits
  {
    LengthDigits(bits);
    hide LengthBytes, Quotient, BigEndianValue, Octet;
    var s := LengthBytes(bits);
    EightOctets(s);
    DigitsMake(bits, Octet(s[7]), Octet(s[6]), Octet(s[5]), Octet(s[4]), Octet(s[3]), Octet(s[2]), Octet(s[1]),
               Octet(s[0]));
  }

  lemma EightOctets(s: seq<bv8>)
    requires |s| == 8
    ensures BigEndianValue(s)
         == 256 * (256 * (256 * (256 * (256 * (256 * (256 * Octet(s[0]) + Octet(s[1])) + Octet(s[2])) + Octet(s[3]))
              + Octet(s[4])) + Octet(s[5])) + Octet(s[6])) + Octet(s[7])
  {
    hide BigEndianValue, Octet;
    ValueEight(s[0], s[1], s[2], s[3], s[4], s[5], s[6], s[7]);
    assert s == [s[0], s[1], s[2], s[3], s[4], s[5], s[6], s[7]];
  }

  /** Counts that agree mod 2^61 and differ by less than 64 are equal. */
  lemma SameCount(x: nat, y: nat)
    requires 8 * x % TWO64 == 8 * y % TWO64 && x < y + 64 && y < x + 64
    ensures x == y
  {
    var p, q := 8 * x / TWO64, 8 * y / TWO64;
    assert 8 * x - 8 * y == TWO64 * (p - q);
  }

  /** The padding is injective on messages of any length, though its length field wraps. */
  lemma PadInjective(m: seq<bv8>, n: seq<bv8>)
    requires Pad(m) == Pad(n)
    ensures m == n
  {
    hide Pad, LengthBytes, PadZeros;
    var p := Pad(m);
    PadEnds(m);
    PadEnds(n);
    LengthInjective(8 * |m| % TWO64, 8 * |n| % TWO64);
    SameCount(|m|, |n|);
    assert m == p[..|m|] == p[..|n|] == n;
  }

  lemma PadEnds(m: seq<bv8>)
    ensures Pad(m)[|Pad(m)| - 8..] == LengthBytes(8 * |m| % TWO64) && Pad(m)[..|m|] == m
    ensures |m| + 9 <= |Pad(m)| < |m| + 73
  {
    hide LengthBytes, PadZeros, Zeros;
    var mark: seq<bv8> := [0x80];
    var zeros, length := Zeros(PadZeros(|m|)), LengthBytes(8 * |m| % TWO64);
    assert Pad(m) == m + mark + zeros + length;
    Regroup(m, mark, zeros, length);
    Ends(m, mark + zeros, length);
  }

  /** Every block a fresh context hands to the transform while hashing `m`. */
  ghost function BlocksFed(c: Context, m: seq<bv8>): (r: seq<seq<bv8>>)
    requires c.Fresh() && c.Live()
  {
    Absorb(c, m).fed + LastBlocks(Absorb(c, m))
  }

  /** Two messages of any length that are compressed as the same blocks are the same message. */
  lemma BlocksDetermineMessage(c: Context, m: seq<bv8>, d: Context, n: seq<bv8>)
    requires c.Fresh() && c.Live() && d.Fresh() && d.Live()
    ensures BlocksFed(c, m) == BlocksFed(d, n) <==> m == n
  {
    StreamedBlocks(c, m);
    StreamedBlocks(d, n);
    if BlocksFed(c, m) == BlocksFed(d, n) {
      ParseInjective(Pad(m), Pad(n));
      PadInjective(m, n);
    }
  }
}
