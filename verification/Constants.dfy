/**
 Where the constants come from: the first 32 bits of the fractional parts of the cube roots (FIPS 180-4, section
 4.2.2) and square roots (section 5.3.3) of the first primes.
 */
module Constants {
  import opened Fips
  import opened Sha256Proofs

  // ----- The first sixty-four primes -----

  const P0: seq<nat> := [2, 3, 5, 7, 11, 13, 17, 19]
  const P8: seq<nat> := [23, 29, 31, 37, 41, 43, 47, 53]
  const P16: seq<nat> := [59, 61, 67, 71, 73, 79, 83, 89]
  const P24: seq<nat> := [97, 101, 103, 107, 109, 113, 127, 131]
  const P32: seq<nat> := [137, 139, 149, 151, 157, 163, 167, 173]
  const P40: seq<nat> := [179, 181, 191, 193, 197, 199, 211, 223]
  const P48: seq<nat> := [227, 229, 233, 239, 241, 251, 257, 263]
  const P56: seq<nat> := [269, 271, 277, 281, 283, 293, 307, 311]

  const PRIMES: seq<nat> := P0 + P8 + P16 + P24 + P32 + P40 + P48 + P56

  predicate IsPrime(n: nat) {
    n >= 2 && forall d :: 2 <= d < n ==> n % d != 0
  }

  /** No prime below 19 divides it. */
  predicate Sifted(n: nat) {
    && n % 2 != 0 && n % 3 != 0 && n % 5 != 0 && n % 7 != 0 && n % 11 != 0 && n % 13 != 0 && n % 17 != 0
  }

  lemma Multiple(d: nat, e: nat)
    requires e > 0
    ensures (d * e) % e == 0
  {
    QuotientUnique(d, 0, (d * e) / e, (d * e) % e, e);
  }

  lemma Factor(n: nat, q: nat, m: nat, d: nat)
    requires 0 < q && d == m * q && d > 0
    ensures n % d == 0 ==> n % q == 0
  {
    var t := n / d;
    assert n == t * d + n % d;
    assert t * d == (t * m) * q;
    Multiple(t * m, q);
  }

  lemma SmallDivisor(n: nat, d: nat)
    requires Sifted(n) && 2 <= d < 19
    ensures n % d != 0
  {
    Factor(n, 2, 2, 4);
    Factor(n, 2, 3, 6);
    Factor(n, 2, 4, 8);
    Factor(n, 3, 3, 9);
    Factor(n, 2, 5, 10);
    Factor(n, 2, 6, 12);
    Factor(n, 2, 7, 14);
    Factor(n, 3, 5, 15);
    Factor(n, 2, 8, 16);
    Factor(n, 2, 9, 18);
  }

  lemma Products(e: nat, d: nat)
    ensures e >= 19 && d >= 19 ==> e * d >= 361
    ensures e <= 1 ==> e * d <= d
  {
    if e >= 19 && d >= 19 {
      assert e * d == 19 * 19 + 19 * (d - 19) + (e - 19) * d;
    }
  }

  lemma Cofactor(n: nat, d: nat)
    requires 19 <= d < n < 361 && n % d == 0
    ensures 2 <= n / d < 19 && n % (n / d) == 0
  {
    var e := n / d;
    assert n == e * d;
    Products(e, d);
    Multiple(d, e);
    assert d * e == e * d;
  }

  lemma SiftedIsPrime(n: nat)
    requires 2 <= n < 361 && Sifted(n)
    ensures IsPrime(n)
  {
    hide Sifted;
    forall d | 2 <= d < n
      ensures n % d != 0
    {
      if d < 19 {
        SmallDivisor(n, d);
      } else if n % d == 0 {
        Cofactor(n, d);
        SmallDivisor(n, n / d);
      }
    }
  }

  lemma RowIsPrime0()
    ensures forall i :: 0 <= i < 8 ==> IsPrime(P0[i])
  {
    SiftedIsPrime(19);
  }

  lemma RowIsPrime8()
    ensures forall i :: 0 <= i < 8 ==> IsPrime(P8[i])
  {
    SiftedIsPrime(23);
    SiftedIsPrime(29);
    SiftedIsPrime(31);
    SiftedIsPrime(37);
    SiftedIsPrime(41);
    SiftedIsPrime(43);
    SiftedIsPrime(47);
    SiftedIsPrime(53);
  }

  lemma RowIsPrime16()
    ensures forall i :: 0 <= i < 8 ==> IsPrime(P16[i])
  {
    SiftedIsPrime(59);
    SiftedIsPrime(61);
    SiftedIsPrime(67);
    SiftedIsPrime(71);
    SiftedIsPrime(73);
    SiftedIsPrime(79);
    SiftedIsPrime(83);
    SiftedIsPrime(89);
  }

  lemma RowIsPrime24()
    ensures forall i :: 0 <= i < 8 ==> IsPrime(P24[i])
  {
    SiftedIsPrime(97);
    SiftedIsPrime(101);
    SiftedIsPrime(103);
    SiftedIsPrime(107);
    SiftedIsPrime(109);
    SiftedIsPrime(113);
    SiftedIsPrime(127);
    SiftedIsPrime(131);
  }

  lemma RowIsPrime32()
    ensures forall i :: 0 <= i < 8 ==> IsPrime(P32[i])
  {
    SiftedIsPrime(137);
    SiftedIsPrime(139);
    SiftedIsPrime(149);
    SiftedIsPrime(151);
    SiftedIsPrime(157);
    SiftedIsPrime(163);
    SiftedIsPrime(167);
    SiftedIsPrime(173);
  }

  lemma RowIsPrime40()
    ensures forall i :: 0 <= i < 8 ==> IsPrime(P40[i])
  {
    SiftedIsPrime(179);
    SiftedIsPrime(181);
    SiftedIsPrime(191);
    SiftedIsPrime(193);
    SiftedIsPrime(197);
    SiftedIsPrime(199);
    SiftedIsPrime(211);
    SiftedIsPrime(223);
  }

  lemma RowIsPrime48()
    ensures forall i :: 0 <= i < 8 ==> IsPrime(P48[i])
  {
    SiftedIsPrime(227);
    SiftedIsPrime(229);
    SiftedIsPrime(233);
    SiftedIsPrime(239);
    SiftedIsPrime(241);
    SiftedIsPrime(251);
    SiftedIsPrime(257);
    SiftedIsPrime(263);
  }

  lemma RowIsPrime56()
    ensures forall i :: 0 <= i < 8 ==> IsPrime(P56[i])
  {
    SiftedIsPrime(269);
    SiftedIsPrime(271);
    SiftedIsPrime(277);
    SiftedIsPrime(281);
    SiftedIsPrime(283);
    SiftedIsPrime(293);
    SiftedIsPrime(307);
    SiftedIsPrime(311);
  }

  lemma SmallResidue(r: nat)
    requires r < 30 && r % 2 != 0 && r % 3 != 0 && r % 5 != 0
    ensures r in {1, 7, 11, 13, 17, 19, 23, 29}
  {
  }

  lemma ByTwo(k: nat, r: nat)
    ensures (2 * k + r) % 2 == r % 2
  {
  }

  lemma ByThree(k: nat, r: nat)
    ensures (3 * k + r) % 3 == r % 3
  {
  }

  lemma ByFive(k: nat, r: nat)
    ensures (5 * k + r) % 5 == r % 5
  {
  }

  lemma Residue(n: nat)
    requires n % 2 != 0 && n % 3 != 0 && n % 5 != 0
    ensures n % 30 in {1, 7, 11, 13, 17, 19, 23, 29}
  {
    var q, r := n / 30, n % 30;
    ByTwo(15 * q, r);
    ByThree(10 * q, r);
    ByFive(6 * q, r);
    assert 2 * (15 * q) + r == n && 3 * (10 * q) + r == n && 5 * (6 * q) + r == n;
    SmallResidue(r);
  }

  lemma Sieve0(n: nat)
    requires 0 <= n < 30 && Sifted(n)
    ensures n in {1, 19, 23, 29}
  {
    Residue(n);
    assert n == 0 + n % 30;
  }

  lemma Sieve30(n: nat)
    requires 30 <= n < 60 && Sifted(n)
    ensures n in {31, 37, 41, 43, 47, 53, 59}
  {
    Residue(n);
    assert n == 30 + n % 30;
  }

  lemma Sieve60(n: nat)
    requires 60 <= n < 90 && Sifted(n)
    ensures n in {61, 67, 71, 73, 79, 83, 89}
  {
    Residue(n);
    assert n == 60 + n % 30;
  }

  lemma Sieve90(n: nat)
    requires 90 <= n < 120 && Sifted(n)
    ensures n in {97, 101, 103, 107, 109, 113}
  {
    Residue(n);
    assert n == 90 + n % 30;
  }

  lemma Sieve120(n: nat)
    requires 120 <= n < 150 && Sifted(n)
    ensures n in {127, 131, 137, 139, 149}
  {
    Residue(n);
    assert n == 120 + n % 30;
  }

  lemma Sieve150(n: nat)
    requires 150 <= n < 180 && Sifted(n)
    ensures n in {151, 157, 163, 167, 173, 179}
  {
    Residue(n);
    assert n == 150 + n % 30;
  }

  lemma Sieve180(n: nat)
    requires 180 <= n < 210 && Sifted(n)
    ensures n in {181, 191, 193, 197, 199}
  {
    Residue(n);
    assert n == 180 + n % 30;
  }

  lemma Sieve210(n: nat)
    requires 210 <= n < 240 && Sifted(n)
    ensures n in {211, 223, 227, 229, 233, 239}
  {
    Residue(n);
    assert n == 210 + n % 30;
  }

  lemma Sieve240(n: nat)
    requires 240 <= n < 270 && Sifted(n)
    ensures n in {241, 251, 257, 263, 269}
  {
    Residue(n);
    assert n == 240 + n % 30;
  }

  lemma Sieve270(n: nat)
    requires 270 <= n < 300 && Sifted(n)
    ensures n in {271, 277, 281, 283, 293}
  {
    Residue(n);
    assert n == 270 + n % 30;
  }

  lemma Sieve300(n: nat)
    requires 300 <= n < 312 && Sifted(n)
    ensures n in {307, 311}
  {
    Residue(n);
    assert n == 300 + n % 30;
  }

  lemma PrimeIsSifted(n: nat)
    requires IsPrime(n) && n >= 19
    ensures Sifted(n)
  {
    assert n % 2 != 0 && n % 3 != 0 && n % 5 != 0 && n % 7 != 0 && n % 11 != 0 && n % 13 != 0 && n % 17 != 0;
  }

  lemma Divided(n: nat, d: nat)
    requires 2 <= d < n && n % d == 0
    ensures !IsPrime(n)
  {
  }

  lemma SmallPrimes(n: nat)
    requires n < 19
    ensures IsPrime(n) ==> n in {2, 3, 5, 7, 11, 13, 17}
  {
    if n == 4 || n == 6 || n == 8 || n == 10 || n == 12 || n == 14 || n == 16 || n == 18 {
      Divided(n, 2);
    } else if n == 9 || n == 15 {
      Divided(n, 3);
    }
  }

  lemma Listed0(n: nat)
    requires 0 <= n < 90 && IsPrime(n)
    ensures n in {2, 3, 5, 7, 11, 13, 17, 19, 23, 29, 31, 37, 41, 43, 47, 53, 59, 61, 67, 71, 73, 79, 83, 89}
  {
    hide IsPrime, Sifted;
    if n < 19 {
      SmallPrimes(n);
    } else {
      PrimeIsSifted(n);
      if n < 30 {
        Sieve0(n);
      } else if n < 60 {
        Sieve30(n);
      } else {
        Sieve60(n);
      }
    }
  }

  lemma Listed90(n: nat)
    requires 90 <= n < 180 && IsPrime(n)
    ensures n in {97, 101, 103, 107, 109, 113, 127, 131, 137, 139, 149, 151, 157, 163, 167, 173, 179}
  {
    hide IsPrime, Sifted;
    PrimeIsSifted(n);
    if n < 120 {
      Sieve90(n);
    } else if n < 150 {
      Sieve120(n);
    } else {
      Sieve150(n);
    }
  }

  lemma Listed180(n: nat)
    requires 180 <= n < 270 && IsPrime(n)
    ensures n in {181, 191, 193, 197, 199, 211, 223, 227, 229, 233, 239, 241, 251, 257, 263, 269}
  {
    hide IsPrime, Sifted;
    PrimeIsSifted(n);
    if n < 210 {
      Sieve180(n);
    } else if n < 240 {
      Sieve210(n);
    } else {
      Sieve240(n);
    }
  }

  lemma Listed270(n: nat)
    requires 270 <= n < 312 && IsPrime(n)
    ensures n in {271, 277, 281, 283, 293, 307, 311}
  {
    hide IsPrime, Sifted;
    PrimeIsSifted(n);
    if n < 300 {
      Sieve270(n);
    } else {
      Sieve300(n);
    }
  }

  lemma InPrimes(n: nat)
    ensures n in P0 || n in P8 || n in P16 || n in P24 || n in P32 || n in P40 || n in P48 || n in P56 ==> n in PRIMES
  {
    hide P0, P8, P16, P24, P32, P40, P48, P56;
  }

  lemma Rows0(n: nat)
    requires n in {2, 3, 5, 7, 11, 13, 17, 19, 23, 29, 31, 37, 41, 43, 47, 53, 59, 61, 67, 71, 73, 79, 83, 89}
    ensures n in P0 || n in P8 || n in P16
  {
    assert P0 == [2, 3, 5, 7, 11, 13, 17, 19];
    assert P8 == [23, 29, 31, 37, 41, 43, 47, 53];
    assert P16 == [59, 61, 67, 71, 73, 79, 83, 89];
  }

  lemma Rows90(n: nat)
    requires n in {97, 101, 103, 107, 109, 113, 127, 131, 137, 139, 149, 151, 157, 163, 167, 173, 179}
    ensures n in P24 || n in P32 || n in P40
  {
    assert P24 == [97, 101, 103, 107, 109, 113, 127, 131];
    assert P32 == [137, 139, 149, 151, 157, 163, 167, 173];
    assert P40 == [179, 181, 191, 193, 197, 199, 211, 223];
  }

  lemma Rows180(n: nat)
    requires n in {181, 191, 193, 197, 199, 211, 223, 227, 229, 233, 239, 241, 251, 257, 263, 269}
    ensures n in P40 || n in P48 || n in P56
  {
    assert P40 == [179, 181, 191, 193, 197, 199, 211, 223];
    assert P48 == [227, 229, 233, 239, 241, 251, 257, 263];
    assert P56 == [269, 271, 277, 281, 283, 293, 307, 311];
  }

  lemma Rows270(n: nat)
    requires n in {271, 277, 281, 283, 293, 307, 311}
    ensures n in P56
  {
    assert P56 == [269, 271, 277, 281, 283, 293, 307, 311];
  }

  /** The list holds exactly the primes below 312. */
  lemma PrimesComplete(n: nat)
    requires n < 312 && IsPrime(n)
    ensures n in PRIMES
  {
    hide IsPrime, PRIMES;
    InPrimes(n);
    if n < 90 {
      Listed0(n);
      Rows0(n);
    } else if n < 180 {
      Listed90(n);
      Rows90(n);
    } else if n < 270 {
      Listed180(n);
      Rows180(n);
    } else {
      Listed270(n);
      Rows270(n);
    }
  }

  lemma Halved<T>(a: seq<T>, b: seq<T>, c: seq<T>, d: seq<T>, t: nat)
    requires |a| == 8 && |b| == 8 && |c| == 8 && |d| == 8 && t < 32
    ensures |a + b + c + d| == 32
    ensures (a + b + c + d)[t] == [a, b, c, d][t / 8][t % 8]
  {
  }

  /** Eight rows of eight: the row and the place in it. */
  lemma EightRows<T>(a: seq<T>, b: seq<T>, c: seq<T>, d: seq<T>, e: seq<T>, f: seq<T>, g: seq<T>, h: seq<T>, t: nat)
    requires |a| == 8 && |b| == 8 && |c| == 8 && |d| == 8 && |e| == 8 && |f| == 8 && |g| == 8 && |h| == 8 && t < 64
    ensures |a + b + c + d + e + f + g + h| == 64
    ensures (a + b + c + d + e + f + g + h)[t] == [a, b, c, d, e, f, g, h][t / 8][t % 8]
  {
    var x, y := a + b + c + d, e + f + g + h;
    assert a + b + c + d + e + f + g + h == x + y;
    if t < 32 {
      Halved(a, b, c, d, t);
    } else {
      Halved(e, f, g, h, t - 32);
    }
  }

  // ----- Cube roots -----

  const TWO96 := 0x1_00000000_00000000_00000000

  function Word(w: bv32): (n: nat)
    ensures n < 0x1_0000_0000
  {
    w as int
  }

  /** `c` is the whole part of 2^32 times the cube root of `p`. */
  predicate IsCubeRoot(p: nat, c: nat) {
    c * c * c <= p * TWO96 < (c + 1) * (c + 1) * (c + 1)
  }

  /** The whole part of the root is the number above the 32 fractional bits. */
  ghost predicate CubeRootBits(p: nat, k: bv32) {
    exists whole: nat :: IsCubeRoot(p, 0x1_0000_0000 * whole + Word(k))
  }

  lemma CubeRoot(p: nat, whole: nat, k: bv32, c: nat)
    requires c == 0x1_0000_0000 * whole + Word(k) && IsCubeRoot(p, c)
    ensures CubeRootBits(p, k)
  {
  }

  lemma CubeRoots0()
    ensures |P0| == 8 && |K0| == 8 && forall i :: 0 <= i < 8 ==> CubeRootBits(P0[i], K0[i])
  {
    hide CubeRootBits;
    CubeRoot(2, 1, 0x428a2f98, 0x1_428a2f98);
    CubeRoot(3, 1, 0x71374491, 0x1_71374491);
    CubeRoot(5, 1, 0xb5c0fbcf, 0x1_b5c0fbcf);
    CubeRoot(7, 1, 0xe9b5dba5, 0x1_e9b5dba5);
    CubeRoot(11, 2, 0x3956c25b, 0x2_3956c25b);
    CubeRoot(13, 2, 0x59f111f1, 0x2_59f111f1);
    CubeRoot(17, 2, 0x923f82a4, 0x2_923f82a4);
    CubeRoot(19, 2, 0xab1c5ed5, 0x2_ab1c5ed5);
  }

  lemma CubeRoots8()
    ensures |P8| == 8 && |K8| == 8 && forall i :: 0 <= i < 8 ==> CubeRootBits(P8[i], K8[i])
  {
    hide CubeRootBits;
    CubeRoot(23, 2, 0xd807aa98, 0x2_d807aa98);
    CubeRoot(29, 3, 0x12835b01, 0x3_12835b01);
    CubeRoot(31, 3, 0x243185be, 0x3_243185be);
    CubeRoot(37, 3, 0x550c7dc3, 0x3_550c7dc3);
    CubeRoot(41, 3, 0x72be5d74, 0x3_72be5d74);
    CubeRoot(43, 3, 0x80deb1fe, 0x3_80deb1fe);
    CubeRoot(47, 3, 0x9bdc06a7, 0x3_9bdc06a7);
    CubeRoot(53, 3, 0xc19bf174, 0x3_c19bf174);
  }

  lemma CubeRoots16()
    ensures |P16| == 8 && |K16| == 8 && forall i :: 0 <= i < 8 ==> CubeRootBits(P16[i], K16[i])
  {
    hide CubeRootBits;
    CubeRoot(59, 3, 0xe49b69c1, 0x3_e49b69c1);
    CubeRoot(61, 3, 0xefbe4786, 0x3_efbe4786);
    CubeRoot(67, 4, 0x0fc19dc6, 0x4_0fc19dc6);
    CubeRoot(71, 4, 0x240ca1cc, 0x4_240ca1cc);
    CubeRoot(73, 4, 0x2de92c6f, 0x4_2de92c6f);
    CubeRoot(79, 4, 0x4a7484aa, 0x4_4a7484aa);
    CubeRoot(83, 4, 0x5cb0a9dc, 0x4_5cb0a9dc);
    CubeRoot(89, 4, 0x76f988da, 0x4_76f988da);
  }

  lemma CubeRoots24()
    ensures |P24| == 8 && |K24| == 8 && forall i :: 0 <= i < 8 ==> CubeRootBits(P24[i], K24[i])
  {
    hide CubeRootBits;
    CubeRoot(97, 4, 0x983e5152, 0x4_983e5152);
    CubeRoot(101, 4, 0xa831c66d, 0x4_a831c66d);
    CubeRoot(103, 4, 0xb00327c8, 0x4_b00327c8);
    CubeRoot(107, 4, 0xbf597fc7, 0x4_bf597fc7);
    CubeRoot(109, 4, 0xc6e00bf3, 0x4_c6e00bf3);
    CubeRoot(113, 4, 0xd5a79147, 0x4_d5a79147);
    CubeRoot(127, 5, 0x06ca6351, 0x5_06ca6351);
    CubeRoot(131, 5, 0x14292967, 0x5_14292967);
  }

  lemma CubeRoots32()
    ensures |P32| == 8 && |K32| == 8 && forall i :: 0 <= i < 8 ==> CubeRootBits(P32[i], K32[i])
  {
    hide CubeRootBits;
    CubeRoot(137, 5, 0x27b70a85, 0x5_27b70a85);
    CubeRoot(139, 5, 0x2e1b2138, 0x5_2e1b2138);
    CubeRoot(149, 5, 0x4d2c6dfc, 0x5_4d2c6dfc);
    CubeRoot(151, 5, 0x53380d13, 0x5_53380d13);
    CubeRoot(157, 5, 0x650a7354, 0x5_650a7354);
    CubeRoot(163, 5, 0x766a0abb, 0x5_766a0abb);
    CubeRoot(167, 5, 0x81c2c92e, 0x5_81c2c92e);
    CubeRoot(173, 5, 0x92722c85, 0x5_92722c85);
  }

  lemma CubeRoots40()
    ensures |P40| == 8 && |K40| == 8 && forall i :: 0 <= i < 8 ==> CubeRootBits(P40[i], K40[i])
  {
    hide CubeRootBits;
    CubeRoot(179, 5, 0xa2bfe8a1, 0x5_a2bfe8a1);
    CubeRoot(181, 5, 0xa81a664b, 0x5_a81a664b);
    CubeRoot(191, 5, 0xc24b8b70, 0x5_c24b8b70);
    CubeRoot(193, 5, 0xc76c51a3, 0x5_c76c51a3);
    CubeRoot(197, 5, 0xd192e819, 0x5_d192e819);
    CubeRoot(199, 5, 0xd6990624, 0x5_d6990624);
    CubeRoot(211, 5, 0xf40e3585, 0x5_f40e3585);
    CubeRoot(223, 6, 0x106aa070, 0x6_106aa070);
  }

  lemma CubeRoots48()
    ensures |P48| == 8 && |K48| == 8 && forall i :: 0 <= i < 8 ==> CubeRootBits(P48[i], K48[i])
  {
    hide CubeRootBits;
    CubeRoot(227, 6, 0x19a4c116, 0x6_19a4c116);
    CubeRoot(229, 6, 0x1e376c08, 0x6_1e376c08);
    CubeRoot(233, 6, 0x2748774c, 0x6_2748774c);
    CubeRoot(239, 6, 0x34b0bcb5, 0x6_34b0bcb5);
    CubeRoot(241, 6, 0x391c0cb3, 0x6_391c0cb3);
    CubeRoot(251, 6, 0x4ed8aa4a, 0x6_4ed8aa4a);
    CubeRoot(257, 6, 0x5b9cca4f, 0x6_5b9cca4f);
    CubeRoot(263, 6, 0x682e6ff3, 0x6_682e6ff3);
  }

  lemma CubeRoots56()
    ensures |P56| == 8 && |K56| == 8 && forall i :: 0 <= i < 8 ==> CubeRootBits(P56[i], K56[i])
  {
    hide CubeRootBits;
    CubeRoot(269, 6, 0x748f82ee, 0x6_748f82ee);
    CubeRoot(271, 6, 0x78a5636f, 0x6_78a5636f);
    CubeRoot(277, 6, 0x84c87814, 0x6_84c87814);
    CubeRoot(281, 6, 0x8cc70208, 0x6_8cc70208);
    CubeRoot(283, 6, 0x90befffa, 0x6_90befffa);
    CubeRoot(293, 6, 0xa4506ceb, 0x6_a4506ceb);
    CubeRoot(307, 6, 0xbef9a3f7, 0x6_bef9a3f7);
    CubeRoot(311, 6, 0xc67178f2, 0x6_c67178f2);
  }

  lemma RowLengths()
    ensures |P0| == 8 && |P8| == 8 && |P16| == 8 && |P24| == 8 && |P32| == 8 && |P40| == 8 && |P48| == 8 && |P56| == 8
    ensures |K0| == 8 && |K8| == 8 && |K16| == 8 && |K24| == 8 && |K32| == 8 && |K40| == 8 && |K48| == 8 && |K56| == 8
  {
  }

  lemma InRows(t: nat)
    requires t < 64
    ensures |PRIMES| == 64 && |K| == 64
    ensures PRIMES[t] == [P0, P8, P16, P24, P32, P40, P48, P56][t / 8][t % 8]
    ensures K[t] == [K0, K8, K16, K24, K32, K40, K48, K56][t / 8][t % 8]
  {
    RowLengths();
    hide P0, P8, P16, P24, P32, P40, P48, P56, K0, K8, K16, K24, K32, K40, K48, K56;
    EightRows(P0, P8, P16, P24, P32, P40, P48, P56, t);
    EightRows(K0, K8, K16, K24, K32, K40, K48, K56, t);
  }

  /** The constant of round `t` has the first 32 bits of the fractional part of the cube root of the `t`-th prime. */
  lemma ConstantsAreCubeRoots(t: nat)
    requires t < 64
    ensures |PRIMES| == 64 && |K| == 64 && IsPrime(PRIMES[t]) && CubeRootBits(PRIMES[t], K[t])
  {
    InRows(t);
    hide PRIMES, K, P0, P8, P16, P24, P32, P40, P48, P56, K0, K8, K16, K24, K32, K40, K48, K56, IsPrime, CubeRootBits;
    if t / 8 == 0 {
      CubeRoots0();
      RowIsPrime0();
    } else if t / 8 == 1 {
      CubeRoots8();
      RowIsPrime8();
    } else if t / 8 == 2 {
      CubeRoots16();
      RowIsPrime16();
    } else if t / 8 == 3 {
      CubeRoots24();
      RowIsPrime24();
    } else if t / 8 == 4 {
      CubeRoots32();
      RowIsPrime32();
    } else if t / 8 == 5 {
      CubeRoots40();
      RowIsPrime40();
    } else if t / 8 == 6 {
      CubeRoots48();
      RowIsPrime48();
    } else {
      CubeRoots56();
      RowIsPrime56();
    }
  }

  lemma Order0()
    ensures forall i :: 0 <= i < 7 ==> P0[i] < P0[i + 1]
    ensures P0[7] < P8[0]
  {
  }

  lemma Order8()
    ensures forall i :: 0 <= i < 7 ==> P8[i] < P8[i + 1]
    ensures P8[7] < P16[0]
  {
  }

  lemma Order16()
    ensures forall i :: 0 <= i < 7 ==> P16[i] < P16[i + 1]
    ensures P16[7] < P24[0]
  {
  }

  lemma Order24()
    ensures forall i :: 0 <= i < 7 ==> P24[i] < P24[i + 1]
    ensures P24[7] < P32[0]
  {
  }

  lemma Order32()
    ensures forall i :: 0 <= i < 7 ==> P32[i] < P32[i + 1]
    ensures P32[7] < P40[0]
  {
  }

  lemma Order40()
    ensures forall i :: 0 <= i < 7 ==> P40[i] < P40[i + 1]
    ensures P40[7] < P48[0]
  {
  }

  lemma Order48()
    ensures forall i :: 0 <= i < 7 ==> P48[i] < P48[i + 1]
    ensures P48[7] < P56[0]
  {
  }

  lemma Order56()
    ensures forall i :: 0 <= i < 7 ==> P56[i] < P56[i + 1]
  {
  }

  lemma PrimesInOrder(t: nat)
    requires t < 63
    ensures |PRIMES| == 64 && PRIMES[t] < PRIMES[t + 1]
  {
    InRows(t);
    InRows(t + 1);
    Order0();
    Order8();
    Order16();
    Order24();
    Order32();
    Order40();
    Order48();
    Order56();
    hide PRIMES, K, P0, P8, P16, P24, P32, P40, P48, P56, K0, K8, K16, K24, K32, K40, K48, K56;
    if t % 8 == 7 {
      assert (t + 1) / 8 == t / 8 + 1 && (t + 1) % 8 == 0;
    } else {
      assert (t + 1) / 8 == t / 8 && (t + 1) % 8 == t % 8 + 1;
    }
  }

  /** The list holds exactly the primes below 312, in order: the first sixty-four. */
  lemma PrimesListed(n: nat)
    ensures |PRIMES| == 64 && forall t :: 0 <= t < 63 ==> PRIMES[t] < PRIMES[t + 1]
    ensures n < 312 ==> (IsPrime(n) <==> n in PRIMES)
  {
    hide PRIMES, IsPrime, K;
    InRows(0);
    forall t: nat | t < 63
      ensures PRIMES[t] < PRIMES[t + 1]
    {
      PrimesInOrder(t);
    }
    if n < 312 && IsPrime(n) {
      PrimesComplete(n);
    }
    if n in PRIMES {
      var t: nat :| t < |PRIMES| && PRIMES[t] == n;
      ConstantsAreCubeRoots(t);
    }
  }

  // ----- Square roots -----

  const TWO64 := 0x1_00000000_00000000

  predicate IsSquareRoot(p: nat, c: nat) {
    c * c <= p * TWO64 < (c + 1) * (c + 1)
  }

  ghost predicate SquareRootBits(p: nat, h: bv32) {
    exists whole: nat :: IsSquareRoot(p, 0x1_0000_0000 * whole + Word(h))
  }

  lemma SquareRoot(p: nat, whole: nat, h: bv32, c: nat)
    requires c == 0x1_0000_0000 * whole + Word(h) && IsSquareRoot(p, c)
    ensures SquareRootBits(p, h)
  {
  }

  lemma FirstPrimes()
    ensures |PRIMES| == 64 && PRIMES[..8] == P0
  {
    RowLengths();
    hide P0, P8, P16, P24, P32, P40, P48, P56;
  }

  /** The words of the initial hash value, and the square roots of the first eight primes. */
  lemma InitialValueIsSquareRoots()
    ensures |P0| == 8 && PRIMES[..8] == P0
    ensures SquareRootBits(P0[0], H0.a) && SquareRootBits(P0[1], H0.b) && SquareRootBits(P0[2], H0.c)
    ensures SquareRootBits(P0[3], H0.d) && SquareRootBits(P0[4], H0.e) && SquareRootBits(P0[5], H0.f)
    ensures SquareRootBits(P0[6], H0.g) && SquareRootBits(P0[7], H0.h)
  {
    hide SquareRootBits;
    FirstPrimes();
    SquareRoot(2, 1, 0x6a09e667, 0x1_6a09e667);
    SquareRoot(3, 1, 0xbb67ae85, 0x1_bb67ae85);
    SquareRoot(5, 2, 0x3c6ef372, 0x2_3c6ef372);
    SquareRoot(7, 2, 0xa54ff53a, 0x2_a54ff53a);
    SquareRoot(11, 3, 0x510e527f, 0x3_510e527f);
    SquareRoot(13, 3, 0x9b05688c, 0x3_9b05688c);
    SquareRoot(17, 4, 0x1f83d9ab, 0x4_1f83d9ab);
    SquareRoot(19, 4, 0x5be0cd19, 0x4_5be0cd19);
  }
}
