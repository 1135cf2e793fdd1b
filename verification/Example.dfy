/** The one-block example of FIPS 180-4, the message "abc", from the padding to the digest, value by value. */
module Example {
  import opened Bits
  import opened Constants
  import opened Fips

  const ABC: seq<bv8> := [0x61, 0x62, 0x63]

  /** The padded message: the mark, 52 zeros and the length of 24 bits. */
  const BLOCK: seq<bv8> := ABC + [0x80] + Zeros(52) + [0, 0, 0, 0, 0, 0, 0, 24]

  lemma BlockIsBlock()
    ensures IsBlock(BLOCK)
  {
  }

  lemma PaddingOfAbc()
    ensures Pad(ABC) == BLOCK
  {
    LengthOfAbc();
    hide LengthBytes, Zeros;
    assert PadZeros(3) == 52;
  }

  lemma BlockBytes()
    ensures IsBlock(BLOCK) && BLOCK[0] == 0x61 && BLOCK[1] == 0x62 && BLOCK[2] == 0x63 && BLOCK[3] == 0x80
    ensures (forall i :: 4 <= i < 63 ==> BLOCK[i] == 0) && BLOCK[63] == 24
  {
  }

  lemma ByteIs(n: nat, b: bv8)
    requires n < 256 && b as int == n
    ensures Byte(n) == b
  {
    ByteBack(b);
    ByteBack(Byte(n));
  }

  lemma LengthOfAbc()
    ensures LengthBytes(24) == [0, 0, 0, 0, 0, 0, 0, 24]
  {
    ByteIs(0, 0);
    ByteIs(24, 24);
  }

  lemma ParseOfAbc()
    ensures Parse(Pad(ABC)) == [BLOCK]
  {
    BlockIsBlock();
    PaddingOfAbc();
    hide BLOCK, Pad;
    assert BLOCK[..0] == [] && BLOCK[0..] == BLOCK;
    assert Parse([]) == [];
  }

  // ----- The schedule -----

  lemma NextWord(t: nat, w2: bv32, w7: bv32, w15: bv32, w16: bv32)
    requires 16 <= t
    requires WordIs(t - 2, w2) && WordIs(t - 7, w7) && WordIs(t - 15, w15) && WordIs(t - 16, w16)
    ensures WordIs(t, Plus(Plus(Plus(SmallSigma1(w2), w7), SmallSigma0(w15)), w16))
  {
    hide BLOCK, SmallSigma0, SmallSigma1, Plus;
  }

  predicate WordIs(t: nat, w: bv32) {
    IsBlock(BLOCK) && W(BLOCK, t) == w
  }

  lemma FirstWord(t: nat, b0: bv8, b1: bv8, b2: bv8, b3: bv8, w: bv32)
    requires t < 16 && IsBlock(BLOCK) && w == BigEndian(b0, b1, b2, b3)
    requires BLOCK[4 * t] == b0 && BLOCK[4 * t + 1] == b1 && BLOCK[4 * t + 2] == b2 && BLOCK[4 * t + 3] == b3
    ensures WordIs(t, w)
  {
    hide BLOCK, BigEndian;
  }

  lemma ZeroWord()
    ensures BigEndian(0, 0, 0, 0) == 0 && BigEndian(0, 0, 0, 24) == 24
    ensures BigEndian(0x61, 0x62, 0x63, 0x80) == 0x61626380
  {
  }

  lemma Words0()
    ensures WordIs(0, 0x61626380) && WordIs(1, 0x00000000)
    ensures WordIs(2, 0x00000000) && WordIs(3, 0x00000000)
    ensures WordIs(4, 0x00000000) && WordIs(5, 0x00000000)
    ensures WordIs(6, 0x00000000) && WordIs(7, 0x00000000)
  {
    BlockBytes();
    ZeroWord();
    hide BLOCK, BigEndian, WordIs;
    FirstWord(0, 0x61, 0x62, 0x63, 0x80, 0x61626380);
    FirstWord(1, 0, 0, 0, 0, 0x00000000);
    FirstWord(2, 0, 0, 0, 0, 0x00000000);
    FirstWord(3, 0, 0, 0, 0, 0x00000000);
    FirstWord(4, 0, 0, 0, 0, 0x00000000);
    FirstWord(5, 0, 0, 0, 0, 0x00000000);
    FirstWord(6, 0, 0, 0, 0, 0x00000000);
    FirstWord(7, 0, 0, 0, 0, 0x00000000);
  }

  lemma Words8()
    ensures WordIs(8, 0x00000000) && WordIs(9, 0x00000000)
    ensures WordIs(10, 0x00000000) && WordIs(11, 0x00000000)
    ensures WordIs(12, 0x00000000) && WordIs(13, 0x00000000)
    ensures WordIs(14, 0x00000000) && WordIs(15, 0x00000018)
  {
    BlockBytes();
    ZeroWord();
    hide BLOCK, BigEndian, WordIs;
    FirstWord(8, 0, 0, 0, 0, 0x00000000);
    FirstWord(9, 0, 0, 0, 0, 0x00000000);
    FirstWord(10, 0, 0, 0, 0, 0x00000000);
    FirstWord(11, 0, 0, 0, 0, 0x00000000);
    FirstWord(12, 0, 0, 0, 0, 0x00000000);
    FirstWord(13, 0, 0, 0, 0, 0x00000000);
    FirstWord(14, 0, 0, 0, 0, 0x00000000);
    FirstWord(15, 0, 0, 0, 0x18, 0x00000018);
  }

  lemma Words16()
    ensures WordIs(16, 0x61626380) && WordIs(17, 0x000f0000)
    ensures WordIs(18, 0x7da86405) && WordIs(19, 0x600003c6)
  {
    Words0();
    Words8();
    hide WordIs;
    NextWord(16, 0x00000000, 0x00000000, 0x00000000, 0x61626380);
    NextWord(17, 0x00000018, 0x00000000, 0x00000000, 0x00000000);
    NextWord(18, 0x61626380, 0x00000000, 0x00000000, 0x00000000);
    NextWord(19, 0x000f0000, 0x00000000, 0x00000000, 0x00000000);
  }

  lemma Words20()
    ensures WordIs(20, 0x3e9d7b78) && WordIs(21, 0x0183fc00)
    ensures WordIs(22, 0x12dcbfdb) && WordIs(23, 0xe2e2c38e)
  {
    Words0();
    Words8();
    Words16();
    hide WordIs;
    NextWord(20, 0x7da86405, 0x00000000, 0x00000000, 0x00000000);
    NextWord(21, 0x600003c6, 0x00000000, 0x00000000, 0x00000000);
    NextWord(22, 0x3e9d7b78, 0x00000018, 0x00000000, 0x00000000);
    NextWord(23, 0x0183fc00, 0x61626380, 0x00000000, 0x00000000);
  }

  lemma Words24()
    ensures WordIs(24, 0xc8215c1a) && WordIs(25, 0xb73679a2)
    ensures WordIs(26, 0xe5bc3909) && WordIs(27, 0x32663c5b)
  {
    Words8();
    Words16();
    Words20();
    hide WordIs;
    NextWord(24, 0x12dcbfdb, 0x000f0000, 0x00000000, 0x00000000);
    NextWord(25, 0xe2e2c38e, 0x7da86405, 0x00000000, 0x00000000);
    NextWord(26, 0xc8215c1a, 0x600003c6, 0x00000000, 0x00000000);
    NextWord(27, 0xb73679a2, 0x3e9d7b78, 0x00000000, 0x00000000);
  }

  lemma Words28()
    ensures WordIs(28, 0x9d209d67) && WordIs(29, 0xec8726cb)
    ensures WordIs(30, 0x702138a4) && WordIs(31, 0xd3b7973b)
  {
    Words8();
    Words16();
    Words20();
    Words24();
    hide WordIs;
    NextWord(28, 0xe5bc3909, 0x0183fc00, 0x00000000, 0x00000000);
    NextWord(29, 0x32663c5b, 0x12dcbfdb, 0x00000000, 0x00000000);
    NextWord(30, 0x9d209d67, 0xe2e2c38e, 0x00000018, 0x00000000);
    NextWord(31, 0xec8726cb, 0xc8215c1a, 0x61626380, 0x00000018);
  }

  lemma Words32()
    ensures WordIs(32, 0x93f5997f) && WordIs(33, 0x3b68ba73)
    ensures WordIs(34, 0xaff4ffc1) && WordIs(35, 0xf10a5c62)
  {
    Words16();
    Words20();
    Words24();
    Words28();
    hide WordIs;
    NextWord(32, 0x702138a4, 0xb73679a2, 0x000f0000, 0x61626380);
    NextWord(33, 0xd3b7973b, 0xe5bc3909, 0x7da86405, 0x000f0000);
    NextWord(34, 0x93f5997f, 0x32663c5b, 0x600003c6, 0x7da86405);
    NextWord(35, 0x3b68ba73, 0x9d209d67, 0x3e9d7b78, 0x600003c6);
  }

  lemma Words36()
    ensures WordIs(36, 0x0a8b3996) && WordIs(37, 0x72af830a)
    ensures WordIs(38, 0x9409e33e) && WordIs(39, 0x24641522)
  {
    Words20();
    Words24();
    Words28();
    Words32();
    hide WordIs;
    NextWord(36, 0xaff4ffc1, 0xec8726cb, 0x0183fc00, 0x3e9d7b78);
    NextWord(37, 0xf10a5c62, 0x702138a4, 0x12dcbfdb, 0x0183fc00);
    NextWord(38, 0x0a8b3996, 0xd3b7973b, 0xe2e2c38e, 0x12dcbfdb);
    NextWord(39, 0x72af830a, 0x93f5997f, 0xc8215c1a, 0xe2e2c38e);
  }

  lemma Words40()
    ensures WordIs(40, 0x9f47bf94) && WordIs(41, 0xf0a64f5a)
    ensures WordIs(42, 0x3e246a79) && WordIs(43, 0x27333ba3)
  {
    Words24();
    Words28();
    Words32();
    Words36();
    hide WordIs;
    NextWord(40, 0x9409e33e, 0x3b68ba73, 0xb73679a2, 0xc8215c1a);
    NextWord(41, 0x24641522, 0xaff4ffc1, 0xe5bc3909, 0xb73679a2);
    NextWord(42, 0x9f47bf94, 0xf10a5c62, 0x32663c5b, 0xe5bc3909);
    NextWord(43, 0xf0a64f5a, 0x0a8b3996, 0x9d209d67, 0x32663c5b);
  }

  lemma Words44()
    ensures WordIs(44, 0x0c4763f2) && WordIs(45, 0x840abf27)
    ensures WordIs(46, 0x7a290d5d) && WordIs(47, 0x065c43da)
  {
    Words28();
    Words32();
    Words36();
    Words40();
    hide WordIs;
    NextWord(44, 0x3e246a79, 0x72af830a, 0xec8726cb, 0x9d209d67);
    NextWord(45, 0x27333ba3, 0x9409e33e, 0x702138a4, 0xec8726cb);
    NextWord(46, 0x0c4763f2, 0x24641522, 0xd3b7973b, 0x702138a4);
    NextWord(47, 0x840abf27, 0x9f47bf94, 0x93f5997f, 0xd3b7973b);
  }

  lemma Words48()
    ensures WordIs(48, 0xfb3e89cb) && WordIs(49, 0xcc7617db)
    ensures WordIs(50, 0xb9e66c34) && WordIs(51, 0xa9993667)
  {
    Words32();
    Words36();
    Words40();
    Words44();
    hide WordIs;
    NextWord(48, 0x7a290d5d, 0xf0a64f5a, 0x3b68ba73, 0x93f5997f);
    NextWord(49, 0x065c43da, 0x3e246a79, 0xaff4ffc1, 0x3b68ba73);
    NextWord(50, 0xfb3e89cb, 0x27333ba3, 0xf10a5c62, 0xaff4ffc1);
    NextWord(51, 0xcc7617db, 0x0c4763f2, 0x0a8b3996, 0xf10a5c62);
  }

  lemma Words52()
    ensures WordIs(52, 0x84badedd) && WordIs(53, 0xc21462bc)
    ensures WordIs(54, 0x1487472c) && WordIs(55, 0xb20f7a99)
  {
    Words36();
    Words40();
    Words44();
    Words48();
    hide WordIs;
    NextWord(52, 0xb9e66c34, 0x840abf27, 0x72af830a, 0x0a8b3996);
    NextWord(53, 0xa9993667, 0x7a290d5d, 0x9409e33e, 0x72af830a);
    NextWord(54, 0x84badedd, 0x065c43da, 0x24641522, 0x9409e33e);
    NextWord(55, 0xc21462bc, 0xfb3e89cb, 0x9f47bf94, 0x24641522);
  }

  lemma Words56()
    ensures WordIs(56, 0xef57b9cd) && WordIs(57, 0xebe6b238)
    ensures WordIs(58, 0x9fe3095e) && WordIs(59, 0x78bc8d4b)
  {
    Words40();
    Words44();
    Words48();
    Words52();
    hide WordIs;
    NextWord(56, 0x1487472c, 0xcc7617db, 0xf0a64f5a, 0x9f47bf94);
    NextWord(57, 0xb20f7a99, 0xb9e66c34, 0x3e246a79, 0xf0a64f5a);
    NextWord(58, 0xef57b9cd, 0xa9993667, 0x27333ba3, 0x3e246a79);
    NextWord(59, 0xebe6b238, 0x84badedd, 0x0c4763f2, 0x27333ba3);
  }

  lemma Words60()
    ensures WordIs(60, 0xa43fcf15) && WordIs(61, 0x668b2ff8)
    ensures WordIs(62, 0xeeaba2cc) && WordIs(63, 0x12b1edeb)
  {
    Words44();
    Words48();
    Words52();
    Words56();
    hide WordIs;
    NextWord(60, 0x9fe3095e, 0xc21462bc, 0x840abf27, 0x0c4763f2);
    NextWord(61, 0x78bc8d4b, 0x1487472c, 0x7a290d5d, 0x840abf27);
    NextWord(62, 0xa43fcf15, 0xb20f7a99, 0x065c43da, 0x7a290d5d);
    NextWord(63, 0x668b2ff8, 0xef57b9cd, 0xfb3e89cb, 0x065c43da);
  }

  // ----- The rounds -----

  lemma NextRound(t: nat, v: Words, k: bv32, w: bv32)
    requires t < 64 && IsBlock(BLOCK) && |K| == 64 && Rounds(H0, BLOCK, t) == v && K[t] == k && WordIs(t, w)
    ensures Rounds(H0, BLOCK, t + 1) == Round(v, k, w)
  {
    hide W, BLOCK, K, Round;
  }

  lemma Constants0()
    ensures |K| == 64
    ensures K[0] == 0x428a2f98 && K[1] == 0x71374491 && K[2] == 0xb5c0fbcf && K[3] == 0xe9b5dba5
    ensures K[4] == 0x3956c25b && K[5] == 0x59f111f1 && K[6] == 0x923f82a4 && K[7] == 0xab1c5ed5
  {
    InRows(0);
    InRows(1);
    InRows(2);
    InRows(3);
    InRows(4);
    InRows(5);
    InRows(6);
    InRows(7);
    hide K;
  }

  lemma Constants8()
    ensures |K| == 64
    ensures K[8] == 0xd807aa98 && K[9] == 0x12835b01 && K[10] == 0x243185be && K[11] == 0x550c7dc3
    ensures K[12] == 0x72be5d74 && K[13] == 0x80deb1fe && K[14] == 0x9bdc06a7 && K[15] == 0xc19bf174
  {
    InRows(8);
    InRows(9);
    InRows(10);
    InRows(11);
    InRows(12);
    InRows(13);
    InRows(14);
    InRows(15);
    hide K;
  }

  lemma Constants16()
    ensures |K| == 64
    ensures K[16] == 0xe49b69c1 && K[17] == 0xefbe4786 && K[18] == 0x0fc19dc6 && K[19] == 0x240ca1cc
    ensures K[20] == 0x2de92c6f && K[21] == 0x4a7484aa && K[22] == 0x5cb0a9dc && K[23] == 0x76f988da
  {
    InRows(16);
    InRows(17);
    InRows(18);
    InRows(19);
    InRows(20);
    InRows(21);
    InRows(22);
    InRows(23);
    hide K;
  }

  lemma Constants24()
    ensures |K| == 64
    ensures K[24] == 0x983e5152 && K[25] == 0xa831c66d && K[26] == 0xb00327c8 && K[27] == 0xbf597fc7
    ensures K[28] == 0xc6e00bf3 && K[29] == 0xd5a79147 && K[30] == 0x06ca6351 && K[31] == 0x14292967
  {
    InRows(24);
    InRows(25);
    InRows(26);
    InRows(27);
    InRows(28);
    InRows(29);
    InRows(30);
    InRows(31);
    hide K;
  }

  lemma Constants32()
    ensures |K| == 64
    ensures K[32] == 0x27b70a85 && K[33] == 0x2e1b2138 && K[34] == 0x4d2c6dfc && K[35] == 0x53380d13
    ensures K[36] == 0x650a7354 && K[37] == 0x766a0abb && K[38] == 0x81c2c92e && K[39] == 0x92722c85
  {
    InRows(32);
    InRows(33);
    InRows(34);
    InRows(35);
    InRows(36);
    InRows(37);
    InRows(38);
    InRows(39);
    hide K;
  }

  lemma Constants40()
    ensures |K| == 64
    ensures K[40] == 0xa2bfe8a1 && K[41] == 0xa81a664b && K[42] == 0xc24b8b70 && K[43] == 0xc76c51a3
    ensures K[44] == 0xd192e819 && K[45] == 0xd6990624 && K[46] == 0xf40e3585 && K[47] == 0x106aa070
  {
    InRows(40);
    InRows(41);
    InRows(42);
    InRows(43);
    InRows(44);
    InRows(45);
    InRows(46);
    InRows(47);
    hide K;
  }

  lemma Constants48()
    ensures |K| == 64
    ensures K[48] == 0x19a4c116 && K[49] == 0x1e376c08 && K[50] == 0x2748774c && K[51] == 0x34b0bcb5
    ensures K[52] == 0x391c0cb3 && K[53] == 0x4ed8aa4a && K[54] == 0x5b9cca4f && K[55] == 0x682e6ff3
  {
    InRows(48);
    InRows(49);
    InRows(50);
    InRows(51);
    InRows(52);
    InRows(53);
    InRows(54);
    InRows(55);
    hide K;
  }

  lemma Constants56()
    ensures |K| == 64
    ensures K[56] == 0x748f82ee && K[57] == 0x78a5636f && K[58] == 0x84c87814 && K[59] == 0x8cc70208
    ensures K[60] == 0x90befffa && K[61] == 0xa4506ceb && K[62] == 0xbef9a3f7 && K[63] == 0xc67178f2
  {
    InRows(56);
    InRows(57);
    InRows(58);
    InRows(59);
    InRows(60);
    InRows(61);
    InRows(62);
    InRows(63);
    hide K;
  }

  lemma StartOfRounds()
    requires IsBlock(BLOCK)
    ensures Rounds(H0, BLOCK, 0) == Words(
      0x6a09e667, 0xbb67ae85, 0x3c6ef372, 0xa54ff53a,
      0x510e527f, 0x9b05688c, 0x1f83d9ab, 0x5be0cd19)
  {
    hide BLOCK;
  }

  lemma Rounds4()
    ensures IsBlock(BLOCK)
    ensures Rounds(H0, BLOCK, 4) == Words(
      0xd550f666, 0xc8c347a7, 0x5a6ad9ad, 0x5d6aebcd,
      0x24e00850, 0xf92939eb, 0x78ce7989, 0xfa2a4622)
  {
    BlockIsBlock();
    StartOfRounds();
    Words0();
    Constants0();
    hide WordIs, BLOCK, K, Rounds;
    NextRound(0, Words(
      0x6a09e667, 0xbb67ae85, 0x3c6ef372, 0xa54ff53a,
      0x510e527f, 0x9b05688c, 0x1f83d9ab, 0x5be0cd19), 0x428a2f98, 0x61626380);
    NextRound(1, Words(
      0x5d6aebcd, 0x6a09e667, 0xbb67ae85, 0x3c6ef372,
      0xfa2a4622, 0x510e527f, 0x9b05688c, 0x1f83d9ab), 0x71374491, 0x00000000);
    NextRound(2, Words(
      0x5a6ad9ad, 0x5d6aebcd, 0x6a09e667, 0xbb67ae85,
      0x78ce7989, 0xfa2a4622, 0x510e527f, 0x9b05688c), 0xb5c0fbcf, 0x00000000);
    NextRound(3, Words(
      0xc8c347a7, 0x5a6ad9ad, 0x5d6aebcd, 0x6a09e667,
      0xf92939eb, 0x78ce7989, 0xfa2a4622, 0x510e527f), 0xe9b5dba5, 0x00000000);
  }

  lemma Rounds8()
    ensures IsBlock(BLOCK)
    ensures Rounds(H0, BLOCK, 8) == Words(
      0x85a07b5f, 0xe5030380, 0x2b4209f5, 0x04409a6a,
      0x0c657a79, 0x9b27a401, 0x714260ad, 0x43ada245)
  {
    Rounds4();
    Words0();
    Constants0();
    hide WordIs, BLOCK, K, Rounds;
    NextRound(4, Words(
      0xd550f666, 0xc8c347a7, 0x5a6ad9ad, 0x5d6aebcd,
      0x24e00850, 0xf92939eb, 0x78ce7989, 0xfa2a4622), 0x3956c25b, 0x00000000);
    NextRound(5, Words(
      0x04409a6a, 0xd550f666, 0xc8c347a7, 0x5a6ad9ad,
      0x43ada245, 0x24e00850, 0xf92939eb, 0x78ce7989), 0x59f111f1, 0x00000000);
    NextRound(6, Words(
      0x2b4209f5, 0x04409a6a, 0xd550f666, 0xc8c347a7,
      0x714260ad, 0x43ada245, 0x24e00850, 0xf92939eb), 0x923f82a4, 0x00000000);
    NextRound(7, Words(
      0xe5030380, 0x2b4209f5, 0x04409a6a, 0xd550f666,
      0x9b27a401, 0x714260ad, 0x43ada245, 0x24e00850), 0xab1c5ed5, 0x00000000);
  }

  lemma Rounds12()
    ensures IsBlock(BLOCK)
    ensures Rounds(H0, BLOCK, 12) == Words(
      0xf71fc5a9, 0x4798a3f4, 0x8c87346b, 0x8e04ecb9,
      0x816fd6e9, 0x436b23e8, 0x1cc92596, 0x32ca2d8c)
  {
    Rounds8();
    Words8();
    Constants8();
    hide WordIs, BLOCK, K, Rounds;
    NextRound(8, Words(
      0x85a07b5f, 0xe5030380, 0x2b4209f5, 0x04409a6a,
      0x0c657a79, 0x9b27a401, 0x714260ad, 0x43ada245), 0xd807aa98, 0x00000000);
    NextRound(9, Words(
      0x8e04ecb9, 0x85a07b5f, 0xe5030380, 0x2b4209f5,
      0x32ca2d8c, 0x0c657a79, 0x9b27a401, 0x714260ad), 0x12835b01, 0x00000000);
    NextRound(10, Words(
      0x8c87346b, 0x8e04ecb9, 0x85a07b5f, 0xe5030380,
      0x1cc92596, 0x32ca2d8c, 0x0c657a79, 0x9b27a401), 0x243185be, 0x00000000);
    NextRound(11, Words(
      0x4798a3f4, 0x8c87346b, 0x8e04ecb9, 0x85a07b5f,
      0x436b23e8, 0x1cc92596, 0x32ca2d8c, 0x0c657a79), 0x550c7dc3, 0x00000000);
  }

  lemma Rounds16()
    ensures IsBlock(BLOCK)
    ensures Rounds(H0, BLOCK, 16) == Words(
      0xb0fa238e, 0xc0645fde, 0xd932eb16, 0x87912990,
      0x07590dcd, 0x0b92f20c, 0x745a48de, 0x1e578218)
  {
    Rounds12();
    Words8();
    Constants8();
    hide WordIs, BLOCK, K, Rounds;
    NextRound(12, Words(
      0xf71fc5a9, 0x4798a3f4, 0x8c87346b, 0x8e04ecb9,
      0x816fd6e9, 0x436b23e8, 0x1cc92596, 0x32ca2d8c), 0x72be5d74, 0x00000000);
    NextRound(13, Words(
      0x87912990, 0xf71fc5a9, 0x4798a3f4, 0x8c87346b,
      0x1e578218, 0x816fd6e9, 0x436b23e8, 0x1cc92596), 0x80deb1fe, 0x00000000);
    NextRound(14, Words(
      0xd932eb16, 0x87912990, 0xf71fc5a9, 0x4798a3f4,
      0x745a48de, 0x1e578218, 0x816fd6e9, 0x436b23e8), 0x9bdc06a7, 0x00000000);
    NextRound(15, Words(
      0xc0645fde, 0xd932eb16, 0x87912990, 0xf71fc5a9,
      0x0b92f20c, 0x745a48de, 0x1e578218, 0x816fd6e9), 0xc19bf174, 0x00000018);
  }

  lemma Rounds20()
    ensures IsBlock(BLOCK)
    ensures Rounds(H0, BLOCK, 20) == Words(
      0xe1f20c33, 0xfe777bbf, 0xc2fbd9d1, 0x21da9a9b,
      0xb0638179, 0xcc899961, 0x846ee454, 0x8034229c)
  {
    Rounds16();
    Words16();
    Constants16();
    hide WordIs, BLOCK, K, Rounds;
    NextRound(16, Words(
      0xb0fa238e, 0xc0645fde, 0xd932eb16, 0x87912990,
      0x07590dcd, 0x0b92f20c, 0x745a48de, 0x1e578218), 0xe49b69c1, 0x61626380);
    NextRound(17, Words(
      0x21da9a9b, 0xb0fa238e, 0xc0645fde, 0xd932eb16,
      0x8034229c, 0x07590dcd, 0x0b92f20c, 0x745a48de), 0xefbe4786, 0x000f0000);
    NextRound(18, Words(
      0xc2fbd9d1, 0x21da9a9b, 0xb0fa238e, 0xc0645fde,
      0x846ee454, 0x8034229c, 0x07590dcd, 0x0b92f20c), 0x0fc19dc6, 0x7da86405);
    NextRound(19, Words(
      0xfe777bbf, 0xc2fbd9d1, 0x21da9a9b, 0xb0fa238e,
      0xcc899961, 0x846ee454, 0x8034229c, 0x07590dcd), 0x240ca1cc, 0x600003c6);
  }

  lemma Rounds24()
    ensures IsBlock(BLOCK)
    ensures Rounds(H0, BLOCK, 24) == Words(
      0xc5d53d8d, 0xa7a3623f, 0xc2606d6d, 0x9dc68b63,
      0xaa47c347, 0x49f5114a, 0xe1257970, 0x8ada8930)
  {
    Rounds20();
    Words20();
    Constants16();
    hide WordIs, BLOCK, K, Rounds;
    NextRound(20, Words(
      0xe1f20c33, 0xfe777bbf, 0xc2fbd9d1, 0x21da9a9b,
      0xb0638179, 0xcc899961, 0x846ee454, 0x8034229c), 0x2de92c6f, 0x3e9d7b78);
    NextRound(21, Words(
      0x9dc68b63, 0xe1f20c33, 0xfe777bbf, 0xc2fbd9d1,
      0x8ada8930, 0xb0638179, 0xcc899961, 0x846ee454), 0x4a7484aa, 0x0183fc00);
    NextRound(22, Words(
      0xc2606d6d, 0x9dc68b63, 0xe1f20c33, 0xfe777bbf,
      0xe1257970, 0x8ada8930, 0xb0638179, 0xcc899961), 0x5cb0a9dc, 0x12dcbfdb);
    NextRound(23, Words(
      0xa7a3623f, 0xc2606d6d, 0x9dc68b63, 0xe1f20c33,
      0x49f5114a, 0xe1257970, 0x8ada8930, 0xb0638179), 0x76f988da, 0xe2e2c38e);
  }

  lemma Rounds28()
    ensures IsBlock(BLOCK)
    ensures Rounds(H0, BLOCK, 28) == Words(
      0x77d37528, 0xb62ec4bc, 0xcde8037d, 0x1c2c2838,
      0xedffbff8, 0xc74c6516, 0x14383d8e, 0x2823ef91)
  {
    Rounds24();
    Words24();
    Constants24();
    hide WordIs, BLOCK, K, Rounds;
    NextRound(24, Words(
      0xc5d53d8d, 0xa7a3623f, 0xc2606d6d, 0x9dc68b63,
      0xaa47c347, 0x49f5114a, 0xe1257970, 0x8ada8930), 0x983e5152, 0xc8215c1a);
    NextRound(25, Words(
      0x1c2c2838, 0xc5d53d8d, 0xa7a3623f, 0xc2606d6d,
      0x2823ef91, 0xaa47c347, 0x49f5114a, 0xe1257970), 0xa831c66d, 0xb73679a2);
    NextRound(26, Words(
      0xcde8037d, 0x1c2c2838, 0xc5d53d8d, 0xa7a3623f,
      0x14383d8e, 0x2823ef91, 0xaa47c347, 0x49f5114a), 0xb00327c8, 0xe5bc3909);
    NextRound(27, Words(
      0xb62ec4bc, 0xcde8037d, 0x1c2c2838, 0xc5d53d8d,
      0xc74c6516, 0x14383d8e, 0x2823ef91, 0xaa47c347), 0xbf597fc7, 0x32663c5b);
  }

  lemma Rounds32()
    ensures IsBlock(BLOCK)
    ensures Rounds(H0, BLOCK, 32) == Words(
      0x73b33bf5, 0xea992a22, 0xa0060b30, 0x363482c9,
      0xba591112, 0x0109ab3a, 0xade79437, 0x6112a3b7)
  {
    Rounds28();
    Words28();
    Constants24();
    hide WordIs, BLOCK, K, Rounds;
    NextRound(28, Words(
      0x77d37528, 0xb62ec4bc, 0xcde8037d, 0x1c2c2838,
      0xedffbff8, 0xc74c6516, 0x14383d8e, 0x2823ef91), 0xc6e00bf3, 0x9d209d67);
    NextRound(29, Words(
      0x363482c9, 0x77d37528, 0xb62ec4bc, 0xcde8037d,
      0x6112a3b7, 0xedffbff8, 0xc74c6516, 0x14383d8e), 0xd5a79147, 0xec8726cb);
    NextRound(30, Words(
      0xa0060b30, 0x363482c9, 0x77d37528, 0xb62ec4bc,
      0xade79437, 0x6112a3b7, 0xedffbff8, 0xc74c6516), 0x06ca6351, 0x702138a4);
    NextRound(31, Words(
      0xea992a22, 0xa0060b30, 0x363482c9, 0x77d37528,
      0x0109ab3a, 0xade79437, 0x6112a3b7, 0xedffbff8), 0x14292967, 0xd3b7973b);
  }

  lemma Rounds36()
    ensures IsBlock(BLOCK)
    ensures Rounds(H0, BLOCK, 36) == Words(
      0x65a0cfe4, 0xa9a7738c, 0xfe604df5, 0x98e12507,
      0xf4b002d6, 0x085f3833, 0x59249dd3, 0x9cd9f5f6)
  {
    Rounds32();
    Words32();
    Constants32();
    hide WordIs, BLOCK, K, Rounds;
    NextRound(32, Words(
      0x73b33bf5, 0xea992a22, 0xa0060b30, 0x363482c9,
      0xba591112, 0x0109ab3a, 0xade79437, 0x6112a3b7), 0x27b70a85, 0x93f5997f);
    NextRound(33, Words(
      0x98e12507, 0x73b33bf5, 0xea992a22, 0xa0060b30,
      0x9cd9f5f6, 0xba591112, 0x0109ab3a, 0xade79437), 0x2e1b2138, 0x3b68ba73);
    NextRound(34, Words(
      0xfe604df5, 0x98e12507, 0x73b33bf5, 0xea992a22,
      0x59249dd3, 0x9cd9f5f6, 0xba591112, 0x0109ab3a), 0x4d2c6dfc, 0xaff4ffc1);
    NextRound(35, Words(
      0xa9a7738c, 0xfe604df5, 0x98e12507, 0x73b33bf5,
      0x085f3833, 0x59249dd3, 0x9cd9f5f6, 0xba591112), 0x53380d13, 0xf10a5c62);
  }

  lemma Rounds40()
    ensures IsBlock(BLOCK)
    ensures Rounds(H0, BLOCK, 40) == Words(
      0x79ea687a, 0x6dc57a8a, 0x34df1604, 0x41a65cb1,
      0x1efbc0a0, 0xf0781bc8, 0xa507a53d, 0x0772a26b)
  {
    Rounds36();
    Words36();
    Constants32();
    hide WordIs, BLOCK, K, Rounds;
    NextRound(36, Words(
      0x65a0cfe4, 0xa9a7738c, 0xfe604df5, 0x98e12507,
      0xf4b002d6, 0x085f3833, 0x59249dd3, 0x9cd9f5f6), 0x650a7354, 0x0a8b3996);
    NextRound(37, Words(
      0x41a65cb1, 0x65a0cfe4, 0xa9a7738c, 0xfe604df5,
      0x0772a26b, 0xf4b002d6, 0x085f3833, 0x59249dd3), 0x766a0abb, 0x72af830a);
    NextRound(38, Words(
      0x34df1604, 0x41a65cb1, 0x65a0cfe4, 0xa9a7738c,
      0xa507a53d, 0x0772a26b, 0xf4b002d6, 0x085f3833), 0x81c2c92e, 0x9409e33e);
    NextRound(39, Words(
      0x6dc57a8a, 0x34df1604, 0x41a65cb1, 0x65a0cfe4,
      0xf0781bc8, 0xa507a53d, 0x0772a26b, 0xf4b002d6), 0x92722c85, 0x24641522);
  }

  lemma Rounds44()
    ensures IsBlock(BLOCK)
    ensures Rounds(H0, BLOCK, 44) == Words(
      0x9d4baf93, 0x17aa0dfe, 0xdf46652f, 0xd6670766,
      0xfda24c2e, 0xdecd4715, 0x838b2711, 0x26352d63)
  {
    Rounds40();
    Words40();
    Constants40();
    hide WordIs, BLOCK, K, Rounds;
    NextRound(40, Words(
      0x79ea687a, 0x6dc57a8a, 0x34df1604, 0x41a65cb1,
      0x1efbc0a0, 0xf0781bc8, 0xa507a53d, 0x0772a26b), 0xa2bfe8a1, 0x9f47bf94);
    NextRound(41, Words(
      0xd6670766, 0x79ea687a, 0x6dc57a8a, 0x34df1604,
      0x26352d63, 0x1efbc0a0, 0xf0781bc8, 0xa507a53d), 0xa81a664b, 0xf0a64f5a);
    NextRound(42, Words(
      0xdf46652f, 0xd6670766, 0x79ea687a, 0x6dc57a8a,
      0x838b2711, 0x26352d63, 0x1efbc0a0, 0xf0781bc8), 0xc24b8b70, 0x3e246a79);
    NextRound(43, Words(
      0x17aa0dfe, 0xdf46652f, 0xd6670766, 0x79ea687a,
      0xdecd4715, 0x838b2711, 0x26352d63, 0x1efbc0a0), 0xc76c51a3, 0x27333ba3);
  }

  lemma Rounds48()
    ensures IsBlock(BLOCK)
    ensures Rounds(H0, BLOCK, 48) == Words(
      0x4172328d, 0xa14c14b0, 0x72ab4b91, 0x26628815,
      0xfecf0bc6, 0xd57b94a9, 0xb7755da1, 0xa80f11f0)
  {
    Rounds44();
    Words44();
    Constants40();
    hide WordIs, BLOCK, K, Rounds;
    NextRound(44, Words(
      0x9d4baf93, 0x17aa0dfe, 0xdf46652f, 0xd6670766,
      0xfda24c2e, 0xdecd4715, 0x838b2711, 0x26352d63), 0xd192e819, 0x0c4763f2);
    NextRound(45, Words(
      0x26628815, 0x9d4baf93, 0x17aa0dfe, 0xdf46652f,
      0xa80f11f0, 0xfda24c2e, 0xdecd4715, 0x838b2711), 0xd6990624, 0x840abf27);
    NextRound(46, Words(
      0x72ab4b91, 0x26628815, 0x9d4baf93, 0x17aa0dfe,
      0xb7755da1, 0xa80f11f0, 0xfda24c2e, 0xdecd4715), 0xf40e3585, 0x7a290d5d);
    NextRound(47, Words(
      0xa14c14b0, 0x72ab4b91, 0x26628815, 0x9d4baf93,
      0xd57b94a9, 0xb7755da1, 0xa80f11f0, 0xfda24c2e), 0x106aa070, 0x065c43da);
  }

  lemma Rounds52()
    ensures IsBlock(BLOCK)
    ensures Rounds(H0, BLOCK, 52) == Words(
      0x886e7a22, 0x7a0508a1, 0xf11bfaa8, 0x05757ceb,
      0x49231c1e, 0x52f1ccf7, 0x6e5c390c, 0xbd714038)
  {
    Rounds48();
    Words48();
    Constants48();
    hide WordIs, BLOCK, K, Rounds;
    NextRound(48, Words(
      0x4172328d, 0xa14c14b0, 0x72ab4b91, 0x26628815,
      0xfecf0bc6, 0xd57b94a9, 0xb7755da1, 0xa80f11f0), 0x19a4c116, 0xfb3e89cb);
    NextRound(49, Words(
      0x05757ceb, 0x4172328d, 0xa14c14b0, 0x72ab4b91,
      0xbd714038, 0xfecf0bc6, 0xd57b94a9, 0xb7755da1), 0x1e376c08, 0xcc7617db);
    NextRound(50, Words(
      0xf11bfaa8, 0x05757ceb, 0x4172328d, 0xa14c14b0,
      0x6e5c390c, 0xbd714038, 0xfecf0bc6, 0xd57b94a9), 0x2748774c, 0xb9e66c34);
    NextRound(51, Words(
      0x7a0508a1, 0xf11bfaa8, 0x05757ceb, 0x4172328d,
      0x52f1ccf7, 0x6e5c390c, 0xbd714038, 0xfecf0bc6), 0x34b0bcb5, 0xa9993667);
  }

  lemma Rounds56()
    ensures IsBlock(BLOCK)
    ensures Rounds(H0, BLOCK, 56) == Words(
      0x38cc9913, 0x3ec45cdb, 0xf5702fdb, 0x101fd28f,
      0x54cb266b, 0xe50e1b4f, 0x9f4787c3, 0x529e7d00)
  {
    Rounds52();
    Words52();
    Constants48();
    hide WordIs, BLOCK, K, Rounds;
    NextRound(52, Words(
      0x886e7a22, 0x7a0508a1, 0xf11bfaa8, 0x05757ceb,
      0x49231c1e, 0x52f1ccf7, 0x6e5c390c, 0xbd714038), 0x391c0cb3, 0x84badedd);
    NextRound(53, Words(
      0x101fd28f, 0x886e7a22, 0x7a0508a1, 0xf11bfaa8,
      0x529e7d00, 0x49231c1e, 0x52f1ccf7, 0x6e5c390c), 0x4ed8aa4a, 0xc21462bc);
    NextRound(54, Words(
      0xf5702fdb, 0x101fd28f, 0x886e7a22, 0x7a0508a1,
      0x9f4787c3, 0x529e7d00, 0x49231c1e, 0x52f1ccf7), 0x5b9cca4f, 0x1487472c);
    NextRound(55, Words(
      0x3ec45cdb, 0xf5702fdb, 0x101fd28f, 0x886e7a22,
      0xe50e1b4f, 0x9f4787c3, 0x529e7d00, 0x49231c1e), 0x682e6ff3, 0xb20f7a99);
  }

  lemma Rounds60()
    ensures IsBlock(BLOCK)
    ensures Rounds(H0, BLOCK, 60) == Words(
      0xb6ae8fff, 0xffb70472, 0xc062d46f, 0xfcd1887b,
      0xb21bad3d, 0x6d83bfc6, 0x7e44008e, 0x9b5e906c)
  {
    Rounds56();
    Words56();
    Constants56();
    hide WordIs, BLOCK, K, Rounds;
    NextRound(56, Words(
      0x38cc9913, 0x3ec45cdb, 0xf5702fdb, 0x101fd28f,
      0x54cb266b, 0xe50e1b4f, 0x9f4787c3, 0x529e7d00), 0x748f82ee, 0xef57b9cd);
    NextRound(57, Words(
      0xfcd1887b, 0x38cc9913, 0x3ec45cdb, 0xf5702fdb,
      0x9b5e906c, 0x54cb266b, 0xe50e1b4f, 0x9f4787c3), 0x78a5636f, 0xebe6b238);
    NextRound(58, Words(
      0xc062d46f, 0xfcd1887b, 0x38cc9913, 0x3ec45cdb,
      0x7e44008e, 0x9b5e906c, 0x54cb266b, 0xe50e1b4f), 0x84c87814, 0x9fe3095e);
    NextRound(59, Words(
      0xffb70472, 0xc062d46f, 0xfcd1887b, 0x38cc9913,
      0x6d83bfc6, 0x7e44008e, 0x9b5e906c, 0x54cb266b), 0x8cc70208, 0x78bc8d4b);
  }

  lemma Rounds64()
    ensures IsBlock(BLOCK)
    ensures Rounds(H0, BLOCK, 64) == Words(
      0x506e3058, 0xd39a2165, 0x04d24d6c, 0xb85e2ce9,
      0x5ef50f24, 0xfb121210, 0x948d25b6, 0x961f4894)
  {
    Rounds60();
    Words60();
    Constants56();
    hide WordIs, BLOCK, K, Rounds;
    NextRound(60, Words(
      0xb6ae8fff, 0xffb70472, 0xc062d46f, 0xfcd1887b,
      0xb21bad3d, 0x6d83bfc6, 0x7e44008e, 0x9b5e906c), 0x90befffa, 0xa43fcf15);
    NextRound(61, Words(
      0xb85e2ce9, 0xb6ae8fff, 0xffb70472, 0xc062d46f,
      0x961f4894, 0xb21bad3d, 0x6d83bfc6, 0x7e44008e), 0xa4506ceb, 0x668b2ff8);
    NextRound(62, Words(
      0x04d24d6c, 0xb85e2ce9, 0xb6ae8fff, 0xffb70472,
      0x948d25b6, 0x961f4894, 0xb21bad3d, 0x6d83bfc6), 0xbef9a3f7, 0xeeaba2cc);
    NextRound(63, Words(
      0xd39a2165, 0x04d24d6c, 0xb85e2ce9, 0xb6ae8fff,
      0xfb121210, 0x948d25b6, 0x961f4894, 0xb21bad3d), 0xc67178f2, 0x12b1edeb);
  }

  // ----- The digest -----

  lemma FoldOfAbc()
    ensures Fold(H0, Parse(Pad(ABC))) == Words(
      0xba7816bf, 0x8f01cfea, 0x414140de, 0x5dae2223,
      0xb00361a3, 0x96177a9c, 0xb410ff61, 0xf20015ad)
  {
    ParseOfAbc();
    Rounds64();
    hide BLOCK, Pad, Parse, Rounds;
    assert [BLOCK][..0] == [];
    assert Fold(H0, []) == H0;
    assert Fold(H0, [BLOCK]) == Compress(H0, BLOCK);
  }

  /** SHA-256("abc"). */
  lemma HashOfAbc()
    ensures Hash(ABC) == [
      0xba, 0x78, 0x16, 0xbf, 0x8f, 0x01, 0xcf, 0xea,
      0x41, 0x41, 0x40, 0xde, 0x5d, 0xae, 0x22, 0x23,
      0xb0, 0x03, 0x61, 0xa3, 0x96, 0x17, 0x7a, 0x9c,
      0xb4, 0x10, 0xff, 0x61, 0xf2, 0x00, 0x15, 0xad]
  {
    FoldOfAbc();
    hide Pad, Parse, Fold;
  }
}
