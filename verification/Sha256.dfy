/** The streaming hash of src/Sha256.cpp. */
module Sha256 {
  import opened Bits
  import opened Fips
  import opened Sequences
  import opened Streaming

  // ----- The macros of src/Sha256.cpp:34-41, ROTRIGHT expanded -----

  function CH(x: bv32, y: bv32, z: bv32): (r: bv32) { (x & y) ^ (!x & z) }

  function MAJ(x: bv32, y: bv32, z: bv32): (r: bv32) { (x & y) ^ (x & z) ^ (y & z) }

  function EP0(x: bv32): (r: bv32) { ((x >> 2) | (x << 30)) ^ ((x >> 13) | (x << 19)) ^ ((x >> 22) | (x << 10)) }

  function EP1(x: bv32): (r: bv32) { ((x >> 6) | (x << 26)) ^ ((x >> 11) | (x << 21)) ^ ((x >> 25) | (x << 7)) }

  function SIG0(x: bv32): (r: bv32) { ((x >> 7) | (x << 25)) ^ ((x >> 18) | (x << 14)) ^ (x >> 3) }

  function SIG1(x: bv32): (r: bv32) { ((x >> 17) | (x << 15)) ^ ((x >> 19) | (x << 13)) ^ (x >> 10) }

  lemma MacrosAreFips(x: bv32)
    ensures EP0(x) == BigSigma0(x) && EP1(x) == BigSigma1(x)
    ensures SIG0(x) == SmallSigma0(x) && SIG1(x) == SmallSigma1(x)
  {
  }

  class Sha256Context {
    var data: array<bv8>
    var datalen: nat
    var bitlen: nat
    var state: array<bv32>
    ghost var fed: seq<seq<bv8>>

    ghost predicate Valid()
      reads this, data, state
    {
      && data.Length == 64 && state.Length == 8
      && Value().Live()
      && Load(state) == Fold(H0, fed)
    }

    ghost function Value(): (r: Context)
      reads this, data
    {
      Context(data[..], datalen, bitlen, fed)
    }

    /** Sha256Init on a freshly allocated context; the buffer holds arbitrary bytes. */
    constructor ()
      ensures Valid() && fresh(data) && fresh(state)
      ensures datalen == 0 && bitlen == 0 && fed == []
    {
      data := new bv8[64];
      state := new bv32[8][
        0x6a09e667, 0xbb67ae85, 0x3c6ef372, 0xa54ff53a, 0x510e527f, 0x9b05688c, 0x1f83d9ab, 0x5be0cd19];
      datalen := 0;
      bitlen := 0;
      fed := [];
    }

    /** Sha256Transform on the buffer; only the chaining words change. */
    method Transform()
      requires data.Length == 64 && state.Length == 8
      requires AreBlocks(fed) && Load(state) == Fold(H0, fed)
      modifies state, `fed
      ensures fed == old(fed) + [data[..]]
      ensures AreBlocks(fed) && Load(state) == Fold(H0, fed)
    {
      CompressInto(state, data);
      FoldAppend(H0, fed, data[..]);
      fed := fed + [data[..]];
    }

    /** Sha256Update. */
    method Update(input: seq<bv8>)
      requires Valid()
      modifies this, data, state
      ensures Valid() && data == old(data) && state == old(state)
      ensures Value() == Absorb(old(Value()), input)
    {
      for i := 0 to |input|
        invariant Valid() && data == old(data) && state == old(state)
        invariant Value() == Absorb(old(Value()), input[..i])
      {
        AbsorbSnoc(old(Value()), input[..i], input[i]);
        assert input[..i] + [input[i]] == input[..i + 1];
        AbsorbOne(input[i]);
      }
      assert input[..|input|] == input;
    }

    /** The body of Sha256Update's loop. */
    method AbsorbOne(x: bv8)
      requires Valid()
      modifies this, data, state
      ensures Valid() && data == old(data) && state == old(state)
      ensures Value() == AbsorbByte(old(Value()), x)
    {
      hide Compress;
      data[datalen] := x;
      datalen := datalen + 1;
      if datalen == 64 {
        Transform();
        bitlen := (bitlen + 512) % TWO64;
        datalen := 0;
      }
    }

    /** Sha256Final: pads in place, compresses one or two blocks and writes the digest. */
    method Final(hash: array<bv8>)
      requires Valid() && hash.Length == 32 && hash != data
      modifies this, data, state, hash
      ensures fed == old(fed) + LastBlocks(old(Value()))
      ensures AreBlocks(fed) && hash[..] == Digest(Fold(H0, fed))
    {
      hide Compress, Digest, LengthBytes;
      ghost var was := Value();
      PadBuffer();
      FinishBlock();
      FedInAll(was, bitlen, fed);
      EmitDigest(state, hash, Fold(H0, fed));
    }

    /** Counts the buffered bytes, patches the length in and compresses (src/Sha256.cpp:138-147). */
    method FinishBlock()
      requires data.Length == 64 && state.Length == 8
      requires AreBlocks(fed) && Load(state) == Fold(H0, fed)
      modifies `bitlen, `fed, data, state
      ensures bitlen == (old(bitlen) + datalen * 8) % TWO64
      ensures fed == old(fed) + [old(data[..56]) + LengthBytes(bitlen)]
      ensures AreBlocks(fed) && Load(state) == Fold(H0, fed)
    {
      hide Compress, LengthBytes;
      bitlen := (bitlen + datalen * 8) % TWO64;
      StoreLength();
      Transform();
    }

    /** The two padding branches of src/Sha256.cpp:124-136. */
    method PadBuffer()
      requires Valid()
      modifies data, state, `fed
      ensures fed == old(fed) + Flushed(old(Value())) && data[..56] == Front(old(Value()))
      ensures AreBlocks(fed) && Load(state) == Fold(H0, fed)
    {
      hide Compress, Fold, Load, Zeros;
      if datalen < 56 {
        PadTo(56);
      } else {
        FlushEarly();
      }
    }

    /** The second branch: a block of its own for the 0x80. */
    method FlushEarly()
      requires Valid() && datalen >= 56
      modifies data, state, `fed
      ensures fed == old(fed) + [old(data[..datalen]) + [0x80] + Zeros(63 - datalen)] && data[..56] == Zeros(56)
      ensures AreBlocks(fed) && Load(state) == Fold(H0, fed)
    {
      hide Compress, Fold, Load, Zeros;
      PadTo(64);
      assert data[..64] == data[..];
      Transform();
      ClearFront();
    }

    /** Writes 0x80 and zeros from `datalen` up to `end` (src/Sha256.cpp:124-134). */
    method PadTo(end: nat)
      requires data.Length == 64 && datalen < end <= 64
      modifies data
      ensures data[..end] == old(data[..datalen]) + [0x80] + Zeros(end - datalen - 1)
    {
      var i := datalen;
      data[i] := 0x80;
      i := i + 1;
      while i < end
        invariant datalen < i <= end
        invariant data[..datalen] == old(data[..datalen]) && data[datalen] == 0x80
        invariant forall j :: datalen < j < i ==> data[j] == 0
      {
        data[i] := 0x00;
        i := i + 1;
      }
    }

    /** memset(data, 0, 56). */
    method ClearFront()
      requires data.Length == 64
      modifies data
      ensures data[..56] == Zeros(56)
    {
      for i := 0 to 56
        invariant forall j :: 0 <= j < i ==> data[j] == 0
      {
        data[i] := 0;
      }
    }

    /** Patches the bit count into the last eight bytes (src/Sha256.cpp:139-146). */
    method StoreLength()
      requires data.Length == 64 && bitlen < TWO64
      modifies data
      ensures data[..] == old(data[..56]) + LengthBytes(bitlen)
    {
      StoreTail(data,
                Byte(bitlen / 0x100_0000_0000_0000), Byte(bitlen / 0x1_0000_0000_0000 % 256),
                Byte(bitlen / 0x100_0000_0000 % 256), Byte(bitlen / 0x1_0000_0000 % 256),
                Byte(bitlen / 0x100_0000 % 256), Byte(bitlen / 0x1_0000 % 256),
                Byte(bitlen / 0x100 % 256), Byte(bitlen % 256));
    }
  }

  /** Sha256Transform: the block's schedule, the rounds, the additions. */
  method CompressInto(state: array<bv32>, data: array<bv8>)
    requires state.Length == 8 && data.Length == 64
    modifies state
    ensures Load(state) == Compress(old(Load(state)), data[..])
  {
    var m := Schedule(data);
    var v := RunRounds(m, Load(state), data[..]);
    AddInto(state, v);
  }

  function Load(state: array<bv32>): (r: Words)
    requires state.Length == 8
    reads state
  {
    Words(state[0], state[1], state[2], state[3], state[4], state[5], state[6], state[7])
  }

  /** The final additions of src/Sha256.cpp:85-92. */
  method AddInto(state: array<bv32>, v: Words)
    requires state.Length == 8
    modifies state
    ensures Load(state) == Add(old(Load(state)), v)
  {
    hide Plus;
    state[0] := Plus(state[0], v.a);
    state[1] := Plus(state[1], v.b);
    state[2] := Plus(state[2], v.c);
    state[3] := Plus(state[3], v.d);
    state[4] := Plus(state[4], v.e);
    state[5] := Plus(state[5], v.f);
    state[6] := Plus(state[6], v.g);
    state[7] := Plus(state[7], v.h);
  }

  lemma FoldAppend(v: Words, bs: seq<seq<bv8>>, b: seq<bv8>)
    requires AreBlocks(bs) && IsBlock(b)
    ensures AreBlocks(bs + [b]) && Fold(v, bs + [b]) == Compress(Fold(v, bs), b)
  {
    assert (bs + [b])[..|bs|] == bs;
  }

  lemma RoundStep(v: Words, k: bv32, w: bv32, t1: bv32, t2: bv32)
    requires t1 == Plus(Plus(Plus(Plus(v.h, EP1(v.e)), CH(v.e, v.f, v.g)), k), w)
    requires t2 == Plus(EP0(v.a), MAJ(v.a, v.b, v.c))
    ensures Round(v, k, w) == Words(Plus(t1, t2), v.a, v.b, v.c, Plus(v.d, t1), v.e, v.f, v.g)
  {
    MacrosAreFips(v.a);
    MacrosAreFips(v.e);
    SameChoices(v.a, v.b, v.c);
    SameChoices(v.e, v.f, v.g);
  }

  lemma SameChoices(x: bv32, y: bv32, z: bv32)
    ensures CH(x, y, z) == Ch(x, y, z) && MAJ(x, y, z) == Maj(x, y, z)
  {
  }

  /** The register-rotating loop of src/Sha256.cpp:64-83. */
  method RunRounds(m: array<bv32>, start: Words, ghost block: seq<bv8>) returns (v: Words)
    requires IsBlock(block) && m.Length == 64
    requires forall t :: 0 <= t < 64 ==> m[t] == W(block, t)
    ensures v == Rounds(start, block, 64)
  {
    var Words(a, b, c, d, e, f, g, h) := start;
    ConstantCount();
    for i := 0 to 64
      invariant Words(a, b, c, d, e, f, g, h) == Rounds(start, block, i)
    {
      var t1 := Plus(Plus(Plus(Plus(h, EP1(e)), CH(e, f, g)), K[i]), m[i]);
      var t2 := Plus(EP0(a), MAJ(a, b, c));
      RoundStep(Words(a, b, c, d, e, f, g, h), K[i], m[i], t1, t2);
      h := g;
      g := f;
      f := e;
      e := Plus(d, t1);
      d := c;
      c := b;
      b := a;
      a := Plus(t1, t2);
    }
    v := Words(a, b, c, d, e, f, g, h);
  }

  /** The message schedule loops of src/Sha256.cpp:57-62. */
  method Schedule(data: array<bv8>) returns (m: array<bv32>)
    requires data.Length == 64
    ensures fresh(m) && m.Length == 64
    ensures forall t :: 0 <= t < 64 ==> m[t] == W(data[..], t)
  {
    hide SIG0, SIG1, Plus, BigEndian, LoadWord;
    m := new bv32[64];
    ghost var block := data[..];
    var i, j := 0, 0;
    while i < 16
      invariant i <= 16 && j == 4 * i
      invariant block == data[..]
      invariant forall t :: 0 <= t < i ==> m[t] == W(block, t)
    {
      m[i] := LoadWord(data, j);
      i := i + 1;
      j := j + 4;
    }
    while i < 64
      invariant 16 <= i <= 64
      invariant block == data[..]
      invariant forall t :: 0 <= t < i ==> m[t] == W(block, t)
    {
      ScheduleStep(block, i, m[i - 2], m[i - 7], m[i - 15], m[i - 16]);
      m[i] := Plus(Plus(Plus(SIG1(m[i - 2]), m[i - 7]), SIG0(m[i - 15])), m[i - 16]);
      i := i + 1;
    }
  }

  function LoadWord(data: array<bv8>, j: nat): (w: bv32)
    requires j + 4 <= data.Length
    reads data
    ensures w == BigEndian(data[j], data[j + 1], data[j + 2], data[j + 3])
  {
    ((data[j] as bv32) << 24) | ((data[j + 1] as bv32) << 16) | ((data[j + 2] as bv32) << 8) | (data[j + 3] as bv32)
  }

  lemma ScheduleStep(block: seq<bv8>, t: nat, w2: bv32, w7: bv32, w15: bv32, w16: bv32)
    requires IsBlock(block) && 16 <= t
    requires w2 == W(block, t - 2) && w7 == W(block, t - 7) && w15 == W(block, t - 15) && w16 == W(block, t - 16)
    ensures W(block, t) == Plus(Plus(Plus(SIG1(w2), w7), SIG0(w15)), w16)
  {
    MacrosAreFips(w2);
    MacrosAreFips(w15);
  }

  method StoreTail<T>(data: array<T>, b0: T, b1: T, b2: T, b3: T, b4: T, b5: T, b6: T, b7: T)
    requires data.Length == 64
    modifies data
    ensures data[..] == old(data[..56]) + [b0, b1, b2, b3, b4, b5, b6, b7]
  {
    data[63] := b7;
    data[62] := b6;
    data[61] := b5;
    data[60] := b4;
    data[59] := b3;
    data[58] := b2;
    data[57] := b1;
    data[56] := b0;
    assert data[..56] == old(data[..56]);
  }

  /** Whether column `i` of the eight four-element rows stands in its place. */
  predicate ColumnDone<T(==)>(h: seq<T>, rows: seq<seq<T>>, i: nat)
    requires |h| == 32 && AreRows(rows) && i < 4
  {
    && h[i] == rows[0][i] && h[i + 4] == rows[1][i] && h[i + 8] == rows[2][i] && h[i + 12] == rows[3][i]
    && h[i + 16] == rows[4][i] && h[i + 20] == rows[5][i] && h[i + 24] == rows[6][i] && h[i + 28] == rows[7][i]
  }

  predicate AreRows<T>(rows: seq<seq<T>>) {
    |rows| == 8 && forall w :: 0 <= w < 8 ==> |rows[w]| == 4
  }

  lemma RowInPlace<T>(h: seq<T>, k: nat, row: seq<T>)
    requires k + 4 <= |h| && |row| == 4
    requires h[k] == row[0] && h[k + 1] == row[1] && h[k + 2] == row[2] && h[k + 3] == row[3]
    ensures h[k..k + 4] == row
  {
  }

  lemma JoinRows<T>(h: seq<T>, rows: seq<seq<T>>)
    requires |h| == 32 && AreRows(rows)
    requires ColumnDone(h, rows, 0) && ColumnDone(h, rows, 1) && ColumnDone(h, rows, 2) && ColumnDone(h, rows, 3)
    ensures h == rows[0] + rows[1] + rows[2] + rows[3] + rows[4] + rows[5] + rows[6] + rows[7]
  {
    RowInPlace(h, 0, rows[0]);
    RowInPlace(h, 4, rows[1]);
    RowInPlace(h, 8, rows[2]);
    RowInPlace(h, 12, rows[3]);
    RowInPlace(h, 16, rows[4]);
    RowInPlace(h, 20, rows[5]);
    RowInPlace(h, 24, rows[6]);
    RowInPlace(h, 28, rows[7]);
    assert h[..8] == rows[0] + rows[1] && h[8..16] == rows[2] + rows[3];
    assert h[16..24] == rows[4] + rows[5] && h[24..] == rows[6] + rows[7];
    assert h == h[..8] + h[8..16] + h[16..24] + h[24..];
  }

  /** The output loop of src/Sha256.cpp:149-158. */
  method EmitDigest(state: array<bv32>, hash: array<bv8>, ghost v: Words)
    requires state.Length == 8 && hash.Length == 32 && Load(state) == v
    modifies hash
    ensures hash[..] == Digest(v)
  {
    var rows := [WordBytes(state[0]), WordBytes(state[1]), WordBytes(state[2]), WordBytes(state[3]),
                 WordBytes(state[4]), WordBytes(state[5]), WordBytes(state[6]), WordBytes(state[7])];
    EmitRows(rows, hash);
  }

  /** One turn of the output loop: a byte of every word. */
  method WriteColumn<T(==)>(rows: seq<seq<T>>, hash: array<T>, i: nat)
    requires AreRows(rows) && hash.Length == 32 && i < 4
    modifies hash
    ensures ColumnDone(hash[..], rows, i)
    ensures forall j :: 0 <= j < 32 && j % 4 != i ==> hash[j] == old(hash[j])
  {
    hash[i] := rows[0][i];
    hash[i + 4] := rows[1][i];
    hash[i + 8] := rows[2][i];
    hash[i + 12] := rows[3][i];
    hash[i + 16] := rows[4][i];
    hash[i + 20] := rows[5][i];
    hash[i + 24] := rows[6][i];
    hash[i + 28] := rows[7][i];
  }

  method EmitRows<T(==)>(rows: seq<seq<T>>, hash: array<T>)
    requires AreRows(rows) && hash.Length == 32
    modifies hash
    ensures hash[..] == rows[0] + rows[1] + rows[2] + rows[3] + rows[4] + rows[5] + rows[6] + rows[7]
  {
    for i := 0 to 4
      invariant forall j :: 0 <= j < i ==> ColumnDone(hash[..], rows, j)
    {
      ghost var was := hash[..];
      WriteColumn(rows, hash, i);
      forall j | 0 <= j < i
        ensures ColumnDone(hash[..], rows, j)
      {
        assert ColumnDone(was, rows, j);
      }
    }
    JoinRows(hash[..], rows);
  }

  lemma FedInAll(c: Context, bits: nat, fed: seq<seq<bv8>>)
    requires c.Live() && bits == (c.bitlen + c.datalen * 8) % TWO64
    requires fed == (c.fed + Flushed(c)) + [Front(c) + LengthBytes(bits)]
    ensures fed == c.fed + LastBlocks(c)
  {
    hide Flushed, Front, LengthBytes;
    Associate(c.fed, Flushed(c), [Front(c) + LengthBytes(bits)]);
  }

  /** Sha256: init, update, final. */
  method Sha256(data: seq<bv8>) returns (hash: seq<bv8>)
    ensures hash == Hash(data)
  {
    var ctx := new Sha256Context();
    ghost var start := ctx.Value();
    ctx.Update(data);
    StreamedBlocks(start, data);
    var out := new bv8[32];
    ctx.Final(out);
    hash := out[..];
  }
}
