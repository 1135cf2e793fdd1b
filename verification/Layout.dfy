/**
 The bytes on the wire, in numbers: what every serializer puts at every offset, and what every deserializer makes of
 bytes that nobody of this model wrote. Nothing here is stated with the serializers' own functions.
 */
module Layout {
  import opened Bits
  import opened Endian
  import opened Server
  import opened Session
  import opened Utf
  import opened Wire
  import opened WireProofs

  // ----- Numbers -----

  function Num(b: bv8): (n: nat)
    ensures n < 256
  {
    b as int
  }

  function Word(w: bv32): (n: nat)
    ensures n < TWO32
  {
    w as int
  }

  /** Two (four) bytes at `k` as a number, least significant first. */
  function Two(b: seq<bv8>, k: nat): (n: nat)
    requires k + 2 <= |b|
  {
    Num(b[k]) + 256 * Num(b[k + 1])
  }

  function Four(b: seq<bv8>, k: nat): (n: nat)
    requires k + 4 <= |b|
  {
    Two(b, k) + TWO16 * Two(b, k + 2)
  }

  lemma JoinOrder(b0: bv8, b1: bv8)
    ensures Of16(b0, b1) == ((b1 as bv16) << 8) | (b0 as bv16)
  {
  }

  lemma OfTwo(b0: bv8, b1: bv8)
    ensures Number16(Of16(b0, b1)) == Num(b0) + 256 * Num(b1)
  {
    JoinOrder(b0, b1);
    hide Of16;
    Join16(b1, b0);
  }

  lemma Halves32(b0: bv8, b1: bv8, b2: bv8, b3: bv8)
    ensures Of32(b0, b1, b2, b3) == ((Of16(b2, b3) as bv32) << 16) | (Of16(b0, b1) as bv32)
  {
  }

  lemma OfFour(b0: bv8, b1: bv8, b2: bv8, b3: bv8)
    ensures Word(Of32(b0, b1, b2, b3)) == Num(b0) + 256 * Num(b1) + TWO16 * (Num(b2) + 256 * Num(b3))
  {
    Halves32(b0, b1, b2, b3);
    hide Of16, Of32, Number16, Num;
    OfTwo(b0, b1);
    OfTwo(b2, b3);
    Join32(Of16(b2, b3), Of16(b0, b1));
  }

  lemma ReadTwo(b: seq<bv8>, k: nat)
    requires k + 2 <= |b|
    ensures Number16(U16At(b, k)) == Two(b, k)
  {
    hide Of16, Number16, Num;
    OfTwo(b[k], b[k + 1]);
  }

  lemma ReadFour(b: seq<bv8>, k: nat)
    requires k + 4 <= |b|
    ensures Word(U32At(b, k)) == Four(b, k)
  {
    hide Of32, Word, Num;
    OfFour(b[k], b[k + 1], b[k + 2], b[k + 3]);
  }

  /** A value lies at `k`. */
  predicate LiesAt<T(==)>(b: seq<T>, k: nat, part: seq<T>) {
    k + |part| <= |b| && b[k..k + |part|] == part
  }

  lemma LittleTwo(b: seq<bv8>, k: nat, v: bv16)
    requires LiesAt(b, k, LE16(v))
    ensures Two(b, k) == Number16(v)
  {
    hide LE16, Of16, Number16, Num;
    Read16(v);
    assert b[k..k + 2][0] == b[k] && b[k..k + 2][1] == b[k + 1];
    OfTwo(b[k], b[k + 1]);
  }

  lemma LittleFour(b: seq<bv8>, k: nat, v: bv32)
    requires LiesAt(b, k, LE32(v))
    ensures Four(b, k) == Word(v)
  {
    hide LE32, Of32, Word, Num;
    Read32(v);
    assert b[k..k + 4][0] == b[k] && b[k..k + 4][1] == b[k + 1];
    assert b[k..k + 4][2] == b[k + 2] && b[k..k + 4][3] == b[k + 3];
    OfFour(b[k], b[k + 1], b[k + 2], b[k + 3]);
  }

  lemma LiesLast<T>(a: seq<T>, part: seq<T>)
    ensures LiesAt(a + part, |a|, part) && LiesAt(a + part, 0, a)
  {
  }

  lemma StillLies<T>(b: seq<T>, k: nat, part: seq<T>, more: seq<T>)
    requires LiesAt(b, k, part)
    ensures LiesAt(b + more, k, part)
  {
    assert (b + more)[k..k + |part|] == b[k..k + |part|];
  }

  lemma ThreeLie<T>(a: seq<T>, b: seq<T>, c: seq<T>)
    ensures LiesAt(a + b + c, 0, a) && LiesAt(a + b + c, |a|, b) && LiesAt(a + b + c, |a| + |b|, c)
  {
    hide LiesAt;
    LiesLast(a, b);
    LiesLast(a + b, c);
    StillLies(a + b, 0, a, c);
    StillLies(a + b, |a|, b, c);
  }

  /** Five parts one after the other. */
  lemma FiveLie<T>(a: seq<T>, b: seq<T>, c: seq<T>, d: seq<T>, e: seq<T>)
    ensures var s := a + b + c + d + e;
      && LiesAt(s, 0, a) && LiesAt(s, |a|, b) && LiesAt(s, |a| + |b|, c) && LiesAt(s, |a| + |b| + |c|, d)
      && LiesAt(s, |a| + |b| + |c| + |d|, e)
  {
    hide LiesAt;
    var t := a + b + c;
    ThreeLie(a, b, c);
    ThreeLie(t, d, e);
    FirstLies(t, d, 0, a);
    FirstLies(t, d, |a|, b);
    FirstLies(t, d, |a| + |b|, c);
    FirstLies(t + d, e, 0, a);
    FirstLies(t + d, e, |a|, b);
    FirstLies(t + d, e, |a| + |b|, c);
  }

  lemma FirstLies<T>(b: seq<T>, more: seq<T>, k: nat, part: seq<T>)
    ensures LiesAt(b, k, part) ==> LiesAt(b + more, k, part)
  {
    if LiesAt(b, k, part) {
      StillLies(b, k, part, more);
    }
  }

  // ----- Header and frame -----

  /** The code of a character of the signature. */
  predicate IsSignature(b: seq<bv8>) {
    |b| >= 8 && forall i :: 0 <= i < 8 ==> Num(b[i]) == "REWIND01"[i] as int
  }

  lemma SignCodes()
    ensures IsSignature(SIGN) && |SIGN| == 8
  {
  }

  lemma SameNum(a: bv8, b: bv8)
    ensures Num(a) == Num(b) <==> a == b
  {
    assert (a as int) as bv8 == a && (b as int) as bv8 == b by {
      ByteBack(a);
      ByteBack(b);
    }
  }

  lemma SignedHasCodes(b: seq<bv8>)
    requires |b| >= 8 && b[..8] == SIGN
    ensures IsSignature(b)
  {
    SignCodes();
    hide SIGN, Num;
    forall i | 0 <= i < 8
      ensures Num(b[i]) == "REWIND01"[i] as int
    {
      assert b[i] == b[..8][i];
    }
  }

  lemma CodesAreSigned(b: seq<bv8>)
    requires IsSignature(b)
    ensures b[..8] == SIGN
  {
    SignCodes();
    hide SIGN, Num;
    forall i | 0 <= i < 8
      ensures b[..8][i] == SIGN[i]
    {
      SameNum(b[i], SIGN[i]);
    }
  }

  lemma SignatureExactly(b: seq<bv8>)
    requires |b| >= 8
    ensures b[..8] == SIGN <==> IsSignature(b)
  {
    hide SIGN, IsSignature;
    if IsSignature(b) {
      CodesAreSigned(b);
    }
    if b[..8] == SIGN {
      SignedHasCodes(b);
    }
  }

  lemma FirstEight(b: seq<bv8>)
    requires LiesAt(b, 0, SIGN) && |SIGN| == 8
    ensures |b| >= 8 && b[..8] == SIGN
  {
    hide SIGN;
    assert b[0..8] == b[..8];
  }

  /** Every header, byte by byte (src/Protocol.cpp:125-134). */
  lemma HeaderLayout(h: Header)
    ensures var b := HeaderBytes(h);
      && |b| == 18 && IsSignature(b)
      && Two(b, 8) == Number16(h.kind) && Two(b, 10) == Number16(h.flags)
      && Four(b, 12) == Word(h.number) && Two(b, 16) == Number16(h.length)
  {
    hide LE16, LE32, SIGN, Two, Four, Number16, Word;
    SignCodes();
    var b := HeaderBytes(h);
    FiveLie(SIGN, LE16(h.kind), LE16(h.flags), LE32(h.number), LE16(h.length));
    FirstEight(b);
    SignatureExactly(b);
    hide LiesAt;
    LittleTwo(b, 8, h.kind);
    LittleTwo(b, 10, h.flags);
    LittleFour(b, 12, h.number);
    LittleTwo(b, 16, h.length);
  }

  /** Any bytes: which are a header, and what it says (src/Protocol.cpp:199-220). */
  lemma HeaderAccepted(b: seq<bv8>)
    ensures ParseHeader(b).Some? <==> |b| >= 18 && IsSignature(b)
    ensures ParseHeader(b).Some? ==>
      var h := ParseHeader(b).value;
      && Number16(h.kind) == Two(b, 8) && Number16(h.flags) == Two(b, 10)
      && Word(h.number) == Four(b, 12) && Number16(h.length) == Two(b, 16)
  {
    hide U16At, U32At, SIGN, Two, Four, Number16, Word, IsSignature;
    if |b| >= 18 {
      SignatureExactly(b);
      ReadTwo(b, 8);
      ReadTwo(b, 10);
      ReadFour(b, 12);
      ReadTwo(b, 16);
    }
  }

  /** Any bytes: which are a whole packet, and its payload (src/Client.cpp:402-412). */
  lemma FrameAccepted(b: seq<bv8>)
    ensures ParseFrame(b).Some? <==> |b| >= 18 && IsSignature(b) && |b| >= 18 + Two(b, 16)
    ensures ParseFrame(b).Some? ==>
      var f := ParseFrame(b).value;
      && Number16(f.header.kind) == Two(b, 8) && Number16(f.header.flags) == Two(b, 10)
      && Word(f.header.number) == Four(b, 12)
      && f.payload == b[18..18 + Two(b, 16)]
  {
    hide ParseHeader, Two, Four, Number16, Word, IsSignature;
    HeaderAccepted(b);
  }

  lemma FrameLayout(kind: bv16, flags: bv16, number: bv32, payload: seq<bv8>)
    ensures var b := Frame(kind, flags, number, payload);
      && |b| == 18 + |payload| && IsSignature(b)
      && Two(b, 8) == Number16(kind) && Two(b, 10) == Number16(flags)
      && Four(b, 12) == Word(number) && Two(b, 16) == |payload| % TWO16
      && b[18..] == payload
  {
    hide HeaderBytes, Low16, Word, Number16, Num;
    var h := Header(kind, flags, number, Low16(|payload|));
    HeaderLayout(h);
    var b := Frame(kind, flags, number, payload);
    assert forall i :: 0 <= i < 18 ==> b[i] == HeaderBytes(h)[i];
  }

  lemma LowWord(n: nat)
    ensures Word(Low32(n)) == n % TWO32
  {
  }

  /** Every packet a client sends (src/Client.cpp:345-361). */
  lemma PacketLayout(p: Packet)
    ensures var b := PacketBytes(p);
      && |b| == 18 + |p.payload| && IsSignature(b)
      && Two(b, 8) == Number16(p.kind) && Two(b, 10) == Number16(p.flags)
      && Four(b, 12) == p.number % TWO32 && Two(b, 16) == |p.payload| % TWO16
      && b[18..] == p.payload
  {
    hide Frame, Low32, Two, Four, Word, Number16, IsSignature;
    FrameLayout(p.kind, p.flags, Low32(p.number), p.payload);
    LowWord(p.number);
  }

  /** Every packet the server sends: its number is 0 (tests/test_client.cpp:136-148). */
  lemma ReplyLayout(r: Reply)
    ensures var b := ReplyBytes(r);
      && |b| == 18 + |r.payload| && IsSignature(b)
      && Two(b, 8) == Number16(r.kind) && Two(b, 10) == Number16(r.flags)
      && Four(b, 12) == 0 && Two(b, 16) == |r.payload| % TWO16
      && b[18..] == r.payload
  {
    hide Frame, Two, Four, Number16, IsSignature;
    FrameLayout(r.kind, r.flags, 0, r.payload);
  }

  // ----- Types -----

  /** The message classes of include/opendtp/Common.hpp:44-53. */
  const REWIND_CONTROL := 0x0000
  const SYSTEM_CONSOLE := 0x0100
  const APPLICATION := 0x0900
  const TERMINAL := 0x0A00

  /** Every type is its class and a number in it (include/opendtp/Common.hpp:58-104). */
  lemma TypesInClasses()
    ensures Number16(KEEP_ALIVE) == REWIND_CONTROL && Number16(CLOSE) == REWIND_CONTROL + 1
    ensures Number16(CHALLENGE) == REWIND_CONTROL + 2 && Number16(AUTHENTICATION) == REWIND_CONTROL + 3
    ensures Number16(REPORT) == SYSTEM_CONSOLE
    ensures Number16(SUBSCRIPTION) == APPLICATION + 1 && Number16(CANCELLING) == APPLICATION + 2
    ensures Number16(VOICE_HEADER) == APPLICATION + 0x10 + 1 && Number16(VOICE_TERMINATOR) == APPLICATION + 0x10 + 2
    ensures Number16(DMR_AUDIO_FRAME) == APPLICATION + 0x20
    ensures Number16(MESSAGE_TEXT) == TERMINAL + 0x10 && Number16(MESSAGE_STATUS) == TERMINAL + 0x11
    ensures Number16(LOCATION_REPORT) == TERMINAL + 0x20 && Number16(LOCATION_REQUEST) == TERMINAL + 0x21
    ensures Number16(NONE) == 0 && Number16(REAL_TIME_1) == 1
    ensures Num(OPEN_TERMINAL) == 0x20 + 1 && Word(SESSION_TYPE_GROUP_VOICE) == 7
  {
  }

  // ----- Identity and subscriptions -----

  lemma VersionLayout(v: Version)
    ensures var b := VersionBytes(v);
      |b| == 5 + |v.description| && Four(b, 0) == Word(v.dmrId) && b[4] == v.service && b[5..] == v.description
  {
    hide LE32, Four, Word;
    var b := VersionBytes(v);
    ThreeLie(LE32(v.dmrId), [v.service], v.description);
    LittleFour(b, 0, v.dmrId);
  }

  lemma VersionAccepted(b: seq<bv8>)
    ensures ParseVersion(b).Some? <==> |b| >= 5
    ensures |b| >= 5 ==>
      var v := ParseVersion(b).value; var n := |v.description|;
      && Word(v.dmrId) == Four(b, 0) && v.service == b[4]
      && 5 + n <= |b| && v.description == b[5..5 + n] && (n > 0 ==> b[4 + n] != 0)
      && forall i :: 5 + n <= i < |b| ==> b[i] == 0
  {
    hide U32At, StripNuls, Four, Word;
    if |b| >= 5 {
      ReadFour(b, 0);
      var d := StripNuls(b[5..]);
      assert forall i :: 5 + |d| <= i < |b| ==> b[i] == b[5..][i - 5];
    }
  }

  lemma SubscriptionLayout(s: Subscription)
    ensures var b := SubscriptionBytes(s); |b| == 8 && Four(b, 0) == Word(s.kind) && Four(b, 4) == Word(s.number)
  {
    hide LE32, Four, Word;
    var b := SubscriptionBytes(s);
    LiesLast(LE32(s.kind), LE32(s.number));
    LittleFour(b, 0, s.kind);
    LittleFour(b, 4, s.number);
  }

  lemma SubscriptionAccepted(b: seq<bv8>)
    ensures ParseSubscription(b).Some? <==> |b| >= 8
    ensures |b| >= 8 ==>
      Word(ParseSubscription(b).value.kind) == Four(b, 0) && Word(ParseSubscription(b).value.number) == Four(b, 4)
  {
    hide U32At, Four, Word;
    if |b| >= 8 {
      ReadFour(b, 0);
      ReadFour(b, 4);
    }
  }

  // ----- Text messages -----

  lemma NumberOfLow(n: nat)
    ensures Number16(Low16(n)) == n % TWO16
  {
  }

  lemma OptionCode(isGroup: bool)
    ensures Number16(if isGroup then 128 else 0) == if isGroup then 128 else 0
  {
  }

  lemma ZeroWord()
    ensures Word(0) == 0
  {
  }

  lemma PrefixLayout(source: bv32, destination: bv32, isGroup: bool, units: nat, rest: seq<bv8>)
    ensures var b := TextPrefix(source, destination, isGroup, units) + rest;
      && Four(b, 0) == 0 && Four(b, 4) == Word(source) && Four(b, 8) == Word(destination)
      && Two(b, 12) == (if isGroup then 128 else 0) && Two(b, 14) == 2 * units % TWO16
  {
    hide LE16, LE32, Two, Four, Word, Number16, Low16;
    var b := TextPrefix(source, destination, isGroup, units) + rest;
    var option: bv16 := if isGroup then 128 else 0;
    ZeroWord();
    OptionCode(isGroup);
    NumberOfLow(2 * units);
    var prefix := TextPrefix(source, destination, isGroup, units);
    FiveLie(LE32(0), LE32(source), LE32(destination), LE16(option), LE16(Low16(2 * units)));
    hide LiesAt;
    StillLies(prefix, 0, LE32(0), rest);
    StillLies(prefix, 4, LE32(source), rest);
    StillLies(prefix, 8, LE32(destination), rest);
    StillLies(prefix, 12, LE16(option), rest);
    StillLies(prefix, 14, LE16(Low16(2 * units)), rest);
    LittleFour(b, 0, 0);
    LittleFour(b, 4, source);
    LittleFour(b, 8, destination);
    LittleTwo(b, 12, option);
    LittleTwo(b, 14, Low16(2 * units));
  }

  lemma UnitLayout(prefix: seq<bv8>, u: seq<bv16>, i: nat)
    requires i < |u|
    ensures Two(prefix + UnitBytes(u), |prefix| + 2 * i) == Number16(u[i])
  {
    hide LE16, Of16, UnitBytes, Num, Number16;
    var b, k := prefix + UnitBytes(u), |prefix| + 2 * i;
    UnitByteAt(u, i);
    Read16(u[i]);
    assert b[k] == UnitBytes(u)[2 * i] && b[k + 1] == UnitBytes(u)[2 * i + 1];
    OfTwo(b[k], b[k + 1]);
  }

  /** Every text payload (src/Protocol.cpp:163-183). */
  lemma TextLayout(t: Text)
    ensures var b := TextBytes(t); var u := ToUtf16(t.text);
      && |b| == 16 + 2 * |u| && Four(b, 0) == 0
      && Four(b, 4) == Word(t.source) && Four(b, 8) == Word(t.destination)
      && Two(b, 12) == (if t.isGroup then 128 else 0) && Two(b, 14) == 2 * |u| % TWO16
      && forall i :: 0 <= i < |u| ==> Two(b, 16 + 2 * i) == Number16(u[i])
  {
    hide TextPrefix, UnitBytes, ToUtf16, Two, Four, Word, Number16;
    var u := ToUtf16(t.text);
    PrefixLayout(t.source, t.destination, t.isGroup, |u|, UnitBytes(u));
    forall i | 0 <= i < |u|
      ensures Two(TextBytes(t), 16 + 2 * i) == Number16(u[i])
    {
      UnitLayout(TextPrefix(t.source, t.destination, t.isGroup, |u|), u, i);
    }
  }

  lemma IsOption(v: bv16)
    ensures v == 128 <==> Number16(v) == 128
  {
    Back16(v);
  }

  /** Any bytes: which are a text message, and what it says (src/Protocol.cpp:290-320). */
  lemma TextAccepted(b: seq<bv8>)
    ensures ParseText(b).Some? <==> |b| >= 16 && 16 + Two(b, 14) <= |b|
    ensures ParseText(b).Some? ==>
      var t := ParseText(b).value; var n := Two(b, 14) / 2;
      && Word(t.source) == Four(b, 4) && Word(t.destination) == Four(b, 8)
      && (t.isGroup <==> Two(b, 12) == 128)
      && 16 + 2 * n <= |b|
      && exists u: seq<bv16> :: UnitsLie(b, u, n) && t.text == ToUtf8(u)
  {
    hide U16At, U32At, UnitsAt, ToUtf8, Two, Four, Word, Number16;
    if |b| >= 16 {
      ReadFour(b, 4);
      ReadFour(b, 8);
      ReadTwo(b, 12);
      ReadTwo(b, 14);
      IsOption(U16At(b, 12));
      if 16 + Two(b, 14) <= |b| {
        UnitsRead(b, Two(b, 14) / 2);
      }
    }
  }

  /** `n` units from byte 16 on. */
  ghost predicate UnitsLie(b: seq<bv8>, u: seq<bv16>, n: nat)
    requires 16 + 2 * n <= |b|
  {
    |u| == n && forall i :: 0 <= i < n ==> Number16(u[i]) == Two(b, 16 + 2 * i)
  }

  lemma UnitsRead(b: seq<bv8>, n: nat)
    requires 16 + 2 * n <= |b|
    ensures UnitsLie(b, UnitsAt(b, 16, n), n)
  {
    hide U16At, Two, Number16;
    forall i | 0 <= i < n
      ensures Number16(UnitsAt(b, 16, n)[i]) == Two(b, 16 + 2 * i)
    {
      ReadTwo(b, 16 + 2 * i);
    }
  }

  // ----- Location reports -----

  lemma LocationLayout(l: Location)
    ensures var b := LocationBytes(l);
      && |b| == 11 + |l.nmea| && Four(b, 0) == 0 && Four(b, 4) == Word(l.format)
      && Two(b, 8) == (|l.nmea| + 1) % TWO16 && b[10..] == l.nmea + [0]
  {
    hide LE16, LE32, Two, Four, Word, Number16, Low16;
    var b := LocationBytes(l);
    ZeroWord();
    NumberOfLow(|l.nmea| + 1);
    FiveLie(LE32(0), LE32(l.format), LE16(Low16(|l.nmea| + 1)), l.nmea, [0]);
    LittleFour(b, 0, 0);
    LittleFour(b, 4, l.format);
    LittleTwo(b, 8, Low16(|l.nmea| + 1));
  }

  /** Any bytes (src/Protocol.cpp:353-379): the sentence ends at the first NUL or at its announced length. */
  lemma LocationAccepted(b: seq<bv8>)
    ensures ParseLocation(b).Some? <==> |b| >= 10 && 10 + Two(b, 8) <= |b|
    ensures ParseLocation(b).Some? ==>
      var l := ParseLocation(b).value; var n := |l.nmea|;
      && Word(l.format) == Four(b, 4) && n <= Two(b, 8) && l.nmea == b[10..10 + n] && 0 !in l.nmea
      && (n < Two(b, 8) ==> b[10 + n] == 0)
  {
    hide U16At, U32At, CutAtNul, Two, Four, Word, Number16;
    if |b| >= 10 {
      ReadFour(b, 4);
      ReadTwo(b, 8);
    }
  }

  // ----- Decode-only payloads -----

  lemma StatusAccepted(b: seq<bv8>)
    ensures ParseStatus(b).Some? <==> |b| >= 13
    ensures |b| >= 13 ==>
      var t := ParseStatus(b).value;
      Word(t.source) == Four(b, 4) && Word(t.destination) == Four(b, 8) && t.status == b[12]
  {
    hide U32At, Four, Word;
    if |b| >= 13 {
      ReadFour(b, 4);
      ReadFour(b, 8);
    }
  }

  lemma RequestAccepted(b: seq<bv8>)
    ensures ParseRequest(b).Some? <==> |b| >= 12
    ensures |b| >= 12 ==>
      Word(ParseRequest(b).value.kind) == Four(b, 4) && Word(ParseRequest(b).value.interval) == Four(b, 8)
  {
    hide U32At, Four, Word;
    if |b| >= 12 {
      ReadFour(b, 4);
      ReadFour(b, 8);
    }
  }

  // ----- Voice header -----

  /** Three bytes at `k` as a number, most significant first. */
  function Three(b: seq<bv8>, k: nat): (n: nat)
    requires k + 3 <= |b|
  {
    TWO16 * Num(b[k]) + 256 * Num(b[k + 1]) + Num(b[k + 2])
  }

  lemma Of24(b0: bv8, b1: bv8, b2: bv8)
    ensures Id24(b0, b1, b2) == Of32(b2, b1, b0, 0)
  {
  }

  lemma WordOf24(b0: bv8, b1: bv8, b2: bv8)
    ensures Word(Id24(b0, b1, b2)) == TWO16 * Num(b0) + 256 * Num(b1) + Num(b2)
  {
    hide Id24, Of32, Word;
    Of24(b0, b1, b2);
    OfFour(b2, b1, b0, 0);
  }

  lemma LowBits(x: bv32)
    ensures LE32(x)[0] == (x & 0xFF) as bv8 && LE32(x)[1] == ((x >> 8) & 0xFF) as bv8
    ensures LE32(x)[2] == ((x >> 16) & 0xFF) as bv8
  {
  }

  lemma LowPart(n: nat, low: nat, high: nat)
    requires n == low + 0x100_0000 * high && low < 0x100_0000
    ensures n % 0x100_0000 == low
  {
  }

  /** The low 24 bits of an id, most significant byte first. */
  lemma IdLayout(x: bv32, b0: bv8, b1: bv8, b2: bv8)
    requires b0 == ((x >> 16) & 0xFF) as bv8 && b1 == ((x >> 8) & 0xFF) as bv8 && b2 == (x & 0xFF) as bv8
    ensures TWO16 * Num(b0) + 256 * Num(b1) + Num(b2) == Word(x) % 0x100_0000
  {
    LowBits(x);
    Read32(x);
    hide LE32, Of32, Num, Word;
    var b3 := LE32(x)[3];
    OfFour(b2, b1, b0, b3);
    LowPart(Word(x), TWO16 * Num(b0) + 256 * Num(b1) + Num(b2), Num(b3));
  }

  /** All twelve bytes, for all ids (src/Client.cpp:240-261). */
  lemma VoiceLayout(source: bv32, destination: bv32, isGroup: bool)
    ensures var b := VoiceHeaderBytes(source, destination, isGroup);
      && |b| == 12 && Num(b[0]) == (if isGroup then 0 else 3) && Num(b[1]) == 0 && Num(b[2]) == 0
      && Three(b, 3) == Word(destination) % 0x100_0000 && Three(b, 6) == Word(source) % 0x100_0000
      && Num(b[9]) == 0 && Num(b[10]) == 0 && Num(b[11]) == 0
  {
    var b := VoiceHeaderBytes(source, destination, isGroup);
    IdLayout(destination, b[3], b[4], b[5]);
    IdLayout(source, b[6], b[7], b[8]);
  }

  lemma LowSix(b: bv8)
    ensures (b & 0x3F) != 0x03 <==> Num(b) % 64 != 3
  {
  }

  /** Any bytes (src/Client.cpp:500-507): anything after the twelfth and the top two bits of the first are ignored. */
  lemma VoiceAccepted(b: seq<bv8>)
    ensures ParseVoiceHeader(b).Some? <==> |b| >= 12
    ensures |b| >= 12 ==>
      var v := ParseVoiceHeader(b).value;
      && Word(v.source) == Three(b, 6) && Word(v.destination) == Three(b, 3)
      && (v.isGroup <==> Num(b[0]) % 64 != 3)
  {
    hide Id24, Num, Word;
    if |b| >= 12 {
      WordOf24(b[6], b[7], b[8]);
      WordOf24(b[3], b[4], b[5]);
      LowSix(b[0]);
    }
  }
}
