/** What survives the trip over the wire, and exactly when. */
module WireProofs {
  import opened Bits
  import opened Endian
  import opened Rfc
  import opened Sequences
  import opened Utf
  import opened UtfProofs
  import opened Wire

  // ----- Header and frame -----

  lemma HeaderFields(h: Header, rest: seq<bv8>)
    ensures ParseHeader(HeaderBytes(h) + rest) == Some(h)
  {
    hide LE16, LE32, Of16, Of32;
    var b := HeaderBytes(h) + rest;
    Read16(h.kind);
    Read16(h.flags);
    Read32(h.number);
    Read16(h.length);
    assert b[..8] == SIGN;
    assert b[8] == LE16(h.kind)[0] && b[9] == LE16(h.kind)[1];
    assert b[10] == LE16(h.flags)[0] && b[11] == LE16(h.flags)[1];
    assert b[12] == LE32(h.number)[0] && b[13] == LE32(h.number)[1];
    assert b[14] == LE32(h.number)[2] && b[15] == LE32(h.number)[3];
    assert b[16] == LE16(h.length)[0] && b[17] == LE16(h.length)[1];
  }

  /** Any eighteen bytes accepted as a header are the header's own serialisation. */
  lemma HeaderReserialised(b: seq<bv8>)
    requires |b| == 18
    ensures ParseHeader(b).Some? <==> b[..8] == SIGN
    ensures ParseHeader(b).Some? ==> HeaderBytes(ParseHeader(b).value) == b
  {
    hide LE16, LE32, Of16, Of32, SIGN;
    if b[..8] == SIGN {
      Bytes16(b[8], b[9]);
      Bytes16(b[10], b[11]);
      Bytes32(b[12], b[13], b[14], b[15]);
      Bytes16(b[16], b[17]);
      assert b == b[..8] + [b[8], b[9]] + [b[10], b[11]] + [b[12], b[13], b[14], b[15]] + [b[16], b[17]];
    }
  }

  /**
   What a receiver reads from a transmitted packet, whatever is appended to it: all the fields, and the payload
   cut to the length the 16-bit field can say.
   */
  lemma FrameParsed(kind: bv16, flags: bv16, number: bv32, payload: seq<bv8>, extra: seq<bv8>)
    ensures ParseFrame(Frame(kind, flags, number, payload) + extra)
         == Some(Framed(Header(kind, flags, number, Low16(|payload|)), payload[..|payload| % TWO16]))
  {
    hide HeaderBytes, Low16, Number16, ParseHeader;
    var h := Header(kind, flags, number, Low16(|payload|));
    HeaderFields(h, payload + extra);
    Middle(HeaderBytes(h), payload, extra, |payload| % TWO16);
  }

  /** The payload arrives exactly when the 16-bit length field can hold its size. */
  lemma FrameExactly(kind: bv16, flags: bv16, number: bv32, payload: seq<bv8>)
    ensures ParseFrame(Frame(kind, flags, number, payload)).Some?
    ensures ParseFrame(Frame(kind, flags, number, payload)).value.payload == payload <==> |payload| < TWO16
  {
    FrameParsed(kind, flags, number, payload, []);
    assert Frame(kind, flags, number, payload) + [] == Frame(kind, flags, number, payload);
  }

  /** A packet cut anywhere before the announced end is dropped. */
  lemma CutFrameDropped(kind: bv16, flags: bv16, number: bv32, payload: seq<bv8>, k: nat)
    requires k < 18 + |payload| % TWO16
    ensures ParseFrame(Frame(kind, flags, number, payload)[..k]).None?
  {
    hide HeaderBytes, Low16, Number16;
    if 18 <= k {
      var h := Header(kind, flags, number, Low16(|payload|));
      HeaderFields(h, payload[..k - 18]);
      assert Frame(kind, flags, number, payload)[..k] == HeaderBytes(h) + payload[..k - 18];
    }
  }

  /** A packet cut no earlier than its announced end is read as if it were whole. */
  lemma CutFrameKept(kind: bv16, flags: bv16, number: bv32, payload: seq<bv8>, k: nat)
    requires 18 + |payload| % TWO16 <= k <= 18 + |payload|
    ensures ParseFrame(Frame(kind, flags, number, payload)[..k])
         == Some(Framed(Header(kind, flags, number, Low16(|payload|)), payload[..|payload| % TWO16]))
  {
    hide HeaderBytes, Low16, Number16;
    var h := Header(kind, flags, number, Low16(|payload|));
    HeaderFields(h, payload[..k - 18]);
    var packet := Frame(kind, flags, number, payload)[..k];
    assert packet == HeaderBytes(h) + payload[..k - 18];
    Middle(HeaderBytes(h), payload[..k - 18], [], |payload| % TWO16);
    assert packet + [] == packet;
    assert payload[..k - 18][..|payload| % TWO16] == payload[..|payload| % TWO16];
  }

  // ----- Identity, subscriptions -----

  lemma VersionTrip(v: Version)
    ensures ParseVersion(VersionBytes(v)) == Some(v.(description := StripNuls(v.description)))
  {
    hide LE32, Of32;
    var b := VersionBytes(v);
    Read32(v.dmrId);
    assert b[5..] == v.description;
    assert b[0] == LE32(v.dmrId)[0] && b[1] == LE32(v.dmrId)[1] && b[2] == LE32(v.dmrId)[2] && b[3] == LE32(v.dmrId)[3];
  }

  /** Identity data survives exactly when the description does not end in a NUL. */
  lemma VersionExactly(v: Version)
    ensures ParseVersion(VersionBytes(v)) == Some(v)
       <==> (v.description == [] || v.description[|v.description| - 1] != 0)
  {
    VersionTrip(v);
  }

  lemma SubscriptionTrip(s: Subscription)
    ensures ParseSubscription(SubscriptionBytes(s)) == Some(s)
  {
    hide LE32, Of32;
    Read32(s.kind);
    Read32(s.number);
  }

  // ----- Text messages -----

  lemma {:induction false} UnitByteAt(u: seq<bv16>, i: nat)
    requires i < |u|
    ensures UnitBytes(u)[2 * i] == LE16(u[i])[0] && UnitBytes(u)[2 * i + 1] == LE16(u[i])[1]
  {
    hide LE16;
    if i < |u| - 1 {
      UnitByteAt(u[..|u| - 1], i);
    }
  }

  lemma UnitsReadBack(prefix: seq<bv8>, u: seq<bv16>, n: nat)
    requires |prefix| == 16 && n <= |u|
    ensures UnitsAt((prefix + UnitBytes(u))[..16 + 2 * n], 16, n) == u[..n]
  {
    hide LE16, Of16, UnitBytes;
    var b := (prefix + UnitBytes(u))[..16 + 2 * n];
    forall i | 0 <= i < n
      ensures U16At(b, 16 + 2 * i) == u[i]
    {
      UnitByteAt(u, i);
      Read16(u[i]);
      assert b[16 + 2 * i] == UnitBytes(u)[2 * i] && b[16 + 2 * i + 1] == UnitBytes(u)[2 * i + 1];
    }
  }

  lemma TextPrefixFields(source: bv32, destination: bv32, isGroup: bool, units: nat, rest: seq<bv8>)
    ensures var b := TextPrefix(source, destination, isGroup, units) + rest;
      && U32At(b, 4) == source && U32At(b, 8) == destination
      && (U16At(b, 12) == 128 <==> isGroup) && U16At(b, 14) == Low16(2 * units)
  {
    hide LE16, LE32, Of16, Of32;
    var b := TextPrefix(source, destination, isGroup, units) + rest;
    var option: bv16 := if isGroup then 128 else 0;
    Read32(source);
    Read32(destination);
    Read16(option);
    Read16(Low16(2 * units));
    assert b[4] == LE32(source)[0] && b[5] == LE32(source)[1] && b[6] == LE32(source)[2] && b[7] == LE32(source)[3];
    assert b[8] == LE32(destination)[0] && b[9] == LE32(destination)[1];
    assert b[10] == LE32(destination)[2] && b[11] == LE32(destination)[3];
    assert b[12] == LE16(option)[0] && b[13] == LE16(option)[1];
    assert b[14] == LE16(Low16(2 * units))[0] && b[15] == LE16(Low16(2 * units))[1];
  }

  /** How many units a receiver finds in the text whose sender counted `n`: both lengths are 16-bit fields. */
  function UnitsArriving(n: nat): (r: Option<nat>) {
    if (16 + 2 * n) % TWO16 == 16 + 2 * n % TWO16 then Some(2 * n % TWO16 / 2) else None
  }

  lemma CutTextPayload(t: Text, k: nat)
    requires 16 <= k <= |TextBytes(t)|
    ensures var n := 2 * |ToUtf16(t.text)| % TWO16; var b := TextBytes(t)[..k];
      && (16 + n > k ==> ParseText(b) == None)
      && (16 + n <= k ==> n / 2 <= |ToUtf16(t.text)|)
      && (16 + n <= k ==> ParseText(b) == Some(t.(text := ToUtf8(UnitsAt(b, 16, n / 2)))))
  {
    hide TextPrefix, UnitBytes, UnitsAt, ToUtf8, ToUtf16, Of16, Of32, Low16, Number16;
    var u := ToUtf16(t.text);
    var prefix := TextPrefix(t.source, t.destination, t.isGroup, |u|);
    assert TextBytes(t)[..k] == prefix + UnitBytes(u)[..k - 16];
    TextPrefixFields(t.source, t.destination, t.isGroup, |u|, UnitBytes(u)[..k - 16]);
  }

  lemma LengthsWrap(n: nat)
    ensures var k, m := (16 + 2 * n) % TWO16, 2 * n % TWO16;
      && (UnitsArriving(n).Some? <==> 16 + m <= k)
      && (UnitsArriving(n).Some? ==> UnitsArriving(n).value == m / 2 <= n && 16 + 2 * (m / 2) <= k)
      && k <= 16 + 2 * n
  {
    WrapDoubled(n);
  }

  lemma WrapDoubled(n: nat)
    ensures var m := 2 * n % TWO16; m <= 2 * n && m == 2 * (m / 2)
    ensures var m := 2 * n % TWO16; (16 + 2 * n) % TWO16 == if m + 16 < TWO16 then m + 16 else m + 16 - TWO16
  {
    var q := 2 * n / TWO16;
    assert 2 * n == TWO16 * q + 2 * n % TWO16;
  }

  lemma TooShort(b: seq<bv8>)
    requires |b| < 16
    ensures ParseText(b) == None
  {
  }

  /** A text payload read back after its frame cut it to a 16-bit length. */
  lemma TextArrives(t: Text)
    ensures var b := TextBytes(t)[..|TextBytes(t)| % TWO16]; var u := ToUtf16(t.text);
      match UnitsArriving(|u|)
      case None => ParseText(b) == None
      case Some(n) => n <= |u| && ParseText(b) == Some(t.(text := ToUtf8(u[..n])))
  {
    hide TextPrefix, UnitBytes, UnitsAt, ToUtf8, ToUtf16, ParseText, UnitsArriving;
    var u := ToUtf16(t.text);
    var k := |TextBytes(t)| % TWO16;
    LengthsWrap(|u|);
    if k < 16 {
      TooShort(TextBytes(t)[..k]);
    } else {
      CutTextPayload(t, k);
      if UnitsArriving(|u|).Some? {
        TextUnits(t, k, UnitsArriving(|u|).value);
      }
    }
  }

  /** The units in the part of a text payload that arrives. */
  lemma TextUnits(t: Text, k: nat, n: nat)
    requires 16 + 2 * n <= k <= |TextBytes(t)| && n <= |ToUtf16(t.text)|
    ensures UnitsAt(TextBytes(t)[..k], 16, n) == ToUtf16(t.text)[..n]
  {
    hide TextPrefix, UnitBytes, ToUtf16, U16At;
    var u := ToUtf16(t.text);
    var b := TextBytes(t);
    UnitsReadBack(TextPrefix(t.source, t.destination, t.isGroup, |u|), u, n);
    assert b[..k][..16 + 2 * n] == b[..16 + 2 * n];
    UnitsOfPrefix(b[..k], n);
  }

  lemma UnitsOfPrefix(b: seq<bv8>, n: nat)
    requires 16 + 2 * n <= |b|
    ensures UnitsAt(b, 16, n) == UnitsAt(b[..16 + 2 * n], 16, n)
  {
    hide Of16;
  }

  /**
   A text message arrives unchanged exactly when it has at most 32759 units, so that prefix and text fit the
   16-bit frame length, and is generalized UTF-8.
   */
  lemma TextExactly(t: Text)
    ensures ParseText(TextBytes(t)[..|TextBytes(t)| % TWO16]) == Some(t)
       <==> |ToUtf16(t.text)| <= 32759 && Generalized(t.text)
  {
    hide TextBytes, ParseText, ToUtf8, ToUtf16, Generalized;
    var u := ToUtf16(t.text);
    TextArrives(t);
    ByteRoundTripExactly(t.text);
    if |u| <= 32759 {
      assert UnitsArriving(|u|) == Some(|u|) && u[..|u|] == u;
    } else if UnitsArriving(|u|).Some? {
      var n := UnitsArriving(|u|).value;
      assert n < |u|;
      RoundTripUnits(u[..n]);
      assert ToUtf8(u[..n]) != t.text;
    }
  }

  // ----- Location reports -----

  lemma LocationFields(l: Location)
    ensures var b := LocationBytes(l);
      && U32At(b, 4) == l.format && U16At(b, 8) == Low16(|l.nmea| + 1) && b[10..] == l.nmea + [0]
  {
    hide LE16, LE32, Of16, Of32, Low16, Number16;
    var b, n := LocationBytes(l), Low16(|l.nmea| + 1);
    Read32(l.format);
    Read16(n);
    assert b[4] == LE32(l.format)[0] && b[5] == LE32(l.format)[1];
    assert b[6] == LE32(l.format)[2] && b[7] == LE32(l.format)[3];
    assert b[8] == LE16(n)[0] && b[9] == LE16(n)[1];
    assert b[10..] == l.nmea + [0];
  }

  lemma LocationArrives(l: Location)
    ensures ParseLocation(LocationBytes(l))
         == Some(l.(nmea := CutAtNul((l.nmea + [0])[..(|l.nmea| + 1) % TWO16])))
  {
    hide LocationBytes, U16At, U32At, CutAtNul, Low16, Number16;
    LocationFields(l);
    var b, n := LocationBytes(l), (|l.nmea| + 1) % TWO16;
    assert |b| == 10 + |b[10..]|;
    assert b[10..10 + n] == b[10..][..n];
  }

  lemma {:induction false} CutBeforeNul(s: seq<bv8>)
    ensures CutAtNul(s + [0]) == CutAtNul(s)
    ensures CutAtNul(s) == s <==> 0 !in s
    decreases |s|
  {
    if s != [] {
      CutBeforeNul(s[1..]);
      assert (s + [0])[1..] == s[1..] + [0];
      assert s == [s[0]] + s[1..];
    }
  }

  /** A location report arrives unchanged exactly when it has at most 65534 bytes and none is NUL. */
  lemma LocationExactly(l: Location)
    ensures |l.nmea| <= 65534 ==> ParseLocation(LocationBytes(l)) == Some(l.(nmea := CutAtNul(l.nmea)))
    ensures ParseLocation(LocationBytes(l)) == Some(l) <==> |l.nmea| <= 65534 && 0 !in l.nmea
  {
    hide LocationBytes, ParseLocation, CutAtNul;
    LocationArrives(l);
    CutBeforeNul(l.nmea);
    var n := (|l.nmea| + 1) % TWO16;
    if |l.nmea| <= 65534 {
      assert (l.nmea + [0])[..n] == l.nmea + [0];
    } else {
      assert |CutAtNul((l.nmea + [0])[..n])| <= n < |l.nmea|;
    }
  }

  // ----- Voice header -----

  lemma Id24Bits(x: bv32, b0: bv8, b1: bv8, b2: bv8)
    requires b0 == ((x >> 16) & 0xFF) as bv8 && b1 == ((x >> 8) & 0xFF) as bv8 && b2 == (x & 0xFF) as bv8
    ensures Id24(b0, b1, b2) == x & 0xFFFFFF
    ensures x & 0xFFFFFF == x <==> x < 0x100_0000
  {
  }

  /** A voice header keeps the group flag and the low 24 bits of both ids, hence exactly the 24-bit ids. */
  lemma VoiceHeaderExactly(source: bv32, destination: bv32, isGroup: bool)
    ensures ParseVoiceHeader(VoiceHeaderBytes(source, destination, isGroup))
         == Some(Voice(source & 0xFFFFFF, destination & 0xFFFFFF, isGroup))
    ensures ParseVoiceHeader(VoiceHeaderBytes(source, destination, isGroup))
         == Some(Voice(source, destination, isGroup))
       <==> source < 0x100_0000 && destination < 0x100_0000
  {
    hide Id24;
    var b := VoiceHeaderBytes(source, destination, isGroup);
    Id24Bits(source, b[6], b[7], b[8]);
    Id24Bits(destination, b[3], b[4], b[5]);
  }
}
