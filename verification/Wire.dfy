/**
 The packet codec (src/Protocol.cpp:125-379): what every serializer emits and every deserializer accepts, and the
 imperative forms that append to a growing buffer and read at a moving offset.
 */
module Wire {
  import opened Bits
  import opened Endian
  import opened Utf

  datatype Option<+T> = None | Some(value: T)

  // ----- Message types and flags (include/opendtp/Common.hpp:38-104) -----

  const KEEP_ALIVE: bv16 := 0x0000
  const CLOSE: bv16 := 0x0001
  const CHALLENGE: bv16 := 0x0002
  const AUTHENTICATION: bv16 := 0x0003
  const REPORT: bv16 := 0x0100
  const SUBSCRIPTION: bv16 := 0x0901
  const CANCELLING: bv16 := 0x0902
  const VOICE_HEADER: bv16 := 0x0911
  const VOICE_TERMINATOR: bv16 := 0x0912
  const DMR_AUDIO_FRAME: bv16 := 0x0920
  const MESSAGE_TEXT: bv16 := 0x0A10
  const MESSAGE_STATUS: bv16 := 0x0A11
  const LOCATION_REPORT: bv16 := 0x0A20
  const LOCATION_REQUEST: bv16 := 0x0A21

  const NONE: bv16 := 0
  const REAL_TIME_1: bv16 := 1

  const OPEN_TERMINAL: bv8 := 0x21
  const SESSION_TYPE_GROUP_VOICE: bv32 := 7

  /** "REWIND01" */
  const SIGN: seq<bv8> := [0x52, 0x45, 0x57, 0x49, 0x4E, 0x44, 0x30, 0x31]

  // ----- Fields at a fixed place -----

  function U16At(b: seq<bv8>, k: nat): (r: bv16)
    requires k + 2 <= |b|
  {
    Of16(b[k], b[k + 1])
  }

  function U32At(b: seq<bv8>, k: nat): (r: bv32)
    requires k + 4 <= |b|
  {
    Of32(b[k], b[k + 1], b[k + 2], b[k + 3])
  }

  // ----- Header -----

  datatype Header = Header(kind: bv16, flags: bv16, number: bv32, length: bv16)

  function HeaderBytes(h: Header): (b: seq<bv8>)
    ensures |b| == 18
  {
    SIGN + LE16(h.kind) + LE16(h.flags) + LE32(h.number) + LE16(h.length)
  }

  function ParseHeader(b: seq<bv8>): (r: Option<Header>) {
    if |b| < 18 || b[..8] != SIGN then None
    else Some(Header(U16At(b, 8), U16At(b, 10), U32At(b, 12), U16At(b, 16)))
  }

  method SerializeHeader(host: Host, header: Header) returns (buf: seq<bv8>)
    ensures buf == HeaderBytes(header)
  {
    hide LE16, LE32;
    buf := SIGN;
    buf := WriteLE16(host, buf, header.kind);
    buf := WriteLE16(host, buf, header.flags);
    buf := WriteLE32(host, buf, header.number);
    buf := WriteLE16(host, buf, header.length);
  }

  method DeserializeHeader(host: Host, bytes: seq<bv8>) returns (r: Option<Header>)
    ensures r == ParseHeader(bytes)
  {
    hide Of16, Of32;
    if |bytes| < 18 {
      return None;
    }
    if bytes[..8] != SIGN {
      return None;
    }
    var ok, offset, kind := ReadLE16(host, bytes, 8);
    if !ok { return None; }
    var flags, number, length;
    ok, offset, flags := ReadLE16(host, bytes, offset);
    if !ok { return None; }
    ok, offset, number := ReadLE32(host, bytes, offset);
    if !ok { return None; }
    ok, offset, length := ReadLE16(host, bytes, offset);
    if !ok { return None; }
    r := Some(Header(kind, flags, number, length));
  }

  // ----- Frames (src/Client.cpp:345-361, 402-412) -----

  /** The bytes TransmitRaw hands to the socket. */
  function Frame(kind: bv16, flags: bv16, number: bv32, payload: seq<bv8>): (r: seq<bv8>) {
    HeaderBytes(Header(kind, flags, number, Low16(|payload|))) + payload
  }

  datatype Framed = Framed(header: Header, payload: seq<bv8>)

  /** The header and payload ProcessPacket works on, unless it drops the packet. */
  function ParseFrame(packet: seq<bv8>): (r: Option<Framed>) {
    match ParseHeader(packet)
    case None => None
    case Some(h) =>
      if |packet| < 18 + Number16(h.length) then None
      else Some(Framed(h, packet[18..18 + Number16(h.length)]))
  }

  // ----- Identity -----

  datatype Version = Version(dmrId: bv32, service: bv8, description: seq<bv8>)

  function VersionBytes(v: Version): (r: seq<bv8>) {
    LE32(v.dmrId) + [v.service] + v.description
  }

  /** What is left once trailing NULs are popped. */
  function StripNuls(s: seq<bv8>): (r: seq<bv8>)
    ensures r <= s && (r == [] || r[|r| - 1] != 0) && forall i :: |r| <= i < |s| ==> s[i] == 0
  {
    if s == [] || s[|s| - 1] != 0 then s else StripNuls(s[..|s| - 1])
  }

  function ParseVersion(b: seq<bv8>): (r: Option<Version>) {
    if |b| < 5 then None else Some(Version(U32At(b, 0), b[4], StripNuls(b[5..])))
  }

  method SerializeVersionData(host: Host, data: Version) returns (buf: seq<bv8>)
    ensures buf == VersionBytes(data)
  {
    hide LE32;
    buf := [];
    buf := WriteLE32(host, buf, data.dmrId);
    buf := buf + [data.service];
    buf := buf + data.description;
  }

  method DeserializeVersionData(host: Host, bytes: seq<bv8>) returns (r: Option<Version>)
    ensures r == ParseVersion(bytes)
  {
    hide Of32;
    if |bytes| < 5 {
      return None;
    }
    var ok, offset, dmrId := ReadLE32(host, bytes, 0);
    if !ok { return None; }
    var service := bytes[offset];
    offset := offset + 1;
    var description: seq<bv8> := [];
    if |bytes| > offset {
      description := bytes[offset..];
      while description != [] && description[|description| - 1] == 0
        invariant StripNuls(description) == StripNuls(bytes[5..])
      {
        description := description[..|description| - 1];
      }
    }
    r := Some(Version(dmrId, service, description));
  }

  // ----- Subscriptions -----

  datatype Subscription = Subscription(kind: bv32, number: bv32)

  function SubscriptionBytes(s: Subscription): (r: seq<bv8>) {
    LE32(s.kind) + LE32(s.number)
  }

  function ParseSubscription(b: seq<bv8>): (r: Option<Subscription>) {
    if |b| < 8 then None else Some(Subscription(U32At(b, 0), U32At(b, 4)))
  }

  method SerializeSubscription(host: Host, data: Subscription) returns (buf: seq<bv8>)
    ensures buf == SubscriptionBytes(data)
  {
    buf := [];
    buf := WriteLE32(host, buf, data.kind);
    buf := WriteLE32(host, buf, data.number);
  }

  // ----- Text messages -----

  datatype Text = Text(source: bv32, destination: bv32, isGroup: bool, text: seq<bv8>)

  function UnitBytes(u: seq<bv16>): (b: seq<bv8>)
    ensures |b| == 2 * |u|
  {
    if u == [] then [] else UnitBytes(u[..|u| - 1]) + LE16(u[|u| - 1])
  }

  function TextPrefix(source: bv32, destination: bv32, isGroup: bool, units: nat): (b: seq<bv8>)
    ensures |b| == 16
  {
    LE32(0) + LE32(source) + LE32(destination) + LE16(if isGroup then 128 else 0) + LE16(Low16(2 * units))
  }

  function TextBytes(t: Text): (b: seq<bv8>)
    ensures |b| == 16 + 2 * |ToUtf16(t.text)|
  {
    TextPrefix(t.source, t.destination, t.isGroup, |ToUtf16(t.text)|) + UnitBytes(ToUtf16(t.text))
  }

  /** `n` little-endian units from byte `k` on. */
  function UnitsAt(b: seq<bv8>, k: nat, n: nat): (u: seq<bv16>)
    requires k + 2 * n <= |b|
    ensures |u| == n
  {
    seq(n, i requires 0 <= i < n => U16At(b, k + 2 * i))
  }

  function ParseText(b: seq<bv8>): (r: Option<Text>) {
    if |b| < 16 then None
    else
      var length := Number16(U16At(b, 14));
      if 16 + length > |b| then None
      else Some(Text(U32At(b, 4), U32At(b, 8), U16At(b, 12) == 128, ToUtf8(UnitsAt(b, 16, length / 2))))
  }

  method SerializeTextMessage(host: Host, data: Text) returns (buf: seq<bv8>)
    ensures buf == TextBytes(data)
  {
    hide LE16, LE32, ToUtf16, TextPrefix;
    var utf16Text := Utf8ToUtf16(data.text);
    buf := WriteTextPrefix(host, data.source, data.destination, data.isGroup, |utf16Text|);
    for i := 0 to |utf16Text|
      invariant buf == TextPrefix(data.source, data.destination, data.isGroup, |utf16Text|) + UnitBytes(utf16Text[..i])
    {
      assert utf16Text[..i + 1][..i] == utf16Text[..i];
      buf := WriteLE16(host, buf, utf16Text[i]);
    }
    assert utf16Text[..|utf16Text|] == utf16Text;
  }

  method WriteTextPrefix(host: Host, source: bv32, destination: bv32, isGroup: bool, units: nat)
    returns (buf: seq<bv8>)
    ensures buf == TextPrefix(source, destination, isGroup, units)
  {
    hide LE16, LE32;
    buf := [];
    buf := WriteLE32(host, buf, 0);
    buf := WriteLE32(host, buf, source);
    buf := WriteLE32(host, buf, destination);
    var option: bv16 := if isGroup then 128 else 0;
    buf := WriteLE16(host, buf, option);
    var byteLength := Low16(2 * units);
    buf := WriteLE16(host, buf, byteLength);
  }

  method DeserializeTextMessage(host: Host, bytes: seq<bv8>) returns (r: Option<Text>)
    ensures r == ParseText(bytes)
  {
    hide Of16, Of32, ToUtf8;
    if |bytes| < 16 {
      return None;
    }
    var ok, offset, reserved := ReadLE32(host, bytes, 0);
    if !ok { return None; }
    var source, destination, option, byteLength;
    ok, offset, source := ReadLE32(host, bytes, offset);
    if !ok { return None; }
    ok, offset, destination := ReadLE32(host, bytes, offset);
    if !ok { return None; }
    ok, offset, option := ReadLE16(host, bytes, offset);
    if !ok { return None; }
    ok, offset, byteLength := ReadLE16(host, bytes, offset);
    if !ok { return None; }
    if offset + Number16(byteLength) > |bytes| {
      return None;
    }
    var units := ReadUnits(host, bytes, offset, Number16(byteLength) / 2);
    var text := Utf16ToUtf8(units);
    r := Some(Text(source, destination, option == 128, text));
  }

  /** The unit loop of src/Protocol.cpp:313-316. */
  method ReadUnits(host: Host, bytes: seq<bv8>, start: nat, n: nat) returns (units: seq<bv16>)
    requires start + 2 * n <= |bytes|
    ensures units == UnitsAt(bytes, start, n)
  {
    hide Of16;
    units := [];
    var offset := start;
    for i := 0 to n
      invariant |units| == i && offset == start + 2 * i
      invariant forall j :: 0 <= j < i ==> units[j] == U16At(bytes, start + 2 * j)
    {
      var ok, next, val := ReadLE16(host, bytes, offset);
      assert ok;
      offset := next;
      units := units + [val];
    }
  }

  // ----- Location reports -----

  datatype Location = Location(format: bv32, nmea: seq<bv8>)

  function LocationBytes(l: Location): (b: seq<bv8>)
    ensures |b| == 11 + |l.nmea|
  {
    LE32(0) + LE32(l.format) + LE16(Low16(|l.nmea| + 1)) + l.nmea + [0]
  }

  /** strnlen: everything before the first NUL. */
  function CutAtNul(s: seq<bv8>): (r: seq<bv8>)
    ensures r <= s && 0 !in r && (r == s || s[|r|] == 0)
  {
    if s == [] || s[0] == 0 then [] else [s[0]] + CutAtNul(s[1..])
  }

  function ParseLocation(b: seq<bv8>): (r: Option<Location>) {
    if |b| < 10 then None
    else
      var length := Number16(U16At(b, 8));
      if 10 + length > |b| then None
      else Some(Location(U32At(b, 4), CutAtNul(b[10..10 + length])))
  }

  method SerializeLocationReport(host: Host, data: Location) returns (buf: seq<bv8>)
    ensures buf == LocationBytes(data)
  {
    hide LE16, LE32;
    buf := [];
    buf := WriteLE32(host, buf, 0);
    buf := WriteLE32(host, buf, data.format);
    var byteLength := Low16(|data.nmea| + 1);
    buf := WriteLE16(host, buf, byteLength);
    buf := buf + data.nmea;
    buf := buf + [0];
  }

  method DeserializeLocationReport(host: Host, bytes: seq<bv8>) returns (r: Option<Location>)
    ensures r == ParseLocation(bytes)
  {
    hide Of16, Of32, Number16, CutAtNul;
    if |bytes| < 10 {
      return None;
    }
    var ok, offset, reserved := ReadLE32(host, bytes, 0);
    if !ok { return None; }
    var format, byteLength;
    ok, offset, format := ReadLE32(host, bytes, offset);
    if !ok { return None; }
    ok, offset, byteLength := ReadLE16(host, bytes, offset);
    if !ok { return None; }
    if offset + Number16(byteLength) > |bytes| {
      return None;
    }
    var nmea := ReadNmea(bytes, offset, byteLength);
    r := Some(Location(format, nmea));
  }

  /** src/Protocol.cpp:371-376 */
  method ReadNmea(bytes: seq<bv8>, offset: nat, byteLength: bv16) returns (nmea: seq<bv8>)
    requires offset + Number16(byteLength) <= |bytes|
    ensures nmea == CutAtNul(bytes[offset..offset + Number16(byteLength)])
  {
    nmea := [];
    if byteLength > 0 {
      nmea := CutAtNul(bytes[offset..offset + Number16(byteLength)]);
    } else {
      assert Number16(byteLength) == 0;
      assert bytes[offset..offset] == [];
    }
  }

  // ----- Decode-only payloads -----

  datatype Status = Status(source: bv32, destination: bv32, status: bv8)

  function ParseStatus(b: seq<bv8>): (r: Option<Status>) {
    if |b| < 13 then None else Some(Status(U32At(b, 4), U32At(b, 8), b[12]))
  }

  datatype Request = Request(kind: bv32, interval: bv32)

  function ParseRequest(b: seq<bv8>): (r: Option<Request>) {
    if |b| < 12 then None else Some(Request(U32At(b, 4), U32At(b, 8)))
  }

  // ----- Voice header LC (src/Client.cpp:240-261, 500-507) -----

  function VoiceHeaderBytes(source: bv32, destination: bv32, isGroup: bool): (b: seq<bv8>)
    ensures |b| == 12
  {
    [if isGroup then 0x00 else 0x03, 0x00, 0x00,
     ((destination >> 16) & 0xFF) as bv8, ((destination >> 8) & 0xFF) as bv8, (destination & 0xFF) as bv8,
     ((source >> 16) & 0xFF) as bv8, ((source >> 8) & 0xFF) as bv8, (source & 0xFF) as bv8,
     0x00, 0x00, 0x00]
  }

  datatype Voice = Voice(source: bv32, destination: bv32, isGroup: bool)

  function Id24(b0: bv8, b1: bv8, b2: bv8): (r: bv32) {
    ((b0 as bv32) << 16) | ((b1 as bv32) << 8) | (b2 as bv32)
  }

  function ParseVoiceHeader(b: seq<bv8>): (r: Option<Voice>) {
    if |b| < 12 then None
    else Some(Voice(Id24(b[6], b[7], b[8]), Id24(b[3], b[4], b[5]), (b[0] & 0x3F) != 0x03))
  }
}
