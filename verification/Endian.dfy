/**
 Byte order (include/opendtp/Protocol.hpp:126-181, src/Protocol.cpp:33-59): what a host of either byte order
 writes and reads through HostToLittle, LittleToHost and memcpy.
 */
module Endian {

  datatype Host = LittleHost | BigHost

  // ----- ByteSwap -----

  function ByteSwap16(u: bv16): (r: bv16) {
    (u >> 8) | (u << 8)
  }

  function ByteSwap32(u: bv32): (r: bv32) {
    ((u >> 24) & 0x000000FF) | ((u >> 8) & 0x0000FF00) | ((u << 8) & 0x00FF0000) | ((u << 24) & 0xFF000000)
  }

  function ByteSwap64(v: bv64): (r: bv64) {
    var u := ((v & 0x00000000FFFFFFFF) << 32) | ((v & 0xFFFFFFFF00000000) >> 32);
    var u := ((u & 0x0000FFFF0000FFFF) << 16) | ((u & 0xFFFF0000FFFF0000) >> 16);
    ((u & 0x00FF00FF00FF00FF) << 8) | ((u & 0xFF00FF00FF00FF00) >> 8)
  }

  /** The bytes of a value, least significant first. */
  function LE16(v: bv16): (s: seq<bv8>)
    ensures |s| == 2
  {
    [(v & 0xFF) as bv8, ((v >> 8) & 0xFF) as bv8]
  }

  function LE32(v: bv32): (s: seq<bv8>)
    ensures |s| == 4
  {
    [(v & 0xFF) as bv8, ((v >> 8) & 0xFF) as bv8, ((v >> 16) & 0xFF) as bv8, ((v >> 24) & 0xFF) as bv8]
  }

  function LE64(v: bv64): (s: seq<bv8>)
    ensures |s| == 8
  {
    [(v & 0xFF) as bv8, ((v >> 8) & 0xFF) as bv8, ((v >> 16) & 0xFF) as bv8, ((v >> 24) & 0xFF) as bv8,
     ((v >> 32) & 0xFF) as bv8, ((v >> 40) & 0xFF) as bv8, ((v >> 48) & 0xFF) as bv8, ((v >> 56) & 0xFF) as bv8]
  }

  function Of16(b0: bv8, b1: bv8): (r: bv16) {
    (b0 as bv16) | ((b1 as bv16) << 8)
  }

  function Of32(b0: bv8, b1: bv8, b2: bv8, b3: bv8): (r: bv32) {
    (b0 as bv32) | ((b1 as bv32) << 8) | ((b2 as bv32) << 16) | ((b3 as bv32) << 24)
  }

  lemma Swap16Reverses(u: bv16)
    ensures LE16(ByteSwap16(u)) == [LE16(u)[1], LE16(u)[0]]
    ensures ByteSwap16(ByteSwap16(u)) == u
  {
  }

  lemma Swap32Involution(u: bv32)
    ensures ByteSwap32(ByteSwap32(u)) == u
  {
  }

  lemma Swap32Octets(u: bv32, s: bv32)
    requires s == ByteSwap32(u)
    ensures (s & 0xFF) as bv8 == ((u >> 24) & 0xFF) as bv8
    ensures ((s >> 8) & 0xFF) as bv8 == ((u >> 16) & 0xFF) as bv8
    ensures ((s >> 16) & 0xFF) as bv8 == ((u >> 8) & 0xFF) as bv8
    ensures ((s >> 24) & 0xFF) as bv8 == (u & 0xFF) as bv8
  {
  }

  lemma Swap32Reverses(u: bv32)
    ensures LE32(ByteSwap32(u)) == [LE32(u)[3], LE32(u)[2], LE32(u)[1], LE32(u)[0]]
    ensures ByteSwap32(ByteSwap32(u)) == u
  {
    hide ByteSwap32;
    Swap32Involution(u);
    Swap32Octets(u, ByteSwap32(u));
  }

  lemma Swap64Involution(u: bv64)
    ensures ByteSwap64(ByteSwap64(u)) == u
  {
  }

  lemma Swap64Octets(u: bv64, s: bv64)
    requires s == ByteSwap64(u)
    ensures (s & 0xFF) as bv8 == ((u >> 56) & 0xFF) as bv8 && ((s >> 8) & 0xFF) as bv8 == ((u >> 48) & 0xFF) as bv8
    ensures ((s >> 16) & 0xFF) as bv8 == ((u >> 40) & 0xFF) as bv8
    ensures ((s >> 24) & 0xFF) as bv8 == ((u >> 32) & 0xFF) as bv8
    ensures ((s >> 32) & 0xFF) as bv8 == ((u >> 24) & 0xFF) as bv8
    ensures ((s >> 40) & 0xFF) as bv8 == ((u >> 16) & 0xFF) as bv8
    ensures ((s >> 48) & 0xFF) as bv8 == ((u >> 8) & 0xFF) as bv8 && ((s >> 56) & 0xFF) as bv8 == (u & 0xFF) as bv8
  {
  }

  lemma Swap64Reverses(u: bv64)
    ensures LE64(ByteSwap64(u)) == [LE64(u)[7], LE64(u)[6], LE64(u)[5], LE64(u)[4],
                                    LE64(u)[3], LE64(u)[2], LE64(u)[1], LE64(u)[0]]
    ensures ByteSwap64(ByteSwap64(u)) == u
  {
    hide ByteSwap64;
    Swap64Involution(u);
    Swap64Octets(u, ByteSwap64(u));
  }

  lemma Read16(v: bv16)
    ensures Of16(LE16(v)[0], LE16(v)[1]) == v
  {
  }

  lemma Read32(v: bv32)
    ensures Of32(LE32(v)[0], LE32(v)[1], LE32(v)[2], LE32(v)[3]) == v
  {
  }

  lemma Split16(b0: bv8, b1: bv8, v: bv16)
    requires v == Of16(b0, b1)
    ensures (v & 0xFF) as bv8 == b0 && ((v >> 8) & 0xFF) as bv8 == b1
  {
  }

  lemma Split32(b0: bv8, b1: bv8, b2: bv8, b3: bv8, v: bv32)
    requires v == Of32(b0, b1, b2, b3)
    ensures (v & 0xFF) as bv8 == b0 && ((v >> 8) & 0xFF) as bv8 == b1
    ensures ((v >> 16) & 0xFF) as bv8 == b2 && ((v >> 24) & 0xFF) as bv8 == b3
  {
  }

  /** Two (four) bytes are the little-endian form of the value they spell. */
  lemma Bytes16(b0: bv8, b1: bv8)
    ensures LE16(Of16(b0, b1)) == [b0, b1]
  {
    hide Of16;
    Split16(b0, b1, Of16(b0, b1));
  }

  lemma Bytes32(b0: bv8, b1: bv8, b2: bv8, b3: bv8)
    ensures LE32(Of32(b0, b1, b2, b3)) == [b0, b1, b2, b3]
  {
    hide Of32;
    Split32(b0, b1, b2, b3, Of32(b0, b1, b2, b3));
  }

  // ----- Memory of the host -----

  function HostToLittle16(host: Host, v: bv16): (r: bv16) {
    if host.BigHost? then ByteSwap16(v) else v
  }

  function HostToLittle32(host: Host, v: bv32): (r: bv32) {
    if host.BigHost? then ByteSwap32(v) else v
  }

  /** The bytes of a variable as they lie in the host's memory. */
  function Memory16(host: Host, v: bv16): (s: seq<bv8>)
    ensures |s| == 2
  {
    if host.BigHost? then [LE16(v)[1], LE16(v)[0]] else LE16(v)
  }

  function Memory32(host: Host, v: bv32): (s: seq<bv8>)
    ensures |s| == 4
  {
    if host.BigHost? then [LE32(v)[3], LE32(v)[2], LE32(v)[1], LE32(v)[0]] else LE32(v)
  }

  /** The variable that `memcpy` of these bytes gives. */
  function Loaded16(host: Host, s: seq<bv8>): (r: bv16)
    requires |s| == 2
  {
    if host.BigHost? then Of16(s[1], s[0]) else Of16(s[0], s[1])
  }

  function Loaded32(host: Host, s: seq<bv8>): (r: bv32)
    requires |s| == 4
  {
    if host.BigHost? then Of32(s[3], s[2], s[1], s[0]) else Of32(s[0], s[1], s[2], s[3])
  }

  lemma Loaded16IsLittle(host: Host, s: seq<bv8>)
    requires |s| == 2
    ensures HostToLittle16(host, Loaded16(host, s)) == Of16(s[0], s[1])
  {
    SwapOf16(s[0], s[1]);
  }

  lemma SwapOf16(a: bv8, b: bv8)
    ensures ByteSwap16(Of16(b, a)) == Of16(a, b)
  {
  }

  lemma Loaded32IsLittle(host: Host, s: seq<bv8>)
    requires |s| == 4
    ensures HostToLittle32(host, Loaded32(host, s)) == Of32(s[0], s[1], s[2], s[3])
  {
    SwapOf32(s[0], s[1], s[2], s[3]);
  }

  lemma SwapOf32(a: bv8, b: bv8, c: bv8, d: bv8)
    ensures ByteSwap32(Of32(d, c, b, a)) == Of32(a, b, c, d)
  {
  }

  // ----- WriteLE and ReadLE -----

  method WriteLE16(host: Host, buf: seq<bv8>, val: bv16) returns (out: seq<bv8>)
    ensures out == buf + LE16(val)
  {
    var leVal := HostToLittle16(host, val);
    Swap16Reverses(val);
    out := buf + Memory16(host, leVal);
  }

  method WriteLE32(host: Host, buf: seq<bv8>, val: bv32) returns (out: seq<bv8>)
    ensures out == buf + LE32(val)
  {
    hide ByteSwap32, LE32;
    var leVal := HostToLittle32(host, val);
    Swap32Reverses(val);
    Swap32Reverses(leVal);
    var bytes := Memory32(host, leVal);
    assert bytes == LE32(val);
    out := buf + bytes;
  }

  method ReadLE16(host: Host, bytes: seq<bv8>, offset: nat) returns (ok: bool, next: nat, val: bv16)
    ensures ok <==> offset + 2 <= |bytes|
    ensures ok ==> next == offset + 2 && val == Of16(bytes[offset], bytes[offset + 1])
    ensures !ok ==> next == offset
  {
    ok, next, val := false, offset, 0;
    if offset + 2 > |bytes| {
      return;
    }
    var raw := bytes[offset..offset + 2];
    Loaded16IsLittle(host, raw);
    val := HostToLittle16(host, Loaded16(host, raw));
    ok, next := true, offset + 2;
  }

  method ReadLE32(host: Host, bytes: seq<bv8>, offset: nat) returns (ok: bool, next: nat, val: bv32)
    ensures ok <==> offset + 4 <= |bytes|
    ensures ok ==> next == offset + 4
    ensures ok ==> val == Of32(bytes[offset], bytes[offset + 1], bytes[offset + 2], bytes[offset + 3])
    ensures !ok ==> next == offset
  {
    hide ByteSwap32, Of32, Loaded32, HostToLittle32;
    ok, next, val := false, offset, 0;
    if offset + 4 > |bytes| {
      return;
    }
    var raw := bytes[offset..offset + 4];
    Loaded32IsLittle(host, raw);
    val := HostToLittle32(host, Loaded32(host, raw));
    ok, next := true, offset + 4;
  }
}
