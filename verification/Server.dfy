/** The server half of the handshake: MockServer::ProcessIncoming and SendPacket (tests/test_client.cpp:63-148). */
module Server {
  import opened Bits
  import opened Endian
  import opened Wire
  import Fips
  import Hashing = Sha256

  /** A local port of the client's host, or somebody else. */
  datatype Endpoint = Port(port: nat) | Elsewhere(id: nat)

  datatype Reply = Reply(to: Endpoint, kind: bv16, flags: bv16, payload: seq<bv8>)

  function ReplyBytes(r: Reply): (result: seq<bv8>) {
    Frame(r.kind, r.flags, 0, r.payload)
  }

  datatype Server = Server(
    password: seq<bv8>, salt: seq<bv8>, listening: bool, clientEp: Endpoint,
    dmrId: bv32, received: seq<seq<bv8>>, outbox: seq<Reply>)

  const BUFFER := 1024

  function Filled(datagram: seq<bv8>): (b: seq<bv8>)
    ensures |b| <= BUFFER && b <= datagram
  {
    if |datagram| <= BUFFER then datagram else datagram[..BUFFER]
  }

  /** `n` bytes from the end of the header on; nothing checks that they were received, so some may be arbitrary. */
  function Span(pkt: seq<bv8>, n: nat, beyond: nat -> bv8): (s: seq<bv8>)
    ensures |s| == n
  {
    seq(n, i requires 0 <= i < n => if 18 + i < |pkt| then pkt[18 + i] else beyond(i))
  }

  function PacketSent(v: Server, kind: bv16, flags: bv16, payload: seq<bv8>): (r: Server) {
    v.(outbox := v.outbox + [Reply(v.clientEp, kind, flags, payload)])
  }

  function Expected(v: Server): (r: seq<bv8>) {
    Fips.Hash(v.salt + v.password)
  }

  function Processed(v: Server, pkt: seq<bv8>, beyond: nat -> bv8): (r: Server) {
    match ParseHeader(pkt)
    case None => v
    case Some(h) => Handle(v, h, Span(pkt, Number16(h.length), beyond))
  }

  function Handle(v: Server, h: Header, payload: seq<bv8>): (r: Server) {
    if h.kind == KEEP_ALIVE && payload != [] then
      match ParseVersion(payload)
      case None => v
      case Some(version) => PacketSent(v.(dmrId := version.dmrId), CHALLENGE, 0, v.salt)
    else if h.kind == AUTHENTICATION then
      if payload == Expected(v) then PacketSent(v, KEEP_ALIVE, 0, []) else v
    else v
  }

  /**
   The receive handler. After an empty datagram it does not listen again; a receive that completes with an error
   transfers no bytes and is the same.
   */
  function Taken(v: Server, from: Endpoint, datagram: seq<bv8>, beyond: nat -> bv8): (r: Server) {
    if !v.listening then v
    else
      var pkt := Filled(datagram);
      if pkt == [] then v.(clientEp := from, listening := false)
      else Processed(v.(clientEp := from, received := v.received + [pkt]), pkt, beyond)
  }

  class MockServer {
    const host: Host
    const expectedPassword: seq<bv8>
    const salt: seq<bv8>
    var listening: bool
    var clientEp: Endpoint
    var receivedVersionDmrId: bv32
    var receivedPackets: seq<seq<bv8>>
    var sent: seq<(Endpoint, seq<bv8>)>
    ghost var outbox: seq<Reply>

    ghost predicate Valid()
      reads this
    {
      |sent| == |outbox| && forall i :: 0 <= i < |sent| ==> sent[i] == (outbox[i].to, ReplyBytes(outbox[i]))
    }

    ghost function Value(): (r: Server)
      reads this
    {
      Server(expectedPassword, salt, listening, clientEp, receivedVersionDmrId, receivedPackets, outbox)
    }

    constructor (host: Host, expectedPassword: seq<bv8>, salt: seq<bv8>)
      ensures Valid() && listening && receivedPackets == [] && outbox == []
      ensures this.host == host && this.expectedPassword == expectedPassword && this.salt == salt
    {
      this.host := host;
      this.expectedPassword := expectedPassword;
      this.salt := salt;
      listening := true;
      clientEp := Elsewhere(0);
      receivedVersionDmrId := 0;
      receivedPackets := [];
      sent := [];
      outbox := [];
    }

    method Receive(failed: bool, from: Endpoint, datagram: seq<bv8>, beyond: nat -> bv8)
      requires Valid() && listening
      modifies this
      ensures Valid() && Value() == Taken(old(Value()), from, if failed then [] else datagram, beyond)
    {
      clientEp := from;
      var pkt := Filled(datagram);
      if failed || pkt == [] {
        listening := false;
        return;
      }
      receivedPackets := receivedPackets + [pkt];
      ProcessIncoming(pkt, beyond);
    }

    method ProcessIncoming(pkt: seq<bv8>, beyond: nat -> bv8)
      requires Valid()
      modifies this
      ensures Valid() && Value() == Processed(old(Value()), pkt, beyond)
    {
      hide ParseHeader, Fips.Hash, ParseVersion, ReplyBytes;
      var headerOpt := DeserializeHeader(host, pkt);
      if headerOpt.None? {
        return;
      }
      var header := headerOpt.value;
      var payload := Span(pkt, Number16(header.length), beyond);
      if header.kind == KEEP_ALIVE && Number16(header.length) > 0 {
        var vOpt := DeserializeVersionData(host, payload);
        if vOpt.Some? {
          receivedVersionDmrId := vOpt.value.dmrId;
          SendPacket(CHALLENGE, 0, salt);
        }
      } else if header.kind == AUTHENTICATION {
        var expectedDigest := Hashing.Sha256(salt + expectedPassword);
        var matches := Matches(payload, expectedDigest);
        if matches {
          SendPacket(KEEP_ALIVE, 0, []);
        }
      }
    }

    method SendPacket(kind: bv16, flags: bv16, payload: seq<bv8>)
      requires Valid()
      modifies `sent, `outbox
      ensures Valid() && Value() == PacketSent(old(Value()), kind, flags, payload)
    {
      hide HeaderBytes;
      var hBytes := SerializeHeader(host, Header(kind, flags, 0, Low16(|payload|)));
      var pkt := hBytes + payload;
      assert pkt == ReplyBytes(Reply(clientEp, kind, flags, payload));
      sent := sent + [(clientEp, pkt)];
      outbox := outbox + [Reply(clientEp, kind, flags, payload)];
    }
  }

  /** The byte-by-byte comparison of tests/test_client.cpp:116-124. */
  method Matches(payload: seq<bv8>, expectedDigest: seq<bv8>) returns (matches: bool)
    requires |expectedDigest| == 32
    ensures matches <==> payload == expectedDigest
  {
    matches := |payload| == 32;
    if matches {
      for i := 0 to 32
        invariant matches ==> forall j :: 0 <= j < i ==> payload[j] == expectedDigest[j]
        invariant matches
      {
        if payload[i] != expectedDigest[i] {
          matches := false;
          break;
        }
      }
    }
  }
}
