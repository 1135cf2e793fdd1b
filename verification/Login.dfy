/** Which runs of client and server log in, and under which passwords. */
module Login {
  import opened Bits
  import opened Endian
  import opened Grammar
  import opened Handshake
  import opened Layout
  import opened Lifecycle
  import opened Server
  import opened Session
  import opened SessionProofs
  import opened Wire
  import opened WireProofs
  import Fips

  /** The client's password and the server's give the same digest under the salt as the challenge carries it. */
  predicate DigestsEqual(v: Server, password: seq<bv8>) {
    Fips.Hash(WireSalt(v.salt) + password) == Expected(v)
  }

  // ----- Passwords -----

  /** Every session was begun by a call to Connect with its password. */
  ghost predicate Begun(s: Session, moves: seq<Move>) {
    forall k :: 0 <= k < |Sessions(s)| ==> BegunBy(Sessions(s)[k], moves)
  }

  ghost predicate BegunBy(h: seq<Entry>, moves: seq<Move>) {
    h == [] || (h[0].Began? && ClientStep(CallConnect(h[0].password)) in moves)
  }

  /** Before its first session a client does nothing but connect. */
  lemma Idle(s: Session, e: Event)
    requires Inv(s) && s.cur == [] && !e.CallConnect?
    ensures Step(s, e).cur == []
  {
    hide TransmitRaw, SubscriptionBytes, TextBytes, LocationBytes, VoiceHeaderBytes, VersionBytes, ProcessPacket, Fail;
    EmptySummary();
  }

  lemma StepBegun(s: Session, e: Event, moves: seq<Move>)
    requires Inv(s) && Begun(s, moves)
    ensures Begun(Step(s, e), moves + [ClientStep(e)])
    ensures !e.CallConnect? ==> Begun(Step(s, e), moves)
  {
    hide Inv, Step, BegunBy;
    var t := Step(s, e);
    StepKeeps(s, e);
    forall k | 0 <= k < |Sessions(t)|
      ensures BegunBy(Sessions(t)[k], moves + [ClientStep(e)])
      ensures !e.CallConnect? ==> BegunBy(Sessions(t)[k], moves)
    {
      if e.CallConnect? {
        ConnectBegun(s, e, moves, k);
      } else {
        if s.cur == [] {
          Idle(s, e);
        }
        assert BegunBy(Sessions(s)[k], moves);
        LongerBegun(Sessions(s)[k], Sessions(t)[k], moves, ClientStep(e));
      }
    }
  }

  lemma LongerBegun(h: seq<Entry>, g: seq<Entry>, moves: seq<Move>, m: Move)
    requires BegunBy(h, moves) && h <= g && (h == [] ==> g == [])
    ensures BegunBy(g, moves) && BegunBy(g, moves + [m])
  {
  }

  lemma ConnectBegun(s: Session, e: Event, moves: seq<Move>, k: nat)
    requires e.CallConnect? && Begun(s, moves) && k < |Sessions(Step(s, e))|
    ensures BegunBy(Sessions(Step(s, e))[k], moves + [ClientStep(e)])
  {
    if k < |Sessions(s)| {
      assert BegunBy(Sessions(s)[k], moves);
    }
  }

  lemma {:induction false} PasswordsCalled(n: Net, moves: seq<Move>)
    requires Start(n)
    ensures Begun(Play(n, moves).client, moves)
    decreases |moves|
  {
    hide Start, NetInv, Begun, Step, Moved;
    PlayKeeps(n, moves);
    if moves == [] {
      NoneBegun(n);
    } else {
      var init, m := moves[..|moves| - 1], moves[|moves| - 1];
      PlayKeeps(n, init);
      PasswordsCalled(n, init);
      MovedBegun(Play(n, init), m, init);
      assert init + [m] == moves;
    }
  }

  lemma NoneBegun(n: Net)
    requires Start(n)
    ensures Begun(n.client, [])
  {
  }

  lemma MovedBegun(n: Net, m: Move, moves: seq<Move>)
    requires NetInv(n) && Begun(n.client, moves)
    ensures Begun(Moved(n, m).client, moves + [m])
  {
    hide Step, Begun, Inv, RepliesEarned, AllSalted, Earned, Taken, ReplyBytes, PacketBytes, PortOf;
    MoreMoves(n.client, moves, m);
    match m
    case ClientStep(e) => StepBegun(n.client, e, moves);
    case ToServer(_, _, _) =>
    case ToClient(i) =>
      if i < |n.server.outbox| {
        var e := Datagram(ReplyBytes(n.server.outbox[i]), true);
        StepBegun(n.client, e, moves);
        MoreMoves(Step(n.client, e), moves, m);
      }
    case StrayToServer(_, _, _) =>
    case StrayToClient(bytes) =>
      var e := Datagram(bytes, false);
      StepBegun(n.client, e, moves);
      MoreMoves(Step(n.client, e), moves, m);
  }

  lemma MoreMoves(s: Session, moves: seq<Move>, m: Move)
    ensures Begun(s, moves) ==> Begun(s, moves + [m])
  {
    hide BegunBy;
    forall k | Begun(s, moves) && 0 <= k < |Sessions(s)|
      ensures BegunBy(Sessions(s)[k], moves + [m])
    {
      assert BegunBy(Sessions(s)[k], moves);
      LongerBegun(Sessions(s)[k], Sessions(s)[k], moves, m);
    }
  }

  /** If no password Connect was ever called with fits the server's, no run reaches CONNECTED. */
  lemma WrongPasswordsNeverConnect(n: Net, moves: seq<Move>)
    requires Start(n)
    requires forall password :: ClientStep(CallConnect(password)) in moves ==> !DigestsEqual(n.server, password)
    ensures Play(n, moves).client.state != CONNECTED
  {
    hide Start, Play, Begun, PortOf, IsAuthentication, WireSalt, Fips.Hash, PacketBytes;
    if Play(n, moves).client.state == CONNECTED {
      var k, j := Agreement(n, moves);
      PasswordsCalled(n, moves);
      SessionBegun(Play(n, moves).client, moves, k);
    }
  }

  lemma SessionBegun(s: Session, moves: seq<Move>, k: nat)
    requires Begun(s, moves) && k < |Sessions(s)|
    ensures BegunBy(Sessions(s)[k], moves)
  {
  }

  /** On a port no earlier session used, a connected client has the password of its current session agreed. */
  lemma FreshPortAgreement(n: Net, moves: seq<Move>)
    requires Start(n) && Play(n, moves).client.state == CONNECTED
    requires var t := Play(n, moves).client; forall k :: 0 <= k < |t.past| ==> PortOf(t.past[k]) != PortOf(t.cur)
    ensures DigestsEqual(n.server, Play(n, moves).client.password)
  {
    hide Start, Play, PortOf, IsAuthentication, WireSalt, Fips.Hash, PacketBytes;
    var k, j := Agreement(n, moves);
    var t := Play(n, moves).client;
    assert k == |t.past|;
    PlayKeeps(n, moves);
    CurrentPassword(t);
  }

  lemma CurrentPassword(s: Session)
    requires Inv(s) && s.state != DISCONNECTED
    ensures s.cur != [] && s.cur[0] == Began(s.password)
  {
    hide WellOrdered, Summarize;
    EmptySummary();
    PasswordBegan(s.cur);
  }

  // ----- A login on a network that delivers everything -----

  lemma {:induction false} PlaySplit(n: Net, a: seq<Move>, b: seq<Move>)
    ensures Play(n, a + b) == Play(Play(n, a), b)
    decreases |b|
  {
    hide Moved;
    if b == [] {
      assert a + b == a;
    } else {
      PlaySplit(n, a, b[..|b| - 1]);
      assert (a + b)[..|a + b| - 1] == a + b[..|b| - 1];
    }
  }

  /** Connect is called, and the resolver and the socket do their part. */
  function DialMoves(password: seq<bv8>, port: nat): (r: seq<Move>) {
    [ClientStep(CallConnect(password)), ClientStep(ResolverDone(Bound(port)))]
  }

  function Hello(s: Session): (r: Packet) {
    Packet(KEEP_ALIVE, NONE, 0, VersionBytes(Version(s.dmrId, OPEN_TERMINAL, s.description)))
  }

  ghost predicate AlwaysSends(s: Session) {
    forall i :: !s.failing(i)
  }

  /** A client that has said hello from a newly opened socket. */
  ghost predicate Dialled(s: Session, password: seq<bv8>, port: nat) {
    && s.state == CONNECTING && s.socketOpen && s.password == password && s.routineSeq == 1
    && s.cur == [Began(password), Opened(port), Sent(Hello(s))]
  }

  lemma ConnectDials(s: Session, password: seq<bv8>)
    requires Inv(s) && s.state == DISCONNECTED
    ensures var t := Connect(s, password);
      && t.state == CONNECTING && !t.socketOpen && t.password == password && t.cur == [Began(password)]
      && t.routineSeq == 0 && t.failing == s.failing && t.dmrId == s.dmrId && t.description == s.description
  {
    hide WellOrdered, Summarize;
  }

  lemma HelloSent(s: Session, port: nat)
    requires s.state == CONNECTING && s.socketOpen && s.cur == [Began(s.password), Opened(port)] && s.routineSeq == 0
    requires AlwaysSends(s)
    ensures var t := SendKeepAlive(s); Dialled(t, s.password, port) && AlwaysSends(t) && SameButSent(s, t)
  {
    hide TransmitRaw, VersionBytes;
    var payload := VersionBytes(Version(s.dmrId, OPEN_TERMINAL, s.description));
    Routine();
    TransmitSame(s, KEEP_ALIVE, NONE, payload);
    TransmitCounts(s, KEEP_ALIVE, NONE, payload);
    TransmitSucceeds(s, KEEP_ALIVE, NONE, payload);
  }

  lemma BoundDials(s: Session, port: nat)
    requires s.state == CONNECTING && !s.socketOpen && s.cur == [Began(s.password)] && s.routineSeq == 0
    requires AlwaysSends(s)
    ensures var t := Resolved(s, Bound(port)); Dialled(t, s.password, port) && AlwaysSends(t) && t.past == s.past
    ensures var t := Resolved(s, Bound(port)); t.dmrId == s.dmrId && t.description == s.description
  {
    hide Fail, SendKeepAlive;
    var t := ReceiveLoopStarted(Note(s.(socketOpen := true), Opened(port)));
    assert t.cur == [Began(s.password), Opened(port)];
    HelloSent(t, port);
  }

  lemma Routine()
    ensures !IsRealTime(NONE)
  {
  }

  lemma Dials(n: Net, password: seq<bv8>, port: nat)
    requires Inv(n.client) && n.client.state == DISCONNECTED && AlwaysSends(n.client)
    ensures var d := Play(n, DialMoves(password, port));
      && d.server == n.server && Dialled(d.client, password, port) && AlwaysSends(d.client)
      && d.client.past == Connect(n.client, password).past && d.client.description == n.client.description
      && d.client.dmrId == n.client.dmrId
  {
    hide Inv, Connect, Resolved, Dialled, AlwaysSends;
    ConnectDials(n.client, password);
    var t := Connect(n.client, password);
    SameSending(n.client, t);
    BoundDials(t, port);
    var m := ClientStep(CallConnect(password));
    var ms := DialMoves(password, port);
    assert ms[..1] == [m] && [m][..0] == [];
    assert Play(n, []) == n;
    assert Play(n, [m]) == n.(client := t);
  }

  lemma SameSending(s: Session, t: Session)
    requires AlwaysSends(s) && t.failing == s.failing
    ensures AlwaysSends(t)
  {
  }

  /** The hello's length field leaves room for identity data: its 16 bits wrap. */
  predicate HelloFits(s: Session) {
    (5 + |s.description|) % TWO16 >= 5
  }

  /** The challenge is whole in the client's receive buffer. */
  predicate SaltFits(salt: seq<bv8>) {
    18 + |salt| % TWO16 <= RECEIVE_BUFFER
  }

  /** A packet with room for identity data, in numbers. */
  predicate Greets(pkt: seq<bv8>) {
    |pkt| >= 18 && IsSignature(pkt) && Two(pkt, 8) == 0 && Two(pkt, 16) >= 5
  }

  /** A packet with the expected digest, in numbers. */
  predicate Proves(v: Server, pkt: seq<bv8>, beyond: nat -> bv8) {
    |pkt| >= 18 && IsSignature(pkt) && Two(pkt, 8) == 3 && Span(pkt, Two(pkt, 16), beyond) == Expected(v)
  }

  lemma TypeNumbers(kind: bv16)
    ensures kind == KEEP_ALIVE <==> Number16(kind) == 0
    ensures kind == AUTHENTICATION <==> Number16(kind) == 3
  {
    Back16(kind);
  }

  lemma HandledExactly(v: Server, h: Header, payload: seq<bv8>)
    ensures Handle(v, h, payload).outbox == v.outbox
      + if h.kind == KEEP_ALIVE && |payload| >= 5 then [Reply(v.clientEp, CHALLENGE, 0, v.salt)]
        else if h.kind == AUTHENTICATION && payload == Expected(v) then [Reply(v.clientEp, KEEP_ALIVE, 0, [])]
        else []
    ensures Handle(v, h, payload).received == v.received
  {
    hide Fips.Hash, U32At, StripNuls;
  }

  /** What the server does with any datagram: what it logs, and what it answers. */
  lemma ServerExactly(v: Server, from: Endpoint, datagram: seq<bv8>, beyond: nat -> bv8)
    ensures !v.listening ==> Taken(v, from, datagram, beyond) == v
    ensures v.listening ==>
      var w := Taken(v, from, datagram, beyond);
      var pkt := if |datagram| <= 1024 then datagram else datagram[..1024];
      && w.received == v.received + (if datagram == [] then [] else [pkt])
      && w.outbox == v.outbox
         + if Greets(pkt) then [Reply(from, CHALLENGE, 0, v.salt)]
           else if Proves(v, pkt, beyond) then [Reply(from, KEEP_ALIVE, 0, [])]
           else []
  {
    hide ParseHeader, Fips.Hash, Span, Two, Number16, IsSignature, Handle;
    if v.listening {
      var pkt := Filled(datagram);
      HeaderAccepted(pkt);
      if ParseHeader(pkt).Some? {
        var h := ParseHeader(pkt).value;
        TypeNumbers(h.kind);
        HandledExactly(v.(clientEp := from, received := v.received + [pkt]), h, Span(pkt, Number16(h.length), beyond));
      }
    }
  }

  lemma HelloHeard(v: Server, from: Endpoint, s: Session, beyond: nat -> bv8)
    requires v.listening
    ensures var w := Taken(v, from, PacketBytes(Hello(s)), beyond);
      && w.listening && w.salt == v.salt && w.password == v.password
      && w.outbox == v.outbox + if HelloFits(s) then [Reply(from, CHALLENGE, 0, v.salt)] else []
  {
    hide ParseHeader, Filled, PacketBytes, Fips.Hash, U32At, StripNuls, Low16, Number16;
    ServerReads(Hello(s), beyond);
    var pkt := Filled(PacketBytes(Hello(s)));
    var payload := Span(pkt, Number16(Low16(5 + |s.description|)), beyond);
    assert |Hello(s).payload| == 5 + |s.description|;
    assert |payload| == (5 + |s.description|) % TWO16;
  }

  /** The server learns the client's id from its hello. */
  lemma HelloIdentifies(v: Server, from: Endpoint, s: Session, beyond: nat -> bv8)
    requires v.listening && HelloFits(s)
    ensures Taken(v, from, PacketBytes(Hello(s)), beyond).dmrId == s.dmrId
  {
    hide ParseHeader, Filled, PacketBytes, Fips.Hash, Of32, LE32, StripNuls, Low16, Low32, Number16, Span;
    ServerReads(Hello(s), beyond);
    var payload := Span(Filled(PacketBytes(Hello(s))), Number16(Low16(5 + |s.description|)), beyond);
    assert |Hello(s).payload| == 5 + |s.description|;
    HelloSpan(s, beyond);
    Read32(s.dmrId);
  }

  lemma HelloSpan(s: Session, beyond: nat -> bv8)
    requires HelloFits(s)
    ensures var payload := Span(Filled(PacketBytes(Hello(s))), Number16(Low16(5 + |s.description|)), beyond);
      |payload| >= 5 && forall i :: 0 <= i < 4 ==> payload[i] == LE32(s.dmrId)[i]
  {
    hide HeaderBytes, LE32, Low16, Low32, Number16;
    var b, pkt := PacketBytes(Hello(s)), Filled(PacketBytes(Hello(s)));
    assert |b| == 23 + |s.description|;
    forall i | 0 <= i < 4
      ensures pkt[18 + i] == LE32(s.dmrId)[i]
    {
      assert b[18 + i] == Hello(s).payload[i];
    }
  }

  lemma AuthenticationHeard(v: Server, from: Endpoint, p: Packet, beyond: nat -> bv8)
    requires v.listening && p.kind == AUTHENTICATION && |p.payload| == 32
    ensures var w := Taken(v, from, PacketBytes(p), beyond);
      && w.listening && w.salt == v.salt && w.password == v.password
      && w.outbox == v.outbox + if p.payload == Expected(v) then [Reply(from, KEEP_ALIVE, 0, [])] else []
  {
    hide ParseHeader, Filled, PacketBytes, Fips.Hash, Span, Low16, Number16;
    ServerReads(p, beyond);
  }

  lemma ChallengeHeard(s: Session, to: Endpoint, salt: seq<bv8>)
    requires Inv(s) && s.receiving
    ensures HandleReceive(s, ReplyBytes(Reply(to, CHALLENGE, 0, salt)), true)
         == if SaltFits(salt) then Challenge(s, WireSalt(salt)) else s
  {
    hide Inv, HandleReceive, Frame, ParseFrame, Low16, TransmitRaw, Fips.Hash;
    var b := ReplyBytes(Reply(to, CHALLENGE, 0, salt));
    ReceivingListens(s);
    ReceiveContinues(s, b, true);
    FrameLength(CHALLENGE, 0, 0, salt);
    assert Received(b) == b[..|Received(b)|];
    if SaltFits(salt) {
      CutFrameKept(CHALLENGE, 0, 0, salt, |Received(b)|);
    } else {
      CutFrameDropped(CHALLENGE, 0, 0, salt, |Received(b)|);
    }
  }

  lemma ConfirmHeard(s: Session, to: Endpoint)
    requires Inv(s) && s.receiving
    ensures HandleReceive(s, ReplyBytes(Reply(to, KEEP_ALIVE, 0, [])), true) == Confirm(s)
  {
    hide Inv, HandleReceive, Frame, ParseFrame, Low16;
    var b := ReplyBytes(Reply(to, KEEP_ALIVE, 0, []));
    ReceivingListens(s);
    ReceiveContinues(s, b, true);
    FrameLength(KEEP_ALIVE, 0, 0, []);
    assert Received(b) == b[..|Received(b)|];
    CutFrameKept(KEEP_ALIVE, 0, 0, [], |Received(b)|);
  }

  function Digest(salt: seq<bv8>, password: seq<bv8>): (r: Packet) {
    Packet(AUTHENTICATION, NONE, 1, Fips.Hash(salt + password))
  }

  /** A client that has answered its challenge. */
  ghost predicate Answered(s: Session, password: seq<bv8>, port: nat, salt: seq<bv8>) {
    && s.state == AUTHENTICATING && s.socketOpen
    && |s.cur| == 5 && s.cur[..2] == [Began(password), Opened(port)] && s.cur[4] == Sent(Digest(salt, password))
  }

  lemma ChallengeAnswered(s: Session, password: seq<bv8>, port: nat, salt: seq<bv8>)
    requires Dialled(s, password, port) && AlwaysSends(s)
    ensures Answered(Challenge(s, salt), password, port, salt) && Challenge(s, salt).past == s.past
  {
    hide Fips.Hash, Hello, TransmitRaw;
    Routine();
    var t := Note(s.(state := AUTHENTICATING), Challenged(salt));
    TransmitSame(t, AUTHENTICATION, NONE, Fips.Hash(salt + s.password));
    TransmitSucceeds(t, AUTHENTICATION, NONE, Fips.Hash(salt + s.password));
  }

  lemma PortDialled(h: seq<Entry>, password: seq<bv8>, port: nat)
    requires WellOrdered(h) && [Began(password), Opened(port)] <= h
    ensures PortOf(h) == port
  {
    hide WellOrdered;
    assert h[..2] == [Began(password), Opened(port)];
    assert h[..2][..1] == [Began(password)] && h[..1][..0] == [];
    BeginningBound(password, port);
    PortKept(h[..2], h);
  }

  lemma BeginningBound(password: seq<bv8>, port: nat)
    ensures var m := Summarize([Began(password), Opened(port)]); m.bound && m.port == port
  {
    hide Summarize;
    Beginning(password);
    Snoc([Began(password)], Opened(port));
    assert [Began(password)] + [Opened(port)] == [Began(password), Opened(port)];
  }

  // ----- One datagram of a login -----

  lemma MoveHello(n: Net, password: seq<bv8>, port: nat, beyond: nat -> bv8)
    requires NetInv(n) && Dialled(n.client, password, port) && n.server.listening
    ensures var m := Moved(n, ToServer(|n.client.past|, 2, beyond));
      && m.client == n.client && m.server.listening && m.server.salt == n.server.salt
      && m.server.password == n.server.password
      && m.server.outbox == n.server.outbox
         + if HelloFits(n.client) then [Reply(Port(port), CHALLENGE, 0, n.server.salt)] else []
  {
    hide WellOrdered, Summarize, RepliesEarned, AllSalted, Earned, Taken, PacketBytes, HelloFits, Hello, PortOf;
    PortDialled(n.client.cur, password, port);
    HelloHeard(n.server, Port(port), n.client, beyond);
  }

  lemma MoveChallenge(n: Net, i: nat, password: seq<bv8>, port: nat)
    requires NetInv(n) && Dialled(n.client, password, port) && AlwaysSends(n.client)
    requires i < |n.server.outbox| && n.server.outbox[i] == Reply(Port(port), CHALLENGE, 0, n.server.salt)
    ensures var m := Moved(n, ToClient(i)); var salt := n.server.salt;
      && m.server == n.server && m.client.past == n.client.past
      && if SaltFits(salt) then Answered(m.client, password, port, WireSalt(salt)) else m.client == n.client
  {
    hide WellOrdered, Summarize, RepliesEarned, AllSalted, Earned, Hello, PortOf, HandleReceive, ReplyBytes, SaltFits,
         WireSalt, Challenge, Answered, AlwaysSends;
    PortDialled(n.client.cur, password, port);
    ChallengeHeard(n.client, Port(port), n.server.salt);
    ChallengeAnswered(n.client, password, port, WireSalt(n.server.salt));
  }

  lemma MoveDigest(n: Net, k: nat, j: nat, beyond: nat -> bv8)
    requires NetInv(n) && n.server.listening && k < |Sessions(n.client)| && j < |Sessions(n.client)[k]|
    requires IsAuthentication(Sessions(n.client)[k][j])
    ensures var m := Moved(n, ToServer(k, j, beyond)); var h := Sessions(n.client)[k];
      && m.client == n.client && m.server.salt == n.server.salt
      && m.server.outbox == n.server.outbox
         + if h[j].packet.payload == Expected(n.server) then [Reply(Port(PortOf(h)), KEEP_ALIVE, 0, [])] else []
  {
    hide Inv, WellOrdered, RepliesEarned, AllSalted, Earned, Taken, PacketBytes, PortOf, Expected;
    SessionsOrdered(n.client, k);
    OnlyDigestAuthenticates(Sessions(n.client)[k], j);
    AuthenticationHeard(n.server, Port(PortOf(Sessions(n.client)[k])), Sessions(n.client)[k][j].packet, beyond);
  }

  lemma LoggingInListens(s: Session)
    requires Inv(s) && s.state == AUTHENTICATING
    ensures s.socketOpen && s.receiving
  {
    hide WellOrdered, Summarize;
  }

  lemma MoveConfirm(n: Net, i: nat, password: seq<bv8>, port: nat)
    requires NetInv(n) && n.client.state == AUTHENTICATING && [Began(password), Opened(port)] <= n.client.cur
    requires i < |n.server.outbox| && n.server.outbox[i] == Reply(Port(port), KEEP_ALIVE, 0, [])
    ensures var m := Moved(n, ToClient(i)); m.client.state == CONNECTED && m.client.past == n.client.past
  {
    hide WellOrdered, Summarize, RepliesEarned, AllSalted, Earned, PortOf, HandleReceive, ReplyBytes, Digest;
    PortDialled(n.client.cur, password, port);
    LoggingInListens(n.client);
    ConfirmHeard(n.client, Port(port));
  }

  // ----- Whole logins -----

  lemma PlayFour(n: Net, a: Move, b: Move, c: Move, d: Move)
    ensures Play(n, [a, b, c, d]) == Moved(Moved(Moved(Moved(n, a), b), c), d)
  {
    hide Moved;
    assert [a, b, c, d][..3] == [a, b, c] && [a, b, c][..2] == [a, b] && [a, b][..1] == [a] && [a][..0] == [];
    assert Play(n, [a]) == Moved(n, a);
    assert Play(n, [a, b]) == Moved(Moved(n, a), b);
  }

  /** From a hello on, with every datagram delivered once and in order, `i` replies having been sent before. */
  function ExchangeMoves(k: nat, i: nat, beyond: nat -> bv8): (r: seq<Move>) {
    [ToServer(k, 2, beyond), ToClient(i), ToServer(k, 4, beyond), ToClient(i + 1)]
  }

  lemma NoMove(n: Net, i: nat)
    requires i >= |n.server.outbox|
    ensures Moved(n, ToClient(i)) == n
  {
  }

  lemma NoEntry(n: Net, k: nat, j: nat, beyond: nat -> bv8)
    requires k < |Sessions(n.client)| && j >= |Sessions(n.client)[k]|
    ensures Moved(n, ToServer(k, j, beyond)) == n
  {
  }

  lemma Exchange(n: Net, password: seq<bv8>, port: nat, beyond: nat -> bv8)
    requires NetInv(n) && Dialled(n.client, password, port) && AlwaysSends(n.client) && n.server.listening
    ensures var t := Play(n, ExchangeMoves(|n.client.past|, |n.server.outbox|, beyond));
      t.client.state == CONNECTED
      <==> HelloFits(n.client) && SaltFits(n.server.salt) && DigestsEqual(n.server, password)
  {
    hide NetInv, Moved, HelloFits, SaltFits, WireSalt, Fips.Hash, Hello, IsAuthentication, PortOf, Play, AlwaysSends;
    var k, i := |n.client.past|, |n.server.outbox|;
    PlayFour(n, ToServer(k, 2, beyond), ToClient(i), ToServer(k, 4, beyond), ToClient(i + 1));
    var a := Moved(n, ToServer(k, 2, beyond));
    MoveHello(n, password, port, beyond);
    MoveKeeps(n, ToServer(k, 2, beyond));
    if !HelloFits(n.client) {
      NoMove(a, i);
      NoEntry(a, k, 4, beyond);
      NoMove(a, i + 1);
    } else {
      var b := Moved(a, ToClient(i));
      MoveChallenge(a, i, password, port);
      MoveKeeps(a, ToClient(i));
      if !SaltFits(n.server.salt) {
        NoEntry(b, k, 4, beyond);
        NoMove(b, i + 1);
      } else {
        ExchangeDigests(b, password, port, beyond);
      }
    }
  }

  lemma ExchangeDigests(n: Net, password: seq<bv8>, port: nat, beyond: nat -> bv8)
    requires NetInv(n) && Answered(n.client, password, port, WireSalt(n.server.salt)) && n.server.listening
    ensures var m := Moved(n, ToServer(|n.client.past|, 4, beyond));
      Moved(m, ToClient(|n.server.outbox|)).client.state == CONNECTED <==> DigestsEqual(n.server, password)
  {
    hide NetInv, Moved, WireSalt, Fips.Hash, PortOf;
    var k := |n.client.past|;
    var m := Moved(n, ToServer(k, 4, beyond));
    Routine();
    AnsweredPort(n, password, port, WireSalt(n.server.salt));
    MoveDigest(n, k, 4, beyond);
    MoveKeeps(n, ToServer(k, 4, beyond));
    if DigestsEqual(n.server, password) {
      MoveConfirm(m, |n.server.outbox|, password, port);
    } else {
      NoMove(m, |n.server.outbox|);
    }
  }

  lemma AnsweredPort(n: Net, password: seq<bv8>, port: nat, salt: seq<bv8>)
    requires NetInv(n) && Answered(n.client, password, port, salt)
    ensures PortOf(n.client.cur) == port
  {
    hide WellOrdered, Summarize, RepliesEarned, AllSalted, Earned, PortOf, Digest;
    PortDialled(n.client.cur, password, port);
  }

  /**
   A login in which nothing is lost, started whenever the client is disconnected: it ends in CONNECTED exactly
   when the digests are equal, provided that the identity data and the challenge fit their buffers.
   */
  lemma LoginExactly(n: Net, moves: seq<Move>, password: seq<bv8>, port: nat, beyond: nat -> bv8)
    requires Start(n)
    requires var m := Play(n, moves); m.client.state == DISCONNECTED && m.server.listening && AlwaysSends(m.client)
    ensures var m := Play(n, moves);
      var d := Play(m, DialMoves(password, port));
      var t := Play(d, ExchangeMoves(|d.client.past|, |d.server.outbox|, beyond));
      t.client.state == CONNECTED
      <==> HelloFits(m.client) && SaltFits(m.server.salt) && DigestsEqual(m.server, password)
  {
    hide NetInv, Start, Play, DialMoves, SaltFits, DigestsEqual, Dialled, AlwaysSends;
    var m := Play(n, moves);
    PlayKeeps(n, moves);
    ClientInv(m);
    Dials(m, password, port);
    PlayKeepsOn(m, DialMoves(password, port));
    Exchange(Play(m, DialMoves(password, port)), password, port, beyond);
  }

  lemma ClientInv(n: Net)
    requires NetInv(n)
    ensures Inv(n.client)
  {
    hide Inv, RepliesEarned, AllSalted, Earned;
  }
}
