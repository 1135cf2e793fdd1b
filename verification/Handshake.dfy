/**
 Client and server joined by a network that may lose, duplicate and reorder datagrams: whatever either side ever
 sent may be delivered any number of times, at any moment, or never. Others may send anything to both, from addresses
 of their own: sources are not forged, and the client's local ports are its alone.
 */
module Handshake {
  import opened Bits
  import opened Grammar
  import opened Lifecycle
  import opened Server
  import opened Session
  import opened SessionProofs
  import opened Wire
  import opened WireProofs
  import Fips

  datatype Net = Net(client: Session, server: Server)

  /** The local port a session's datagrams come from. */
  function PortOf(h: seq<Entry>): (r: nat) { Summarize(h).port }

  datatype Move =
    // A call, a handler or a timer of the client; datagrams have moves of their own.
    | ClientStep(event: Event)
    // The server gets what the client sent as entry `j` of session `k`.
    | ToServer(k: nat, j: nat, beyond: nat -> bv8)
    // The client gets the server's `i`-th reply, if its socket has the port it was sent to.
    | ToClient(i: nat)
    // Datagrams from elsewhere.
    | StrayToServer(id: nat, bytes: seq<bv8>, past: nat -> bv8)
    | StrayToClient(bytes: seq<bv8>)

  function Moved(n: Net, m: Move): (r: Net) {
    match m
    case ClientStep(e) => if e.Datagram? then n else n.(client := Step(n.client, e))
    case ToServer(k, j, beyond) =>
      var all := Sessions(n.client);
      if k < |all| && j < |all[k]| && all[k][j].Sent? then
        n.(server := Taken(n.server, Port(PortOf(all[k])), PacketBytes(all[k][j].packet), beyond))
      else n
    case ToClient(i) =>
      if i < |n.server.outbox| && n.client.socketOpen && n.server.outbox[i].to == Port(PortOf(n.client.cur)) then
        n.(client := Step(n.client, Datagram(ReplyBytes(n.server.outbox[i]), true)))
      else n
    case StrayToServer(id, bytes, past) => n.(server := Taken(n.server, Elsewhere(id), bytes, past))
    case StrayToClient(bytes) => n.(client := Step(n.client, Datagram(bytes, false)))
  }

  function Play(n: Net, moves: seq<Move>): (r: Net) {
    if moves == [] then n else Moved(Play(n, moves[..|moves| - 1]), moves[|moves| - 1])
  }

  ghost predicate Start(n: Net) {
    Initial(n.client) && n.server.listening && n.server.received == [] && n.server.outbox == []
  }

  // ----- The invariant -----

  /** The salt as a challenge carries it: its header can announce no more than 65535 bytes. */
  function WireSalt(salt: seq<bv8>): (r: seq<bv8>) {
    salt[..|salt| % TWO16]
  }

  predicate GoodReply(v: Server, r: Reply) {
    r.flags == 0 && ((r.kind == CHALLENGE && r.payload == v.salt) || (r.kind == KEEP_ALIVE && r.payload == []))
  }

  /** Entry `j` of session `k` is an AUTHENTICATION the server received and accepts, sent from `port`. */
  predicate Accepts(s: Session, v: Server, k: nat, j: nat, port: nat) {
    && k < |Sessions(s)| && j < |Sessions(s)[k]| && IsAuthentication(Sessions(s)[k][j])
    && Sessions(s)[k][j].packet.payload == Expected(v)
    && PortOf(Sessions(s)[k]) == port && PacketBytes(Sessions(s)[k][j].packet) in v.received
  }

  ghost predicate Earned(s: Session, v: Server, port: nat) {
    exists k, j :: Accepts(s, v, k, j, port)
  }

  /** The server has answered an AUTHENTICATION from `port` with its empty keep-alive. */
  predicate Confirmed(v: Server, port: nat) {
    Reply(Port(port), KEEP_ALIVE, 0, []) in v.outbox
  }

  /** Every challenge accepted in a history carried the server's salt. */
  predicate Salted(h: seq<Entry>, v: Server) {
    forall j :: 0 <= j < |h| && h[j].Challenged? ==> h[j].salt == WireSalt(v.salt)
  }

  ghost predicate RepliesEarned(s: Session, v: Server) {
    forall i :: 0 <= i < |v.outbox| ==>
      GoodReply(v, v.outbox[i])
      && (v.outbox[i].kind == KEEP_ALIVE && v.outbox[i].to.Port? ==> Earned(s, v, v.outbox[i].to.port))
  }

  ghost predicate AllSalted(s: Session, v: Server) {
    forall k :: 0 <= k < |Sessions(s)| ==> Salted(Sessions(s)[k], v)
  }

  ghost predicate NetInv(n: Net) {
    && Inv(n.client) && RepliesEarned(n.client, n.server) && AllSalted(n.client, n.server)
    && (n.client.state == CONNECTED ==>
        Earned(n.client, n.server, PortOf(n.client.cur)) && Confirmed(n.server, PortOf(n.client.cur)))
  }

  // ----- Client steps -----

  /** The port of a session does not change once its socket is open. */
  lemma PortKept(h: seq<Entry>, g: seq<Entry>)
    requires WellOrdered(g) && h <= g && Summarize(h).bound
    ensures PortOf(h) == PortOf(g)
  {
    hide WellOrdered, Summarize, Allowed;
    assert g[..|h|] == h && g[..|g|] == g;
    Monotone(g, |h|, |g|);
  }

  /** Whatever was sent was sent from an open socket. */
  lemma SentBound(h: seq<Entry>, j: nat)
    requires WellOrdered(h) && j < |h| && h[j].Sent?
    ensures Summarize(h).bound
  {
    hide WellOrdered, Summarize, PacketAllowed;
    At(h, j);
    assert h[..|h|] == h;
    Monotone(h, j, |h|);
  }

  lemma SessionsOrdered(s: Session, k: nat)
    requires Inv(s) && k < |Sessions(s)|
    ensures WellOrdered(Sessions(s)[k])
  {
    hide WellOrdered, FieldsAgree, LoginAgrees, Summarize;
    assert k < |s.past| ==> Finished(s.past[k]);
  }

  lemma AcceptsKept(s: Session, t: Session, v: Server, k: nat, j: nat, port: nat)
    requires Grows(s, t) && Inv(s) && Inv(t) && Accepts(s, v, k, j, port)
    ensures Accepts(t, v, k, j, port)
  {
    hide WellOrdered, Summarize, Expected, PortOf, Inv, PacketBytes;
    SessionsOrdered(s, k);
    SessionsOrdered(t, k);
    SentBound(Sessions(s)[k], j);
    PortKept(Sessions(s)[k], Sessions(t)[k]);
  }

  lemma EarnedKept(s: Session, t: Session, v: Server, port: nat)
    requires Grows(s, t) && Inv(s) && Inv(t) && Earned(s, v, port)
    ensures Earned(t, v, port)
  {
    hide Accepts, Inv, Grows;
    var k, j :| Accepts(s, v, k, j, port);
    AcceptsKept(s, t, v, k, j, port);
  }

  lemma RepliesKept(s: Session, t: Session, v: Server)
    requires Grows(s, t) && Inv(s) && Inv(t) && RepliesEarned(s, v)
    ensures RepliesEarned(t, v)
  {
    hide Earned, Inv, Grows, GoodReply;
    forall i | 0 <= i < |v.outbox| && v.outbox[i].kind == KEEP_ALIVE && v.outbox[i].to.Port?
      ensures Earned(t, v, v.outbox[i].to.port)
    {
      EarnedKept(s, t, v, v.outbox[i].to.port);
    }
  }

  /** Nothing new about the login was recorded. */
  ghost predicate Unchallenged(s: Session, t: Session) {
    QuietGrowth(s.cur, t.cur)
  }

  predicate QuietGrowth(h: seq<Entry>, g: seq<Entry>) {
    h <= g && forall j :: |h| <= j < |g| ==> !g[j].Challenged?
  }

  lemma NoteQuiet(h: seq<Entry>, e: Entry)
    ensures !e.Challenged? ==> QuietGrowth(h, h + [e])
  {
  }

  lemma QuietTogether(h: seq<Entry>, g: seq<Entry>, f: seq<Entry>)
    requires QuietGrowth(h, g) && QuietGrowth(g, f)
    ensures QuietGrowth(h, f)
  {
  }

  lemma TransmitQuiet(s: Session, kind: bv16, flags: bv16, payload: seq<bv8>)
    ensures Unchallenged(s, TransmitRaw(s, kind, flags, payload))
    ensures TransmitRaw(s, kind, flags, payload).state == s.state
  {
    hide Numbered, Outgoing, QuietGrowth;
    NothingQuiet(s.cur);
    if s.socketOpen {
      var t := Numbered(s, kind, flags, payload);
      NumberedEntry(s, kind, flags, payload);
      NoteQuiet(s.cur, Sent(Outgoing(s, kind, flags, payload)));
      NoteQuiet(t.cur, OnError(SOCKET_IO));
      QuietTogether(s.cur, t.cur, t.cur + [OnError(SOCKET_IO)]);
    }
  }

  lemma NothingNew(s: Session)
    ensures Unchallenged(s, s)
  {
  }

  lemma NothingQuiet(h: seq<Entry>)
    ensures QuietGrowth(h, h)
  {
  }

  lemma DisconnectQuiet(s: Session)
    ensures Unchallenged(s, Disconnect(s)) && Disconnect(s).state == DISCONNECTED
  {
    hide TransmitRaw, QuietGrowth;
    NothingQuiet(s.cur);
    if s.state != DISCONNECTED {
      var t := TransmitRaw(s.(state := DISCONNECTED), CLOSE, NONE, []);
      TransmitQuiet(s.(state := DISCONNECTED), CLOSE, NONE, []);
      NoteQuiet(t.cur, OnDisconnected(t.lastError));
      QuietTogether(s.cur, t.cur, t.cur + [OnDisconnected(t.lastError)]);
    }
  }

  lemma FailQuiet(s: Session, error: ClientError)
    ensures Unchallenged(s, Fail(s, error)) && Fail(s, error).state == DISCONNECTED
  {
    hide Disconnect, QuietGrowth;
    DisconnectQuiet(Report(s, error));
    NoteQuiet(s.cur, OnError(error));
    QuietTogether(s.cur, s.cur + [OnError(error)], Fail(s, error).cur);
  }

  lemma ResolvedQuiet(s: Session, r: Resolution)
    ensures Unchallenged(s, Resolved(s, r)) && (Resolved(s, r).state == CONNECTED ==> s.state == CONNECTED)
  {
    hide Fail, TransmitRaw, VersionBytes, QuietGrowth;
    NothingQuiet(s.cur);
    FailQuiet(s, DNS_RESOLVE);
    FailQuiet(s, SOCKET_IO);
    if r.BindFails? || r.Bound? {
      var t := Note(s.(socketOpen := true), Opened(r.port));
      NoteQuiet(s.cur, Opened(r.port));
      FailQuiet(t, SOCKET_IO);
      var u := ReceiveLoopStarted(t);
      TransmitQuiet(u, KEEP_ALIVE, NONE, VersionBytes(Version(s.dmrId, OPEN_TERMINAL, s.description)));
      QuietTogether(s.cur, t.cur, Fail(t, SOCKET_IO).cur);
      QuietTogether(s.cur, t.cur, SendKeepAlive(u).cur);
    }
  }

  lemma StartVoiceQuiet(s: Session, source: bv32, destination: bv32, isGroup: bool)
    ensures var t := StartVoiceCall(s, source, destination, isGroup); Unchallenged(s, t) && t.state == s.state
  {
    hide TransmitRaw, VoiceHeaderBytes, QuietGrowth;
    NothingQuiet(s.cur);
    NoteQuiet(s.cur, CallBegan);
    var header := VoiceHeaderBytes(source, destination, isGroup);
    var t0 := CallStarted(s);
    TransmitQuiet(t0, VOICE_HEADER, REAL_TIME_1, header);
    var t1 := SendHeader(t0, header);
    TransmitQuiet(t1, VOICE_HEADER, REAL_TIME_1, header);
    var t2 := SendHeader(t1, header);
    TransmitQuiet(t2, VOICE_HEADER, REAL_TIME_1, header);
    QuietTogether(s.cur, t0.cur, t1.cur);
    QuietTogether(s.cur, t1.cur, t2.cur);
    QuietTogether(s.cur, t2.cur, SendHeader(t2, header).cur);
  }

  lemma SendRoutineQuiet(s: Session, kind: bv16, payload: seq<bv8>)
    ensures Unchallenged(s, SendRoutine(s, kind, payload)) && SendRoutine(s, kind, payload).state == s.state
  {
    hide TransmitRaw, QuietGrowth;
    NothingQuiet(s.cur);
    TransmitQuiet(s, kind, NONE, payload);
  }

  lemma VoicePacketQuiet(s: Session, ambe: seq<bv8>)
    ensures Unchallenged(s, SendAudioFrame(s, ambe)) && SendAudioFrame(s, ambe).state == s.state
    ensures Unchallenged(s, EndVoiceCall(s)) && EndVoiceCall(s).state == s.state
  {
    hide TransmitRaw, QuietGrowth;
    NothingQuiet(s.cur);
    TransmitQuiet(s, DMR_AUDIO_FRAME, REAL_TIME_1, ambe);
    TransmitQuiet(s, VOICE_TERMINATOR, REAL_TIME_1, []);
  }

  lemma TimerQuiet(s: Session, aborted: bool)
    ensures Unchallenged(s, TimeoutFired(s, aborted))
    ensures TimeoutFired(s, aborted).state == CONNECTED ==> s.state == CONNECTED
    ensures Unchallenged(s, KeepAliveFired(s, aborted)) && KeepAliveFired(s, aborted).state == s.state
  {
    hide TransmitRaw, Fail, VersionBytes, QuietGrowth;
    NothingQuiet(s.cur);
    FailQuiet(s.(timeoutArmed := false, startups := TimerStopped(s.startups)), RESPONSE_TIMEOUT);
    TransmitQuiet(s.(keepAliveArmed := false), KEEP_ALIVE, NONE,
                  VersionBytes(Version(s.dmrId, OPEN_TERMINAL, s.description)));
  }

  lemma ReceiveFailedQuiet(s: Session, aborted: bool)
    ensures Unchallenged(s, ReceiveFailed(s, aborted))
    ensures ReceiveFailed(s, aborted).state == CONNECTED ==> s.state == CONNECTED
  {
    hide Fail, QuietGrowth;
    NothingQuiet(s.cur);
    FailQuiet(s.(receiving := false), SOCKET_IO);
  }

  lemma RoutineStepQuiet(s: Session, e: Event)
    requires e.CallSubscribe? || e.CallUnsubscribe? || e.CallSendText? || e.CallSendLocation?
    ensures Unchallenged(s, Step(s, e)) && Step(s, e).state == s.state
  {
    hide SendRoutine, TextBytes, LocationBytes, SubscriptionBytes, Unchallenged;
    match e
    case CallSubscribe(talkgroup) =>
      SendRoutineQuiet(s, SUBSCRIPTION, SubscriptionBytes(Subscription(SESSION_TYPE_GROUP_VOICE, talkgroup)));
    case CallUnsubscribe(talkgroup) =>
      SendRoutineQuiet(s, CANCELLING, SubscriptionBytes(Subscription(SESSION_TYPE_GROUP_VOICE, talkgroup)));
    case CallSendText(destination, isGroup, text) =>
      SendRoutineQuiet(s, MESSAGE_TEXT, TextBytes(Text(s.dmrId, destination, isGroup, text)));
    case CallSendLocation(nmea) => SendRoutineQuiet(s, LOCATION_REPORT, LocationBytes(Location(0, nmea)));
  }

  lemma CallStepQuiet(s: Session, e: Event)
    requires e.CallConnectFails? || e.CallDisconnect? || e.CallStartVoice? || e.CallSendAudio? || e.CallEndVoice?
    ensures Unchallenged(s, Step(s, e)) && (Step(s, e).state == CONNECTED ==> s.state == CONNECTED)
  {
    hide StartupFailed, Disconnect, StartVoiceCall, SendAudioFrame, EndVoiceCall, Unchallenged;
    match e
    case CallConnectFails(password, timerSet) => StartupFailedQuiet(s, password, timerSet);
    case CallDisconnect => DisconnectQuiet(s);
    case CallStartVoice(source, callee, toGroup) => StartVoiceQuiet(s, source, callee, toGroup);
    case CallSendAudio(ambe) => VoicePacketQuiet(s, ambe);
    case CallEndVoice => VoicePacketQuiet(s, []);
  }

  lemma HandlerStepQuiet(s: Session, e: Event)
    requires e.ResolverDone? || e.TimeoutTimer? || e.KeepAliveTimer? || e.ReceiveError?
    ensures Unchallenged(s, Step(s, e)) && (Step(s, e).state == CONNECTED ==> s.state == CONNECTED)
  {
    hide Resolved, TimeoutFired, KeepAliveFired, ReceiveFailed, Unchallenged;
    NothingNew(s);
    match e
    case ResolverDone(r) => ResolvedQuiet(s, r);
    case TimeoutTimer(aborted) => TimerQuiet(s, aborted);
    case KeepAliveTimer(aborted) => TimerQuiet(s, aborted);
    case ReceiveError(aborted) => ReceiveFailedQuiet(s, aborted);
  }

  /** Only a datagram brings a challenge or a connection. */
  lemma StepQuiet(s: Session, e: Event)
    requires !e.Datagram? && !e.CallConnect?
    ensures Unchallenged(s, Step(s, e)) && (Step(s, e).state == CONNECTED ==> s.state == CONNECTED)
  {
    hide Step, Unchallenged;
    if e.CallSubscribe? || e.CallUnsubscribe? || e.CallSendText? || e.CallSendLocation? {
      RoutineStepQuiet(s, e);
    } else if e.ResolverDone? || e.TimeoutTimer? || e.KeepAliveTimer? || e.ReceiveError? {
      HandlerStepQuiet(s, e);
    } else {
      CallStepQuiet(s, e);
    }
  }

  lemma QuietSalted(s: Session, t: Session, v: Server)
    requires AllSalted(s, v) && t.past == s.past && Unchallenged(s, t)
    ensures AllSalted(t, v)
  {
    assert Salted(Sessions(s)[|s.past|], v);
    assert Salted(t.cur, v);
    forall k | 0 <= k < |Sessions(t)|
      ensures Salted(Sessions(t)[k], v)
    {
      assert Salted(Sessions(s)[k], v);
    }
  }

  lemma ConnectSalted(s: Session, password: seq<bv8>, v: Server)
    requires AllSalted(s, v)
    ensures AllSalted(Connect(s, password), v)
  {
    hide Salted;
    NothingSalted(password, v);
    var t := Connect(s, password);
    forall k | 0 <= k < |Sessions(t)|
      ensures Salted(Sessions(t)[k], v)
    {
      assert k < |Sessions(s)| ==> Salted(Sessions(s)[k], v);
    }
  }

  lemma StartupFailedQuiet(s: Session, password: seq<bv8>, timerSet: bool)
    ensures Unchallenged(s, StartupFailed(s, password, timerSet))
    ensures StartupFailed(s, password, timerSet).state == s.state
  {
    NothingQuiet(s.cur);
  }

  lemma NothingSalted(password: seq<bv8>, v: Server)
    ensures Salted([Began(password)], v)
  {
  }

  /** A step that leaves the earlier sessions alone and cannot connect keeps the network's invariant. */
  lemma ExtensionKeeps(n: Net, t: Session)
    requires NetInv(n) && Inv(t) && Grows(n.client, t) && Extends(n.client, t) && AllSalted(t, n.server)
    requires t.state == CONNECTED ==> n.client.state == CONNECTED
    ensures NetInv(n.(client := t))
  {
    hide RepliesEarned, AllSalted, Earned, Grows, WellOrdered, Summarize, PortOf;
    RepliesKept(n.client, t, n.server);
    if t.state == CONNECTED {
      EarnedKept(n.client, t, n.server, PortOf(n.client.cur));
      PortKept(n.client.cur, t.cur);
    }
  }

  lemma ClientStepKeeps(n: Net, e: Event)
    requires NetInv(n) && !e.Datagram?
    ensures NetInv(Moved(n, ClientStep(e)))
  {
    hide Inv, RepliesEarned, AllSalted, Earned, Grows, Unchallenged, PortOf, Step;
    var t := Step(n.client, e);
    StepKeeps(n.client, e);
    if e.CallConnect? {
      ConnectMoves(n, e);
    } else {
      StepQuiet(n.client, e);
      QuietSalted(n.client, t, n.server);
      ExtensionKeeps(n, t);
    }
  }

  lemma ConnectMoves(n: Net, e: Event)
    requires NetInv(n) && e.CallConnect?
    ensures NetInv(n.(client := Step(n.client, e)))
  {
    var password := e.password;
    hide Inv, RepliesEarned, AllSalted, Earned, Grows;
    ConnectKeeps(n.client, password);
    ConnectGrows(n.client, password);
    ConnectSalted(n.client, password, n.server);
    RepliesKept(n.client, Connect(n.client, password), n.server);
  }

  // ----- The client receives -----

  /** What the client reads from a reply of the server, if its buffer held enough of it. */
  lemma ReplyRead(r: Reply)
    ensures match ParseFrame(Received(ReplyBytes(r)))
      case None => true
      case Some(f) => f.header.kind == r.kind && f.payload == r.payload[..|r.payload| % TWO16]
  {
    hide Frame, ParseFrame, Low16;
    var b := ReplyBytes(r);
    FrameLength(r.kind, r.flags, 0, r.payload);
    if |Received(b)| < 18 + |r.payload| % TWO16 {
      CutFrameDropped(r.kind, r.flags, 0, r.payload, |Received(b)|);
    } else {
      CutFrameKept(r.kind, r.flags, 0, r.payload, |Received(b)|);
    }
    assert Received(b) == b[..|Received(b)|];
  }

  lemma FrameLength(kind: bv16, flags: bv16, number: bv32, payload: seq<bv8>)
    ensures |Frame(kind, flags, number, payload)| == 18 + |payload|
  {
    hide HeaderBytes;
  }

  /** The server's datagrams bring a challenge with its salt, or the confirmation, or nothing. */
  lemma ReplyTaken(s: Session, v: Server, r: Reply)
    requires GoodReply(v, r) && Inv(s) && s.receiving
    ensures var t := HandleReceive(s, ReplyBytes(r), true);
      || t == s || (t == Challenge(s, WireSalt(v.salt))) || (t == Confirm(s) && r.kind == KEEP_ALIVE)
  {
    hide Inv, HandleReceive, ReplyBytes, ParseFrame, Received, Challenge, Confirm, Deliver;
    ReceivingListens(s);
    ReceiveContinues(s, ReplyBytes(r), true);
    ReplyRead(r);
  }

  lemma ChallengeSalted(s: Session, v: Server)
    requires AllSalted(s, v)
    ensures AllSalted(Challenge(s, WireSalt(v.salt)), v)
    ensures Challenge(s, WireSalt(v.salt)).state == CONNECTED ==> s.state == CONNECTED
  {
    hide TransmitRaw, Fips.Hash, WireSalt, QuietGrowth, Salted;
    if s.state == CONNECTING {
      var t := Note(s.(state := AUTHENTICATING), Challenged(WireSalt(v.salt)));
      TransmitQuiet(t, AUTHENTICATION, NONE, Fips.Hash(WireSalt(v.salt) + s.password));
      NoteSalted(s, v);
      TransmitPast(t, AUTHENTICATION, NONE, Fips.Hash(WireSalt(v.salt) + s.password));
      QuietSalted(t, Challenge(s, WireSalt(v.salt)), v);
    }
  }

  lemma TransmitPast(s: Session, kind: bv16, flags: bv16, payload: seq<bv8>)
    ensures TransmitRaw(s, kind, flags, payload).past == s.past
  {
    hide TransmitRaw;
    TransmitSame(s, kind, flags, payload);
  }

  lemma NoteSalted(s: Session, v: Server)
    requires AllSalted(s, v)
    ensures AllSalted(Note(s.(state := AUTHENTICATING), Challenged(WireSalt(v.salt))), v)
  {
    hide WireSalt;
    var t := Note(s.(state := AUTHENTICATING), Challenged(WireSalt(v.salt)));
    assert Salted(Sessions(s)[|s.past|], v);
    assert Salted(t.cur, v);
    forall k | 0 <= k < |Sessions(t)|
      ensures Salted(Sessions(t)[k], v)
    {
      assert Salted(Sessions(s)[k], v);
    }
  }

  lemma ConfirmQuiet(s: Session)
    ensures Unchallenged(s, Confirm(s)) && Confirm(s).past == s.past
  {
  }

  /** The confirmation sent to this port is there because an AUTHENTICATION from it was accepted. */
  lemma ConfirmKeepsNet(n: Net, i: nat)
    requires NetInv(n) && i < |n.server.outbox| && n.client.socketOpen && Inv(Confirm(n.client))
    requires Grows(n.client, Confirm(n.client)) && Extends(n.client, Confirm(n.client))
    requires n.server.outbox[i].to == Port(PortOf(n.client.cur)) && n.server.outbox[i].kind == KEEP_ALIVE
    ensures NetInv(n.(client := Confirm(n.client)))
  {
    hide RepliesEarned, AllSalted, Earned, Grows, WellOrdered, Summarize, PortOf, Confirm, LoginAgrees;
    var t := Confirm(n.client);
    ConfirmQuiet(n.client);
    QuietSalted(n.client, t, n.server);
    RepliesKept(n.client, t, n.server);
    ReplyEarned(n, i);
    EarnedKept(n.client, t, n.server, PortOf(n.client.cur));
    PortKept(n.client.cur, t.cur);
    assert n.server.outbox[i] == Reply(Port(PortOf(n.client.cur)), KEEP_ALIVE, 0, []);
  }

  lemma ReplyEarned(n: Net, i: nat)
    requires RepliesEarned(n.client, n.server) && i < |n.server.outbox| && n.server.outbox[i].to.Port?
    ensures GoodReply(n.server, n.server.outbox[i])
    ensures n.server.outbox[i].kind == KEEP_ALIVE ==> Earned(n.client, n.server, n.server.outbox[i].to.port)
  {
    hide Earned, GoodReply;
  }

  lemma ChallengeKeepsNet(n: Net)
    requires NetInv(n) && n.client.socketOpen
    ensures NetInv(n.(client := Challenge(n.client, WireSalt(n.server.salt))))
  {
    hide RepliesEarned, AllSalted, Earned, Grows, InvButReceive, PortOf, Challenge, WireSalt;
    ChallengeKeeps(n.client, WireSalt(n.server.salt));
    ChallengeSalted(n.client, n.server);
    ExtendsGrows(n.client, Challenge(n.client, WireSalt(n.server.salt)));
    ExtensionKeeps(n, Challenge(n.client, WireSalt(n.server.salt)));
  }

  lemma ToClientKeeps(n: Net, i: nat)
    requires NetInv(n)
    ensures NetInv(Moved(n, ToClient(i)))
  {
    hide InvButReceive, Grows, AllSalted, ReplyBytes, PortOf, Earned, RepliesEarned, HandleReceive, Challenge, Confirm,
         WireSalt, Extends, GoodReply;
    if i < |n.server.outbox| && n.client.socketOpen && n.server.outbox[i].to == Port(PortOf(n.client.cur)) {
      ReplyEarned(n, i);
      ReplyTaken(n.client, n.server, n.server.outbox[i]);
      ChallengeKeepsNet(n);
      ConfirmKeeps(n.client);
      ExtendsGrows(n.client, Confirm(n.client));
      if n.server.outbox[i].kind == KEEP_ALIVE {
        ConfirmKeepsNet(n, i);
      }
    }
  }

  lemma StrayToClientKeeps(n: Net, bytes: seq<bv8>)
    requires NetInv(n)
    ensures NetInv(Moved(n, StrayToClient(bytes)))
  {
    hide InvButReceive, Earned, RepliesEarned, AllSalted, HandleReceive, ProcessPacket, PortOf;
    if n.client.receiving {
      ReceivingListens(n.client);
      ReceiveContinues(n.client, bytes, false);
    }
  }

  // ----- The server receives -----

  /** What one more reply may be. */
  ghost predicate Answers(v: Server, w: Server, from: Endpoint, accepted: bool) {
    && w.salt == v.salt && w.password == v.password && v.received <= w.received
    && (w.outbox == v.outbox
        || (w.outbox == v.outbox + [Reply(from, CHALLENGE, 0, v.salt)])
        || (w.outbox == v.outbox + [Reply(from, KEEP_ALIVE, 0, [])] && accepted))
  }

  /** Whether the server reads an AUTHENTICATION with the digest it expects. */
  predicate Authenticates(v: Server, pkt: seq<bv8>, beyond: nat -> bv8) {
    && ParseHeader(pkt).Some? && ParseHeader(pkt).value.kind == AUTHENTICATION
    && Span(pkt, Number16(ParseHeader(pkt).value.length), beyond) == Expected(v)
  }

  lemma ServerAnswers(v: Server, from: Endpoint, bytes: seq<bv8>, beyond: nat -> bv8)
    ensures Answers(v, Taken(v, from, bytes, beyond), from, v.listening && Authenticates(v, Filled(bytes), beyond))
    ensures Taken(v, from, bytes, beyond).salt == v.salt && Taken(v, from, bytes, beyond).password == v.password
    ensures v.listening && Filled(bytes) != [] ==> Filled(bytes) in Taken(v, from, bytes, beyond).received
  {
    hide ParseHeader, Span, ParseVersion, Fips.Hash, Number16, Filled;
  }

  /** Only the server's secrets matter to what it accepts and to the salt it sends. */
  lemma SameSecrets(s: Session, v: Server, w: Server)
    requires w.salt == v.salt && w.password == v.password && v.received <= w.received
    ensures AllSalted(s, v) ==> AllSalted(s, w)
    ensures forall port :: Earned(s, v, port) ==> Earned(s, w, port)
  {
    hide Fips.Hash, WireSalt, PortOf, PacketBytes;
    forall k, j, port | Accepts(s, v, k, j, port)
      ensures Accepts(s, w, k, j, port)
    {
    }
  }

  lemma RepliesAnswered(s: Session, v: Server, w: Server, from: Endpoint, accepted: bool)
    requires RepliesEarned(s, v) && Answers(v, w, from, accepted)
    requires from.Port? && accepted ==> Earned(s, w, from.port)
    ensures RepliesEarned(s, w)
  {
    hide Earned;
    SameSecrets(s, v, w);
    forall i | 0 <= i < |w.outbox|
      ensures GoodReply(w, w.outbox[i])
      ensures w.outbox[i].kind == KEEP_ALIVE && w.outbox[i].to.Port? ==> Earned(s, w, w.outbox[i].to.port)
    {
      if i < |v.outbox| {
        assert w.outbox[i] == v.outbox[i];
      }
    }
  }

  lemma AnswerKeeps(n: Net, w: Server, from: Endpoint, accepted: bool)
    requires NetInv(n) && Answers(n.server, w, from, accepted)
    requires from.Port? && accepted ==> Earned(n.client, w, from.port)
    ensures NetInv(n.(server := w))
  {
    hide Inv, PortOf, RepliesEarned, AllSalted, Earned;
    RepliesAnswered(n.client, n.server, w, from, accepted);
    SameSecrets(n.client, n.server, w);
  }

  /** Of all the packets a client sends only its 32-byte digest has the kind AUTHENTICATION. */
  lemma OnlyDigestAuthenticates(h: seq<Entry>, j: nat)
    requires WellOrdered(h) && j < |h| && h[j].Sent? && h[j].packet.kind == AUTHENTICATION
    ensures IsAuthentication(h[j]) && |h[j].packet.payload| == 32
  {
    hide WellOrdered, Summarize, IsRealTime;
    At(h, j);
  }

  /** What the server reads of a whole packet that fits its buffer. */
  lemma ServerReads(p: Packet, beyond: nat -> bv8)
    ensures var pkt := Filled(PacketBytes(p));
      && ParseHeader(pkt) == Some(Header(p.kind, p.flags, Low32(p.number), Low16(|p.payload|)))
      && pkt != [] && (|p.payload| <= 1006 ==> pkt == PacketBytes(p))
      && (|p.payload| <= 1006 ==> Span(pkt, Number16(Low16(|p.payload|)), beyond) == p.payload)
  {
    hide HeaderBytes, ParseHeader, Low16, Low32, Number16;
    var h := Header(p.kind, p.flags, Low32(p.number), Low16(|p.payload|));
    var pkt := Filled(PacketBytes(p));
    var rest := pkt[18..];
    assert pkt == HeaderBytes(h) + rest;
    HeaderFields(h, rest);
  }

  lemma ToServerKeeps(n: Net, k: nat, j: nat, beyond: nat -> bv8)
    requires NetInv(n)
    ensures NetInv(Moved(n, ToServer(k, j, beyond)))
  {
    hide Inv, PortOf, RepliesEarned, AllSalted, Earned, Taken, Answers, PacketBytes, Filled, Authenticates;
    var all: seq<seq<Entry>> := Sessions(n.client);
    if k < |all| && j < |all[k]| && all[k][j].Sent? {
      var p := all[k][j].packet;
      var v := n.server;
      var from := Port(PortOf(all[k]));
      ServerAnswers(v, from, PacketBytes(p), beyond);
      var w := Taken(v, from, PacketBytes(p), beyond);
      var accepted := v.listening && Authenticates(v, Filled(PacketBytes(p)), beyond);
      if accepted {
        ServerReads(p, beyond);
        AuthenticationEarned(n.client, v, w, k, j, beyond);
      }
      AnswerKeeps(n, w, from, accepted);
    }
  }

  lemma AuthenticationEarned(s: Session, v: Server, w: Server, k: nat, j: nat, beyond: nat -> bv8)
    requires Inv(s) && k < |Sessions(s)| && j < |Sessions(s)[k]| && Sessions(s)[k][j].Sent?
    requires Authenticates(v, Filled(PacketBytes(Sessions(s)[k][j].packet)), beyond)
    requires w.salt == v.salt && w.password == v.password
    requires Filled(PacketBytes(Sessions(s)[k][j].packet)) in w.received
    ensures Earned(s, w, PortOf(Sessions(s)[k]))
  {
    hide Inv, PortOf, PacketBytes, Filled, ParseHeader, Span, Fips.Hash, Number16, Low16, Low32, IsAuthentication,
         WellOrdered;
    SessionsOrdered(s, k);
    ServerReads(Sessions(s)[k][j].packet, beyond);
    OnlyDigestAuthenticates(Sessions(s)[k], j);
    assert Expected(w) == Expected(v);
    assert Accepts(s, w, k, j, PortOf(Sessions(s)[k]));
  }

  lemma StrayToServerKeeps(n: Net, id: nat, bytes: seq<bv8>, past: nat -> bv8)
    requires NetInv(n)
    ensures NetInv(Moved(n, StrayToServer(id, bytes, past)))
  {
    hide NetInv, Taken, Answers, Authenticates;
    ServerAnswers(n.server, Elsewhere(id), bytes, past);
    AnswerKeeps(n, Taken(n.server, Elsewhere(id), bytes, past), Elsewhere(id),
                n.server.listening && Authenticates(n.server, Filled(bytes), past));
  }

  // ----- Agreement -----

  lemma MoveKeeps(n: Net, m: Move)
    requires NetInv(n)
    ensures NetInv(Moved(n, m))
  {
    hide NetInv, Step, Taken, ReplyBytes, PacketBytes, PortOf;
    match m
    case ClientStep(e) =>
      if !e.Datagram? {
        ClientStepKeeps(n, e);
      }
    case ToServer(k, j, beyond) => ToServerKeeps(n, k, j, beyond);
    case ToClient(i) => ToClientKeeps(n, i);
    case StrayToServer(id, bytes, past) => StrayToServerKeeps(n, id, bytes, past);
    case StrayToClient(bytes) => StrayToClientKeeps(n, bytes);
  }

  lemma {:induction false} PlayKeepsOn(n: Net, moves: seq<Move>)
    requires NetInv(n)
    ensures NetInv(Play(n, moves))
    decreases |moves|
  {
    hide NetInv, Moved;
    if moves != [] {
      PlayKeepsOn(n, moves[..|moves| - 1]);
      MoveKeeps(Play(n, moves[..|moves| - 1]), moves[|moves| - 1]);
    }
  }

  lemma PlayKeeps(n: Net, moves: seq<Move>)
    requires Start(n)
    ensures NetInv(Play(n, moves))
  {
    hide NetInv, Play, Start;
    StartInv(n);
    PlayKeepsOn(n, moves);
  }

  lemma StartInv(n: Net)
    requires Start(n)
    ensures NetInv(n)
  {
  }

  lemma {:induction false} SecretsKept(n: Net, moves: seq<Move>)
    ensures Play(n, moves).server.salt == n.server.salt && Play(n, moves).server.password == n.server.password
    decreases |moves|
  {
    hide Step, ParseHeader, Span, ParseVersion, Fips.Hash, Filled, ReplyBytes, PacketBytes, PortOf, Sessions;
    if moves != [] {
      SecretsKept(n, moves[..|moves| - 1]);
    }
  }

  /** What the digest of an accepted AUTHENTICATION was made of. */
  lemma AcceptedDigest(s: Session, v: Server, k: nat, j: nat, port: nat)
    requires Inv(s) && AllSalted(s, v) && Accepts(s, v, k, j, port)
    ensures var h := Sessions(s)[k];
      h[0].Began? && Fips.Hash(WireSalt(v.salt) + h[0].password) == Fips.Hash(v.salt + v.password)
  {
    hide Inv, WellOrdered, Fips.Hash, PortOf, WireSalt, IsAuthentication, Summarize;
    SessionsOrdered(s, k);
    var h := Sessions(s)[k];
    assert Salted(h, v);
    AuthenticationAnswers(h, j);
  }

  /**
   Agreement, in every run and whatever the network does: a connected client has a session - begun with a password
   and bound to the port it uses now - whose AUTHENTICATION answered the server's salt, reached the server and
   carried the digest the server computes, so the digests of both passwords under the salt are equal; and the server
   did confirm an AUTHENTICATION to that port.
   */
  lemma Agreement(n: Net, moves: seq<Move>) returns (k: nat, j: nat)
    requires Start(n) && Play(n, moves).client.state == CONNECTED
    ensures var all := Sessions(Play(n, moves).client);
      && k < |all| && PortOf(all[k]) == PortOf(all[|all| - 1])
      && j < |all[k]| && IsAuthentication(all[k][j]) && all[k][j].packet.payload == Expected(n.server)
      && PacketBytes(all[k][j].packet) in Play(n, moves).server.received
      && Confirmed(Play(n, moves).server, PortOf(all[k])) && all[k][0].Began?
      && Fips.Hash(WireSalt(n.server.salt) + all[k][0].password) == Fips.Hash(n.server.salt + n.server.password)
  {
    hide Start, Play, Inv, Earned, RepliesEarned, AllSalted, PortOf, IsAuthentication, WireSalt, Fips.Hash;
    PlayKeeps(n, moves);
    SecretsKept(n, moves);
    var t := Play(n, moves);
    k, j := SomeAccepted(t.client, t.server, PortOf(t.client.cur));
    AcceptedDigest(t.client, t.server, k, j, PortOf(t.client.cur));
  }

  lemma SomeAccepted(s: Session, v: Server, port: nat) returns (k: nat, j: nat)
    requires Earned(s, v, port)
    ensures Accepts(s, v, k, j, port)
  {
    hide Accepts;
    k, j :| Accepts(s, v, k, j, port);
  }
}
