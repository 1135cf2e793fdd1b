/**
 The API thread and the I/O thread, taking turns between any two transmissions: every call and handler first tests the
 fields it depends on, then does its operations one by one, and the other thread may come in between.

 Not covered: more than one API thread, and a Connect before the worker of the last session is joined.
 */
module Threads {
  import opened Session
  import opened SessionProofs
  import opened Wire
  import Fips

  // ----- Operations -----

  datatype Op =
    | Send(kind: bv16, flags: bv16, payload: seq<bv8>)
    | SetState(state: State)
    | SetCall(on: bool)
    | ZeroRealTime
    | Tell(entry: Entry)
    | Err(error: ClientError)
    // Disconnect, which tests the state again.
    | HangUp
    | Shut
    | TellDisconnected
    | OpenSocket(port: nat)
    | StartLoop
    | ReceiveDone
    | StopTimeout
    | TimeoutDone
    | KeepAliveDone
    | ArmKeepAlive

  function Do(s: Session, op: Op): (r: Session) {
    match op
    case Send(kind, flags, payload) => TransmitRaw(s, kind, flags, payload)
    case SetState(state) => s.(state := state)
    case SetCall(on) => s.(inCall := on)
    case ZeroRealTime => Note(s.(realTimeSeq := 0), CallBegan)
    case Tell(e) => Note(s, e)
    case Err(error) => Report(s, error)
    case HangUp => s
    case Shut => Closed(s)
    case TellDisconnected => Note(s, OnDisconnected(s.lastError))
    case OpenSocket(port) => Note(s.(socketOpen := true), Opened(port))
    case StartLoop => ReceiveLoopStarted(s)
    case ReceiveDone => s.(receiving := false)
    case StopTimeout => s.(timeoutArmed := false)
    case TimeoutDone => s.(timeoutArmed := false, startups := TimerStopped(s.startups))
    case KeepAliveDone => s.(keepAliveArmed := false)
    case ArmKeepAlive => if s.state == CONNECTED then s.(keepAliveArmed := true) else s
  }

  const HANGING_UP: seq<Op> := [SetState(DISCONNECTED), Send(CLOSE, NONE, []), Shut, TellDisconnected]

  /** What an operation adds to those still to do. */
  function More(s: Session, op: Op): (r: seq<Op>) {
    if op == HangUp && s.state != DISCONNECTED then HANGING_UP else []
  }

  function RoutineOps(s: Session, kind: bv16, payload: seq<bv8>): (r: seq<Op>) {
    if s.state != CONNECTED then [] else [Send(kind, NONE, payload)]
  }

  function HelloOp(s: Session): (r: Op) {
    Send(KEEP_ALIVE, NONE, VersionBytes(Version(s.dmrId, OPEN_TERMINAL, s.description)))
  }

  function ResolvedOps(s: Session, r: Resolution): (ops: seq<Op>) {
    if s.state != CONNECTING then []
    else if r == NoEndpoint then [Err(DNS_RESOLVE), HangUp]
    else if s.socketOpen || r == OpenFails then [Err(SOCKET_IO), HangUp]
    else if r.BindFails? then [OpenSocket(r.port), Err(SOCKET_IO), HangUp]
    else [OpenSocket(r.port), StartLoop, HelloOp(s)]
  }

  function PacketOps(s: Session, packet: seq<bv8>): (r: seq<Op>) {
    match ParseFrame(packet)
    case None => []
    case Some(f) =>
      if f.header.kind == CHALLENGE then ChallengeOps(s, f.payload)
      else if f.header.kind == KEEP_ALIVE then (if f.payload == [] then ConfirmOps(s) else [])
      else
        match Callback(f.header, f.payload)
        case None => []
        case Some(e) => [Tell(e)]
  }

  function ChallengeOps(s: Session, salt: seq<bv8>): (r: seq<Op>) {
    if s.state != CONNECTING then []
    else [SetState(AUTHENTICATING), Tell(Challenged(salt)), Send(AUTHENTICATION, NONE, Fips.Hash(salt + s.password))]
  }

  function ConfirmOps(s: Session): (r: seq<Op>) {
    if s.state != AUTHENTICATING then []
    else [SetState(CONNECTED), StopTimeout, ArmKeepAlive, Tell(OnConnected)]
  }

  function DatagramOps(s: Session, bytes: seq<bv8>, fromServer: bool): (r: seq<Op>) {
    if s.state == DISCONNECTED then [ReceiveDone]
    else (if bytes == [] || !fromServer then [] else PacketOps(s, Received(bytes))) + [ReceiveDone, StartLoop]
  }

  predicate IsCall(e: Event) {
    e.CallDisconnect? || e.CallSubscribe? || e.CallUnsubscribe? || e.CallSendText? || e.CallSendLocation?
    || e.CallStartVoice? || e.CallSendAudio? || e.CallEndVoice?
  }

  predicate IsHandler(e: Event) {
    e.ResolverDone? || e.TimeoutTimer? || e.KeepAliveTimer? || e.ReceiveError? || e.Datagram?
  }

  /** The operations of a call that tests the state now. */
  function CallOps(s: Session, e: Event): (r: seq<Op>)
    requires IsCall(e)
  {
    match e
    case CallDisconnect => [HangUp]
    case CallSubscribe(talkgroup) =>
      RoutineOps(s, SUBSCRIPTION, SubscriptionBytes(Subscription(SESSION_TYPE_GROUP_VOICE, talkgroup)))
    case CallUnsubscribe(talkgroup) =>
      RoutineOps(s, CANCELLING, SubscriptionBytes(Subscription(SESSION_TYPE_GROUP_VOICE, talkgroup)))
    case CallSendText(destination, isGroup, text) =>
      RoutineOps(s, MESSAGE_TEXT, TextBytes(Text(s.dmrId, destination, isGroup, text)))
    case CallSendLocation(nmea) => RoutineOps(s, LOCATION_REPORT, LocationBytes(Location(0, nmea)))
    case CallStartVoice(source, callee, toGroup) => StartOps(s, VoiceHeaderBytes(source, callee, toGroup))
    case CallSendAudio(ambe) =>
      if s.state != CONNECTED || !s.inCall then [] else [Send(DMR_AUDIO_FRAME, REAL_TIME_1, ambe)]
    case CallEndVoice =>
      if s.state != CONNECTED || !s.inCall then [] else [Send(VOICE_TERMINATOR, REAL_TIME_1, []), SetCall(false)]
  }

  function StartOps(s: Session, header: seq<bv8>): (r: seq<Op>) {
    if s.state != CONNECTED then []
    else
      var m := Send(VOICE_HEADER, REAL_TIME_1, header);
      [SetCall(true), ZeroRealTime, m, m, m]
  }

  /** The operations of a handler that tests the state now. */
  function HandlerOps(s: Session, e: Event): (r: seq<Op>)
    requires IsHandler(e)
  {
    match e
    case ResolverDone(r) => ResolvedOps(s, r)
    case TimeoutTimer(aborted) =>
      if aborted then []
      else if s.state != CONNECTING && s.state != AUTHENTICATING then [TimeoutDone]
      else [TimeoutDone, Err(RESPONSE_TIMEOUT), HangUp]
    case KeepAliveTimer(aborted) =>
      if aborted then []
      else if s.state != CONNECTED then [KeepAliveDone]
      else [KeepAliveDone, HelloOp(s), ArmKeepAlive]
    case ReceiveError(aborted) =>
      if aborted == s.receiving then []
      else if s.state == DISCONNECTED || aborted then [ReceiveDone]
      else [ReceiveDone, Err(SOCKET_IO), HangUp]
    case Datagram(bytes, fromServer) => if s.receiving then DatagramOps(s, bytes, fromServer) else []
  }

  // ----- Undisturbed, they do what the atomic step does -----

  function Weight(ops: seq<Op>): (n: nat) {
    if ops == [] then 0 else (if ops[0] == HangUp then 5 else 1) + Weight(ops[1..])
  }

  lemma WeightFour(a: Op, b: Op, c: Op, d: Op, ops: seq<Op>)
    requires a != HangUp && b != HangUp && c != HangUp && d != HangUp
    ensures Weight([a, b, c, d] + ops) == 4 + Weight(ops)
  {
    hide Weight;
    WeightOne(d, ops);
    WeightOne(c, [d] + ops);
    WeightOne(b, [c] + ([d] + ops));
    WeightOne(a, [b] + ([c] + ([d] + ops)));
    assert [a, b, c, d] + ops == [a] + ([b] + ([c] + ([d] + ops)));
  }

  lemma WeightHangingUp(ops: seq<Op>)
    ensures Weight(HANGING_UP + ops) == 4 + Weight(ops)
  {
    hide Weight;
    WeightFour(SetState(DISCONNECTED), Send(CLOSE, NONE, []), Shut, TellDisconnected, ops);
  }

  lemma WeightOne(op: Op, ops: seq<Op>)
    ensures Weight([op] + ops) == (if op == HangUp then 5 else 1) + Weight(ops)
  {
    assert ([op] + ops)[1..] == ops;
  }

  lemma WeightFalls(s: Session, ops: seq<Op>)
    requires ops != []
    ensures Weight(More(s, ops[0]) + ops[1..]) < Weight(ops)
  {
    hide Weight;
    assert ops == [ops[0]] + ops[1..];
    WeightOne(ops[0], ops[1..]);
    WeightHangingUp(ops[1..]);
    assert [] + ops[1..] == ops[1..];
  }

  /** One thread alone. */
  function Alone(s: Session, ops: seq<Op>): (r: Session)
    decreases Weight(ops)
  {
    if ops == [] then s
    else
      WeightFalls(s, ops);
      Alone(Do(s, ops[0]), More(s, ops[0]) + ops[1..])
  }

  lemma AloneOne(s: Session, op: Op, ops: seq<Op>)
    requires op != HangUp
    ensures Alone(s, [op] + ops) == Alone(Do(s, op), ops)
  {
    hide Do;
    assert ([op] + ops)[1..] == ops && [] + ops == ops;
  }

  lemma AloneNone(s: Session)
    ensures Alone(s, []) == s
  {
  }

  lemma AloneHangsUp(s: Session)
    ensures Alone(s, [HangUp]) == Disconnect(s)
  {
    hide TransmitRaw;
    assert [HangUp][1..] == [];
    if s.state == DISCONNECTED {
      assert Alone(s, [HangUp]) == Alone(s, [] + []);
    } else {
      var a := s.(state := DISCONNECTED);
      var b := TransmitRaw(a, CLOSE, NONE, []);
      assert HANGING_UP + []
          == [SetState(DISCONNECTED)] + ([Send(CLOSE, NONE, [])] + ([Shut] + ([TellDisconnected] + [])));
      AloneHangingUp(s, a, b);
    }
  }

  lemma HangingUpDone(s: Session, a: Session, b: Session)
    requires a == s.(state := DISCONNECTED) && b == TransmitRaw(a, CLOSE, NONE, [])
    ensures Do(s, SetState(DISCONNECTED)) == a && Do(a, Send(CLOSE, NONE, [])) == b && Do(b, Shut) == Closed(b)
    ensures Do(Closed(b), TellDisconnected) == Note(Closed(b), OnDisconnected(b.lastError))
  {
    hide TransmitRaw;
  }

  lemma AloneHangingUp(s: Session, a: Session, b: Session)
    requires a == s.(state := DISCONNECTED) && b == TransmitRaw(a, CLOSE, NONE, [])
    ensures Alone(s, [SetState(DISCONNECTED)] + ([Send(CLOSE, NONE, [])] + ([Shut] + ([TellDisconnected] + []))))
         == Note(Closed(b), OnDisconnected(b.lastError))
  {
    hide TransmitRaw, Alone, Do, Closed, Note;
    HangingUpDone(s, a, b);
    AloneOne(s, SetState(DISCONNECTED), [Send(CLOSE, NONE, [])] + ([Shut] + ([TellDisconnected] + [])));
    AloneOne(a, Send(CLOSE, NONE, []), [Shut] + ([TellDisconnected] + []));
    AloneOne(b, Shut, [TellDisconnected] + []);
    AloneOne(Closed(b), TellDisconnected, []);
    AloneNone(Note(Closed(b), OnDisconnected(b.lastError)));
  }

  lemma AloneTwo(s: Session, a: Op, b: Op)
    requires a != HangUp
    ensures Alone(s, [a, b]) == Alone(Do(s, a), [b])
    ensures b != HangUp ==> Alone(s, [a, b]) == Do(Do(s, a), b)
  {
    hide Do, Alone;
    AloneOne(s, a, [b]);
    if b != HangUp {
      AloneOne(Do(s, a), b, []);
      AloneNone(Do(Do(s, a), b));
      assert [b] + [] == [b];
    }
    assert [a] + [b] == [a, b];
  }

  lemma AloneThree(s: Session, a: Op, b: Op, c: Op)
    requires a != HangUp && b != HangUp
    ensures Alone(s, [a, b, c]) == Alone(Do(Do(s, a), b), [c])
    ensures c != HangUp ==> Alone(s, [a, b, c]) == Do(Do(Do(s, a), b), c)
  {
    hide Do, Alone;
    AloneOne(s, a, [b, c]);
    AloneTwo(Do(s, a), b, c);
    assert [a] + [b, c] == [a, b, c];
  }

  lemma AloneJust(s: Session, a: Op)
    requires a != HangUp
    ensures Alone(s, [a]) == Do(s, a)
  {
    hide Do, Alone;
    AloneOne(s, a, []);
    AloneNone(Do(s, a));
    assert [a] + [] == [a];
  }

  lemma {:induction false} AloneSplit(s: Session, a: seq<Op>, b: seq<Op>)
    ensures Alone(s, a + b) == Alone(Alone(s, a), b)
    decreases Weight(a)
  {
    hide Do, More, Weight;
    if a == [] {
      assert a + b == b;
      AloneNone(s);
    } else {
      WeightFalls(s, a);
      AloneSplit(Do(s, a[0]), More(s, a[0]) + a[1..], b);
      assert (a + b)[0] == a[0] && (a + b)[1..] == a[1..] + b;
      assert More(s, a[0]) + (a[1..] + b) == More(s, a[0]) + a[1..] + b;
    }
  }

  lemma AloneFails(s: Session, error: ClientError)
    ensures Alone(s, [Err(error), HangUp]) == Fail(s, error)
  {
    hide Disconnect, Alone;
    AloneTwo(s, Err(error), HangUp);
    AloneHangsUp(Report(s, error));
  }

  lemma AloneThenFails(s: Session, op: Op, error: ClientError)
    requires op != HangUp
    ensures Alone(s, [op, Err(error), HangUp]) == Fail(Do(s, op), error)
  {
    hide Fail, Do, Alone;
    AloneOne(s, op, [Err(error), HangUp]);
    AloneFails(Do(s, op), error);
    assert [op] + [Err(error), HangUp] == [op, Err(error), HangUp];
  }

  lemma SocketOpened(s: Session, port: nat)
    ensures Do(Do(Do(s, OpenSocket(port)), StartLoop), HelloOp(s))
         == SendKeepAlive(ReceiveLoopStarted(Note(s.(socketOpen := true), Opened(port))))
  {
    hide TransmitRaw, VersionBytes;
  }

  lemma OpenedAlone(s: Session, port: nat)
    ensures Alone(s, [OpenSocket(port), StartLoop, HelloOp(s)])
         == SendKeepAlive(ReceiveLoopStarted(Note(s.(socketOpen := true), Opened(port))))
  {
    hide Alone, Do, SendKeepAlive;
    SocketOpened(s, port);
    HelloIsSend(s);
    AloneThree(s, OpenSocket(port), StartLoop, HelloOp(s));
  }

  lemma HelloIsSend(s: Session)
    ensures HelloOp(s) != HangUp
  {
    hide VersionBytes;
  }

  lemma ResolvedAlone(s: Session, r: Resolution)
    ensures Alone(s, ResolvedOps(s, r)) == Resolved(s, r)
  {
    hide SendKeepAlive, HelloOp, Fail, Alone;
    AloneNone(s);
    if s.state == CONNECTING {
      if r == NoEndpoint {
        AloneFails(s, DNS_RESOLVE);
      } else if s.socketOpen || r == OpenFails {
        AloneFails(s, SOCKET_IO);
      } else if r.BindFails? {
        AloneThenFails(s, OpenSocket(r.port), SOCKET_IO);
      } else {
        OpenedAlone(s, r.port);
      }
    }
  }

  lemma TimeoutAlone(s: Session, aborted: bool)
    ensures Alone(s, HandlerOps(s, TimeoutTimer(aborted))) == TimeoutFired(s, aborted)
  {
    hide Fail, Alone;
    AloneNone(s);
    AloneJust(s, TimeoutDone);
    AloneThenFails(s, TimeoutDone, RESPONSE_TIMEOUT);
  }

  lemma KeepAliveSends(s: Session)
    requires s.state == CONNECTED
    ensures Do(Do(Do(s, KeepAliveDone), HelloOp(s)), ArmKeepAlive) == KeepAliveFired(s, false)
  {
    hide TransmitRaw, VersionBytes;
    TransmitSame(s.(keepAliveArmed := false), KEEP_ALIVE, NONE, HelloOp(s).payload);
  }

  lemma KeepAliveAlone(s: Session, aborted: bool)
    ensures Alone(s, HandlerOps(s, KeepAliveTimer(aborted))) == KeepAliveFired(s, aborted)
  {
    hide TransmitRaw, VersionBytes, Alone;
    AloneNone(s);
    if s.state == CONNECTED {
      hide Do, KeepAliveFired;
      KeepAliveSends(s);
      AloneThree(s, KeepAliveDone, HelloOp(s), ArmKeepAlive);
      AbortedKeepAlive(s);
    } else {
      AloneJust(s, KeepAliveDone);
    }
  }

  lemma AbortedKeepAlive(s: Session)
    ensures KeepAliveFired(s, true) == s
  {
  }

  lemma ReceiveErrorAlone(s: Session, aborted: bool)
    ensures Alone(s, HandlerOps(s, ReceiveError(aborted))) == Step(s, ReceiveError(aborted))
  {
    hide Fail, Alone;
    AloneNone(s);
    AloneJust(s, ReceiveDone);
    AloneThenFails(s, ReceiveDone, SOCKET_IO);
  }

  lemma ChallengeAlone(s: Session, salt: seq<bv8>)
    ensures Alone(s, ChallengeOps(s, salt)) == Challenge(s, salt)
  {
    hide TransmitRaw, Fips.Hash, Alone;
    AloneNone(s);
    AloneThree(s, SetState(AUTHENTICATING), Tell(Challenged(salt)),
               Send(AUTHENTICATION, NONE, Fips.Hash(salt + s.password)));
  }

  lemma ConfirmDone(s: Session)
    requires s.state == AUTHENTICATING
    ensures Do(Do(Do(Do(s, SetState(CONNECTED)), StopTimeout), ArmKeepAlive), Tell(OnConnected)) == Confirm(s)
  {
  }

  lemma ConfirmAlone(s: Session)
    ensures Alone(s, ConfirmOps(s)) == Confirm(s)
  {
    hide Alone;
    AloneNone(s);
    if s.state == AUTHENTICATING {
      hide Do, Confirm;
      ConfirmDone(s);
      AloneOne(s, SetState(CONNECTED), [StopTimeout, ArmKeepAlive, Tell(OnConnected)]);
      assert [SetState(CONNECTED)] + [StopTimeout, ArmKeepAlive, Tell(OnConnected)]
          == [SetState(CONNECTED), StopTimeout, ArmKeepAlive, Tell(OnConnected)];
      AloneThree(Do(s, SetState(CONNECTED)), StopTimeout, ArmKeepAlive, Tell(OnConnected));
    }
  }

  lemma PacketAlone(s: Session, packet: seq<bv8>)
    ensures Alone(s, PacketOps(s, packet)) == ProcessPacket(s, packet)
  {
    hide Alone, ChallengeOps, ConfirmOps, Challenge, Confirm, ParseFrame, Callback;
    AloneNone(s);
    if ParseFrame(packet).Some? {
      var f := ParseFrame(packet).value;
      ChallengeAlone(s, f.payload);
      ConfirmAlone(s);
      if Callback(f.header, f.payload).Some? {
        AloneJust(s, Tell(Callback(f.header, f.payload).value));
      }
    }
  }

  lemma DatagramAlone(s: Session, bytes: seq<bv8>, fromServer: bool)
    ensures Alone(s, DatagramOps(s, bytes, fromServer)) == HandleReceive(s, bytes, fromServer)
  {
    hide Alone, PacketOps, ProcessPacket, Received;
    AloneNone(s);
    AloneJust(s, ReceiveDone);
    PacketAlone(s, Received(bytes));
    var ops := if bytes == [] || !fromServer then [] else PacketOps(s, Received(bytes));
    AloneSplit(s, ops, [ReceiveDone, StartLoop]);
    AloneTwo(Alone(s, ops), ReceiveDone, StartLoop);
  }

  /** A handler that is not disturbed. */
  lemma HandlerAlone(s: Session, e: Event)
    requires IsHandler(e)
    ensures Alone(s, HandlerOps(s, e)) == Step(s, e)
  {
    hide Alone, ResolvedOps, DatagramOps, HandleReceive, Resolved, TimeoutFired, KeepAliveFired;
    AloneNone(s);
    match e
    case ResolverDone(r) => ResolvedAlone(s, r);
    case TimeoutTimer(aborted) => TimeoutAlone(s, aborted);
    case KeepAliveTimer(aborted) => KeepAliveAlone(s, aborted);
    case ReceiveError(aborted) => ReceiveErrorAlone(s, aborted);
    case Datagram(bytes, fromServer) => DatagramAlone(s, bytes, fromServer);
  }

  lemma RoutineAlone(s: Session, kind: bv16, payload: seq<bv8>)
    ensures Alone(s, RoutineOps(s, kind, payload)) == SendRoutine(s, kind, payload)
  {
    hide Alone, TransmitRaw;
    AloneNone(s);
    AloneJust(s, Send(kind, NONE, payload));
  }

  lemma StartAlone(s: Session, source: bv32, destination: bv32, isGroup: bool)
    ensures Alone(s, StartOps(s, VoiceHeaderBytes(source, destination, isGroup)))
         == StartVoiceCall(s, source, destination, isGroup)
  {
    hide Alone, TransmitRaw, VoiceHeaderBytes;
    AloneNone(s);
    var m := Send(VOICE_HEADER, REAL_TIME_1, VoiceHeaderBytes(source, destination, isGroup));
    AloneTwo(s, SetCall(true), ZeroRealTime);
    AloneThree(CallStarted(s), m, m, m);
    AloneSplit(s, [SetCall(true), ZeroRealTime], [m, m, m]);
    assert [SetCall(true), ZeroRealTime] + [m, m, m] == [SetCall(true), ZeroRealTime, m, m, m];
  }

  lemma VoicePacketAlone(s: Session, e: Event)
    requires e.CallSendAudio? || e.CallEndVoice?
    ensures Alone(s, CallOps(s, e)) == Step(s, e)
  {
    hide Alone, TransmitRaw;
    AloneNone(s);
    if e.CallSendAudio? {
      AloneJust(s, Send(DMR_AUDIO_FRAME, REAL_TIME_1, e.ambe));
    } else {
      AloneTwo(s, Send(VOICE_TERMINATOR, REAL_TIME_1, []), SetCall(false));
    }
  }

  predicate IsRoutineCall(e: Event) {
    e.CallSubscribe? || e.CallUnsubscribe? || e.CallSendText? || e.CallSendLocation?
  }

  lemma RoutineCallAlone(s: Session, e: Event)
    requires IsRoutineCall(e)
    ensures Alone(s, CallOps(s, e)) == Step(s, e)
  {
    hide Alone, RoutineOps, SendRoutine, SubscriptionBytes, TextBytes, LocationBytes;
    match e
    case CallSubscribe(talkgroup) =>
      RoutineAlone(s, SUBSCRIPTION, SubscriptionBytes(Subscription(SESSION_TYPE_GROUP_VOICE, talkgroup)));
    case CallUnsubscribe(talkgroup) =>
      RoutineAlone(s, CANCELLING, SubscriptionBytes(Subscription(SESSION_TYPE_GROUP_VOICE, talkgroup)));
    case CallSendText(destination, isGroup, text) =>
      RoutineAlone(s, MESSAGE_TEXT, TextBytes(Text(s.dmrId, destination, isGroup, text)));
    case CallSendLocation(nmea) => RoutineAlone(s, LOCATION_REPORT, LocationBytes(Location(0, nmea)));
  }

  /** A call that is not disturbed. */
  lemma CallAlone(s: Session, e: Event)
    requires IsCall(e)
    ensures Alone(s, CallOps(s, e)) == Step(s, e)
  {
    hide Alone, CallOps, Step;
    if e.CallDisconnect? {
      DisconnectAlone(s, e);
    } else if e.CallStartVoice? {
      StartCallAlone(s, e);
    } else if IsRoutineCall(e) {
      RoutineCallAlone(s, e);
    } else {
      VoicePacketAlone(s, e);
    }
  }

  lemma StartCallAlone(s: Session, e: Event)
    requires e.CallStartVoice?
    ensures Alone(s, CallOps(s, e)) == Step(s, e)
  {
    hide Alone, StartOps, StartVoiceCall, VoiceHeaderBytes;
    StartAlone(s, e.source, e.callee, e.toGroup);
  }

  lemma DisconnectAlone(s: Session, e: Event)
    requires e.CallDisconnect?
    ensures Alone(s, CallOps(s, e)) == Step(s, e)
  {
    hide Alone, Disconnect;
    AloneHangsUp(s);
  }

  // ----- Taking turns -----

  /** The client and what each thread has still to do of what it is doing. */
  datatype Threads = Threads(s: Session, api: seq<Op>, io: seq<Op>)

  datatype Turn =
    | ApiConnects(password: seq<bv8>)
    | ApiCalls(call: Event)
    | ApiGoesOn
    | IoHandles(event: Event)
    | IoGoesOn

  function Turned(t: Threads, turn: Turn): (r: Threads) {
    match turn
    case ApiConnects(password) => if t.api == [] && t.io == [] then t.(s := Connect(t.s, password)) else t
    case ApiCalls(e) => if t.api == [] && IsCall(e) then t.(api := CallOps(t.s, e)) else t
    case ApiGoesOn =>
      if t.api == [] then t else t.(s := Do(t.s, t.api[0]), api := More(t.s, t.api[0]) + t.api[1..])
    case IoHandles(e) => if t.io == [] && IsHandler(e) then t.(io := HandlerOps(t.s, e)) else t
    case IoGoesOn =>
      if t.io == [] then t else t.(s := Do(t.s, t.io[0]), io := More(t.s, t.io[0]) + t.io[1..])
  }

  function Scheduled(t: Threads, turns: seq<Turn>): (r: Threads) {
    if turns == [] then t else Turned(Scheduled(t, turns[..|turns| - 1]), turns[|turns| - 1])
  }

  /** A new client and two idle threads. */
  ghost predicate AtRest(t: Threads) {
    Initial(t.s) && t.api == [] && t.io == []
  }

  // ----- Every atomic run is a schedule -----

  lemma {:induction false} ScheduledSplit(t: Threads, a: seq<Turn>, b: seq<Turn>)
    ensures Scheduled(t, a + b) == Scheduled(Scheduled(t, a), b)
    decreases |b|
  {
    hide Turned;
    if b == [] {
      assert a + b == a;
    } else {
      ScheduledSplit(t, a, b[..|b| - 1]);
      assert (a + b)[..|a + b| - 1] == a + b[..|b| - 1];
    }
  }

  lemma ScheduledOne(t: Threads, turn: Turn)
    ensures Scheduled(t, [turn]) == Turned(t, turn) && Scheduled(t, []) == t
  {
    hide Turned;
    assert [turn][..0] == [];
  }

  /** A thread that is left alone finishes what it is doing. */
  lemma {:induction false} ApiFinishes(t: Threads) returns (turns: seq<Turn>)
    ensures Scheduled(t, turns) == Threads(Alone(t.s, t.api), [], t.io)
    ensures forall i :: 0 <= i < |turns| ==> turns[i] == ApiGoesOn
    decreases Weight(t.api)
  {
    hide Do, More, Weight;
    turns := [];
    if t.api != [] {
      WeightFalls(t.s, t.api);
      turns := ApiFinishes(Turned(t, ApiGoesOn));
      ScheduledOne(t, ApiGoesOn);
      ScheduledSplit(t, [ApiGoesOn], turns);
      turns := [ApiGoesOn] + turns;
    }
  }

  lemma {:induction false} IoFinishes(t: Threads) returns (turns: seq<Turn>)
    ensures Scheduled(t, turns) == Threads(Alone(t.s, t.io), t.api, [])
    ensures forall i :: 0 <= i < |turns| ==> turns[i] == IoGoesOn
    decreases Weight(t.io)
  {
    hide Do, More, Weight;
    turns := [];
    if t.io != [] {
      WeightFalls(t.s, t.io);
      turns := IoFinishes(Turned(t, IoGoesOn));
      ScheduledOne(t, IoGoesOn);
      ScheduledSplit(t, [IoGoesOn], turns);
      turns := [IoGoesOn] + turns;
    }
  }

  /** One event, undisturbed. */
  lemma StepScheduled(t: Threads, e: Event) returns (turns: seq<Turn>)
    requires t.api == [] && t.io == [] && !e.CallConnectFails?
    ensures Scheduled(t, turns) == Threads(Step(t.s, e), [], [])
  {
    hide CallOps, HandlerOps, Alone, Step, Connect;
    if e.CallConnect? {
      turns := [ApiConnects(e.password)];
      ScheduledOne(t, ApiConnects(e.password));
      ConnectIsStep(t.s, e);
    } else if IsCall(e) {
      CallAlone(t.s, e);
      turns := ApiFinishes(Turned(t, ApiCalls(e)));
      ScheduledOne(t, ApiCalls(e));
      ScheduledSplit(t, [ApiCalls(e)], turns);
      turns := [ApiCalls(e)] + turns;
    } else {
      HandlerAlone(t.s, e);
      turns := IoFinishes(Turned(t, IoHandles(e)));
      ScheduledOne(t, IoHandles(e));
      ScheduledSplit(t, [IoHandles(e)], turns);
      turns := [IoHandles(e)] + turns;
    }
  }

  lemma ConnectIsStep(s: Session, e: Event)
    requires e.CallConnect?
    ensures Step(s, e) == Connect(s, e.password)
  {
  }

  /** So is every run of atomic steps, but for exceptions in Connect. */
  lemma {:induction false} RunScheduled(t: Threads, events: seq<Event>) returns (turns: seq<Turn>)
    requires t.api == [] && t.io == [] && forall i :: 0 <= i < |events| ==> !events[i].CallConnectFails?
    ensures Scheduled(t, turns) == Threads(Run(t.s, events), [], [])
    decreases |events|
  {
    hide Scheduled, Step;
    turns := [];
    if events == [] {
      ScheduledOne(t, ApiGoesOn);
    } else {
      var init := events[..|events| - 1];
      var first := RunScheduled(t, init);
      var last := StepScheduled(Threads(Run(t.s, init), [], []), events[|events| - 1]);
      ScheduledSplit(t, first, last);
      turns := first + last;
    }
  }
}
