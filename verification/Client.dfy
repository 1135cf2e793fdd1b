/**
 The client object (src/Client.cpp, include/opendtp/Client.hpp:262-311). Each method is one call or one handler and
 is proved to do to the object what the function of the same name in module Session does to its value.

 `wire` is what the current session's socket was given to send; `sendFails` is the outcome of every send. The
 histories are ghost.
 */
module Client {
  import opened Bits
  import opened Endian
  import opened Wire
  import Fips
  import Hashing = Sha256
  import S = Session

  class Client {
    const host: Host
    const sendFails: nat -> bool
    const dmrId: bv32
    const description: seq<bv8>
    var password: seq<bv8>
    var state: S.State
    var lastError: S.ClientError
    var routineSeq: nat
    var realTimeSeq: nat
    var inCall: bool
    var socketOpen: bool
    var receiving: bool
    var timeoutArmed: bool
    var orphanTimer: bool
    var keepAliveArmed: bool
    var sends: nat
    var wire: seq<seq<bv8>>
    var startupErrors: seq<S.ClientError>
    ghost var past: seq<seq<S.Entry>>
    ghost var cur: seq<S.Entry>

    ghost predicate Valid()
      reads this
    {
      wire == S.Datagrams(cur)
    }

    ghost function Value(): (r: S.Session)
      reads this
    {
      S.Session(dmrId, description, password, state, lastError, routineSeq, realTimeSeq, inCall,
                socketOpen, receiving, timeoutArmed, keepAliveArmed, sendFails, sends,
                S.Startups(startupErrors, orphanTimer), past, cur)
    }

    constructor (host: Host, sendFails: nat -> bool, dmrId: bv32, description: seq<bv8>)
      ensures Valid() && S.Initial(Value())
      ensures this.host == host && this.sendFails == sendFails
      ensures this.dmrId == dmrId && this.description == description
    {
      this.host := host;
      this.sendFails := sendFails;
      this.dmrId := dmrId;
      this.description := description;
      password := [];
      state := S.DISCONNECTED;
      lastError := S.SUCCESS;
      routineSeq, realTimeSeq, inCall := 0, 0, false;
      socketOpen, receiving := false, false;
      timeoutArmed, orphanTimer, keepAliveArmed := false, false, false;
      sends, wire, startupErrors := 0, [], [];
      past, cur := [], [];
    }

    /** A callback or a mark; nothing is sent. */
    ghost method Note(e: S.Entry)
      requires Valid() && !e.Sent?
      modifies `cur
      ensures Valid() && Value() == S.Note(old(Value()), e)
    {
      hide S.Datagrams;
      S.MoreDatagrams(cur, e);
      cur := cur + [e];
    }

    method Report(error: S.ClientError)
      requires Valid()
      modifies this
      ensures Valid() && Value() == S.Report(old(Value()), error)
    {
      lastError := error;
      Note(S.OnError(error));
    }

    /** Takes the next number of the packet's stream (src/Client.cpp:352-353). */
    method TakeNumber(flag: bv16) returns (seqNum: nat)
      requires Valid()
      modifies `realTimeSeq, `routineSeq
      ensures Valid() && Value() == S.Counted(old(Value()), flag)
      ensures seqNum == if S.IsRealTime(flag) then old(realTimeSeq) else old(routineSeq)
    {
      var isRealTime := (flag & REAL_TIME_1) != 0;
      if isRealTime {
        seqNum := realTimeSeq;
        realTimeSeq := (realTimeSeq + 1) % TWO32;
      } else {
        seqNum := routineSeq;
        routineSeq := (routineSeq + 1) % TWO32;
      }
    }

    method TransmitRaw(kind: bv16, flag: bv16, payload: seq<bv8>)
      requires Valid()
      modifies this
      ensures Valid() && Value() == S.TransmitRaw(old(Value()), kind, flag, payload)
    {
      hide S.Attempted, S.Datagrams;
      if !socketOpen {
        return;
      }
      var failed := SendNext(kind, flag, payload);
      if failed {
        Report(S.SOCKET_IO);
      }
    }

    /** The packet with the next number of its stream, given to the socket (src/Client.cpp:351-366). */
    method SendNext(kind: bv16, flag: bv16, payload: seq<bv8>) returns (failed: bool)
      requires Valid()
      modifies this
      ensures Valid() && failed == sendFails(old(sends))
      ensures Value() == S.Attempted(old(Value()), kind, flag, payload)
    {
      hide S.IsRealTime, S.PacketBytes, S.Datagrams, S.Counted;
      var seqNum := TakeNumber(flag);
      var packet := BuildPacket(kind, flag, seqNum, payload);
      failed := SendTo(packet, S.Packet(kind, flag, seqNum, payload));
    }

    /** Header and payload, one after the other (src/Client.cpp:355-361). */
    method BuildPacket(kind: bv16, flag: bv16, seqNum: nat, payload: seq<bv8>) returns (packet: seq<bv8>)
      ensures packet == S.PacketBytes(S.Packet(kind, flag, seqNum, payload))
    {
      hide HeaderBytes;
      var header := Header(kind, flag, Low32(seqNum), Low16(|payload|));
      var headerBytes := SerializeHeader(host, header);
      packet := headerBytes + payload;
    }

    /** socket_.send_to */
    method SendTo(packet: seq<bv8>, ghost p: S.Packet) returns (failed: bool)
      requires Valid() && packet == S.PacketBytes(p)
      modifies `wire, `sends, `cur
      ensures Valid() && failed == sendFails(old(sends))
      ensures Value() == S.Note(old(Value()), S.Sent(p)).(sends := old(sends) + 1)
    {
      hide S.PacketBytes, S.Datagrams;
      S.MoreDatagrams(cur, S.Sent(p));
      wire := wire + [packet];
      cur := cur + [S.Sent(p)];
      failed := sendFails(sends);
      sends := sends + 1;
    }

    // ----- Connection -----

    method Connect(password: seq<bv8>, startup: S.Startup) returns (result: S.ClientError)
      requires Valid()
      modifies this
      ensures Valid() && result == S.ConnectResult(old(Value()), startup)
      ensures startup.Starts? ==> Value() == S.Connect(old(Value()), password)
      ensures startup.Throws? ==> Value() == S.StartupFailed(old(Value()), password, startup.timerSet)
    {
      hide S.Datagrams;
      if state != S.DISCONNECTED {
        return S.ALREADY_CONNECTED;
      }
      ResetSession(password);
      if startup.Throws? {
        Catch(startup.timerSet);
        return S.SOCKET_IO;
      }
      BeginSession();
      result := S.SUCCESS;
    }

    /** The exception path of src/Client.cpp:157-163. */
    method Catch(timerSet: bool)
      requires Valid()
      modifies `startupErrors, `orphanTimer
      ensures Valid() && startupErrors == old(startupErrors) + [S.SOCKET_IO]
      ensures orphanTimer == (old(orphanTimer) || timerSet)
    {
      orphanTimer := orphanTimer || timerSet;
      startupErrors := startupErrors + [S.SOCKET_IO];
    }

    method BeginSession()
      requires Valid()
      modifies `state, `timeoutArmed, `orphanTimer, `wire, `past, `cur
      ensures Valid() && Value() == old(Value()).(state := S.CONNECTING, timeoutArmed := true,
        startups := S.TimerStopped(old(Value()).startups),
        past := if old(cur) == [] then old(past) else old(past) + [old(cur)], cur := [S.Began(password)])
    {
      hide S.Datagrams;
      ArmTimeout();
      BeginHistory();
    }

    /** Setting the timer cancels whoever waited for it before. */
    method ArmTimeout()
      requires Valid()
      modifies `state, `timeoutArmed, `orphanTimer
      ensures Valid() && Value() == old(Value()).(state := S.CONNECTING, timeoutArmed := true,
        startups := S.TimerStopped(old(Value()).startups))
    {
      hide S.Datagrams;
      state := S.CONNECTING;
      timeoutArmed := true;
      orphanTimer := false;
    }

    method ResetSession(password: seq<bv8>)
      requires Valid()
      modifies `password, `routineSeq, `realTimeSeq, `inCall, `lastError
      ensures Valid() && this.password == password
      ensures Value() == old(Value()).(
        password := password, routineSeq := 0, realTimeSeq := 0, inCall := false, lastError := S.SUCCESS)
    {
      hide S.Datagrams;
      this.password := password;
      ResetCounters();
      lastError := S.SUCCESS;
    }

    method ResetCounters()
      requires Valid()
      modifies `routineSeq, `realTimeSeq, `inCall
      ensures Valid() && Value() == old(Value()).(routineSeq := 0, realTimeSeq := 0, inCall := false)
    {
      hide S.Datagrams;
      routineSeq := 0;
      realTimeSeq := 0;
      inCall := false;
    }

    /** A new socket's wire and a new history. */
    method BeginHistory()
      modifies `wire, `past, `cur
      ensures Valid() && cur == [S.Began(password)]
      ensures past == if old(cur) == [] then old(past) else old(past) + [old(cur)]
    {
      hide S.Datagrams;
      NothingSent(password);
      wire := [];
      past, cur := if cur == [] then past else past + [cur], [S.Began(password)];
    }

    /** The return value of ConnectSync, whose wait ends in one of these two states. */
    method ConnectSyncResult() returns (result: S.ClientError)
      requires state == S.CONNECTED || state == S.DISCONNECTED
      ensures result == S.SyncResult(Value())
    {
      if state != S.CONNECTED {
        return if lastError != S.SUCCESS then lastError else S.RESPONSE_TIMEOUT;
      }
      result := S.SUCCESS;
    }

    method Disconnect()
      requires Valid()
      modifies this
      ensures Valid() && Value() == S.Disconnect(old(Value()))
    {
      hide S.TransmitRaw, S.Datagrams, S.Closed;
      if state != S.DISCONNECTED {
        state := S.DISCONNECTED;
        ghost var was := Value();
        if socketOpen {
          TransmitRaw(CLOSE, NONE, []);
        } else {
          ClosedIsSilent(was, CLOSE, NONE, []);
        }
        assert Value() == S.TransmitRaw(was, CLOSE, NONE, []);
        Close();
        Note(S.OnDisconnected(lastError));
      }
    }

    /** Timers cancelled, socket closed (src/Client.cpp:198-203). */
    method Close()
      requires Valid()
      modifies `keepAliveArmed, `timeoutArmed, `socketOpen, `receiving
      ensures Valid() && Value() == S.Closed(old(Value()))
    {
      hide S.Datagrams;
      keepAliveArmed := false;
      timeoutArmed := false;
      socketOpen := false;
      receiving := false;
    }

    method Fail(error: S.ClientError)
      requires Valid()
      modifies this
      ensures Valid() && Value() == S.Fail(old(Value()), error)
    {
      hide S.Disconnect;
      Report(error);
      Disconnect();
    }

    method SendKeepAlive()
      requires Valid()
      modifies this
      ensures Valid() && Value() == S.SendKeepAlive(old(Value()))
    {
      hide S.TransmitRaw;
      var payload := SerializeVersionData(host, Version(dmrId, OPEN_TERMINAL, description));
      TransmitRaw(KEEP_ALIVE, NONE, payload);
    }

    /** The resolver's handler. */
    method Resolved(r: S.Resolution)
      requires Valid()
      modifies this
      ensures Valid() && Value() == S.Resolved(old(Value()), r)
    {
      hide S.Fail, S.SendKeepAlive, S.ReceiveLoopStarted, S.Datagrams;
      if state != S.CONNECTING {
        return;
      }
      if r.NoEndpoint? {
        Fail(S.DNS_RESOLVE);
        return;
      }
      if socketOpen || r.OpenFails? {
        Fail(S.SOCKET_IO);
        return;
      }
      OpenSocket(r.port);
      if r.BindFails? {
        Fail(S.SOCKET_IO);
        return;
      }
      StartReceiveLoop();
      SendKeepAlive();
    }

    method OpenSocket(ghost port: nat)
      requires Valid()
      modifies `socketOpen, `cur
      ensures Valid() && Value() == S.Note(old(Value()).(socketOpen := true), S.Opened(port))
    {
      hide S.Datagrams;
      socketOpen := true;
      Note(S.Opened(port));
    }

    // ----- Timers -----

    method TimeoutFired(aborted: bool)
      requires Valid()
      modifies this
      ensures Valid() && Value() == S.TimeoutFired(old(Value()), aborted)
    {
      hide S.Fail;
      if aborted {
        return;
      }
      timeoutArmed := false;
      orphanTimer := false;
      if state == S.CONNECTING || state == S.AUTHENTICATING {
        Fail(S.RESPONSE_TIMEOUT);
      }
    }

    method KeepAliveFired(aborted: bool)
      requires Valid()
      modifies this
      ensures Valid() && Value() == S.KeepAliveFired(old(Value()), aborted)
    {
      hide S.SendKeepAlive;
      if aborted {
        return;
      }
      keepAliveArmed := false;
      if state != S.CONNECTED {
        return;
      }
      SendKeepAlive();
      keepAliveArmed := true;
    }

    // ----- Receiving -----

    method StartReceiveLoop()
      requires Valid()
      modifies `receiving
      ensures Valid() && Value() == S.ReceiveLoopStarted(old(Value()))
    {
      if state == S.DISCONNECTED || !socketOpen {
        return;
      }
      receiving := true;
    }

    method ReceiveFailed(aborted: bool)
      requires Valid()
      modifies this
      ensures Valid() && Value() == S.ReceiveFailed(old(Value()), aborted)
    {
      hide S.Fail;
      receiving := false;
      if state == S.DISCONNECTED {
        return;
      }
      if !aborted {
        Fail(S.SOCKET_IO);
      }
    }

    /** HandleReceive without an error: the buffer holds the first 1024 bytes of the datagram. */
    method HandleReceive(datagram: seq<bv8>, fromServer: bool)
      requires Valid()
      modifies this
      ensures Valid() && Value() == S.HandleReceive(old(Value()), datagram, fromServer)
    {
      hide S.ProcessPacket;
      if state == S.DISCONNECTED {
        receiving := false;
        return;
      }
      var receiveBuffer := S.Received(datagram);
      if |receiveBuffer| > 0 {
        if fromServer {
          ProcessPacket(receiveBuffer);
        }
      }
      receiving := false;
      StartReceiveLoop();
    }

    method ProcessPacket(packet: seq<bv8>)
      requires Valid()
      modifies this
      ensures Valid() && Value() == S.ProcessPacket(old(Value()), packet)
    {
      hide S.Challenge, S.Confirm, S.Deliver, ParseHeader;
      var headerOpt := DeserializeHeader(host, packet);
      if headerOpt.None? {
        return;
      }
      var header := headerOpt.value;
      if |packet| < 18 + Number16(header.length) {
        return;
      }
      var payload := packet[18..18 + Number16(header.length)];
      if header.kind == CHALLENGE {
        Challenge(payload);
      } else if header.kind == KEEP_ALIVE {
        if Number16(header.length) == 0 {
          Confirm();
        }
      } else {
        Deliver(header, payload);
      }
    }

    method Challenge(salt: seq<bv8>)
      requires Valid()
      modifies this
      ensures Valid() && Value() == S.Challenge(old(Value()), salt)
    {
      hide S.TransmitRaw, Fips.Hash;
      if state == S.CONNECTING {
        state := S.AUTHENTICATING;
        Note(S.Challenged(salt));
        var hashBuf := salt + password;
        var digest := Hashing.Sha256(hashBuf);
        TransmitRaw(AUTHENTICATION, NONE, digest);
      }
    }

    method Confirm()
      requires Valid()
      modifies this
      ensures Valid() && Value() == S.Confirm(old(Value()))
    {
      hide S.Datagrams;
      if state == S.AUTHENTICATING {
        SwitchTimers();
        Note(S.OnConnected);
      }
    }

    /** src/Client.cpp:436-441 */
    method SwitchTimers()
      requires Valid()
      modifies `state, `timeoutArmed, `keepAliveArmed
      ensures Valid()
      ensures Value() == old(Value()).(state := S.CONNECTED, timeoutArmed := false, keepAliveArmed := true)
    {
      hide S.Datagrams;
      state := S.CONNECTED;
      timeoutArmed := false;
      keepAliveArmed := true;
    }

    /** The callbacks of src/Client.cpp:457-525. */
    method Deliver(header: Header, payload: seq<bv8>)
      requires Valid()
      modifies this
      ensures Valid() && Value() == S.Deliver(old(Value()), header, payload)
    {
      hide ParseText, ParseLocation, ParseStatus, ParseRequest, ParseVoiceHeader;
      if header.kind == REPORT {
        Note(S.OnDebugReport(payload));
      } else if header.kind == MESSAGE_TEXT {
        var textOpt := DeserializeTextMessage(host, payload);
        if textOpt.Some? {
          Note(S.OnTextMessage(textOpt.value));
        }
      } else if header.kind == MESSAGE_STATUS {
        var statusOpt := ParseStatus(payload);
        if statusOpt.Some? {
          Note(S.OnTextMessageStatus(statusOpt.value));
        }
      } else if header.kind == LOCATION_REQUEST {
        var reqOpt := ParseRequest(payload);
        if reqOpt.Some? {
          Note(S.OnLocationRequest(reqOpt.value));
        }
      } else if header.kind == LOCATION_REPORT {
        var repOpt := DeserializeLocationReport(host, payload);
        if repOpt.Some? {
          Note(S.OnLocationReport(repOpt.value));
        }
      } else if header.kind == VOICE_HEADER {
        var voiceOpt := ParseVoiceHeader(payload);
        if voiceOpt.Some? {
          Note(S.OnVoiceHeader(voiceOpt.value));
        }
      } else if header.kind == VOICE_TERMINATOR {
        Note(S.OnVoiceTerminator);
      } else if header.kind == DMR_AUDIO_FRAME {
        Note(S.OnAudioFrame(header.number, payload));
      }
    }

    // ----- The transmitting API -----

    method Subscribe(talkgroup: bv32)
      requires Valid()
      modifies this
      ensures Valid() && Value() == S.Subscribe(old(Value()), talkgroup)
    {
      hide S.TransmitRaw;
      if state != S.CONNECTED {
        return;
      }
      var payload := SerializeSubscription(host, Subscription(SESSION_TYPE_GROUP_VOICE, talkgroup));
      TransmitRaw(SUBSCRIPTION, NONE, payload);
    }

    method Unsubscribe(talkgroup: bv32)
      requires Valid()
      modifies this
      ensures Valid() && Value() == S.Unsubscribe(old(Value()), talkgroup)
    {
      hide S.TransmitRaw;
      if state != S.CONNECTED {
        return;
      }
      var payload := SerializeSubscription(host, Subscription(SESSION_TYPE_GROUP_VOICE, talkgroup));
      TransmitRaw(CANCELLING, NONE, payload);
    }

    method StartVoiceCall(sourceId: bv32, destinationId: bv32, isGroup: bool)
      requires Valid()
      modifies this
      ensures Valid() && Value() == S.StartVoiceCall(old(Value()), sourceId, destinationId, isGroup)
    {
      hide S.TransmitRaw, VoiceHeaderBytes;
      if state != S.CONNECTED {
        return;
      }
      inCall := true;
      realTimeSeq := 0;
      Note(S.CallBegan);
      var header := VoiceHeaderBytes(sourceId, destinationId, isGroup);
      TransmitRaw(VOICE_HEADER, REAL_TIME_1, header);
      TransmitRaw(VOICE_HEADER, REAL_TIME_1, header);
      TransmitRaw(VOICE_HEADER, REAL_TIME_1, header);
    }

    method SendAudioFrame(ambeData: seq<bv8>)
      requires Valid()
      modifies this
      ensures Valid() && Value() == S.SendAudioFrame(old(Value()), ambeData)
    {
      hide S.TransmitRaw;
      if state != S.CONNECTED || !inCall {
        return;
      }
      TransmitRaw(DMR_AUDIO_FRAME, REAL_TIME_1, ambeData);
    }

    method EndVoiceCall()
      requires Valid()
      modifies this
      ensures Valid() && Value() == S.EndVoiceCall(old(Value()))
    {
      hide S.TransmitRaw;
      if state != S.CONNECTED || !inCall {
        return;
      }
      TransmitRaw(VOICE_TERMINATOR, REAL_TIME_1, []);
      inCall := false;
    }

    method SendTextMessage(destinationId: bv32, isGroup: bool, text: seq<bv8>)
      requires Valid()
      modifies this
      ensures Valid() && Value() == S.SendTextMessage(old(Value()), destinationId, isGroup, text)
    {
      hide S.TransmitRaw, TextBytes;
      if state != S.CONNECTED {
        return;
      }
      var payload := SerializeTextMessage(host, Text(dmrId, destinationId, isGroup, text));
      TransmitRaw(MESSAGE_TEXT, NONE, payload);
    }

    method SendLocationReport(nmeaSentence: seq<bv8>)
      requires Valid()
      modifies this
      ensures Valid() && Value() == S.SendLocationReport(old(Value()), nmeaSentence)
    {
      hide S.TransmitRaw, LocationBytes;
      if state != S.CONNECTED {
        return;
      }
      var payload := SerializeLocationReport(host, Location(0, nmeaSentence));
      TransmitRaw(LOCATION_REPORT, NONE, payload);
    }
  }

  /** A call that transmits on a connected client. */
  method CallTransmitting(c: Client, e: S.Event)
    requires c.Valid() && IsTransmitting(e)
    modifies c
    ensures c.Valid() && c.Value() == S.Step(old(c.Value()), e)
  {
    hide S.Subscribe, S.Unsubscribe, S.SendTextMessage, S.SendLocationReport, S.StartVoiceCall, S.SendAudioFrame,
         S.EndVoiceCall;
    match e
    case CallSubscribe(talkgroup) => c.Subscribe(talkgroup);
    case CallUnsubscribe(talkgroup) => c.Unsubscribe(talkgroup);
    case CallSendText(destination, isGroup, text) => c.SendTextMessage(destination, isGroup, text);
    case CallSendLocation(nmea) => c.SendLocationReport(nmea);
    case CallStartVoice(source, callee, toGroup) => c.StartVoiceCall(source, callee, toGroup);
    case CallSendAudio(ambe) => c.SendAudioFrame(ambe);
    case CallEndVoice => c.EndVoiceCall();
  }

  predicate IsTransmitting(e: S.Event) {
    IsCall(e) && !e.CallConnect? && !e.CallConnectFails? && !e.CallDisconnect?
  }

  /** One call of the API. */
  method Call(c: Client, e: S.Event)
    requires c.Valid() && IsCall(e)
    modifies c
    ensures c.Valid() && c.Value() == S.Step(old(c.Value()), e)
  {
    hide S.Connect, S.StartupFailed, S.Disconnect;
    if e.CallConnect? {
      var _ := c.Connect(e.password, S.Starts);
    } else if e.CallConnectFails? {
      var _ := c.Connect(e.password, S.Throws(e.timerSet));
    } else if e.CallDisconnect? {
      c.Disconnect();
    } else {
      CallTransmitting(c, e);
    }
  }

  predicate IsCall(e: S.Event) {
    !e.ResolverDone? && !e.TimeoutTimer? && !e.KeepAliveTimer? && !e.ReceiveError? && !e.Datagram?
  }

  /** One handler that asio runs. */
  method Handle(c: Client, e: S.Event)
    requires c.Valid() && !IsCall(e)
    modifies c
    ensures c.Valid() && c.Value() == S.Step(old(c.Value()), e)
  {
    hide S.Resolved, S.TimeoutFired, S.KeepAliveFired, S.ReceiveFailed, S.HandleReceive;
    match e
    case ResolverDone(r) => c.Resolved(r);
    case TimeoutTimer(aborted) => c.TimeoutFired(aborted);
    case KeepAliveTimer(aborted) => c.KeepAliveFired(aborted);
    case ReceiveError(aborted) =>
      if aborted != c.receiving {
        c.ReceiveFailed(aborted);
      }
    case Datagram(bytes, fromServer) =>
      if c.receiving {
        c.HandleReceive(bytes, fromServer);
      }
  }

  /** Any events: the object goes where the run of values goes. */
  method Drive(c: Client, events: seq<S.Event>)
    requires c.Valid()
    modifies c
    ensures c.Valid() && c.Value() == S.Run(old(c.Value()), events)
  {
    hide S.Step, IsCall;
    for i := 0 to |events|
      invariant c.Valid() && c.Value() == S.Run(old(c.Value()), events[..i])
    {
      assert events[..i + 1][..i] == events[..i];
      if IsCall(events[i]) {
        Call(c, events[i]);
      } else {
        Handle(c, events[i]);
      }
    }
    assert events[..|events|] == events;
  }

  lemma NothingSent(password: seq<bv8>)
    ensures S.Datagrams([S.Began(password)]) == []
  {
    S.MoreDatagrams([], S.Began(password));
    assert [] + [S.Began(password)] == [S.Began(password)];
  }

  lemma ClosedIsSilent(s: S.Session, kind: bv16, flags: bv16, payload: seq<bv8>)
    requires !s.socketOpen
    ensures S.TransmitRaw(s, kind, flags, payload) == s
  {
  }
}
