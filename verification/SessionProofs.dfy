/** Every step keeps the invariant, so every run does. */
module SessionProofs {
  import opened Bits
  import opened Grammar
  import opened Session
  import opened Wire
  import Fips

  // ----- One packet -----

  /** The fields a transmission leaves alone. */
  ghost predicate SameButSent(s: Session, t: Session) {
    && t.dmrId == s.dmrId && t.description == s.description && t.password == s.password && t.state == s.state
    && t.inCall == s.inCall && t.socketOpen == s.socketOpen && t.receiving == s.receiving
    && t.timeoutArmed == s.timeoutArmed && t.startups == s.startups && t.keepAliveArmed == s.keepAliveArmed
    && t.failing == s.failing && t.past == s.past && s.cur <= t.cur
  }

  ghost predicate CountersAgree(s: Session, m: Summary) {
    s.routineSeq == m.routine % TWO32 && s.realTimeSeq == m.realTime % TWO32
  }

  lemma SameTogether(s: Session, t: Session, u: Session)
    requires SameButSent(s, t) && SameButSent(t, u)
    ensures SameButSent(s, u)
  {
  }

  lemma AttemptedSame(s: Session, kind: bv16, flags: bv16, payload: seq<bv8>)
    ensures SameButSent(s, Attempted(s, kind, flags, payload))
  {
    hide IsRealTime, Outgoing;
  }

  lemma ReportSame(s: Session, error: ClientError)
    ensures SameButSent(s, Report(s, error))
  {
  }

  /** Whatever comes of a transmission. */
  lemma TransmitSame(s: Session, kind: bv16, flags: bv16, payload: seq<bv8>)
    ensures SameButSent(s, TransmitRaw(s, kind, flags, payload))
  {
    hide Attempted, Report, SameButSent;
    AttemptedSame(s, kind, flags, payload);
    ReportSame(Attempted(s, kind, flags, payload), SOCKET_IO);
    SameTogether(s, Attempted(s, kind, flags, payload), Report(Attempted(s, kind, flags, payload), SOCKET_IO));
    SameItself(s);
  }

  lemma SameItself(s: Session)
    ensures SameButSent(s, s)
  {
  }

  lemma AttemptedCounts(s: Session, kind: bv16, flags: bv16, payload: seq<bv8>)
    ensures var t := Attempted(s, kind, flags, payload);
      && t.realTimeSeq == Counted(s, flags).realTimeSeq && t.routineSeq == Counted(s, flags).routineSeq
      && t.sends == s.sends + 1
  {
    hide Outgoing, IsRealTime;
  }

  /** The counters afterwards. */
  lemma TransmitCounts(s: Session, kind: bv16, flags: bv16, payload: seq<bv8>)
    requires s.socketOpen
    ensures var t := TransmitRaw(s, kind, flags, payload);
      && t.realTimeSeq == Counted(s, flags).realTimeSeq && t.routineSeq == Counted(s, flags).routineSeq
      && t.sends == s.sends + 1
  {
    hide Attempted, Counted;
    AttemptedCounts(s, kind, flags, payload);
  }

  /** A send that succeeds. */
  lemma TransmitSucceeds(s: Session, kind: bv16, flags: bv16, payload: seq<bv8>)
    requires s.socketOpen && !s.failing(s.sends)
    ensures TransmitRaw(s, kind, flags, payload).cur == s.cur + [Sent(Outgoing(s, kind, flags, payload))]
  {
    hide Outgoing, Counted, Numbered;
    NumberedEntry(s, kind, flags, payload);
  }

  lemma NumberedEntry(s: Session, kind: bv16, flags: bv16, payload: seq<bv8>)
    ensures Numbered(s, kind, flags, payload).cur == s.cur + [Sent(Outgoing(s, kind, flags, payload))]
    ensures Numbered(s, kind, flags, payload).state == s.state
  {
    hide IsRealTime, Outgoing;
  }

  lemma WrapNext(n: nat)
    ensures (n % TWO32 + 1) % TWO32 == (n + 1) % TWO32
  {
  }

  lemma NumberedEffect(s: Session, kind: bv16, flags: bv16, payload: seq<bv8>)
    requires WellOrdered(s.cur) && CountersAgree(s, Summarize(s.cur))
    requires Allowed(Summarize(s.cur), Sent(Outgoing(s, kind, flags, payload)))
    ensures var t := Numbered(s, kind, flags, payload);
      && SameButSent(s, t) && WellOrdered(t.cur) && t.cur == s.cur + [Sent(Outgoing(s, kind, flags, payload))]
      && Summarize(t.cur) == AfterPacket(Summarize(s.cur), Outgoing(s, kind, flags, payload))
      && CountersAgree(t, Summarize(t.cur))
  {
    hide Allowed, WellOrdered, Summarize;
    var m := Summarize(s.cur);
    Snoc(s.cur, Sent(Outgoing(s, kind, flags, payload)));
    WrapNext(m.routine);
    WrapNext(m.realTime);
  }

  /** An error between the first and the last entry changes nothing. */
  lemma ReportEffect(s: Session, error: ClientError)
    requires WellOrdered(s.cur) && Summarize(s.cur).began && !Summarize(s.cur).ended
    ensures var t := Report(s, error);
      && SameButSent(s, t) && WellOrdered(t.cur) && t.cur == s.cur + [OnError(error)]
      && Summarize(t.cur) == Summarize(s.cur)
  {
    hide WellOrdered, Summarize, PacketAllowed;
    Snoc(s.cur, OnError(error));
  }

  lemma SendAllowed(m: Summary, p: Packet)
    requires Allowed(m, Sent(p))
    ensures AfterPacket(m, p).began && !AfterPacket(m, p).ended
  {
  }

  lemma AttemptedEffect(s: Session, kind: bv16, flags: bv16, payload: seq<bv8>)
    requires WellOrdered(s.cur) && CountersAgree(s, Summarize(s.cur))
    requires Allowed(Summarize(s.cur), Sent(Outgoing(s, kind, flags, payload)))
    ensures var t := Attempted(s, kind, flags, payload); var p := Outgoing(s, kind, flags, payload);
      && SameButSent(s, t) && WellOrdered(t.cur) && t.cur == s.cur + [Sent(p)]
      && Summarize(t.cur) == AfterPacket(Summarize(s.cur), p) && CountersAgree(t, Summarize(t.cur))
  {
    hide Allowed, WellOrdered, Summarize, AfterPacket, Numbered, Outgoing;
    NumberedEffect(s, kind, flags, payload);
  }

  lemma TransmitEffect(s: Session, kind: bv16, flags: bv16, payload: seq<bv8>)
    requires s.socketOpen
    requires WellOrdered(s.cur) && CountersAgree(s, Summarize(s.cur))
    requires Allowed(Summarize(s.cur), Sent(Outgoing(s, kind, flags, payload)))
    ensures var t := TransmitRaw(s, kind, flags, payload);
      && SameButSent(s, t) && WellOrdered(t.cur)
      && s.cur + [Sent(Outgoing(s, kind, flags, payload))] <= t.cur
      && Summarize(t.cur) == AfterPacket(Summarize(s.cur), Outgoing(s, kind, flags, payload))
      && CountersAgree(t, Summarize(t.cur))
  {
    hide Allowed, WellOrdered, Summarize, AfterPacket, Attempted, Outgoing, SameButSent;
    AttemptedEffect(s, kind, flags, payload);
    SendAllowed(Summarize(s.cur), Outgoing(s, kind, flags, payload));
    var t := Attempted(s, kind, flags, payload);
    if s.failing(s.sends) {
      ReportEffect(t, SOCKET_IO);
      SameTogether(s, t, Report(t, SOCKET_IO));
    }
  }

  // ----- Steps -----

  /** Same client, same earlier sessions, a longer current history. */
  ghost predicate Extends(s: Session, t: Session) {
    t.past == s.past && s.cur <= t.cur && SameClient(s, t)
  }

  /** What the constructor and the network fix. */
  ghost predicate SameClient(s: Session, t: Session) {
    t.dmrId == s.dmrId && t.description == s.description && t.failing == s.failing
  }

  lemma DisconnectKeeps(s: Session)
    requires InvButPending(s) && (s.state == DISCONNECTED ==> Inv(s))
    ensures Inv(Disconnect(s)) && Disconnect(s).state == DISCONNECTED
    ensures Extends(s, Disconnect(s))
  {
    hide WellOrdered, Summarize;
    if s.state != DISCONNECTED {
      var t := s.(state := DISCONNECTED);
      if s.socketOpen {
        TransmitEffect(t, CLOSE, NONE, []);
      }
      var u := TransmitRaw(t, CLOSE, NONE, []);
      Snoc(u.cur, OnDisconnected(u.lastError));
    }
  }

  lemma FailKeeps(s: Session, error: ClientError)
    requires InvButPending(s) && s.state != DISCONNECTED
    ensures Inv(Fail(s, error)) && Fail(s, error).state == DISCONNECTED
    ensures Extends(s, Fail(s, error))
  {
    hide WellOrdered, Summarize, Disconnect;
    ReportEffect(s, error);
    DisconnectKeeps(Report(s, error));
  }

  lemma ConnectKeeps(s: Session, password: seq<bv8>)
    requires Inv(s)
    ensures Inv(Connect(s, password))
  {
    hide WellOrdered, Summarize, Allowed;
    Beginning(password);
    assert s.cur != [] && s.state == DISCONNECTED ==> Finished(s.cur);
  }

  lemma StartupFailedKeeps(s: Session, password: seq<bv8>, timerSet: bool)
    requires Inv(s)
    ensures Inv(StartupFailed(s, password, timerSet)) && Extends(s, StartupFailed(s, password, timerSet))
  {
    hide WellOrdered, Summarize;
  }

  lemma Beginning(password: seq<bv8>)
    ensures WellOrdered([Began(password)])
    ensures Summarize([Began(password)]) == EMPTY.(began := true, password := password)
  {
    Snoc([], Began(password));
    assert [] + [Began(password)] == [Began(password)];
  }

  lemma SendKeepAliveKeeps(s: Session)
    requires Inv(s) && s.socketOpen && (s.state == CONNECTED || s.state == CONNECTING)
    ensures Inv(SendKeepAlive(s)) && SendKeepAlive(s).state == s.state && Extends(s, SendKeepAlive(s))
  {
    hide WellOrdered, Summarize, TransmitRaw;
    TransmitEffect(s, KEEP_ALIVE, NONE, VersionBytes(Version(s.dmrId, OPEN_TERMINAL, s.description)));
  }

  lemma OpenedKeeps(s: Session, port: nat)
    requires Inv(s) && s.state == CONNECTING && !s.socketOpen
    ensures var t := Note(s.(socketOpen := true), Opened(port)); InvButPending(t) && Inv(ReceiveLoopStarted(t))
  {
    hide WellOrdered, Summarize, PacketAllowed;
    Snoc(s.cur, Opened(port));
  }

  lemma ResolvedKeeps(s: Session, r: Resolution)
    requires Inv(s)
    ensures Inv(Resolved(s, r)) && Extends(s, Resolved(s, r))
  {
    hide WellOrdered, Summarize, FieldsAgree, LoginAgrees, Finished, Fail, SendKeepAlive;
    if s.state == CONNECTING {
      if r == NoEndpoint {
        FailKeeps(s, DNS_RESOLVE);
      } else if s.socketOpen || r == OpenFails {
        FailKeeps(s, SOCKET_IO);
      } else {
        OpenedKeeps(s, r.port);
        var t := Note(s.(socketOpen := true), Opened(r.port));
        if r.BindFails? {
          FailKeeps(t, SOCKET_IO);
        } else {
          SendKeepAliveKeeps(ReceiveLoopStarted(t));
        }
      }
    }
  }

  lemma TimeoutKeeps(s: Session, aborted: bool)
    requires Inv(s)
    ensures Inv(TimeoutFired(s, aborted)) && Extends(s, TimeoutFired(s, aborted))
  {
    hide WellOrdered, Summarize, Fail;
    if !aborted && (s.state == CONNECTING || s.state == AUTHENTICATING) {
      FailKeeps(s.(timeoutArmed := false, startups := TimerStopped(s.startups)), RESPONSE_TIMEOUT);
    }
  }

  lemma KeepAliveKeeps(s: Session, aborted: bool)
    requires Inv(s)
    ensures Inv(KeepAliveFired(s, aborted)) && Extends(s, KeepAliveFired(s, aborted))
  {
    hide WellOrdered, Summarize, TransmitRaw;
    if !aborted && s.state == CONNECTED {
      TransmitEffect(s.(keepAliveArmed := false), KEEP_ALIVE, NONE,
                     VersionBytes(Version(s.dmrId, OPEN_TERMINAL, s.description)));
    }
  }

  /** The socket is as it was, and so is the receive. */
  ghost predicate SameReceive(s: Session, t: Session) {
    t.receiving == s.receiving && t.socketOpen == s.socketOpen
  }

  lemma PendingApart(s: Session, receiving: bool)
    requires InvButPending(s)
    ensures InvButPending(s.(receiving := receiving))
  {
    hide WellOrdered, Summarize;
  }

  lemma OpenMeansRunning(s: Session)
    requires InvButPending(s) && s.socketOpen
    ensures s.state != DISCONNECTED
  {
    hide WellOrdered, Summarize;
  }

  lemma ReceiveFailedKeeps(s: Session, aborted: bool)
    requires Inv(s) && aborted != s.receiving
    ensures Inv(ReceiveFailed(s, aborted)) && Extends(s, ReceiveFailed(s, aborted))
  {
    hide InvButPending, Fail;
    PendingApart(s, false);
    if s.receiving {
      OpenMeansRunning(s);
      FailKeeps(s.(receiving := false), SOCKET_IO);
    }
  }

  lemma ChallengeKeeps(s: Session, salt: seq<bv8>)
    requires InvButReceive(s) && s.socketOpen
    ensures InvButReceive(Challenge(s, salt)) && Extends(s, Challenge(s, salt)) && SameReceive(s, Challenge(s, salt))
  {
    hide WellOrdered, Summarize, TransmitRaw, Fips.Hash;
    if s.state == CONNECTING {
      var t := Note(s.(state := AUTHENTICATING), Challenged(salt));
      Snoc(s.cur, Challenged(salt));
      TransmitEffect(t, AUTHENTICATION, NONE, Fips.Hash(salt + s.password));
    }
  }

  lemma ConfirmKeeps(s: Session)
    requires InvButReceive(s)
    ensures InvButReceive(Confirm(s)) && Extends(s, Confirm(s)) && SameReceive(s, Confirm(s))
  {
    hide WellOrdered, Summarize, PacketAllowed;
    if s.state == AUTHENTICATING {
      Snoc(s.cur, OnConnected);
    }
  }

  predicate IsDelivery(e: Entry) {
    e.OnDebugReport? || e.OnTextMessage? || e.OnTextMessageStatus? || e.OnLocationRequest?
    || e.OnLocationReport? || e.OnVoiceHeader? || e.OnVoiceTerminator? || e.OnAudioFrame?
  }

  lemma CallbackDelivers(h: Header, payload: seq<bv8>)
    ensures Callback(h, payload).Some? ==> IsDelivery(Callback(h, payload).value)
  {
    hide ParseText, ParseStatus, ParseRequest, ParseLocation, ParseVoiceHeader;
  }

  lemma DeliverKeeps(s: Session, h: Header, payload: seq<bv8>)
    requires InvButReceive(s) && s.socketOpen
    ensures InvButReceive(Deliver(s, h, payload)) && Extends(s, Deliver(s, h, payload))
    ensures SameReceive(s, Deliver(s, h, payload))
  {
    hide WellOrdered, Summarize, PacketAllowed, Callback;
    CallbackDelivers(h, payload);
    if Callback(h, payload).Some? {
      Snoc(s.cur, Callback(h, payload).value);
    }
  }

  lemma ProcessPacketKeeps(s: Session, packet: seq<bv8>)
    requires InvButReceive(s) && s.socketOpen
    ensures InvButReceive(ProcessPacket(s, packet)) && Extends(s, ProcessPacket(s, packet))
    ensures SameReceive(s, ProcessPacket(s, packet))
  {
    hide InvButReceive, ParseFrame, Challenge, Confirm, Deliver;
    if ParseFrame(packet).Some? {
      var f := ParseFrame(packet).value;
      ChallengeKeeps(s, f.payload);
      ConfirmKeeps(s);
      DeliverKeeps(s, f.header, f.payload);
    }
  }

  /** In a session, with an open socket and a receive pending. */
  predicate Listening(s: Session) {
    s.state != DISCONNECTED && s.socketOpen && s.receiving
  }

  lemma TransmitListens(s: Session, kind: bv16, flags: bv16, payload: seq<bv8>)
    requires Listening(s)
    ensures Listening(TransmitRaw(s, kind, flags, payload))
  {
    hide TransmitRaw;
    TransmitSame(s, kind, flags, payload);
  }

  lemma ProcessPacketListens(s: Session, packet: seq<bv8>)
    requires Listening(s)
    ensures Listening(ProcessPacket(s, packet))
  {
    hide ParseFrame, Callback, TransmitRaw, Fips.Hash;
    if ParseFrame(packet).Some? {
      var t := Note(s.(state := AUTHENTICATING), Challenged(ParseFrame(packet).value.payload));
      TransmitListens(t, AUTHENTICATION, NONE, Fips.Hash(ParseFrame(packet).value.payload + s.password));
    }
  }

  /** There a datagram is processed, and a receive is pending again. */
  lemma ReceiveContinues(s: Session, datagram: seq<bv8>, fromServer: bool)
    requires Listening(s)
    ensures HandleReceive(s, datagram, fromServer)
         == if datagram == [] || !fromServer then s else ProcessPacket(s, Received(datagram))
  {
    hide ProcessPacket, Received;
    ProcessPacketListens(s, Received(datagram));
  }

  lemma ReceivingListens(s: Session)
    requires Inv(s) && s.receiving
    ensures Listening(s)
  {
    hide InvButPending;
    OpenMeansRunning(s);
  }

  lemma HandleReceiveKeeps(s: Session, datagram: seq<bv8>, fromServer: bool)
    requires Inv(s) && s.receiving
    ensures Inv(HandleReceive(s, datagram, fromServer)) && Extends(s, HandleReceive(s, datagram, fromServer))
  {
    hide InvButReceive, ProcessPacket, Received, HandleReceive;
    ReceivingListens(s);
    ReceiveContinues(s, datagram, fromServer);
    ProcessPacketKeeps(s, Received(datagram));
  }

  lemma SendRoutineKeeps(s: Session, kind: bv16, payload: seq<bv8>)
    requires Inv(s) && kind in {SUBSCRIPTION, CANCELLING, MESSAGE_TEXT, LOCATION_REPORT}
    ensures Inv(SendRoutine(s, kind, payload)) && Extends(s, SendRoutine(s, kind, payload))
  {
    hide WellOrdered, Summarize, TransmitRaw;
    if s.state == CONNECTED {
      TransmitEffect(s, kind, NONE, payload);
    }
  }

  /** The invariant of a connected session, but for where its voice packets stand. */
  ghost predicate Speaking(s: Session, v: Voicing) {
    && s.state == CONNECTED && s.socketOpen && s.inCall && TimersAgree(s) && s.receiving
    && WellOrdered(s.cur) && FieldsAgree(s, Summarize(s.cur))
    && Summarize(s.cur).auths == 1 && Summarize(s.cur).challenged && Summarize(s.cur).connected
    && Summarize(s.cur).voicing == v
    && forall k :: 0 <= k < |s.past| ==> Finished(s.past[k])
  }

  lemma VoicePacket(s: Session, v: Voicing, kind: bv16, payload: seq<bv8>)
    requires Speaking(s, v) && VoiceAllowed(v, kind)
    ensures var t := TransmitRaw(s, kind, REAL_TIME_1, payload); Speaking(t, NextVoicing(v, kind)) && Extends(s, t)
  {
    hide WellOrdered, Summarize, TransmitRaw, NextVoicing, VoiceAllowed;
    TransmitEffect(s, kind, REAL_TIME_1, payload);
  }

  lemma CallStartedKeeps(s: Session)
    requires Inv(s) && s.state == CONNECTED
    ensures Speaking(CallStarted(s), Summarize(s.cur).voicing) && Extends(s, CallStarted(s))
    ensures Summarize(s.cur).voicing == Quiet || Summarize(s.cur).voicing == Talking
  {
    hide WellOrdered, Summarize, PacketAllowed;
    Snoc(s.cur, CallBegan);
  }

  lemma StartVoiceKeeps(s: Session, source: bv32, destination: bv32, isGroup: bool)
    requires Inv(s)
    ensures Inv(StartVoiceCall(s, source, destination, isGroup))
    ensures Extends(s, StartVoiceCall(s, source, destination, isGroup))
  {
    hide WellOrdered, Summarize, CallStarted, TransmitRaw, Speaking, FieldsAgree, VoiceHeaderBytes;
    if s.state == CONNECTED {
      var header := VoiceHeaderBytes(source, destination, isGroup);
      CallStartedKeeps(s);
      var t0 := CallStarted(s);
      VoicePacket(t0, Summarize(s.cur).voicing, VOICE_HEADER, header);
      var t1 := SendHeader(t0, header);
      VoicePacket(t1, OneHeader, VOICE_HEADER, header);
      var t2 := SendHeader(t1, header);
      VoicePacket(t2, TwoHeaders, VOICE_HEADER, header);
      SpeakingTalks(SendHeader(t2, header));
    }
  }

  lemma SpeakingTalks(s: Session)
    ensures Speaking(s, Talking) <==> Inv(s) && s.state == CONNECTED && s.inCall
  {
    hide WellOrdered, Summarize;
  }

  lemma SendAudioKeeps(s: Session, ambe: seq<bv8>)
    requires Inv(s)
    ensures Inv(SendAudioFrame(s, ambe)) && Extends(s, SendAudioFrame(s, ambe))
  {
    hide Inv, Speaking, TransmitRaw;
    if s.state == CONNECTED && s.inCall {
      SpeakingTalks(s);
      VoicePacket(s, Talking, DMR_AUDIO_FRAME, ambe);
      SpeakingTalks(TransmitRaw(s, DMR_AUDIO_FRAME, REAL_TIME_1, ambe));
    }
  }

  lemma EndVoiceKeeps(s: Session)
    requires Inv(s)
    ensures Inv(EndVoiceCall(s)) && Extends(s, EndVoiceCall(s))
  {
    hide WellOrdered, Summarize, TransmitRaw;
    if s.state == CONNECTED && s.inCall {
      SpeakingTalks(s);
      VoicePacket(s, Talking, VOICE_TERMINATOR, []);
    }
  }

  /** Histories only grow, and none is ever dropped. */
  ghost predicate Grows(s: Session, t: Session) {
    && |Sessions(s)| <= |Sessions(t)| && SameClient(s, t)
    && forall k :: 0 <= k < |Sessions(s)| ==> Sessions(s)[k] <= Sessions(t)[k]
  }

  lemma CloseKeeps(s: Session)
    requires Inv(s)
    ensures Inv(Disconnect(s)) && Extends(s, Disconnect(s))
  {
    hide InvButPending, Disconnect;
    DisconnectKeeps(s);
  }

  lemma ExtendsItself(s: Session)
    ensures Extends(s, s)
  {
  }

  lemma ExtendsGrows(s: Session, t: Session)
    requires Extends(s, t)
    ensures Grows(s, t)
  {
  }

  /** Every step keeps the invariant. */
  lemma StepKeeps(s: Session, e: Event)
    requires Inv(s)
    ensures Inv(Step(s, e)) && Grows(s, Step(s, e))
    ensures !e.CallConnect? ==> Extends(s, Step(s, e))
  {
    hide Inv, Grows, Extends, Connect, Disconnect, SendRoutine, StartVoiceCall, SendAudioFrame, EndVoiceCall, Resolved,
         StartupFailed, TimeoutFired, KeepAliveFired, ReceiveFailed, HandleReceive;
    ExtendsItself(s);
    if !e.CallConnect? && Extends(s, Step(s, e)) {
      ExtendsGrows(s, Step(s, e));
    }
    match e
    case CallConnect(password) =>
      ConnectKeeps(s, password);
      ConnectGrows(s, password);
    case CallConnectFails(password, timerSet) => StartupFailedKeeps(s, password, timerSet);
    case CallDisconnect => CloseKeeps(s);
    case CallSubscribe(talkgroup) =>
      SendRoutineKeeps(s, SUBSCRIPTION, SubscriptionBytes(Subscription(SESSION_TYPE_GROUP_VOICE, talkgroup)));
    case CallUnsubscribe(talkgroup) =>
      SendRoutineKeeps(s, CANCELLING, SubscriptionBytes(Subscription(SESSION_TYPE_GROUP_VOICE, talkgroup)));
    case CallSendText(destination, isGroup, text) =>
      SendRoutineKeeps(s, MESSAGE_TEXT, TextBytes(Text(s.dmrId, destination, isGroup, text)));
    case CallSendLocation(nmea) => SendRoutineKeeps(s, LOCATION_REPORT, LocationBytes(Location(0, nmea)));
    case CallStartVoice(source, callee, toGroup) => StartVoiceKeeps(s, source, callee, toGroup);
    case CallSendAudio(ambe) => SendAudioKeeps(s, ambe);
    case CallEndVoice => EndVoiceKeeps(s);
    case ResolverDone(r) => ResolvedKeeps(s, r);
    case TimeoutTimer(aborted) => TimeoutKeeps(s, aborted);
    case KeepAliveTimer(aborted) => KeepAliveKeeps(s, aborted);
    case ReceiveError(aborted) =>
      if aborted != s.receiving {
        ReceiveFailedKeeps(s, aborted);
      }
    case Datagram(bytes, fromServer) =>
      if s.receiving {
        HandleReceiveKeeps(s, bytes, fromServer);
      }
  }

  lemma ConnectGrows(s: Session, password: seq<bv8>)
    ensures Grows(s, Connect(s, password))
  {
  }

  lemma InitialInv(s: Session)
    requires Initial(s)
    ensures Inv(s)
  {
  }

  /** Whatever the calls, the network, the resolver and the timers do, the invariant holds. */
  lemma {:induction false} RunKeeps(s: Session, events: seq<Event>)
    requires Initial(s)
    ensures Inv(Run(s, events))
    decreases |events|
  {
    hide Inv, Step, Initial;
    if events == [] {
      InitialInv(s);
    } else {
      RunKeeps(s, events[..|events| - 1]);
      StepKeeps(Run(s, events[..|events| - 1]), events[|events| - 1]);
    }
  }
}
