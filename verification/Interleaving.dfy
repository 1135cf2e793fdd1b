/**
 Numbering when the API thread and the I/O thread interleave: both only ever do the micro-steps below, and any
 sequence of those numbers the packets rightly.
 */
module Interleaving {
  import opened Bits
  import opened Lifecycle
  import opened Session
  import opened SessionProofs
  import opened Wire
  import Fips

  /**
   What either thread does in one go: a transmission, the reset that starts a call, an open or close of the socket,
   or an entry that neither sends nor resets.
   */
  datatype Micro =
    | Transmit(kind: bv16, flags: bv16, payload: seq<bv8>)
    | StartCall
    | SetSocket(open: bool)
    | Other(entry: Entry)

  function MicroStep(s: Session, m: Micro): (r: Session) {
    match m
    case Transmit(kind, flags, payload) => TransmitRaw(s, kind, flags, payload)
    case StartCall => CallStarted(s)
    case SetSocket(open) => s.(socketOpen := open)
    case Other(e) => if e.Sent? || e.CallBegan? then s else Note(s, e)
  }

  function MicroRun(s: Session, ms: seq<Micro>): (r: Session) {
    if ms == [] then s else MicroStep(MicroRun(s, ms[..|ms| - 1]), ms[|ms| - 1])
  }

  predicate NumbersMatch(s: Session) {
    && RightlyNumbered(s.cur)
    && s.routineSeq == RoutineCount(s.cur) % TWO32 && s.realTimeSeq == RealTimeCount(s.cur) % TWO32
  }

  lemma ReportNumbers(s: Session, error: ClientError)
    requires NumbersMatch(s)
    ensures NumbersMatch(Report(s, error))
  {
    hide RightlyNumbered;
    NumberedMore(s.cur, OnError(error));
  }

  lemma NumberedNumbers(s: Session, kind: bv16, flags: bv16, payload: seq<bv8>)
    requires NumbersMatch(s)
    ensures NumbersMatch(Numbered(s, kind, flags, payload))
  {
    hide RightlyNumbered, RoutineCount, RealTimeCount, IsRealTime;
    NumberedMore(s.cur, Sent(Outgoing(s, kind, flags, payload)));
    WrapNext(RoutineCount(s.cur));
    WrapNext(RealTimeCount(s.cur));
  }

  lemma AttemptedNumbers(s: Session, kind: bv16, flags: bv16, payload: seq<bv8>)
    requires NumbersMatch(s)
    ensures NumbersMatch(Attempted(s, kind, flags, payload))
  {
    hide RightlyNumbered, Numbered, RoutineCount, RealTimeCount;
    NumberedNumbers(s, kind, flags, payload);
  }

  lemma TransmitNumbers(s: Session, kind: bv16, flags: bv16, payload: seq<bv8>)
    requires NumbersMatch(s)
    ensures NumbersMatch(TransmitRaw(s, kind, flags, payload))
  {
    hide NumbersMatch, Attempted;
    AttemptedNumbers(s, kind, flags, payload);
    ReportNumbers(Attempted(s, kind, flags, payload), SOCKET_IO);
  }

  lemma MicroKeeps(s: Session, m: Micro)
    requires NumbersMatch(s)
    ensures NumbersMatch(MicroStep(s, m))
  {
    hide RightlyNumbered, RoutineCount, RealTimeCount, TransmitRaw;
    match m
    case Transmit(kind, flags, payload) => TransmitNumbers(s, kind, flags, payload);
    case StartCall => NumberedMore(s.cur, CallBegan);
    case SetSocket(_) =>
    case Other(e) =>
      if !e.Sent? {
        NumberedMore(s.cur, e);
      }
  }

  /**
   However the transmissions and resets of the two threads interleave, the packets of a session are numbered
   rightly: neither stream affects the other and no number is skipped or given twice.
   */
  lemma {:induction false} InterleavingsAreNumbered(s: Session, ms: seq<Micro>)
    requires NumbersMatch(s)
    ensures NumbersMatch(MicroRun(s, ms))
    decreases |ms|
  {
    hide NumbersMatch, MicroStep;
    if ms != [] {
      InterleavingsAreNumbered(s, ms[..|ms| - 1]);
      MicroKeeps(MicroRun(s, ms[..|ms| - 1]), ms[|ms| - 1]);
    }
  }

  // ----- The client's steps at that granularity -----

  /** Everything numbering depends on, and the history. */
  ghost predicate SameNumbers(s: Session, t: Session) {
    && t.routineSeq == s.routineSeq && t.realTimeSeq == s.realTimeSeq && t.cur == s.cur
    && t.socketOpen == s.socketOpen && t.failing == s.failing && t.sends == s.sends
  }

  /** The micro-steps `ms` do from `s` what leads to `t`. */
  ghost predicate Does(s: Session, ms: seq<Micro>, t: Session) {
    SameNumbers(MicroRun(s, ms), t)
  }

  lemma NumberedAlike(s: Session, t: Session, kind: bv16, flags: bv16, payload: seq<bv8>)
    requires SameNumbers(s, t)
    ensures SameNumbers(Numbered(s, kind, flags, payload), Numbered(t, kind, flags, payload))
    ensures Numbered(s, kind, flags, payload).sends == s.sends && Numbered(s, kind, flags, payload).failing == s.failing
  {
    hide IsRealTime;
  }

  lemma AttemptedAlike(s: Session, t: Session, kind: bv16, flags: bv16, payload: seq<bv8>)
    requires SameNumbers(s, t)
    ensures SameNumbers(Attempted(s, kind, flags, payload), Attempted(t, kind, flags, payload))
  {
    hide Numbered;
    NumberedAlike(s, t, kind, flags, payload);
  }

  lemma ReportAlike(s: Session, t: Session, error: ClientError)
    requires SameNumbers(s, t)
    ensures SameNumbers(Report(s, error), Report(t, error))
  {
  }

  lemma TransmitAlike(s: Session, t: Session, kind: bv16, flags: bv16, payload: seq<bv8>)
    requires SameNumbers(s, t)
    ensures SameNumbers(TransmitRaw(s, kind, flags, payload), TransmitRaw(t, kind, flags, payload))
  {
    hide Attempted, Report;
    AttemptedAlike(s, t, kind, flags, payload);
    ReportAlike(Attempted(s, kind, flags, payload), Attempted(t, kind, flags, payload), SOCKET_IO);
  }

  lemma MicroAlike(s: Session, t: Session, m: Micro)
    requires SameNumbers(s, t)
    ensures SameNumbers(MicroStep(s, m), MicroStep(t, m))
  {
    hide TransmitRaw;
    if m.Transmit? {
      TransmitAlike(s, t, m.kind, m.flags, m.payload);
    }
  }

  lemma {:induction false} MicroRunAlike(s: Session, t: Session, ms: seq<Micro>)
    requires SameNumbers(s, t)
    ensures SameNumbers(MicroRun(s, ms), MicroRun(t, ms))
    decreases |ms|
  {
    hide SameNumbers, MicroStep;
    if ms != [] {
      MicroRunAlike(s, t, ms[..|ms| - 1]);
      MicroAlike(MicroRun(s, ms[..|ms| - 1]), MicroRun(t, ms[..|ms| - 1]), ms[|ms| - 1]);
    }
  }

  lemma {:induction false} MicroRunSplit(s: Session, ms: seq<Micro>, ns: seq<Micro>)
    ensures MicroRun(s, ms + ns) == MicroRun(MicroRun(s, ms), ns)
    decreases |ns|
  {
    hide MicroStep;
    if ns == [] {
      assert ms + ns == ms;
    } else {
      MicroRunSplit(s, ms, ns[..|ns| - 1]);
      assert (ms + ns)[..|ms + ns| - 1] == ms + ns[..|ns| - 1];
    }
  }

  lemma DoesMore(s: Session, ms: seq<Micro>, t: Session, m: Micro, u: Session)
    requires Does(s, ms, t) && SameNumbers(MicroStep(t, m), u)
    ensures Does(s, ms + [m], u)
  {
    hide MicroStep;
    MicroAlike(MicroRun(s, ms), t, m);
    assert (ms + [m])[..|ms|] == ms;
  }

  lemma DoesThen(s: Session, ms: seq<Micro>, t: Session, ns: seq<Micro>, u: Session)
    requires Does(s, ms, t) && Does(t, ns, u)
    ensures Does(s, ms + ns, u)
  {
    hide MicroRun;
    MicroRunSplit(s, ms, ns);
    MicroRunAlike(MicroRun(s, ms), t, ns);
  }

  lemma DoesOne(s: Session, m: Micro, u: Session)
    requires SameNumbers(MicroStep(s, m), u)
    ensures Does(s, [m], u)
  {
    hide MicroStep;
    assert [m][..0] == [];
    assert MicroRun(s, [m]) == MicroStep(s, m);
  }

  lemma DisconnectDoes(s: Session) returns (ms: seq<Micro>)
    ensures Does(s, ms, Disconnect(s))
  {
    hide TransmitRaw, Does, MicroRun;
    ms := [];
    DoesNothing(s);
    if s.state != DISCONNECTED {
      var a := s.(state := DISCONNECTED);
      var t := TransmitRaw(a, CLOSE, NONE, []);
      TransmitAlike(a, s, CLOSE, NONE, []);
      DoesOne(s, Transmit(CLOSE, NONE, []), t);
      DoesMore(s, [Transmit(CLOSE, NONE, [])], t, SetSocket(false), Closed(t));
      DoesMore(s, [Transmit(CLOSE, NONE, [])] + [SetSocket(false)], Closed(t), Other(OnDisconnected(t.lastError)),
               Disconnect(s));
      ms := [Transmit(CLOSE, NONE, [])] + [SetSocket(false)] + [Other(OnDisconnected(t.lastError))];
    }
  }

  lemma DoesNothing(s: Session)
    ensures Does(s, [], s)
  {
  }

  lemma FailDoes(s: Session, error: ClientError) returns (ms: seq<Micro>)
    ensures Does(s, ms, Fail(s, error))
  {
    hide Disconnect, Does, MicroRun;
    DoesOne(s, Other(OnError(error)), Report(s, error));
    ms := DisconnectDoes(Report(s, error));
    DoesThen(s, [Other(OnError(error))], Report(s, error), ms, Fail(s, error));
    ms := [Other(OnError(error))] + ms;
  }

  lemma ResolvedDoes(s: Session, r: Resolution) returns (ms: seq<Micro>)
    ensures Does(s, ms, Resolved(s, r))
  {
    hide Fail, TransmitRaw, VersionBytes, Does, MicroRun;
    ms := [];
    DoesNothing(s);
    if s.state == CONNECTING {
      if r == NoEndpoint {
        ms := FailDoes(s, DNS_RESOLVE);
      } else if s.socketOpen || r == OpenFails {
        ms := FailDoes(s, SOCKET_IO);
      } else {
        var t := Note(s.(socketOpen := true), Opened(r.port));
        DoesOne(s, SetSocket(true), s.(socketOpen := true));
        DoesMore(s, [SetSocket(true)], s.(socketOpen := true), Other(Opened(r.port)), t);
        var opening := [SetSocket(true)] + [Other(Opened(r.port))];
        if r.BindFails? {
          ms := FailDoes(t, SOCKET_IO);
          DoesThen(s, opening, t, ms, Resolved(s, r));
          ms := opening + ms;
        } else {
          var payload := VersionBytes(Version(s.dmrId, OPEN_TERMINAL, s.description));
          TransmitAlike(t, ReceiveLoopStarted(t), KEEP_ALIVE, NONE, payload);
          DoesMore(s, opening, t, Transmit(KEEP_ALIVE, NONE, payload), Resolved(s, r));
          ms := opening + [Transmit(KEEP_ALIVE, NONE, payload)];
        }
      }
    }
  }

  lemma DoesFrom(s: Session, t: Session, ms: seq<Micro>, u: Session)
    requires SameNumbers(s, t) && Does(t, ms, u)
    ensures Does(s, ms, u)
  {
    hide MicroRun;
    MicroRunAlike(s, t, ms);
  }

  lemma TimeoutDoes(s: Session, aborted: bool) returns (ms: seq<Micro>)
    ensures Does(s, ms, TimeoutFired(s, aborted))
  {
    hide Fail, Does, MicroRun;
    ms := [];
    DoesNothing(s);
    if !aborted {
      var t := s.(timeoutArmed := false, startups := TimerStopped(s.startups));
      DoesNothing(t);
      if s.state == CONNECTING || s.state == AUTHENTICATING {
        ms := FailDoes(t, RESPONSE_TIMEOUT);
      }
      DoesFrom(s, t, ms, TimeoutFired(s, aborted));
    }
  }

  lemma KeepAliveDoes(s: Session, aborted: bool) returns (ms: seq<Micro>)
    ensures Does(s, ms, KeepAliveFired(s, aborted))
  {
    hide TransmitRaw, VersionBytes;
    ms := [];
    if !aborted && s.state == CONNECTED {
      var payload := VersionBytes(Version(s.dmrId, OPEN_TERMINAL, s.description));
      TransmitAlike(s, s.(keepAliveArmed := false), KEEP_ALIVE, NONE, payload);
      ms := [Transmit(KEEP_ALIVE, NONE, payload)];
      DoesOne(s, Transmit(KEEP_ALIVE, NONE, payload), KeepAliveFired(s, aborted));
    }
  }

  lemma ReceiveFailedDoes(s: Session, aborted: bool) returns (ms: seq<Micro>)
    ensures Does(s, ms, ReceiveFailed(s, aborted))
  {
    hide Fail, Does, MicroRun;
    var t := s.(receiving := false);
    ms := [];
    DoesNothing(t);
    if t.state != DISCONNECTED && !aborted {
      ms := FailDoes(t, SOCKET_IO);
    }
    DoesFrom(s, t, ms, ReceiveFailed(s, aborted));
  }

  lemma ChallengeDoes(s: Session, salt: seq<bv8>) returns (ms: seq<Micro>)
    ensures Does(s, ms, Challenge(s, salt))
  {
    hide TransmitRaw, Fips.Hash, Does, MicroRun;
    ms := [];
    DoesNothing(s);
    if s.state == CONNECTING {
      var t := Note(s.(state := AUTHENTICATING), Challenged(salt));
      var digest := Fips.Hash(salt + s.password);
      DoesOne(s, Other(Challenged(salt)), t);
      DoesMore(s, [Other(Challenged(salt))], t, Transmit(AUTHENTICATION, NONE, digest), Challenge(s, salt));
      ms := [Other(Challenged(salt))] + [Transmit(AUTHENTICATION, NONE, digest)];
    }
  }

  lemma NoteDoes(s: Session, e: Entry, t: Session)
    requires !e.Sent? && !e.CallBegan? && SameNumbers(Note(s, e), t)
    ensures Does(s, [Other(e)], t)
  {
    hide Does, MicroRun;
    DoesOne(s, Other(e), t);
  }

  lemma ProcessPacketDoes(s: Session, packet: seq<bv8>) returns (ms: seq<Micro>)
    ensures Does(s, ms, ProcessPacket(s, packet))
  {
    hide ParseFrame, Challenge, Callback, Does, MicroRun;
    ms := [];
    DoesNothing(s);
    if ParseFrame(packet).Some? {
      var f := ParseFrame(packet).value;
      if f.header.kind == CHALLENGE {
        ms := ChallengeDoes(s, f.payload);
      } else if f.header.kind == KEEP_ALIVE {
        if f.payload == [] && s.state == AUTHENTICATING {
          NoteDoes(s, OnConnected, Confirm(s));
          ms := [Other(OnConnected)];
        }
      } else if Callback(f.header, f.payload).Some? {
        CallbackDelivers(f.header, f.payload);
        NoteDoes(s, Callback(f.header, f.payload).value, ProcessPacket(s, packet));
        ms := [Other(Callback(f.header, f.payload).value)];
      }
    }
  }

  lemma HandleReceiveDoes(s: Session, datagram: seq<bv8>, fromServer: bool) returns (ms: seq<Micro>)
    ensures Does(s, ms, HandleReceive(s, datagram, fromServer))
  {
    hide ProcessPacket, MicroRun, Received;
    ms := [];
    DoesNothing(s);
    if s.state != DISCONNECTED && datagram != [] && fromServer {
      ms := ProcessPacketDoes(s, Received(datagram));
    }
  }

  lemma SendRoutineDoes(s: Session, kind: bv16, payload: seq<bv8>) returns (ms: seq<Micro>)
    ensures Does(s, ms, SendRoutine(s, kind, payload))
  {
    hide TransmitRaw, Does, MicroRun;
    ms := [];
    DoesNothing(s);
    if s.state == CONNECTED {
      DoesOne(s, Transmit(kind, NONE, payload), TransmitRaw(s, kind, NONE, payload));
      ms := [Transmit(kind, NONE, payload)];
    }
  }

  lemma StartVoiceDoes(s: Session, source: bv32, destination: bv32, isGroup: bool) returns (ms: seq<Micro>)
    ensures Does(s, ms, StartVoiceCall(s, source, destination, isGroup))
  {
    hide TransmitRaw, VoiceHeaderBytes, CallStarted, Does, MicroRun;
    ms := [];
    DoesNothing(s);
    if s.state == CONNECTED {
      var header := VoiceHeaderBytes(source, destination, isGroup);
      var m := Transmit(VOICE_HEADER, REAL_TIME_1, header);
      var t0 := CallStarted(s);
      var t1 := SendHeader(t0, header);
      var t2 := SendHeader(t1, header);
      DoesOne(s, StartCall, t0);
      DoesMore(s, [StartCall], t0, m, t1);
      DoesMore(s, [StartCall] + [m], t1, m, t2);
      DoesMore(s, [StartCall] + [m] + [m], t2, m, SendHeader(t2, header));
      ms := [StartCall] + [m] + [m] + [m];
    }
  }

  lemma VoicePacketDoes(s: Session, e: Event) returns (ms: seq<Micro>)
    requires e.CallSendAudio? || e.CallEndVoice?
    ensures Does(s, ms, Step(s, e))
  {
    hide TransmitRaw, MicroRun;
    ms := [];
    DoesNothing(s);
    if s.state == CONNECTED && s.inCall {
      var m := if e.CallSendAudio? then Transmit(DMR_AUDIO_FRAME, REAL_TIME_1, e.ambe)
               else Transmit(VOICE_TERMINATOR, REAL_TIME_1, []);
      DoesOne(s, m, Step(s, e));
      ms := [m];
    }
  }

  /**
   Every call and handler of a session is a sequence of such micro-steps, as far as history and numbers go, so
   any interleaving of what two threads do is one, too.
   */
  lemma StepDoes(s: Session, e: Event) returns (ms: seq<Micro>)
    requires !e.CallConnect? && !e.CallConnectFails?
    ensures Does(s, ms, Step(s, e))
  {
    hide Disconnect, SendRoutine, StartVoiceCall, Resolved, TimeoutFired, KeepAliveFired, ReceiveFailed,
         HandleReceive, TextBytes, LocationBytes, SubscriptionBytes, Does, MicroRun;
    ms := [];
    DoesNothing(s);
    match e
    case CallDisconnect => ms := DisconnectDoes(s);
    case CallSubscribe(talkgroup) =>
      ms := SendRoutineDoes(s, SUBSCRIPTION, SubscriptionBytes(Subscription(SESSION_TYPE_GROUP_VOICE, talkgroup)));
    case CallUnsubscribe(talkgroup) =>
      ms := SendRoutineDoes(s, CANCELLING, SubscriptionBytes(Subscription(SESSION_TYPE_GROUP_VOICE, talkgroup)));
    case CallSendText(destination, isGroup, text) =>
      ms := SendRoutineDoes(s, MESSAGE_TEXT, TextBytes(Text(s.dmrId, destination, isGroup, text)));
    case CallSendLocation(nmea) => ms := SendRoutineDoes(s, LOCATION_REPORT, LocationBytes(Location(0, nmea)));
    case CallStartVoice(source, callee, toGroup) => ms := StartVoiceDoes(s, source, callee, toGroup);
    case CallSendAudio(_) => ms := VoicePacketDoes(s, e);
    case CallEndVoice => ms := VoicePacketDoes(s, e);
    case ResolverDone(r) => ms := ResolvedDoes(s, r);
    case TimeoutTimer(aborted) => ms := TimeoutDoes(s, aborted);
    case KeepAliveTimer(aborted) => ms := KeepAliveDoes(s, aborted);
    case ReceiveError(aborted) =>
      if aborted != s.receiving {
        ms := ReceiveFailedDoes(s, aborted);
      }
    case Datagram(bytes, fromServer) =>
      if s.receiving {
        ms := HandleReceiveDoes(s, bytes, fromServer);
      }
  }

  /** A session begins so. */
  lemma ConnectNumbers(s: Session, password: seq<bv8>)
    requires s.state == DISCONNECTED
    ensures NumbersMatch(Connect(s, password))
  {
    NoNumbers();
    NumberedMore([], Began(password));
    assert [] + [Began(password)] == [Began(password)];
  }
}
