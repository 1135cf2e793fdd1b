/**
 What each call and handler adds to the history, entry by entry, and where it does nothing: the failing branches, the
 errors reported, the calls refused.
 */
module Effects {
  import opened Session
  import opened SessionProofs
  import opened Wire
  import Fips

  // ----- One transmission -----

  /** What an attempt to send leaves: nothing on a closed socket, and the error right after a send that failed. */
  function SendEntries(s: Session, kind: bv16, flags: bv16, payload: seq<bv8>): (entries: seq<Entry>) {
    if !s.socketOpen then []
    else [Sent(Outgoing(s, kind, flags, payload))] + if s.failing(s.sends) then [OnError(SOCKET_IO)] else []
  }

  lemma AttemptedEntry(s: Session, kind: bv16, flags: bv16, payload: seq<bv8>)
    ensures Attempted(s, kind, flags, payload).cur == s.cur + [Sent(Outgoing(s, kind, flags, payload))]
    ensures Attempted(s, kind, flags, payload).lastError == s.lastError
    ensures Attempted(s, kind, flags, payload).sends == s.sends + 1
  {
    hide IsRealTime, Outgoing;
  }

  /**
   Of a packet that is sent, exactly this: on an open socket a failing send is followed by onError(SOCKET_IO) and
   sets the last error, a succeeding one is followed by nothing; on a closed socket nothing happens.
   */
  lemma TransmitExactly(s: Session, kind: bv16, flags: bv16, payload: seq<bv8>)
    ensures var t := TransmitRaw(s, kind, flags, payload);
      && t.cur == s.cur + SendEntries(s, kind, flags, payload)
      && t.lastError == (if s.socketOpen && s.failing(s.sends) then SOCKET_IO else s.lastError)
      && t.sends == (if s.socketOpen then s.sends + 1 else s.sends)
      && (!s.socketOpen ==> t == s)
      && SameButSent(s, t)
  {
    hide Attempted, Outgoing;
    TransmitSame(s, kind, flags, payload);
    AttemptedEntry(s, kind, flags, payload);
    if s.socketOpen {
      assert s.cur + [Sent(Outgoing(s, kind, flags, payload))] + [OnError(SOCKET_IO)]
          == s.cur + ([Sent(Outgoing(s, kind, flags, payload))] + [OnError(SOCKET_IO)]);
    } else {
      assert s.cur + [] == s.cur;
    }
  }

  // ----- Connecting and disconnecting -----

  /** A client that is not disconnected refuses and stays as it is; another starts afresh. */
  lemma ConnectExactly(s: Session, password: seq<bv8>, startup: Startup)
    ensures ConnectResult(s, startup) == ALREADY_CONNECTED <==> s.state != DISCONNECTED
    ensures s.state != DISCONNECTED ==> Connect(s, password) == s && forall b :: StartupFailed(s, password, b) == s
    ensures s.state == DISCONNECTED ==>
      var t := Connect(s, password);
      && ConnectResult(s, Starts) == SUCCESS && (forall b :: ConnectResult(s, Throws(b)) == SOCKET_IO)
      && t.state == CONNECTING && t.cur == [Began(password)] && t.password == password
      && t.lastError == SUCCESS && t.routineSeq == 0 && t.realTimeSeq == 0 && !t.inCall && t.timeoutArmed
      && t.socketOpen == s.socketOpen && t.sends == s.sends
    ensures s.state == DISCONNECTED ==>
      forall b :: var t := StartupFailed(s, password, b);
        && t.state == DISCONNECTED && t.cur == s.cur && t.past == s.past && t.lastError == SUCCESS
        && t.startups.errors == s.startups.errors + [SOCKET_IO]
  {
  }

  /** Disconnect: CLOSE if there is a socket to send it on, then onDisconnected with the last error; nothing twice. */
  lemma DisconnectExactly(s: Session)
    ensures s.state == DISCONNECTED ==> Disconnect(s) == s
    ensures s.state != DISCONNECTED ==>
      var t := Disconnect(s);
      var reason := if s.socketOpen && s.failing(s.sends) then SOCKET_IO else s.lastError;
      && t.state == DISCONNECTED && !t.socketOpen && !t.receiving && !t.timeoutArmed && !t.keepAliveArmed
      && t.cur == s.cur + SendEntries(s, CLOSE, NONE, []) + [OnDisconnected(reason)] && t.lastError == reason
      && t.past == s.past
  {
    hide TransmitRaw;
    if s.state != DISCONNECTED {
      var a := s.(state := DISCONNECTED);
      TransmitExactly(a, CLOSE, NONE, []);
      SameEntries(s, a, CLOSE, NONE, []);
    }
  }

  lemma SameEntries(s: Session, t: Session, kind: bv16, flags: bv16, payload: seq<bv8>)
    requires t.socketOpen == s.socketOpen && t.failing == s.failing && t.sends == s.sends
    requires t.routineSeq == s.routineSeq && t.realTimeSeq == s.realTimeSeq
    ensures SendEntries(s, kind, flags, payload) == SendEntries(t, kind, flags, payload)
  {
    hide IsRealTime;
  }

  /** The same after an error, which is reported first. */
  lemma FailExactly(s: Session, error: ClientError)
    requires s.state != DISCONNECTED
    ensures var t := Fail(s, error);
      var reason := if s.socketOpen && s.failing(s.sends) then SOCKET_IO else error;
      && t.state == DISCONNECTED && !t.socketOpen && t.past == s.past
      && t.cur == s.cur + [OnError(error)] + SendEntries(s, CLOSE, NONE, []) + [OnDisconnected(reason)]
  {
    hide Disconnect, SendEntries;
    DisconnectExactly(Report(s, error));
    SameEntries(s, Report(s, error), CLOSE, NONE, []);
  }

  function HelloPayload(s: Session): (b: seq<bv8>) {
    VersionBytes(Version(s.dmrId, OPEN_TERMINAL, s.description))
  }

  /** The resolver's handler: which error in which case, and what happens when there is none. */
  lemma ResolvedExactly(s: Session, r: Resolution)
    ensures s.state != CONNECTING ==> Resolved(s, r) == s
    ensures s.state == CONNECTING && r == NoEndpoint ==> Resolved(s, r) == Fail(s, DNS_RESOLVE)
    ensures s.state == CONNECTING && !r.NoEndpoint? && (s.socketOpen || r == OpenFails) ==>
      Resolved(s, r) == Fail(s, SOCKET_IO)
    ensures s.state == CONNECTING && !s.socketOpen && (r.BindFails? || r.Bound?) ==>
      var t := Resolved(s, r); var bound := s.(socketOpen := true, cur := s.cur + [Opened(r.port)]);
      if r.BindFails? then t == Fail(bound, SOCKET_IO)
      else
        && t.cur == bound.cur + SendEntries(bound, KEEP_ALIVE, NONE, HelloPayload(s))
        && t.state == CONNECTING && t.socketOpen && t.receiving && t.past == s.past
  {
    hide Fail, TransmitRaw, VersionBytes;
    if s.state == CONNECTING && !s.socketOpen && r.Bound? {
      var bound := s.(socketOpen := true, cur := s.cur + [Opened(r.port)]);
      TransmitExactly(ReceiveLoopStarted(bound), KEEP_ALIVE, NONE, HelloPayload(s));
      SameEntries(bound, ReceiveLoopStarted(bound), KEEP_ALIVE, NONE, HelloPayload(s));
    }
  }

  // ----- Timers and errors -----

  lemma TimeoutExactly(s: Session)
    ensures TimeoutFired(s, true) == s
    ensures s.state == CONNECTING || s.state == AUTHENTICATING ==>
      TimeoutFired(s, false) == Fail(s.(timeoutArmed := false, startups := TimerStopped(s.startups)), RESPONSE_TIMEOUT)
    ensures s.state == CONNECTED || s.state == DISCONNECTED ==>
      TimeoutFired(s, false) == s.(timeoutArmed := false, startups := TimerStopped(s.startups))
  {
    hide Fail;
  }

  /** The keep-alive timer sends the identity data again, and goes on, in CONNECTED only. */
  lemma KeepAliveExactly(s: Session)
    ensures KeepAliveFired(s, true) == s
    ensures s.state != CONNECTED ==> KeepAliveFired(s, false) == s.(keepAliveArmed := false)
    ensures s.state == CONNECTED ==>
      var t := KeepAliveFired(s, false);
      && t.cur == s.cur + SendEntries(s, KEEP_ALIVE, NONE, HelloPayload(s))
      && t.keepAliveArmed && t.state == CONNECTED && t.past == s.past
  {
    hide TransmitRaw, VersionBytes;
    var a := s.(keepAliveArmed := false);
    TransmitExactly(a, KEEP_ALIVE, NONE, HelloPayload(s));
    SameEntries(s, a, KEEP_ALIVE, NONE, HelloPayload(s));
  }

  lemma ReceiveFailedExactly(s: Session, aborted: bool)
    ensures s.state == DISCONNECTED || aborted ==> ReceiveFailed(s, aborted) == s.(receiving := false)
    ensures s.state != DISCONNECTED && !aborted ==> ReceiveFailed(s, aborted) == Fail(s.(receiving := false), SOCKET_IO)
  {
    hide Fail;
  }

  // ----- Packets -----

  /** The login's two packets, each in one state only. */
  lemma LoginPacketsExactly(s: Session, salt: seq<bv8>)
    ensures s.state != CONNECTING ==> Challenge(s, salt) == s
    ensures s.state == CONNECTING ==>
      var t := Challenge(s, salt);
      && t.state == AUTHENTICATING && t.past == s.past
      && t.cur == s.cur + [Challenged(salt)]
                  + SendEntries(s, AUTHENTICATION, NONE, Fips.Hash(salt + s.password))
    ensures s.state != AUTHENTICATING ==> Confirm(s) == s
    ensures s.state == AUTHENTICATING ==>
      var t := Confirm(s);
      && t.state == CONNECTED && !t.timeoutArmed && t.keepAliveArmed && t.past == s.past
      && t.cur == s.cur + [OnConnected]
  {
    hide TransmitRaw, Fips.Hash;
    if s.state == CONNECTING {
      var a := Note(s.(state := AUTHENTICATING), Challenged(salt));
      TransmitExactly(a, AUTHENTICATION, NONE, Fips.Hash(salt + s.password));
      SameEntries(s, a, AUTHENTICATION, NONE, Fips.Hash(salt + s.password));
    }
  }

  /** The callback of every type, with what its payload says; a payload that says nothing raises nothing. */
  ghost predicate Raises(h: Header, payload: seq<bv8>, e: Entry) {
    || (h.kind == REPORT && e == OnDebugReport(payload))
    || (h.kind == MESSAGE_TEXT && e.OnTextMessage? && ParseText(payload) == Some(e.message))
    || (h.kind == MESSAGE_STATUS && e.OnTextMessageStatus? && ParseStatus(payload) == Some(e.status))
    || (h.kind == LOCATION_REQUEST && e.OnLocationRequest? && ParseRequest(payload) == Some(e.request))
    || (h.kind == LOCATION_REPORT && e.OnLocationReport? && ParseLocation(payload) == Some(e.location))
    || (h.kind == VOICE_HEADER && e.OnVoiceHeader? && ParseVoiceHeader(payload) == Some(e.voice))
    || (h.kind == VOICE_TERMINATOR && e == OnVoiceTerminator)
    || (h.kind == DMR_AUDIO_FRAME && e == OnAudioFrame(h.number, payload))
  }

  lemma CallbackRaises(h: Header, payload: seq<bv8>, e: Entry)
    ensures Callback(h, payload) == Some(e) <==> Raises(h, payload, e)
  {
    hide ParseText, ParseStatus, ParseRequest, ParseLocation, ParseVoiceHeader;
  }

  /** What a packet does: the login's two types, one callback, or nothing at all. */
  lemma DispatchExactly(s: Session, h: Header, payload: seq<bv8>)
    ensures h.kind == CHALLENGE ==> Dispatch(s, h, payload) == Challenge(s, payload)
    ensures h.kind == KEEP_ALIVE ==> Dispatch(s, h, payload) == if payload == [] then Confirm(s) else s
    ensures h.kind != CHALLENGE && h.kind != KEEP_ALIVE ==>
      var t := Dispatch(s, h, payload);
      if exists e :: Raises(h, payload, e) then exists e :: Raises(h, payload, e) && t == s.(cur := s.cur + [e])
      else t == s
  {
    hide Callback, Raises, Challenge, Confirm;
    if Callback(h, payload).Some? {
      CallbackRaises(h, payload, Callback(h, payload).value);
    }
    forall e
      ensures Callback(h, payload) == Some(e) <==> Raises(h, payload, e)
    {
      CallbackRaises(h, payload, e);
    }
  }

  // ----- Calls -----

  /** A call on a client that is not connected, and audio or an end outside a call, do nothing. */
  lemma CallsRefused(s: Session, e: Event)
    requires e.CallSubscribe? || e.CallUnsubscribe? || e.CallSendText? || e.CallSendLocation? || e.CallStartVoice?
             || e.CallSendAudio? || e.CallEndVoice?
    requires s.state != CONNECTED || (!s.inCall && (e.CallSendAudio? || e.CallEndVoice?))
    ensures Step(s, e) == s
  {
    hide TransmitRaw, SubscriptionBytes, TextBytes, LocationBytes, VoiceHeaderBytes;
  }

  /** The routine calls on a connected client: one packet each, of which type and with which payload. */
  lemma RoutineExactly(s: Session, talkgroup: bv32, destination: bv32, isGroup: bool, text: seq<bv8>, nmea: seq<bv8>)
    requires s.state == CONNECTED
    ensures Subscribe(s, talkgroup).cur == s.cur
      + SendEntries(s, SUBSCRIPTION, NONE, SubscriptionBytes(Subscription(SESSION_TYPE_GROUP_VOICE, talkgroup)))
    ensures Unsubscribe(s, talkgroup).cur == s.cur
      + SendEntries(s, CANCELLING, NONE, SubscriptionBytes(Subscription(SESSION_TYPE_GROUP_VOICE, talkgroup)))
    ensures SendTextMessage(s, destination, isGroup, text).cur == s.cur
      + SendEntries(s, MESSAGE_TEXT, NONE, TextBytes(Text(s.dmrId, destination, isGroup, text)))
    ensures SendLocationReport(s, nmea).cur == s.cur
      + SendEntries(s, LOCATION_REPORT, NONE, LocationBytes(Location(0, nmea)))
  {
    hide TransmitRaw, SendEntries, SubscriptionBytes, TextBytes, LocationBytes;
    var asked := SubscriptionBytes(Subscription(SESSION_TYPE_GROUP_VOICE, talkgroup));
    TransmitExactly(s, SUBSCRIPTION, NONE, asked);
    TransmitExactly(s, CANCELLING, NONE, asked);
    TransmitExactly(s, MESSAGE_TEXT, NONE, TextBytes(Text(s.dmrId, destination, isGroup, text)));
    TransmitExactly(s, LOCATION_REPORT, NONE, LocationBytes(Location(0, nmea)));
  }

  /** Audio and the end of a call on a connected client in a call. */
  lemma VoiceExactly(s: Session, ambe: seq<bv8>)
    requires s.state == CONNECTED && s.inCall
    ensures SendAudioFrame(s, ambe).cur == s.cur + SendEntries(s, DMR_AUDIO_FRAME, REAL_TIME_1, ambe)
    ensures SendAudioFrame(s, ambe).inCall
    ensures EndVoiceCall(s).cur == s.cur + SendEntries(s, VOICE_TERMINATOR, REAL_TIME_1, [])
    ensures !EndVoiceCall(s).inCall
  {
    hide TransmitRaw, SendEntries;
    TransmitExactly(s, DMR_AUDIO_FRAME, REAL_TIME_1, ambe);
    TransmitExactly(s, VOICE_TERMINATOR, REAL_TIME_1, []);
  }

  /** What ConnectSync returns after a session ended: the reason given to onDisconnected, or a timeout if none was. */
  lemma SyncAfterDisconnect(s: Session)
    requires s.state != DISCONNECTED
    ensures var t := Disconnect(s);
      && t.cur != [] && t.cur[|t.cur| - 1].OnDisconnected?
      && var reason := t.cur[|t.cur| - 1].reason;
         SyncResult(t) == if reason == SUCCESS then RESPONSE_TIMEOUT else reason
  {
    hide Disconnect, SendEntries;
    DisconnectExactly(s);
  }
}
