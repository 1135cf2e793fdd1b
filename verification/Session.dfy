/**
 The client session on values (src/Client.cpp): one function for every API call and every handler, each taking the
 client from one state to the next. A run is any sequence of such steps.

 Outside the client's control are the outcome of every `send_to` (`failing`, indexed by the attempt), what the
 resolver and the socket report, which datagrams arrive, and when timers fire.
 */
module Session {
  import opened Bits
  import opened Wire
  import Fips

  datatype State = DISCONNECTED | CONNECTING | AUTHENTICATING | CONNECTED

  datatype ClientError = SUCCESS | SOCKET_IO | DNS_RESOLVE | RESPONSE_TIMEOUT | ALREADY_CONNECTED

  /** A packet handed to TransmitRaw, with the number it was given. */
  datatype Packet = Packet(kind: bv16, flags: bv16, number: nat, payload: seq<bv8>)

  function PacketBytes(p: Packet): (r: seq<bv8>) {
    Frame(p.kind, p.flags, Low32(p.number), p.payload)
  }

  /**
   The history of a session: attempted sends and callbacks in order, and four marks that nobody outside sees -
   the start, the opened socket with its local port, the accepted challenge, the reset of the real-time counter.
   */
  datatype Entry =
    | Began(password: seq<bv8>)
    | Opened(port: nat)
    | Challenged(salt: seq<bv8>)
    | CallBegan
    | Sent(packet: Packet)
    | OnConnected
    | OnDisconnected(reason: ClientError)
    | OnError(error: ClientError)
    | OnDebugReport(report: seq<bv8>)
    | OnTextMessage(message: Text)
    | OnTextMessageStatus(status: Status)
    | OnLocationRequest(request: Request)
    | OnLocationReport(location: Location)
    | OnVoiceHeader(voice: Voice)
    | OnVoiceTerminator
    | OnAudioFrame(number: bv32, ambe: seq<bv8>)

  /** What failed starts of a connection have left: their calls of onError, and whether a timer of theirs is armed. */
  datatype Startups = Startups(errors: seq<ClientError>, timer: bool)

  datatype Session = Session(
    dmrId: bv32, description: seq<bv8>,
    password: seq<bv8>, state: State, lastError: ClientError,
    routineSeq: nat, realTimeSeq: nat, inCall: bool,
    socketOpen: bool, receiving: bool, timeoutArmed: bool, keepAliveArmed: bool,
    failing: nat -> bool, sends: nat, startups: Startups,
    past: seq<seq<Entry>>, cur: seq<Entry>)

  /** The histories of all sessions so far, the current or last one at the end. */
  function Sessions(s: Session): (r: seq<seq<Entry>>)
    ensures |r| == |s.past| + 1
  {
    s.past + [s.cur]
  }

  /** The datagrams of a history: the bytes of every attempted send, in order. */
  function Datagrams(h: seq<Entry>): (r: seq<seq<bv8>>) {
    if h == [] then []
    else Datagrams(h[..|h| - 1]) + (if h[|h| - 1].Sent? then [PacketBytes(h[|h| - 1].packet)] else [])
  }

  lemma MoreDatagrams(h: seq<Entry>, e: Entry)
    ensures Datagrams(h + [e]) == Datagrams(h) + if e.Sent? then [PacketBytes(e.packet)] else []
  {
    hide PacketBytes;
    assert (h + [e])[..|h|] == h;
  }

  function Note(s: Session, e: Entry): (r: Session) {
    s.(cur := s.cur + [e])
  }

  // ----- Private helpers -----

  function IsRealTime(flags: bv16): (r: bool) { flags & REAL_TIME_1 != 0 }

  /** TransmitRaw up to the send: takes the number and counts it. */
  function Numbered(s: Session, kind: bv16, flags: bv16, payload: seq<bv8>): (r: Session) {
    Note(Counted(s, flags), Sent(Outgoing(s, kind, flags, payload)))
  }

  /** The packet TransmitRaw would send now. */
  function Outgoing(s: Session, kind: bv16, flags: bv16, payload: seq<bv8>): (r: Packet) {
    Packet(kind, flags, if IsRealTime(flags) then s.realTimeSeq else s.routineSeq, payload)
  }

  function Counted(s: Session, flags: bv16): (r: Session) {
    s.(realTimeSeq := if IsRealTime(flags) then (s.realTimeSeq + 1) % TWO32 else s.realTimeSeq,
       routineSeq := if IsRealTime(flags) then s.routineSeq else (s.routineSeq + 1) % TWO32)
  }

  function Report(s: Session, error: ClientError): (r: Session) {
    Note(s.(lastError := error), OnError(error))
  }

  function TransmitRaw(s: Session, kind: bv16, flags: bv16, payload: seq<bv8>): (r: Session) {
    if !s.socketOpen then s
    else
      var t := Attempted(s, kind, flags, payload);
      if s.failing(s.sends) then Report(t, SOCKET_IO) else t
  }

  /** The send is attempted, whatever comes of it. */
  function Attempted(s: Session, kind: bv16, flags: bv16, payload: seq<bv8>): (r: Session) {
    Numbered(s, kind, flags, payload).(sends := s.sends + 1)
  }

  function SendKeepAlive(s: Session): (r: Session) {
    TransmitRaw(s, KEEP_ALIVE, NONE, VersionBytes(Version(s.dmrId, OPEN_TERMINAL, s.description)))
  }

  // ----- Connection -----

  function Connect(s: Session, password: seq<bv8>): (r: Session) {
    if s.state != DISCONNECTED then s
    else s.(password := password, routineSeq := 0, realTimeSeq := 0, inCall := false, lastError := SUCCESS,
            state := CONNECTING, timeoutArmed := true, startups := TimerStopped(s.startups),
            past := if s.cur == [] then s.past else Sessions(s), cur := [Began(password)])
  }

  /** Whether Connect gets through; if it throws, whether the timeout timer was set before. */
  datatype Startup = Starts | Throws(timerSet: bool)

  /**
   Connect when something throws (src/Client.cpp:157-163): the fields are reset, onError is called and no session
   begins; a timer set before that belongs to none.
   */
  function StartupFailed(s: Session, password: seq<bv8>, timerSet: bool): (r: Session) {
    if s.state != DISCONNECTED then s
    else s.(password := password, routineSeq := 0, realTimeSeq := 0, inCall := false, lastError := SUCCESS,
            startups := Startups(s.startups.errors + [SOCKET_IO], s.startups.timer || timerSet))
  }

  /** No timer of a failed start is armed any more. */
  function TimerStopped(startups: Startups): (r: Startups) {
    startups.(timer := false)
  }

  function ConnectResult(s: Session, startup: Startup): (r: ClientError) {
    if s.state != DISCONNECTED then ALREADY_CONNECTED else if startup.Starts? then SUCCESS else SOCKET_IO
  }

  function Disconnect(s: Session): (r: Session) {
    if s.state == DISCONNECTED then s
    else
      var t := TransmitRaw(s.(state := DISCONNECTED), CLOSE, NONE, []);
      Note(Closed(t), OnDisconnected(t.lastError))
  }

  /** Timers cancelled, socket closed. */
  function Closed(s: Session): (r: Session) {
    s.(keepAliveArmed := false, timeoutArmed := false, socketOpen := false, receiving := false)
  }

  function Fail(s: Session, error: ClientError): (r: Session) {
    Disconnect(Report(s, error))
  }

  /** What resolving, opening and binding came to; `port` is the local port of the opened socket. */
  datatype Resolution = NoEndpoint | OpenFails | BindFails(port: nat) | Bound(port: nat)

  /** The resolver's handler (src/Client.cpp:100-155). Opening an already open socket fails. */
  function Resolved(s: Session, r: Resolution): (result: Session) {
    if s.state != CONNECTING then s
    else if r == NoEndpoint then Fail(s, DNS_RESOLVE)
    else if s.socketOpen || r == OpenFails then Fail(s, SOCKET_IO)
    else
      var t := Note(s.(socketOpen := true), Opened(r.port));
      if r.BindFails? then Fail(t, SOCKET_IO) else SendKeepAlive(ReceiveLoopStarted(t))
  }

  /** What ConnectSync returns once its wait is over (src/Client.cpp:179-183). */
  function SyncResult(s: Session): (r: ClientError) {
    if s.state != CONNECTED then (if s.lastError != SUCCESS then s.lastError else RESPONSE_TIMEOUT) else SUCCESS
  }

  // ----- Timers -----

  // A timer that fires is no longer armed.

  function TimeoutFired(s: Session, aborted: bool): (r: Session) {
    if aborted then s
    else
      var t := s.(timeoutArmed := false, startups := TimerStopped(s.startups));
      if t.state != CONNECTING && t.state != AUTHENTICATING then t else Fail(t, RESPONSE_TIMEOUT)
  }

  function KeepAliveFired(s: Session, aborted: bool): (r: Session) {
    if aborted then s
    else
      var t := s.(keepAliveArmed := false);
      if t.state != CONNECTED then t else SendKeepAlive(t).(keepAliveArmed := true)
  }

  // ----- Receiving -----

  const RECEIVE_BUFFER := 1024

  function Received(datagram: seq<bv8>): (b: seq<bv8>)
    ensures |b| <= RECEIVE_BUFFER && b <= datagram
  {
    if |datagram| <= RECEIVE_BUFFER then datagram else datagram[..RECEIVE_BUFFER]
  }

  function ReceiveLoopStarted(s: Session): (r: Session) {
    if s.state == DISCONNECTED || !s.socketOpen then s else s.(receiving := true)
  }

  // A receive that completes is no longer pending.

  function ReceiveFailed(s: Session, aborted: bool): (r: Session) {
    var t := s.(receiving := false);
    if t.state == DISCONNECTED || aborted then t else Fail(t, SOCKET_IO)
  }

  function HandleReceive(s: Session, datagram: seq<bv8>, fromServer: bool): (r: Session) {
    if s.state == DISCONNECTED then s.(receiving := false)
    else
      var t := if datagram == [] || !fromServer then s else ProcessPacket(s, Received(datagram));
      ReceiveLoopStarted(t.(receiving := false))
  }

  function ProcessPacket(s: Session, packet: seq<bv8>): (r: Session) {
    match ParseFrame(packet)
    case None => s
    case Some(f) => Dispatch(s, f.header, f.payload)
  }

  function Dispatch(s: Session, h: Header, payload: seq<bv8>): (r: Session) {
    if h.kind == CHALLENGE then Challenge(s, payload)
    else if h.kind == KEEP_ALIVE then (if payload == [] then Confirm(s) else s)
    else Deliver(s, h, payload)
  }

  function Challenge(s: Session, salt: seq<bv8>): (r: Session) {
    if s.state != CONNECTING then s
    else TransmitRaw(Note(s.(state := AUTHENTICATING), Challenged(salt)), AUTHENTICATION, NONE,
                     Fips.Hash(salt + s.password))
  }

  function Confirm(s: Session): (r: Session) {
    if s.state != AUTHENTICATING then s
    else Note(s.(state := CONNECTED, timeoutArmed := false, keepAliveArmed := true), OnConnected)
  }

  /** The callbacks for everything that does not concern the login. */
  function Deliver(s: Session, h: Header, payload: seq<bv8>): (r: Session) {
    match Callback(h, payload)
    case None => s
    case Some(e) => Note(s, e)
  }

  function Callback(h: Header, payload: seq<bv8>): (r: Option<Entry>) {
    if h.kind == REPORT then Some(OnDebugReport(payload))
    else if h.kind == MESSAGE_TEXT then
      (match ParseText(payload) case None => None case Some(t) => Some(OnTextMessage(t)))
    else if h.kind == MESSAGE_STATUS then
      (match ParseStatus(payload) case None => None case Some(t) => Some(OnTextMessageStatus(t)))
    else if h.kind == LOCATION_REQUEST then
      (match ParseRequest(payload) case None => None case Some(r) => Some(OnLocationRequest(r)))
    else if h.kind == LOCATION_REPORT then
      (match ParseLocation(payload) case None => None case Some(l) => Some(OnLocationReport(l)))
    else if h.kind == VOICE_HEADER then
      (match ParseVoiceHeader(payload) case None => None case Some(v) => Some(OnVoiceHeader(v)))
    else if h.kind == VOICE_TERMINATOR then Some(OnVoiceTerminator)
    else if h.kind == DMR_AUDIO_FRAME then Some(OnAudioFrame(h.number, payload))
    else None
  }

  // ----- The transmitting API -----

  function SendRoutine(s: Session, kind: bv16, payload: seq<bv8>): (r: Session) {
    if s.state != CONNECTED then s else TransmitRaw(s, kind, NONE, payload)
  }

  function Subscribe(s: Session, talkgroup: bv32): (r: Session) {
    SendRoutine(s, SUBSCRIPTION, SubscriptionBytes(Subscription(SESSION_TYPE_GROUP_VOICE, talkgroup)))
  }

  function Unsubscribe(s: Session, talkgroup: bv32): (r: Session) {
    SendRoutine(s, CANCELLING, SubscriptionBytes(Subscription(SESSION_TYPE_GROUP_VOICE, talkgroup)))
  }

  function SendTextMessage(s: Session, destination: bv32, isGroup: bool, text: seq<bv8>): (r: Session) {
    SendRoutine(s, MESSAGE_TEXT, TextBytes(Text(s.dmrId, destination, isGroup, text)))
  }

  function SendLocationReport(s: Session, nmea: seq<bv8>): (r: Session) {
    SendRoutine(s, LOCATION_REPORT, LocationBytes(Location(0, nmea)))
  }

  /** The call state and counter set before the first header goes out. */
  function CallStarted(s: Session): (r: Session) {
    Note(s.(inCall := true, realTimeSeq := 0), CallBegan)
  }

  function StartVoiceCall(s: Session, source: bv32, destination: bv32, isGroup: bool): (r: Session) {
    if s.state != CONNECTED then s
    else
      var header := VoiceHeaderBytes(source, destination, isGroup);
      SendHeader(SendHeader(SendHeader(CallStarted(s), header), header), header)
  }

  function SendHeader(s: Session, header: seq<bv8>): (r: Session) {
    TransmitRaw(s, VOICE_HEADER, REAL_TIME_1, header)
  }

  function SendAudioFrame(s: Session, ambe: seq<bv8>): (r: Session) {
    if s.state != CONNECTED || !s.inCall then s else TransmitRaw(s, DMR_AUDIO_FRAME, REAL_TIME_1, ambe)
  }

  function EndVoiceCall(s: Session): (r: Session) {
    if s.state != CONNECTED || !s.inCall then s
    else TransmitRaw(s, VOICE_TERMINATOR, REAL_TIME_1, []).(inCall := false)
  }

  // ----- Runs -----

  datatype Event =
    | CallConnect(password: seq<bv8>)
    | CallConnectFails(password: seq<bv8>, timerSet: bool)
    | CallDisconnect
    | CallSubscribe(talkgroup: bv32)
    | CallUnsubscribe(talkgroup: bv32)
    | CallSendText(destination: bv32, isGroup: bool, text: seq<bv8>)
    | CallSendLocation(nmea: seq<bv8>)
    | CallStartVoice(source: bv32, callee: bv32, toGroup: bool)
    | CallSendAudio(ambe: seq<bv8>)
    | CallEndVoice
    | ResolverDone(resolution: Resolution)
    | TimeoutTimer(aborted: bool)
    | KeepAliveTimer(aborted: bool)
    | ReceiveError(aborted: bool)
    | Datagram(bytes: seq<bv8>, fromServer: bool)

  /**
   One step. Any step may come at any time, a timer that fires late included; but a datagram or an error needs a
   pending receive, and only closing the socket aborts one, which leaves none pending.
   */
  function Step(s: Session, e: Event): (r: Session) {
    match e
    case CallConnect(password) => Connect(s, password)
    case CallConnectFails(password, timerSet) => StartupFailed(s, password, timerSet)
    case CallDisconnect => Disconnect(s)
    case CallSubscribe(talkgroup) => Subscribe(s, talkgroup)
    case CallUnsubscribe(talkgroup) => Unsubscribe(s, talkgroup)
    case CallSendText(destination, isGroup, text) => SendTextMessage(s, destination, isGroup, text)
    case CallSendLocation(nmea) => SendLocationReport(s, nmea)
    case CallStartVoice(source, callee, toGroup) => StartVoiceCall(s, source, callee, toGroup)
    case CallSendAudio(ambe) => SendAudioFrame(s, ambe)
    case CallEndVoice => EndVoiceCall(s)
    case ResolverDone(r) => Resolved(s, r)
    case TimeoutTimer(aborted) => TimeoutFired(s, aborted)
    case KeepAliveTimer(aborted) => KeepAliveFired(s, aborted)
    case ReceiveError(aborted) => if aborted == s.receiving then s else ReceiveFailed(s, aborted)
    case Datagram(bytes, fromServer) => if s.receiving then HandleReceive(s, bytes, fromServer) else s
  }

  function Run(s: Session, events: seq<Event>): (r: Session) {
    if events == [] then s else Step(Run(s, events[..|events| - 1]), events[|events| - 1])
  }

  /** A newly constructed client. */
  ghost predicate Initial(s: Session) {
    && s.state == DISCONNECTED && s.lastError == SUCCESS && s.routineSeq == 0 && s.realTimeSeq == 0 && !s.inCall
    && !s.socketOpen && !s.receiving && !s.timeoutArmed && !s.keepAliveArmed && s.sends == 0
    && s.startups == Startups([], false) && s.past == [] && s.cur == []
  }
}
