/**
 What a session's history may look like: an automaton that reads it entry by entry and says of each entry whether
 it may come now. It knows nothing of the client's fields.
 */
module Grammar {
  import opened Bits
  import opened Session
  import opened Wire
  import Fips

  /** Where the voice packets stand in ((H H H A*)+ T)*. */
  datatype Voicing = Quiet | OneHeader | TwoHeaders | Talking

  datatype Summary = Summary(
    began: bool, password: seq<bv8>, bound: bool, port: nat, challenged: bool, salt: seq<bv8>,
    auths: nat, connected: bool, closed: bool, ended: bool, voicing: Voicing, routine: nat, realTime: nat)

  const EMPTY := Summary(false, [], false, 0, false, [], 0, false, false, false, Quiet, 0, 0)

  function NextVoicing(v: Voicing, kind: bv16): (r: Voicing) {
    if kind == VOICE_HEADER then
      (match v
       case Quiet => OneHeader
       case OneHeader => TwoHeaders
       case TwoHeaders => Talking
       case Talking => OneHeader)
    else if kind == VOICE_TERMINATOR then Quiet
    else v
  }

  predicate VoiceAllowed(v: Voicing, kind: bv16) {
    kind == VOICE_HEADER || ((kind == VOICE_TERMINATOR || kind == DMR_AUDIO_FRAME) && v == Talking)
  }

  function AfterPacket(m: Summary, p: Packet): (r: Summary) {
    if IsRealTime(p.flags) then
      m.(realTime := m.realTime + 1, voicing := NextVoicing(m.voicing, p.kind))
    else
      m.(routine := m.routine + 1,
         auths := if p.kind == AUTHENTICATION then m.auths + 1 else m.auths,
         closed := m.closed || p.kind == CLOSE)
  }

  function Next(m: Summary, e: Entry): (r: Summary) {
    match e
    case Began(password) => m.(began := true, password := password)
    case Opened(port) => m.(bound := true, port := port)
    case Challenged(salt) => m.(challenged := true, salt := salt)
    case CallBegan => m.(realTime := 0)
    case Sent(p) => AfterPacket(m, p)
    case OnConnected => m.(connected := true)
    case OnDisconnected(_) => m.(ended := true)
    case _ => m
  }

  /** The number a packet must carry: how many of its stream came before it, mod 2^32. */
  predicate NumberRight(m: Summary, p: Packet) {
    p.number == (if IsRealTime(p.flags) then m.realTime else m.routine) % TWO32
  }

  predicate PacketAllowed(m: Summary, p: Packet) {
    if IsRealTime(p.flags) then m.connected && VoiceAllowed(m.voicing, p.kind)
    else if p.kind == AUTHENTICATION then
      m.challenged && m.auths == 0 && p.payload == Fips.Hash(m.salt + m.password)
    else if p.kind == KEEP_ALIVE then !m.challenged || m.connected
    else if p.kind == CLOSE then p.payload == []
    else m.connected && p.kind in {SUBSCRIPTION, CANCELLING, MESSAGE_TEXT, LOCATION_REPORT}
  }

  predicate Allowed(m: Summary, e: Entry) {
    && !m.ended && (e.Began? <==> !m.began)
    && match e
       case Began(_) => true
       case Opened(_) => !m.bound
       case Challenged(_) => m.bound && !m.challenged && !m.closed
       case CallBegan => m.connected && !m.closed
       case Sent(p) => m.bound && !m.closed && NumberRight(m, p) && PacketAllowed(m, p)
       case OnConnected => m.auths == 1 && !m.connected && !m.closed
       case OnDisconnected(_) => m.bound ==> m.closed
       case OnError(_) => true
       case _ => m.bound && !m.closed
  }

  function Summarize(h: seq<Entry>): (r: Summary) {
    if h == [] then EMPTY else Next(Summarize(h[..|h| - 1]), h[|h| - 1])
  }

  predicate WellOrdered(h: seq<Entry>) {
    h == [] || (WellOrdered(h[..|h| - 1]) && Allowed(Summarize(h[..|h| - 1]), h[|h| - 1]))
  }

  lemma Snoc(h: seq<Entry>, e: Entry)
    ensures Summarize(h + [e]) == Next(Summarize(h), e)
    ensures WellOrdered(h + [e]) <==> WellOrdered(h) && Allowed(Summarize(h), e)
  {
    assert (h + [e])[..|h|] == h;
  }

  // ----- The invariant tying the client's fields to its history -----

  predicate TimersAgree(s: Session) {
    && s.timeoutArmed == (s.state == CONNECTING || s.state == AUTHENTICATING)
    && s.keepAliveArmed == (s.state == CONNECTED)
    && (s.startups.timer ==> s.state == DISCONNECTED)
  }

  /** Socket and counters against the state. */
  predicate FieldsAgree(s: Session, m: Summary) {
    && (s.state == DISCONNECTED <==> s.cur == [] || m.ended)
    && (s.state != DISCONNECTED ==> m.began && !m.closed && m.password == s.password)
    && (s.state != DISCONNECTED ==> s.routineSeq == m.routine % TWO32 && s.realTimeSeq == m.realTime % TWO32)
    && s.socketOpen == (m.bound && s.state != DISCONNECTED)
  }

  /** How far the login got. */
  predicate LoginAgrees(s: Session, m: Summary) {
    && (s.state == CONNECTING ==> !m.challenged && m.auths == 0 && !m.connected)
    && (s.state == AUTHENTICATING ==> m.bound && m.challenged && m.auths == 1 && !m.connected)
    && (s.state == CONNECTED ==> m.bound && m.challenged && m.auths == 1 && m.connected)
    && (s.state == CONNECTED ==> m.voicing == if s.inCall then Talking else Quiet)
    && (s.state == CONNECTING || s.state == AUTHENTICATING ==> !s.inCall && m.voicing == Quiet)
  }

  /** A session that is over: well-ordered and closed by onDisconnected. */
  predicate Finished(h: seq<Entry>) {
    WellOrdered(h) && Summarize(h).ended
  }

  ghost predicate Inv(s: Session) {
    InvButReceive(s) && s.receiving == s.socketOpen
  }

  ghost predicate InvButReceive(s: Session) {
    InvButPending(s) && TimersAgree(s)
  }

  /** The invariant but for the timers and the receive that are pending. */
  ghost predicate InvButPending(s: Session) {
    && WellOrdered(s.cur) && FieldsAgree(s, Summarize(s.cur)) && LoginAgrees(s, Summarize(s.cur))
    && forall k :: 0 <= k < |s.past| ==> Finished(s.past[k])
  }
}
