/** What every schedule of the two threads keeps, and what only an atomic Disconnect would. */
module ThreadProofs {
  import opened Grammar
  import opened Lifecycle
  import opened Session
  import opened SessionProofs
  import opened Threads
  import opened Wire
  import Fips

  // ----- Voice -----

  predicate IsVoiceOp(op: Op) {
    op.Send? && IsRealTime(op.flags)
  }

  function LetterOfOp(op: Op): (x: Letter)
    requires op.Send?
  {
    LetterOf(Packet(op.kind, op.flags, 0, op.payload))
  }

  /** The voice packets still to be sent. */
  function Coming(ops: seq<Op>): (w: seq<Letter>) {
    if ops == [] then [] else (if IsVoiceOp(ops[0]) then [LetterOfOp(ops[0])] else []) + Coming(ops[1..])
  }

  /** Whether the client will be in a call when they are done. */
  function CallAfter(inCall: bool, ops: seq<Op>): (r: bool)
    decreases |ops|
  {
    if ops == [] then inCall else CallAfter(if ops[0].SetCall? then ops[0].on else inCall, ops[1..])
  }

  /** What the API thread may have to do. */
  predicate IsApiOp(op: Op) {
    !op.OpenSocket? && !op.Tell? && (op.SetState? ==> op.state == DISCONNECTED)
  }

  /** What the I/O thread may have to do: never anything of a call. */
  predicate IsIoOp(op: Op) {
    && !op.SetCall? && !op.ZeroRealTime? && !IsVoiceOp(op) && (op.SetState? ==> op.state != CONNECTING)
    && (op.Tell? ==> !op.entry.Sent? && !op.entry.CallBegan?)
  }

  predicate AreApiOps(ops: seq<Op>) { forall i :: 0 <= i < |ops| ==> IsApiOp(ops[i]) }

  predicate AreIoOps(ops: seq<Op>) { forall i :: 0 <= i < |ops| ==> IsIoOp(ops[i]) }

  predicate Opens(ops: seq<Op>) { exists i :: 0 <= i < |ops| && ops[i].OpenSocket? }

  /** A handler that opens the socket moves the login no further. */
  predicate OpensOnly(ops: seq<Op>) {
    Opens(ops) ==> forall i :: 0 <= i < |ops| && ops[i].SetState? ==> ops[i].state == DISCONNECTED
  }

  /** While the socket is open, what was sent, what is coming and the call flag agree. */
  predicate VoiceTracked(s: Session, api: seq<Op>) {
    var w := VoiceWord(s.cur);
    && Readable(Quiet, w)
    && (s.socketOpen ==>
        && Readable(After(Quiet, w), Coming(api))
        && After(After(Quiet, w), Coming(api)) == if CallAfter(s.inCall, api) then Talking else Quiet)
  }

  /** No call was made yet. */
  predicate Unspoken(s: Session, api: seq<Op>) {
    VoiceWord(s.cur) == [] && Coming(api) == [] && !CallAfter(s.inCall, api)
  }

  ghost predicate VoiceInv(t: Threads) {
    && AreApiOps(t.api) && AreIoOps(t.io) && OpensOnly(t.io)
    && VoiceTracked(t.s, t.api)
    && (Opens(t.io) ==> t.s.state == CONNECTING || t.s.state == DISCONNECTED)
    && (Opens(t.io) || t.s.state == CONNECTING ==> Unspoken(t.s, t.api))
    && forall k :: 0 <= k < |t.s.past| ==> Readable(Quiet, VoiceWord(t.s.past[k]))
  }

  lemma MoreVoice(h: seq<Entry>, e: Entry)
    ensures VoiceWord(h + [e]) == VoiceWord(h) + if IsVoice(e) then [LetterOf(e.packet)] else []
  {
    hide IsVoice, LetterOf;
    assert (h + [e])[..|h|] == h;
  }

  /** What one operation does to the voice packets sent and to the fields they depend on. */
  ghost predicate VoiceEffect(s: Session, op: Op, t: Session) {
    && VoiceWord(t.cur) == VoiceWord(s.cur) + (if IsVoiceOp(op) && s.socketOpen then [LetterOfOp(op)] else [])
    && t.past == s.past
    && t.socketOpen == (if op.Shut? then false else if op.OpenSocket? then true else s.socketOpen)
    && t.inCall == (if op.SetCall? then op.on else s.inCall)
    && t.state == (if op.SetState? then op.state else s.state)
  }

  lemma AttemptVoice(s: Session, kind: bv16, flags: bv16, payload: seq<bv8>)
    ensures VoiceWord(Attempted(s, kind, flags, payload).cur)
         == VoiceWord(s.cur)
            + if IsVoiceOp(Send(kind, flags, payload)) then [LetterOfOp(Send(kind, flags, payload))] else []
  {
    hide Numbered, Outgoing, VoiceWord, IsRealTime, LetterOf;
    NumberedEntry(s, kind, flags, payload);
    MoreVoice(s.cur, Sent(Outgoing(s, kind, flags, payload)));
    OutgoingLetter(s, kind, flags, payload);
  }

  lemma SendVoice(s: Session, kind: bv16, flags: bv16, payload: seq<bv8>)
    ensures var t := TransmitRaw(s, kind, flags, payload); var op := Send(kind, flags, payload);
      VoiceWord(t.cur) == VoiceWord(s.cur) + if IsVoiceOp(op) && s.socketOpen then [LetterOfOp(op)] else []
  {
    hide Attempted, VoiceWord, IsVoiceOp, LetterOfOp;
    AttemptVoice(s, kind, flags, payload);
    MoreVoice(Attempted(s, kind, flags, payload).cur, OnError(SOCKET_IO));
    assert VoiceWord(s.cur) + [] == VoiceWord(s.cur);
  }

  lemma OutgoingLetter(s: Session, kind: bv16, flags: bv16, payload: seq<bv8>)
    ensures Outgoing(s, kind, flags, payload).flags == flags
    ensures LetterOf(Outgoing(s, kind, flags, payload)) == LetterOfOp(Send(kind, flags, payload))
  {
    hide IsRealTime;
  }

  lemma NoteVoice(s: Session, op: Op, e: Entry, t: Session)
    requires !e.Sent? && !op.Send? && t.cur == s.cur + [e] && t.past == s.past
    requires t.socketOpen == (if op.Shut? then false else if op.OpenSocket? then true else s.socketOpen)
    requires t.inCall == (if op.SetCall? then op.on else s.inCall)
    requires t.state == (if op.SetState? then op.state else s.state)
    ensures VoiceEffect(s, op, t)
  {
    hide VoiceWord, LetterOfOp, IsRealTime;
    MoreVoice(s.cur, e);
  }

  lemma FieldsVoice(s: Session, op: Op)
    requires !op.Send? && !op.ZeroRealTime? && !op.Tell? && !op.Err? && !op.TellDisconnected? && !op.OpenSocket?
    ensures VoiceEffect(s, op, Do(s, op))
  {
    hide VoiceWord, LetterOfOp, IsRealTime;
    assert VoiceWord(s.cur) + [] == VoiceWord(s.cur);
  }

  lemma SendsVoice(s: Session, op: Op)
    requires op.Send?
    ensures VoiceEffect(s, op, Do(s, op))
  {
    hide TransmitRaw, VoiceWord, LetterOfOp, IsVoiceOp;
    SendVoice(s, op.kind, op.flags, op.payload);
    TransmitSame(s, op.kind, op.flags, op.payload);
  }

  lemma DoVoice(s: Session, op: Op)
    requires op.Tell? ==> !op.entry.Sent?
    ensures VoiceEffect(s, op, Do(s, op))
  {
    hide TransmitRaw, VoiceEffect;
    match op
    case Send(_, _, _) => SendsVoice(s, op);
    case ZeroRealTime => NoteVoice(s, op, CallBegan, Do(s, op));
    case Tell(e) => NoteVoice(s, op, e, Do(s, op));
    case Err(error) => NoteVoice(s, op, OnError(error), Do(s, op));
    case TellDisconnected => NoteVoice(s, op, OnDisconnected(s.lastError), Do(s, op));
    case OpenSocket(port) => NoteVoice(s, op, Opened(port), Do(s, op));
    case _ => FieldsVoice(s, op);
  }

  // ----- Lists of operations -----

  lemma ComingTail(op: Op, ops: seq<Op>)
    ensures Coming([op] + ops) == (if IsVoiceOp(op) then [LetterOfOp(op)] else []) + Coming(ops)
    ensures forall c :: CallAfter(c, [op] + ops) == CallAfter(if op.SetCall? then op.on else c, ops)
  {
    assert ([op] + ops)[1..] == ops;
  }

  lemma RestOf(ops: seq<Op>)
    requires ops != []
    ensures ops == [ops[0]] + ops[1..]
    ensures AreApiOps(ops) ==> IsApiOp(ops[0]) && AreApiOps(ops[1..])
    ensures AreIoOps(ops) ==> IsIoOp(ops[0]) && AreIoOps(ops[1..])
    ensures Opens(ops[1..]) ==> Opens(ops)
    ensures ops[0].OpenSocket? ==> Opens(ops)
    ensures OpensOnly(ops) ==> OpensOnly(ops[1..])
    ensures OpensOnly(ops) && Opens(ops) && ops[0].SetState? ==> ops[0].state == DISCONNECTED
  {
    hide IsApiOp, IsIoOp;
    if i :| 0 <= i < |ops[1..]| && ops[1..][i].OpenSocket? {
      assert ops[i + 1].OpenSocket?;
    }
  }

  /** What HangUp adds concerns no call and opens nothing. */
  lemma MoreOps(s: Session, op: Op, ops: seq<Op>)
    ensures var all := More(s, op) + ops;
      && Coming(all) == Coming(ops) && (forall c :: CallAfter(c, all) == CallAfter(c, ops))
      && (AreApiOps(ops) ==> AreApiOps(all)) && (AreIoOps(ops) ==> AreIoOps(all))
      && (Opens(all) ==> Opens(ops)) && (OpensOnly(ops) ==> OpensOnly(all))
  {
    hide Coming, CallAfter, AreApiOps, AreIoOps, Opens, OpensOnly;
    if op == HangUp && s.state != DISCONNECTED {
      FourOps(ops);
      FourInFront(ops);
      FourKinds(ops);
    } else {
      assert [] + ops == ops;
    }
  }

  lemma FourInFront(ops: seq<Op>)
    ensures [HANGING_UP[0]] + ([HANGING_UP[1]] + ([HANGING_UP[2]] + ([HANGING_UP[3]] + ops))) == HANGING_UP + ops
  {
  }

  lemma FourKinds(ops: seq<Op>)
    ensures var all := HANGING_UP + ops;
      && (AreApiOps(ops) ==> AreApiOps(all)) && (AreIoOps(ops) ==> AreIoOps(all))
      && (Opens(all) ==> Opens(ops)) && (OpensOnly(ops) ==> OpensOnly(all))
  {
    hide IsApiOp, IsIoOp, IsVoiceOp;
    HangingUp();
    hide HANGING_UP;
    var all := HANGING_UP + ops;
    if i :| 0 <= i < |all| && all[i].OpenSocket? {
      assert ops[i - 4].OpenSocket?;
    }
  }

  lemma HangingUp()
    ensures forall i :: 0 <= i < 4 ==> IsApiOp(HANGING_UP[i]) && IsIoOp(HANGING_UP[i])
    ensures forall i :: 0 <= i < 4 ==>
      !HANGING_UP[i].OpenSocket? && !IsVoiceOp(HANGING_UP[i]) && !HANGING_UP[i].SetCall?
    ensures forall i :: 0 <= i < 4 && HANGING_UP[i].SetState? ==> HANGING_UP[i].state == DISCONNECTED
    ensures |HANGING_UP| == 4
  {
  }

  lemma FourOps(ops: seq<Op>)
    ensures var all := [HANGING_UP[0]] + ([HANGING_UP[1]] + ([HANGING_UP[2]] + ([HANGING_UP[3]] + ops)));
      Coming(all) == Coming(ops) && forall c :: CallAfter(c, all) == CallAfter(c, ops)
  {
    hide Coming, CallAfter;
    HangingUp();
    ComingTail(HANGING_UP[3], ops);
    ComingTail(HANGING_UP[2], [HANGING_UP[3]] + ops);
    ComingTail(HANGING_UP[1], [HANGING_UP[2]] + ([HANGING_UP[3]] + ops));
    ComingTail(HANGING_UP[0], [HANGING_UP[1]] + ([HANGING_UP[2]] + ([HANGING_UP[3]] + ops)));
  }

  // ----- Every turn keeps it -----

  lemma SpeakOn(s: Session, op: Op, t: Session, ops: seq<Op>)
    requires VoiceTracked(s, [op] + ops) && VoiceEffect(s, op, t) && !op.OpenSocket?
    ensures VoiceTracked(t, ops)
  {
    hide VoiceWord, LetterOfOp, IsRealTime, Coming, CallAfter;
    ComingTail(op, ops);
    var w := VoiceWord(s.cur);
    if s.socketOpen && IsVoiceOp(op) {
      ReadHead(After(Quiet, w), LetterOfOp(op), Coming(ops));
      ReadOneMore(Quiet, w, LetterOfOp(op));
    } else {
      assert w + [] == w && [] + Coming(ops) == Coming(ops);
    }
  }

  lemma ReadHead(v: Voicing, x: Letter, w: seq<Letter>)
    requires Readable(v, [x] + w)
    ensures (x == H || v == Talking) && Readable(Move(v, x), w) && After(v, [x] + w) == After(Move(v, x), w)
  {
    assert ([x] + w)[1..] == w;
  }

  lemma UnspokenOn(s: Session, op: Op, t: Session, ops: seq<Op>)
    requires Unspoken(s, [op] + ops) && VoiceEffect(s, op, t)
    ensures Unspoken(t, ops)
  {
    hide VoiceWord, LetterOfOp, IsRealTime, Coming, CallAfter;
    ComingTail(op, ops);
    assert VoiceWord(s.cur) + [] == VoiceWord(s.cur);
    assert [] + Coming(ops) == Coming(ops);
  }

  lemma SameComing(s: Session, a: seq<Op>, b: seq<Op>)
    requires Coming(a) == Coming(b) && forall c :: CallAfter(c, a) == CallAfter(c, b)
    ensures VoiceTracked(s, a) ==> VoiceTracked(s, b)
    ensures Unspoken(s, a) ==> Unspoken(s, b)
  {
    hide VoiceWord, Coming, CallAfter, Readable, After;
  }

  lemma ApiGoesOnKeeps(t: Threads)
    requires VoiceInv(t) && t.api != []
    ensures VoiceInv(Turned(t, ApiGoesOn))
  {
    hide VoiceTracked, Unspoken, Do, More, AreApiOps, AreIoOps, Opens, OpensOnly, VoiceWord, Coming, CallAfter,
         Readable;
    var op, rest := t.api[0], t.api[1..];
    var s := Do(t.s, op);
    RestOf(t.api);
    DoVoice(t.s, op);
    SpeakOn(t.s, op, s, rest);
    MoreOps(t.s, op, rest);
    SameComing(s, rest, More(t.s, op) + rest);
    if Opens(t.io) || s.state == CONNECTING {
      UnspokenOn(t.s, op, s, rest);
    }
  }

  /** The I/O thread changes nothing about calls, but it may open the socket before the first. */
  lemma IoSpeaks(s: Session, op: Op, t: Session, api: seq<Op>)
    requires VoiceTracked(s, api) && VoiceEffect(s, op, t) && IsIoOp(op)
    requires op.OpenSocket? ==> Unspoken(s, api)
    ensures VoiceTracked(t, api)
    ensures Unspoken(s, api) ==> Unspoken(t, api)
  {
    hide VoiceWord, LetterOfOp, IsRealTime, Coming, CallAfter;
    assert VoiceWord(s.cur) + [] == VoiceWord(s.cur);
    ReadNothing();
  }

  lemma IoGoesOnKeeps(t: Threads)
    requires VoiceInv(t) && t.io != []
    ensures VoiceInv(Turned(t, IoGoesOn))
  {
    hide VoiceTracked, Unspoken, Do, More, AreApiOps, AreIoOps, Opens, OpensOnly, VoiceWord, Coming, CallAfter,
         Readable, IsVoiceOp;
    var op, rest := t.io[0], t.io[1..];
    RestOf(t.io);
    DoVoice(t.s, op);
    IoSpeaks(t.s, op, Do(t.s, op), t.api);
    MoreOps(t.s, op, rest);
  }

  // ----- What calls and handlers begin with -----

  /** The call flag says where the voice packets stand. */
  function Standing(inCall: bool): (v: Voicing) {
    if inCall then Talking else Quiet
  }

  ghost predicate FitsCall(s: Session, ops: seq<Op>) {
    && AreApiOps(ops)
    && Readable(Standing(s.inCall), Coming(ops))
    && After(Standing(s.inCall), Coming(ops)) == Standing(CallAfter(s.inCall, ops))
    && (s.state != CONNECTED ==> Coming(ops) == [] && CallAfter(s.inCall, ops) == s.inCall)
  }

  lemma NothingFits(s: Session)
    ensures FitsCall(s, [])
  {
  }

  lemma OneFits(s: Session, op: Op)
    requires IsApiOp(op) && !IsVoiceOp(op) && !op.SetCall?
    ensures FitsCall(s, [op])
  {
    hide IsApiOp, IsVoiceOp;
    ComingTail(op, []);
    assert [op] + [] == [op];
  }

  lemma RoutineFits(s: Session, kind: bv16, payload: seq<bv8>)
    ensures FitsCall(s, RoutineOps(s, kind, payload))
  {
    hide FitsCall;
    NothingFits(s);
    NotVoice(kind, payload);
    OneFits(s, Send(kind, NONE, payload));
  }

  lemma NotVoice(kind: bv16, payload: seq<bv8>)
    ensures !IsVoiceOp(Send(kind, NONE, payload))
  {
  }

  lemma ComingThree(a: Op, b: Op, c: Op)
    requires IsVoiceOp(a) && IsVoiceOp(b) && IsVoiceOp(c)
    ensures Coming([a, b, c]) == [LetterOfOp(a), LetterOfOp(b), LetterOfOp(c)]
    ensures forall d :: CallAfter(d, [a, b, c]) == d
  {
    hide IsRealTime, LetterOfOp;
    ComingTail(c, []);
    ComingTail(b, [c] + []);
    ComingTail(a, [b] + ([c] + []));
    assert [a] + ([b] + ([c] + [])) == [a, b, c];
  }

  lemma VoiceLetter(kind: bv16, payload: seq<bv8>)
    ensures var op := Send(kind, REAL_TIME_1, payload);
      && IsVoiceOp(op)
      && LetterOfOp(op) == if kind == VOICE_HEADER then H else if kind == VOICE_TERMINATOR then T else A
  {
  }

  lemma StartFits(s: Session, header: seq<bv8>)
    ensures FitsCall(s, StartOps(s, header))
  {
    hide Coming, CallAfter, IsVoiceOp, LetterOfOp;
    NothingFits(s);
    if s.state == CONNECTED {
      var m := Send(VOICE_HEADER, REAL_TIME_1, header);
      VoiceLetter(VOICE_HEADER, header);
      ComingThree(m, m, m);
      ComingTail(ZeroRealTime, [m, m, m]);
      ComingTail(SetCall(true), [ZeroRealTime] + [m, m, m]);
      assert [SetCall(true)] + ([ZeroRealTime] + [m, m, m]) == [SetCall(true), ZeroRealTime, m, m, m];
      NotVoiceOps();
      HeadersRead();
      var none: seq<Letter> := [];
      assert none + (none + [H, H, H]) == [H, H, H];
    }
  }

  lemma NotVoiceOps()
    ensures !IsVoiceOp(ZeroRealTime) && forall on :: !IsVoiceOp(SetCall(on))
  {
  }

  lemma HeadersRead()
    ensures Readable(Quiet, [H, H, H]) && Readable(Talking, [H, H, H])
    ensures After(Quiet, [H, H, H]) == Talking && After(Talking, [H, H, H]) == Talking
  {
    assert [H, H, H][1..] == [H, H] && [H, H][1..] == [H] && [H][1..] == [];
  }

  lemma VoicePacketFits(s: Session, e: Event)
    requires e.CallSendAudio? || e.CallEndVoice?
    ensures FitsCall(s, CallOps(s, e))
  {
    hide Coming, CallAfter, IsVoiceOp, LetterOfOp;
    NothingFits(s);
    NotVoiceOps();
    LettersRead();
    if s.state == CONNECTED && s.inCall {
      if e.CallSendAudio? {
        var m := Send(DMR_AUDIO_FRAME, REAL_TIME_1, e.ambe);
        VoiceLetter(DMR_AUDIO_FRAME, e.ambe);
        ComingTail(m, []);
        assert [m] + [] == [m];
      } else {
        var m := Send(VOICE_TERMINATOR, REAL_TIME_1, []);
        VoiceLetter(VOICE_TERMINATOR, []);
        ComingTail(SetCall(false), []);
        ComingTail(m, [SetCall(false)] + []);
        assert [m] + ([SetCall(false)] + []) == [m, SetCall(false)];
      }
      ComingNothing();
    }
  }

  lemma ComingNothing()
    ensures Coming([]) == [] && forall c :: CallAfter(c, []) == c
  {
  }

  lemma LettersRead()
    ensures Readable(Talking, [A]) && After(Talking, [A]) == Talking
    ensures Readable(Talking, [T]) && After(Talking, [T]) == Quiet
  {
    assert [A][1..] == [] && [T][1..] == [];
  }

  lemma CallFits(s: Session, e: Event)
    requires IsCall(e)
    ensures FitsCall(s, CallOps(s, e))
  {
    hide FitsCall, RoutineOps, StartOps, SubscriptionBytes, TextBytes, LocationBytes, VoiceHeaderBytes;
    match e
    case CallDisconnect => OneFits(s, HangUp);
    case CallSubscribe(talkgroup) =>
      RoutineFits(s, SUBSCRIPTION, SubscriptionBytes(Subscription(SESSION_TYPE_GROUP_VOICE, talkgroup)));
    case CallUnsubscribe(talkgroup) =>
      RoutineFits(s, CANCELLING, SubscriptionBytes(Subscription(SESSION_TYPE_GROUP_VOICE, talkgroup)));
    case CallSendText(destination, isGroup, text) =>
      RoutineFits(s, MESSAGE_TEXT, TextBytes(Text(s.dmrId, destination, isGroup, text)));
    case CallSendLocation(nmea) => RoutineFits(s, LOCATION_REPORT, LocationBytes(Location(0, nmea)));
    case CallStartVoice(source, callee, toGroup) => StartFits(s, VoiceHeaderBytes(source, callee, toGroup));
    case CallSendAudio(_) => VoicePacketFits(s, e);
    case CallEndVoice => VoicePacketFits(s, e);
  }

  lemma CallsKeeps(t: Threads, e: Event)
    requires VoiceInv(t) && t.api == [] && IsCall(e)
    ensures VoiceInv(Turned(t, ApiCalls(e)))
  {
    hide CallOps, VoiceWord, Coming, CallAfter, AreIoOps, Opens, OpensOnly, Readable, After;
    CallFits(t.s, e);
    ComingNothing();
    ReadNothing();
    NothingAfter(After(Quiet, VoiceWord(t.s.cur)));
  }

  lemma NothingAfter(v: Voicing)
    ensures After(v, []) == v
  {
  }

  // ----- Handlers -----

  ghost predicate FitsIo(s: Session, ops: seq<Op>) {
    AreIoOps(ops) && OpensOnly(ops) && (Opens(ops) ==> s.state == CONNECTING)
  }

  lemma ResolvedFits(s: Session, r: Resolution)
    ensures FitsIo(s, ResolvedOps(s, r))
  {
    hide VersionBytes;
    NotVoice(KEEP_ALIVE, VersionBytes(Version(s.dmrId, OPEN_TERMINAL, s.description)));
  }

  lemma PacketFits(s: Session, packet: seq<bv8>)
    ensures AreIoOps(PacketOps(s, packet)) && !Opens(PacketOps(s, packet))
  {
    hide Fips.Hash, ParseFrame, Callback, IsRealTime;
    if ParseFrame(packet).Some? {
      var f := ParseFrame(packet).value;
      NotVoice(AUTHENTICATION, Fips.Hash(f.payload + s.password));
      CallbackDelivers(f.header, f.payload);
    }
  }

  lemma DatagramFits(s: Session, bytes: seq<bv8>, fromServer: bool)
    ensures FitsIo(s, DatagramOps(s, bytes, fromServer))
  {
    hide PacketOps, Received;
    PacketFits(s, Received(bytes));
  }

  lemma HandlerFits(s: Session, e: Event)
    requires IsHandler(e)
    ensures FitsIo(s, HandlerOps(s, e))
  {
    hide ResolvedOps, DatagramOps, VersionBytes, IsRealTime;
    NotVoice(KEEP_ALIVE, VersionBytes(Version(s.dmrId, OPEN_TERMINAL, s.description)));
    match e
    case ResolverDone(r) => ResolvedFits(s, r);
    case Datagram(bytes, fromServer) => DatagramFits(s, bytes, fromServer);
    case _ =>
  }

  lemma HandlesKeeps(t: Threads, e: Event)
    requires VoiceInv(t) && t.io == [] && IsHandler(e)
    ensures VoiceInv(Turned(t, IoHandles(e)))
  {
    hide HandlerOps, VoiceTracked, Unspoken, AreApiOps, AreIoOps, Opens, OpensOnly, VoiceWord, Readable;
    HandlerFits(t.s, e);
  }

  lemma ConnectsKeeps(t: Threads, password: seq<bv8>)
    requires VoiceInv(t) && t.api == [] && t.io == []
    ensures VoiceInv(Turned(t, ApiConnects(password)))
  {
    hide VoiceWord, Coming, CallAfter, Readable, After;
    ReadNothing();
    ComingNothing();
    MoreVoice([], Began(password));
    assert [] + [Began(password)] == [Began(password)];
    NoWord();
  }

  lemma NoWord()
    ensures VoiceWord([]) == []
  {
  }

  lemma TurnKeeps(t: Threads, turn: Turn)
    requires VoiceInv(t)
    ensures VoiceInv(Turned(t, turn))
  {
    hide VoiceInv, Do, More, CallOps, HandlerOps;
    match turn
    case ApiConnects(password) =>
      if t.api == [] && t.io == [] {
        ConnectsKeeps(t, password);
      }
    case ApiCalls(e) =>
      if t.api == [] && IsCall(e) {
        CallsKeeps(t, e);
      }
    case ApiGoesOn =>
      if t.api != [] {
        ApiGoesOnKeeps(t);
      }
    case IoHandles(e) =>
      if t.io == [] && IsHandler(e) {
        HandlesKeeps(t, e);
      }
    case IoGoesOn =>
      if t.io != [] {
        IoGoesOnKeeps(t);
      }
  }

  lemma {:induction false} ScheduleKeeps(t: Threads, turns: seq<Turn>)
    requires AtRest(t)
    ensures VoiceInv(Scheduled(t, turns))
    decreases |turns|
  {
    hide VoiceInv, Turned, AtRest;
    if turns == [] {
      RestInv(t);
    } else {
      ScheduleKeeps(t, turns[..|turns| - 1]);
      TurnKeeps(Scheduled(t, turns[..|turns| - 1]), turns[|turns| - 1]);
    }
  }

  lemma RestInv(t: Threads)
    requires AtRest(t)
    ensures VoiceInv(t)
  {
    ReadNothing();
  }

  /** However the two threads take turns, the voice packets of every session spell a prefix of ((H H H A*)+ T)*. */
  lemma VoiceUnderThreads(t: Threads, turns: seq<Turn>, k: nat)
    requires AtRest(t) && k < |Sessions(Scheduled(t, turns).s)|
    ensures Calls(VoiceWord(Sessions(Scheduled(t, turns).s)[k]))
  {
    hide AtRest, Scheduled, VoiceWord, Calls, Readable, After, Coming, CallAfter;
    ScheduleKeeps(t, turns);
    ReadableIsGrammatical(Quiet, VoiceWord(Sessions(Scheduled(t, turns).s)[k]));
  }
}
