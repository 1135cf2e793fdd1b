/**
 CLOSE when two threads take turns. Between the CLOSE of the I/O thread and the closing of the socket, the API thread
 may still send what it set out to send before.
 */
module Closing {
  import opened Grammar
  import opened Lifecycle
  import opened Session
  import opened SessionProofs
  import opened ThreadProofs
  import opened Threads
  import opened Wire
  import Fips

  // ----- Counting -----

  function Closes(h: seq<Entry>): (n: nat) {
    if h == [] then 0 else Closes(h[..|h| - 1]) + if IsClose(h[|h| - 1]) then 1 else 0
  }

  /** How many packets follow the first CLOSE. */
  function AfterClose(h: seq<Entry>): (n: nat) {
    if h == [] then 0
    else AfterClose(h[..|h| - 1]) + if h[|h| - 1].Sent? && Closes(h[..|h| - 1]) > 0 then 1 else 0
  }

  lemma CountMore(h: seq<Entry>, e: Entry)
    ensures Closes(h + [e]) == Closes(h) + if IsClose(e) then 1 else 0
    ensures AfterClose(h + [e]) == AfterClose(h) + if e.Sent? && Closes(h) > 0 then 1 else 0
  {
    hide IsClose;
    assert (h + [e])[..|h|] == h;
  }

  predicate IsCloseOp(op: Op) {
    op.Send? && !IsRealTime(op.flags) && op.kind == CLOSE
  }

  function SendsIn(ops: seq<Op>): (n: nat) {
    if ops == [] then 0 else (if ops[0].Send? then 1 else 0) + SendsIn(ops[1..])
  }

  /** What one operation does to the counts and the state. */
  ghost predicate CloseEffect(s: Session, op: Op, t: Session) {
    && Closes(t.cur) == Closes(s.cur) + (if IsCloseOp(op) && s.socketOpen then 1 else 0)
    && AfterClose(t.cur) == AfterClose(s.cur) + (if op.Send? && s.socketOpen && Closes(s.cur) > 0 then 1 else 0)
    && t.past == s.past && t.state == (if op.SetState? then op.state else s.state)
    && (!op.Shut? && !op.OpenSocket? ==> t.socketOpen == s.socketOpen)
  }

  lemma AttemptCounts(s: Session, kind: bv16, flags: bv16, payload: seq<bv8>)
    ensures var t := Attempted(s, kind, flags, payload);
      && Closes(t.cur) == Closes(s.cur) + (if IsCloseOp(Send(kind, flags, payload)) then 1 else 0)
      && AfterClose(t.cur) == AfterClose(s.cur) + if Closes(s.cur) > 0 then 1 else 0
  {
    hide Numbered, IsRealTime, Closes, AfterClose;
    NumberedEntry(s, kind, flags, payload);
    CountMore(s.cur, Sent(Outgoing(s, kind, flags, payload)));
  }

  lemma TransmitTallies(s: Session, kind: bv16, flags: bv16, payload: seq<bv8>)
    ensures var t := TransmitRaw(s, kind, flags, payload);
      && Closes(t.cur) == Closes(s.cur) + (if IsCloseOp(Send(kind, flags, payload)) && s.socketOpen then 1 else 0)
      && AfterClose(t.cur) == AfterClose(s.cur) + if s.socketOpen && Closes(s.cur) > 0 then 1 else 0
  {
    hide Attempted, Closes, AfterClose, IsCloseOp;
    AttemptCounts(s, kind, flags, payload);
    NotCounted(Attempted(s, kind, flags, payload).cur, OnError(SOCKET_IO));
  }

  lemma NotCounted(h: seq<Entry>, e: Entry)
    requires !e.Sent?
    ensures Closes(h + [e]) == Closes(h) && AfterClose(h + [e]) == AfterClose(h)
  {
    hide Closes, AfterClose, IsRealTime;
    CountMore(h, e);
  }

  lemma SendCounts(s: Session, kind: bv16, flags: bv16, payload: seq<bv8>)
    ensures CloseEffect(s, Send(kind, flags, payload), TransmitRaw(s, kind, flags, payload))
  {
    hide TransmitRaw, Closes, AfterClose, IsCloseOp;
    TransmitTallies(s, kind, flags, payload);
    TransmitSame(s, kind, flags, payload);
  }

  lemma NoteCounts(s: Session, op: Op, e: Entry, t: Session)
    requires !e.Sent? && !op.Send? && t.cur == s.cur + [e] && t.past == s.past
    requires t.state == (if op.SetState? then op.state else s.state)
    requires !op.Shut? && !op.OpenSocket? ==> t.socketOpen == s.socketOpen
    ensures CloseEffect(s, op, t)
  {
    hide Closes, AfterClose;
    CountMore(s.cur, e);
    NoClose(op);
  }

  lemma DoCounts(s: Session, op: Op)
    requires op.Tell? ==> !op.entry.Sent?
    ensures CloseEffect(s, op, Do(s, op))
  {
    hide TransmitRaw, CloseEffect;
    match op
    case Send(kind, flags, payload) => SendCounts(s, kind, flags, payload);
    case ZeroRealTime => NoteCounts(s, op, CallBegan, Do(s, op));
    case Tell(e) => NoteCounts(s, op, e, Do(s, op));
    case Err(error) => NoteCounts(s, op, OnError(error), Do(s, op));
    case TellDisconnected => NoteCounts(s, op, OnDisconnected(s.lastError), Do(s, op));
    case OpenSocket(port) => NoteCounts(s, op, Opened(port), Do(s, op));
    case _ => FieldsOnly(s, op);
  }

  lemma FieldsOnly(s: Session, op: Op)
    requires !op.Send? && !op.ZeroRealTime? && !op.Tell? && !op.Err? && !op.TellDisconnected? && !op.OpenSocket?
    ensures CloseEffect(s, op, Do(s, op))
  {
    hide Closes, AfterClose;
    NoClose(op);
  }

  // ----- The invariant, when only the I/O thread disconnects -----

  /** An operation of a call other than Disconnect. */
  predicate IsCallOp(op: Op) {
    !op.SetState? && op != HangUp && !IsCloseOp(op) && !op.Tell?
  }

  predicate AreCallOps(ops: seq<Op>) { forall i :: 0 <= i < |ops| ==> IsCallOp(ops[i]) }

  predicate Harmless(ops: seq<Op>) { forall i :: 0 <= i < |ops| ==> !ops[i].Send? && !ops[i].SetState? }

  /** After a CLOSE, and after hanging up, a handler does no more that counts. */
  predicate Tidy(ops: seq<Op>) {
    forall i, j :: 0 <= i < j < |ops| && (IsCloseOp(ops[i]) || ops[i] == HangUp) ==>
      !ops[j].Send? && !ops[j].SetState? && ops[j] != HangUp
  }

  /** CLOSE comes right after the state was set. */
  predicate CloseReady(state: State, ops: seq<Op>) {
    && (ops != [] && IsCloseOp(ops[0]) ==> state == DISCONNECTED)
    && forall i :: 0 < i < |ops| && IsCloseOp(ops[i]) ==> ops[i - 1] == SetState(DISCONNECTED)
  }

  ghost predicate CloseInv(t: Threads) {
    && AreCallOps(t.api) && SendsIn(t.api) <= 3 && Tidy(t.io) && CloseReady(t.s.state, t.io)
    && (Closes(t.s.cur) > 0 ==> t.s.state == DISCONNECTED && Harmless(t.io))
    && AfterClose(t.s.cur) + (if Closes(t.s.cur) > 0 then SendsIn(t.api) else 0) <= 3
    && (Closes(t.s.cur) == 0 ==> AfterClose(t.s.cur) == 0) && Closes(t.s.cur) <= 1
    && forall k :: 0 <= k < |t.s.past| ==> Closes(t.s.past[k]) <= 1 && AfterClose(t.s.past[k]) <= 3
  }

  lemma ApiSends(t: Threads)
    requires CloseInv(t) && t.api != []
    ensures CloseInv(Turned(t, ApiGoesOn))
  {
    hide Do, Closes, AfterClose, IsCloseOp, Tidy, CloseReady, Harmless;
    var op, rest := t.api[0], t.api[1..];
    assert IsCallOp(op);
    DoCounts(t.s, op);
    assert More(t.s, op) + rest == rest;
    assert SendsIn(t.api) == (if op.Send? then 1 else 0) + SendsIn(rest);
  }

  lemma TidyTail(ops: seq<Op>)
    requires ops != [] && Tidy(ops)
    ensures Tidy(ops[1..]) && (IsCloseOp(ops[0]) || ops[0] == HangUp ==> Harmless(ops[1..]))
  {
    hide IsCloseOp;
    var rest := ops[1..];
    forall i, j | 0 <= i < j < |rest| && (IsCloseOp(rest[i]) || rest[i] == HangUp)
      ensures !rest[j].Send? && !rest[j].SetState? && rest[j] != HangUp
    {
      assert ops[i + 1] == rest[i] && ops[j + 1] == rest[j];
    }
    forall j | 0 <= j < |rest| && (IsCloseOp(ops[0]) || ops[0] == HangUp)
      ensures !rest[j].Send? && !rest[j].SetState?
    {
      assert ops[j + 1] == rest[j];
    }
  }

  lemma ReadyTail(state: State, ops: seq<Op>)
    requires ops != [] && CloseReady(state, ops)
    ensures CloseReady(if ops[0].SetState? then ops[0].state else state, ops[1..])
    ensures IsCloseOp(ops[0]) ==> state == DISCONNECTED
  {
    hide IsCloseOp;
    var rest := ops[1..];
    if rest != [] && IsCloseOp(rest[0]) {
      assert ops[1] == rest[0];
    }
    forall i | 0 < i < |rest| && IsCloseOp(rest[i])
      ensures rest[i - 1] == SetState(DISCONNECTED)
    {
      assert ops[i + 1] == rest[i] && rest[i - 1] == ops[i];
    }
  }

  lemma CloseOfHangingUp(ops: seq<Op>, i: nat)
    requires Harmless(ops) && i < |HANGING_UP + ops| && IsCloseOp((HANGING_UP + ops)[i])
    ensures i == 1
  {
    FourOf();
    hide HANGING_UP, IsCloseOp;
    if i >= 4 {
      assert (HANGING_UP + ops)[i] == ops[i - 4];
      NoClose(ops[i - 4]);
    } else {
      assert (HANGING_UP + ops)[i] == HANGING_UP[i];
    }
  }

  lemma HangingUpIsReady(state: State, ops: seq<Op>)
    requires Harmless(ops)
    ensures CloseReady(state, HANGING_UP + ops)
  {
    FourOf();
    hide HANGING_UP, IsCloseOp;
    var all := HANGING_UP + ops;
    assert all[0] == HANGING_UP[0];
    forall i | 0 <= i < |all| && IsCloseOp(all[i])
      ensures i != 0 && all[i - 1] == SetState(DISCONNECTED)
    {
      CloseOfHangingUp(ops, i);
    }
  }

  lemma HangingUpIsTidy(state: State, ops: seq<Op>)
    requires Harmless(ops) && forall i :: 0 <= i < |ops| ==> ops[i] != HangUp
    ensures Tidy(HANGING_UP + ops) && CloseReady(state, HANGING_UP + ops)
  {
    FourOf();
    HangingUpIsReady(state, ops);
    hide HANGING_UP, IsCloseOp, CloseReady;
    var all := HANGING_UP + ops;
    forall i, j | 0 <= i < j < |all| && (IsCloseOp(all[i]) || all[i] == HangUp)
      ensures !all[j].Send? && !all[j].SetState? && all[j] != HangUp
    {
      if all[i] == HangUp {
        assert i < 4 ==> all[i] == HANGING_UP[i];
      } else {
        CloseOfHangingUp(ops, i);
      }
      assert all[j] == if j < 4 then HANGING_UP[j] else ops[j - 4];
    }
  }

  lemma NoClose(op: Op)
    requires !op.Send?
    ensures !IsCloseOp(op)
  {
  }

  lemma FourOf()
    ensures |HANGING_UP| == 4 && HANGING_UP[0] == SetState(DISCONNECTED)
    ensures IsCloseOp(HANGING_UP[1]) && HANGING_UP[2] == Shut && HANGING_UP[3] == TellDisconnected
    ensures !IsCloseOp(HANGING_UP[0]) && !IsCloseOp(HANGING_UP[2]) && !IsCloseOp(HANGING_UP[3])
    ensures HANGING_UP[1] != HangUp && HANGING_UP[1] == Send(CLOSE, NONE, [])
  {
  }

  lemma HarmlessTail(ops: seq<Op>)
    requires ops != [] && Harmless(ops)
    ensures Harmless(ops[1..]) && !ops[0].Send? && !ops[0].SetState? && !IsCloseOp(ops[0])
  {
    hide IsRealTime;
  }

  lemma IoGoes(t: Threads)
    requires CloseInv(t) && AreIoOps(t.io) && t.io != [] && t.io[0] != HangUp
    ensures CloseInv(Turned(t, IoGoesOn))
  {
    hide Do, Closes, AfterClose, IsCloseOp, Tidy, CloseReady, Harmless, AreCallOps;
    var op, rest := t.io[0], t.io[1..];
    assert IsIoOp(op);
    DoCounts(t.s, op);
    assert More(t.s, op) + rest == rest;
    TidyTail(t.io);
    ReadyTail(t.s.state, t.io);
    CloseIsSend(op);
    if Closes(t.s.cur) > 0 {
      HarmlessTail(t.io);
    }
  }

  lemma CloseIsSend(op: Op)
    ensures IsCloseOp(op) ==> op.Send?
  {
  }

  lemma NoHangUpAfter(ops: seq<Op>)
    requires ops != [] && Tidy(ops) && ops[0] == HangUp
    ensures forall i :: 0 <= i < |ops[1..]| ==> ops[1..][i] != HangUp
  {
    hide IsCloseOp;
    forall i | 0 <= i < |ops[1..]|
      ensures ops[1..][i] != HangUp
    {
      assert ops[i + 1] != HangUp;
    }
  }

  lemma IoHangsUp(t: Threads)
    requires CloseInv(t) && t.io != [] && t.io[0] == HangUp
    ensures CloseInv(Turned(t, IoGoesOn))
  {
    hide Closes, AfterClose, IsCloseOp, Tidy, CloseReady, Harmless, AreCallOps, HANGING_UP;
    var rest := t.io[1..];
    TidyTail(t.io);
    ReadyTail(t.s.state, t.io);
    NoHangUpAfter(t.io);
    HangingUpIsTidy(t.s.state, rest);
    assert [] + rest == rest;
  }

  lemma ThreeSends(m: Op, ops: seq<Op>)
    ensures SendsIn([m] + ops) == (if m.Send? then 1 else 0) + SendsIn(ops)
  {
    assert ([m] + ops)[1..] == ops;
  }

  lemma StartSends(header: seq<bv8>)
    ensures var m := Send(VOICE_HEADER, REAL_TIME_1, header);
      SendsIn([SetCall(true), ZeroRealTime, m, m, m]) == 3
  {
    hide SendsIn;
    var m := Send(VOICE_HEADER, REAL_TIME_1, header);
    NoSends();
    ThreeSends(m, []);
    ThreeSends(m, [m] + []);
    ThreeSends(m, [m] + ([m] + []));
    ThreeSends(ZeroRealTime, [m] + ([m] + ([m] + [])));
    ThreeSends(SetCall(true), [ZeroRealTime] + ([m] + ([m] + ([m] + []))));
    assert [SetCall(true)] + ([ZeroRealTime] + ([m] + ([m] + ([m] + [])))) == [SetCall(true), ZeroRealTime, m, m, m];
  }

  lemma NoSends()
    ensures SendsIn([]) == 0
  {
  }

  lemma OneSend(op: Op)
    ensures SendsIn([op]) <= 1
  {
    hide SendsIn;
    NoSends();
    ThreeSends(op, []);
    assert [op] + [] == [op];
  }

  lemma EndSends(m: Op)
    ensures SendsIn([m, SetCall(false)]) <= 1
  {
    hide SendsIn;
    NoSends();
    ThreeSends(SetCall(false), []);
    ThreeSends(m, [SetCall(false)] + []);
    assert [m] + ([SetCall(false)] + []) == [m, SetCall(false)];
  }

  /** A call sends at most three packets, none of them CLOSE, and none when it finds the client disconnected. */
  ghost predicate ModestCall(s: Session, ops: seq<Op>) {
    AreCallOps(ops) && SendsIn(ops) <= 3 && (s.state == DISCONNECTED ==> ops == [])
  }

  lemma RoutineModest(s: Session, kind: bv16, payload: seq<bv8>)
    requires kind != CLOSE
    ensures ModestCall(s, RoutineOps(s, kind, payload))
  {
    hide SendsIn, IsRealTime;
    NoSends();
    OneSend(Send(kind, NONE, payload));
  }

  lemma VoiceModest(s: Session, e: Event)
    requires e.CallStartVoice? || e.CallSendAudio? || e.CallEndVoice?
    ensures ModestCall(s, CallOps(s, e))
  {
    hide SendsIn, IsRealTime, VoiceHeaderBytes;
    NoSends();
    if e.CallStartVoice? {
      StartSends(VoiceHeaderBytes(e.source, e.callee, e.toGroup));
    } else if e.CallSendAudio? {
      OneSend(Send(DMR_AUDIO_FRAME, REAL_TIME_1, e.ambe));
    } else {
      EndSends(Send(VOICE_TERMINATOR, REAL_TIME_1, []));
    }
  }

  lemma CallModest(s: Session, e: Event)
    requires IsCall(e) && !e.CallDisconnect?
    ensures ModestCall(s, CallOps(s, e))
  {
    hide ModestCall, RoutineOps, StartOps, SubscriptionBytes, TextBytes, LocationBytes;
    match e
    case CallSubscribe(talkgroup) =>
      RoutineModest(s, SUBSCRIPTION, SubscriptionBytes(Subscription(SESSION_TYPE_GROUP_VOICE, talkgroup)));
    case CallUnsubscribe(talkgroup) =>
      RoutineModest(s, CANCELLING, SubscriptionBytes(Subscription(SESSION_TYPE_GROUP_VOICE, talkgroup)));
    case CallSendText(destination, isGroup, text) =>
      RoutineModest(s, MESSAGE_TEXT, TextBytes(Text(s.dmrId, destination, isGroup, text)));
    case CallSendLocation(nmea) => RoutineModest(s, LOCATION_REPORT, LocationBytes(Location(0, nmea)));
    case CallStartVoice(_, _, _) => VoiceModest(s, e);
    case CallSendAudio(_) => VoiceModest(s, e);
    case CallEndVoice => VoiceModest(s, e);
  }

  /** A handler hangs up last, sends no CLOSE of its own, and is harmless when it finds the client disconnected. */
  ghost predicate ModestHandler(s: Session, ops: seq<Op>) {
    && (forall i :: 0 <= i < |ops| ==> !IsCloseOp(ops[i]) && (ops[i] == HangUp ==> i == |ops| - 1))
    && (s.state == DISCONNECTED ==> Harmless(ops))
  }

  lemma NoCloseOps(s: Session, salt: seq<bv8>)
    ensures HelloOp(s) != HangUp && HelloOp(s).Send? && !IsCloseOp(HelloOp(s))
    ensures !IsCloseOp(Send(AUTHENTICATION, NONE, Fips.Hash(salt + s.password)))
  {
    hide Fips.Hash, VersionBytes;
  }

  lemma PacketModest(s: Session, packet: seq<bv8>)
    ensures var ops := PacketOps(s, packet);
      && (forall i :: 0 <= i < |ops| ==> !IsCloseOp(ops[i]) && ops[i] != HangUp)
      && (s.state == DISCONNECTED ==> Harmless(ops))
  {
    hide Fips.Hash, ParseFrame, Callback, IsRealTime;
    if ParseFrame(packet).Some? {
      NoCloseOps(s, ParseFrame(packet).value.payload);
    }
  }

  lemma NothingModest(s: Session)
    ensures ModestHandler(s, [])
  {
  }

  /** Two operations that are no CLOSE and no HangUp, or a HangUp at the end. */
  lemma TwoModest(s: Session, a: Op, b: Op)
    requires !IsCloseOp(a) && !IsCloseOp(b) && a != HangUp
    requires s.state == DISCONNECTED ==> !a.Send? && !a.SetState? && !b.Send? && !b.SetState?
    ensures ModestHandler(s, [a, b]) && ModestHandler(s, [a])
  {
    hide IsCloseOp;
  }

  lemma ThreeModest(s: Session, a: Op, b: Op, c: Op)
    requires !IsCloseOp(a) && !IsCloseOp(b) && !IsCloseOp(c) && a != HangUp && b != HangUp
    requires s.state != DISCONNECTED
    ensures ModestHandler(s, [a, b, c])
  {
    hide IsCloseOp;
  }

  lemma FailsModest(s: Session, error: ClientError)
    requires s.state != DISCONNECTED
    ensures ModestHandler(s, [Err(error), HangUp])
  {
    hide IsCloseOp, ModestHandler;
    NoClose(Err(error));
    NoClose(HangUp);
    TwoModest(s, Err(error), HangUp);
  }

  lemma ThenFailsModest(s: Session, op: Op, error: ClientError)
    requires s.state != DISCONNECTED && !op.Send? && op != HangUp
    ensures ModestHandler(s, [op, Err(error), HangUp])
  {
    hide IsCloseOp, ModestHandler;
    NoClose(op);
    NoClose(Err(error));
    NoClose(HangUp);
    ThreeModest(s, op, Err(error), HangUp);
  }

  lemma JustModest(s: Session, op: Op)
    requires !op.Send? && !op.SetState? && op != HangUp
    ensures ModestHandler(s, [op])
  {
    hide IsCloseOp, ModestHandler;
    NoClose(op);
    TwoModest(s, op, op);
  }

  lemma OpensModest(s: Session, port: nat)
    requires s.state != DISCONNECTED
    ensures ModestHandler(s, [OpenSocket(port), StartLoop, HelloOp(s)])
  {
    hide HelloOp, IsCloseOp, ModestHandler;
    NoCloseOps(s, []);
    NoClose(OpenSocket(port));
    NoClose(StartLoop);
    ThreeModest(s, OpenSocket(port), StartLoop, HelloOp(s));
  }

  lemma KeepAliveModest(s: Session)
    requires s.state != DISCONNECTED
    ensures ModestHandler(s, [KeepAliveDone, HelloOp(s), ArmKeepAlive])
  {
    hide HelloOp, IsCloseOp, ModestHandler;
    NoCloseOps(s, []);
    NoClose(KeepAliveDone);
    NoClose(ArmKeepAlive);
    ThreeModest(s, KeepAliveDone, HelloOp(s), ArmKeepAlive);
  }

  lemma ResolvedModest(s: Session, r: Resolution)
    ensures ModestHandler(s, ResolvedOps(s, r))
  {
    hide HelloOp, ModestHandler;
    NothingModest(s);
    if s.state == CONNECTING {
      if r == NoEndpoint {
        FailsModest(s, DNS_RESOLVE);
      } else if s.socketOpen || r == OpenFails {
        FailsModest(s, SOCKET_IO);
      } else if r.BindFails? {
        ThenFailsModest(s, OpenSocket(r.port), SOCKET_IO);
      } else {
        OpensModest(s, r.port);
      }
    }
  }

  lemma DatagramModest(s: Session, bytes: seq<bv8>, fromServer: bool)
    ensures ModestHandler(s, DatagramOps(s, bytes, fromServer))
  {
    hide PacketOps, Received, IsRealTime;
    PacketModest(s, Received(bytes));
  }

  lemma TimerModest(s: Session, e: Event)
    requires e.TimeoutTimer? || e.KeepAliveTimer? || e.ReceiveError?
    ensures ModestHandler(s, HandlerOps(s, e))
  {
    hide HelloOp, ModestHandler;
    NothingModest(s);
    JustModest(s, TimeoutDone);
    JustModest(s, KeepAliveDone);
    JustModest(s, ReceiveDone);
    if s.state != DISCONNECTED {
      KeepAliveModest(s);
      ThenFailsModest(s, TimeoutDone, RESPONSE_TIMEOUT);
      ThenFailsModest(s, ReceiveDone, SOCKET_IO);
    }
  }

  lemma HandlerModest(s: Session, e: Event)
    requires IsHandler(e)
    ensures ModestHandler(s, HandlerOps(s, e))
  {
    hide ModestHandler, ResolvedOps, DatagramOps, HelloOp;
    match e
    case ResolverDone(r) => ResolvedModest(s, r);
    case TimeoutTimer(_) => TimerModest(s, e);
    case KeepAliveTimer(_) => TimerModest(s, e);
    case ReceiveError(_) => TimerModest(s, e);
    case Datagram(bytes, fromServer) =>
      NothingModest(s);
      DatagramModest(s, bytes, fromServer);
  }

  lemma ModestIsTidy(s: Session, ops: seq<Op>)
    requires ModestHandler(s, ops)
    ensures Tidy(ops) && CloseReady(s.state, ops)
  {
    hide IsCloseOp;
  }

  lemma BeginsHandler(t: Threads, e: Event)
    requires CloseInv(t) && t.io == [] && IsHandler(e)
    ensures CloseInv(Turned(t, IoHandles(e)))
  {
    hide HandlerOps, Closes, AfterClose, IsCloseOp, Tidy, CloseReady, AreCallOps;
    HandlerModest(t.s, e);
    ModestIsTidy(t.s, HandlerOps(t.s, e));
  }

  lemma BeginsCall(t: Threads, e: Event)
    requires CloseInv(t) && t.api == [] && IsCall(e) && !e.CallDisconnect?
    ensures CloseInv(Turned(t, ApiCalls(e)))
  {
    hide CallOps, Closes, AfterClose, Tidy, CloseReady, Harmless, AreCallOps, SendsIn;
    CallModest(t.s, e);
    NoSends();
  }

  lemma BeginsSession(t: Threads, password: seq<bv8>)
    requires CloseInv(t) && t.api == [] && t.io == []
    ensures CloseInv(Turned(t, ApiConnects(password)))
  {
    hide Closes, AfterClose, IsCloseOp, SendsIn;
    NoSends();
    CountMore([], Began(password));
    assert [] + [Began(password)] == [Began(password)];
    NothingCounted();
  }

  lemma NothingCounted()
    ensures Closes([]) == 0 && AfterClose([]) == 0 && !IsClose(CallBegan)
  {
  }

  lemma TurnKeepsClose(t: Threads, turn: Turn)
    requires CloseInv(t) && VoiceInv(t) && !(turn.ApiCalls? && turn.call.CallDisconnect?)
    ensures CloseInv(Turned(t, turn))
  {
    hide CloseInv, Do, More, CallOps, HandlerOps, VoiceTracked, Unspoken, AreIoOps;
    match turn
    case ApiConnects(password) =>
      if t.api == [] && t.io == [] {
        BeginsSession(t, password);
      }
    case ApiCalls(e) =>
      if t.api == [] && IsCall(e) {
        BeginsCall(t, e);
      }
    case ApiGoesOn =>
      if t.api != [] {
        ApiSends(t);
      }
    case IoHandles(e) =>
      if t.io == [] && IsHandler(e) {
        BeginsHandler(t, e);
      }
    case IoGoesOn =>
      if t.io != [] {
        if t.io[0] == HangUp {
          IoHangsUp(t);
        } else {
          IoGoes(t);
        }
      }
  }

  /** The user does not call Disconnect. */
  predicate NoDisconnect(turns: seq<Turn>) {
    forall i :: 0 <= i < |turns| && turns[i].ApiCalls? ==> !turns[i].call.CallDisconnect?
  }

  lemma {:induction false} ScheduleKeepsClose(t: Threads, turns: seq<Turn>)
    requires AtRest(t) && NoDisconnect(turns)
    ensures CloseInv(Scheduled(t, turns))
    decreases |turns|
  {
    hide CloseInv, VoiceInv, Turned, AtRest;
    if turns == [] {
      RestCounts(t);
    } else {
      var init := turns[..|turns| - 1];
      ScheduleKeepsClose(t, init);
      ScheduleKeeps(t, init);
      TurnKeepsClose(Scheduled(t, init), turns[|turns| - 1]);
    }
  }

  lemma RestCounts(t: Threads)
    requires AtRest(t)
    ensures CloseInv(t)
  {
    NothingCounted();
  }

  /**
   When the I/O thread alone ends sessions: in every session of every schedule there is at most one CLOSE, and at
   most three packets follow it.
   */
  lemma CloseUnderThreads(t: Threads, turns: seq<Turn>, k: nat)
    requires AtRest(t) && NoDisconnect(turns) && k < |Sessions(Scheduled(t, turns).s)|
    ensures var h := Sessions(Scheduled(t, turns).s)[k]; Closes(h) <= 1 && AfterClose(h) <= 3
  {
    hide AtRest, NoDisconnect, Scheduled, Closes, AfterClose, SendsIn, Tidy, CloseReady, Harmless, AreCallOps;
    ScheduleKeepsClose(t, turns);
  }

  /**
   And a turn puts a packet after CLOSE exactly when it is the API thread's, which tested the state before, and the
   socket is not yet closed.
   */
  lemma PacketAfterCloseExactly(t: Threads, turns: seq<Turn>, turn: Turn)
    requires AtRest(t) && NoDisconnect(turns) && !turn.ApiConnects?
    ensures var a := Scheduled(t, turns); var b := Turned(a, turn);
      AfterClose(b.s.cur) > AfterClose(a.s.cur)
      <==> turn.ApiGoesOn? && a.api != [] && a.api[0].Send? && a.s.socketOpen && Closes(a.s.cur) > 0
  {
    hide AtRest, NoDisconnect, Scheduled, Closes, AfterClose, SendsIn, Tidy, CloseReady, IsCloseOp, Do, CallOps,
         HandlerOps, VoiceTracked, Unspoken;
    ScheduleKeepsClose(t, turns);
    ScheduleKeeps(t, turns);
    var a := Scheduled(t, turns);
    if turn.ApiGoesOn? && a.api != [] {
      assert IsCallOp(a.api[0]);
      DoCounts(a.s, a.api[0]);
    }
    if turn.IoGoesOn? && a.io != [] {
      assert IsIoOp(a.io[0]);
      DoCounts(a.s, a.io[0]);
    }
  }

  // ----- Runs that show it -----

  /** A connected client between two calls and two handlers, with no CLOSE sent. */
  ghost predicate Ready(t: Threads) {
    && t.s.state == CONNECTED && t.s.socketOpen && t.s.receiving && t.api == [] && t.io == []
    && Closes(t.s.cur) == 0 && AfterClose(t.s.cur) == 0
  }

  /** The handler of a socket error, up to its CLOSE. */
  const ERROR_UP_TO_CLOSE: seq<Turn> :=
    [IoHandles(ReceiveError(false)), IoGoesOn, IoGoesOn, IoGoesOn, IoGoesOn, IoGoesOn]

  /** The CLOSE is sent, the socket not yet closed. */
  ghost predicate SentClose(t: Threads, u: Threads) {
    u.api == t.api && u.s.socketOpen && Closes(u.s.cur) == 1 && AfterClose(u.s.cur) == 0
  }

  lemma SixTurns(t: Threads, a: Turn, b: Turn, c: Turn, d: Turn, e: Turn, f: Turn)
    ensures Scheduled(t, [a, b, c, d, e, f]) == Turned(Turned(Turned(Turned(Turned(Turned(t, a), b), c), d), e), f)
  {
    hide Turned;
    ThreeTurns(t, a, b, c);
    ThreeTurns(Scheduled(t, [a, b, c]), d, e, f);
    ScheduledSplit(t, [a, b, c], [d, e, f]);
    assert [a, b, c] + [d, e, f] == [a, b, c, d, e, f];
  }

  lemma ThreeTurns(t: Threads, a: Turn, b: Turn, c: Turn)
    ensures Scheduled(t, [a, b, c]) == Turned(Turned(Turned(t, a), b), c)
  {
    hide Turned;
    ScheduledOne(t, a);
    assert [a, b, c][..2] == [a, b] && [a, b][..1] == [a];
    assert Scheduled(t, [a, b]) == Turned(Turned(t, a), b);
  }

  lemma GoesOn(t: Threads, op: Op, rest: seq<Op>)
    requires op != HangUp
    ensures t.io == [op] + rest ==> Turned(t, IoGoesOn) == t.(s := Do(t.s, op), io := rest)
    ensures t.api == [op] + rest ==> Turned(t, ApiGoesOn) == t.(s := Do(t.s, op), api := rest)
  {
    hide Do;
    assert ([op] + rest)[1..] == rest && [] + rest == rest;
  }

  lemma HangsUp(t: Threads)
    requires t.s.state != DISCONNECTED
    ensures t.io == [HangUp] ==> Turned(t, IoGoesOn) == t.(io := HANGING_UP)
    ensures t.api == [HangUp] ==> Turned(t, ApiGoesOn) == t.(api := HANGING_UP)
  {
    assert [HangUp][1..] == [] && HANGING_UP + [] == HANGING_UP;
  }

  /** The handler up to where it hangs up. */
  lemma ErrorReported(t: Threads)
    requires t.s.state == CONNECTED && t.s.socketOpen && t.s.receiving && t.io == []
    ensures var u := Turned(Turned(Turned(t, IoHandles(ReceiveError(false))), IoGoesOn), IoGoesOn);
      && u.api == t.api && u.io == [HangUp] && u.s.state == CONNECTED && u.s.socketOpen
      && Closes(u.s.cur) == Closes(t.s.cur) && AfterClose(u.s.cur) == AfterClose(t.s.cur)
  {
    hide Turned, Do, Closes, AfterClose, IsRealTime;
    var a := Turned(t, IoHandles(ReceiveError(false)));
    ErrorBegins(t);
    assert [ReceiveDone] + ([Err(SOCKET_IO)] + [HangUp]) == [ReceiveDone, Err(SOCKET_IO), HangUp];
    GoesOn(a, ReceiveDone, [Err(SOCKET_IO)] + [HangUp]);
    DoCounts(a.s, ReceiveDone);
    var b := Turned(a, IoGoesOn);
    GoesOn(b, Err(SOCKET_IO), [HangUp]);
    DoCounts(b.s, Err(SOCKET_IO));
  }

  lemma ErrorBegins(t: Threads)
    requires t.s.state == CONNECTED && t.s.receiving && t.io == []
    ensures Turned(t, IoHandles(ReceiveError(false))) == t.(io := [ReceiveDone, Err(SOCKET_IO), HangUp])
  {
  }

  /** Hanging up as far as the CLOSE. */
  lemma HangsUpToClose(t: Threads)
    requires t.io == HANGING_UP && t.s.socketOpen
    ensures var u := Turned(Turned(t, IoGoesOn), IoGoesOn);
      && u.api == t.api && u.s.socketOpen
      && Closes(u.s.cur) == Closes(t.s.cur) + 1
      && AfterClose(u.s.cur) == AfterClose(t.s.cur) + if Closes(t.s.cur) > 0 then 1 else 0
  {
    hide Turned, Do, Closes, AfterClose, IsCloseOp;
    FourOf();
    var close := Send(CLOSE, NONE, []);
    assert HANGING_UP == [SetState(DISCONNECTED)] + ([close] + [Shut, TellDisconnected]);
    GoesOn(t, SetState(DISCONNECTED), [close] + [Shut, TellDisconnected]);
    DoCounts(t.s, SetState(DISCONNECTED));
    NoClose(SetState(DISCONNECTED));
    var a := Turned(t, IoGoesOn);
    GoesOn(a, close, [Shut, TellDisconnected]);
    DoCounts(a.s, close);
  }

  lemma ErrorSendsClose(t: Threads)
    requires t.s.state == CONNECTED && t.s.socketOpen && t.s.receiving && t.io == []
    requires Closes(t.s.cur) == 0 && AfterClose(t.s.cur) == 0
    ensures SentClose(t, Scheduled(t, ERROR_UP_TO_CLOSE))
  {
    hide Turned, Scheduled, Closes, AfterClose, HANGING_UP;
    SixTurns(t, IoHandles(ReceiveError(false)), IoGoesOn, IoGoesOn, IoGoesOn, IoGoesOn, IoGoesOn);
    ErrorReported(t);
    var u := Turned(Turned(Turned(t, IoHandles(ReceiveError(false))), IoGoesOn), IoGoesOn);
    HangsUp(u);
    HangsUpToClose(Turned(u, IoGoesOn));
  }

  lemma CallBegins(t: Threads, e: Event)
    requires t.api == [] && IsCall(e)
    ensures Turned(t, ApiCalls(e)) == t.(api := CallOps(t.s, e))
  {
    hide CallOps;
  }

  /** The API thread sends what it had tested for. */
  lemma ApiFollows(t: Threads, header: seq<bv8>)
    requires t.s.socketOpen && Closes(t.s.cur) == 1 && AfterClose(t.s.cur) == 0
    requires var m := Send(VOICE_HEADER, REAL_TIME_1, header); t.api == [SetCall(true), ZeroRealTime, m, m, m]
    ensures Closes(Scheduled(t, [ApiGoesOn, ApiGoesOn, ApiGoesOn, ApiGoesOn, ApiGoesOn, ApiGoesOn]).s.cur) == 1
    ensures AfterClose(Scheduled(t, [ApiGoesOn, ApiGoesOn, ApiGoesOn, ApiGoesOn, ApiGoesOn, ApiGoesOn]).s.cur) == 3
  {
    hide Turned, Scheduled, Do, Closes, AfterClose, IsCloseOp;
    var m := Send(VOICE_HEADER, REAL_TIME_1, header);
    SixTurns(t, ApiGoesOn, ApiGoesOn, ApiGoesOn, ApiGoesOn, ApiGoesOn, ApiGoesOn);
    assert t.api == [SetCall(true)] + ([ZeroRealTime] + ([m] + ([m] + ([m] + []))));
    GoesOn(t, SetCall(true), [ZeroRealTime] + ([m] + ([m] + ([m] + []))));
    DoCounts(t.s, SetCall(true));
    var a := Turned(t, ApiGoesOn);
    GoesOn(a, ZeroRealTime, [m] + ([m] + ([m] + [])));
    DoCounts(a.s, ZeroRealTime);
    NoClose(SetCall(true));
    NoClose(ZeroRealTime);
    ThreeFollow(Turned(a, ApiGoesOn), header);
  }

  lemma ThreeFollow(t: Threads, header: seq<bv8>)
    requires t.s.socketOpen && Closes(t.s.cur) == 1 && AfterClose(t.s.cur) == 0
    requires var m := Send(VOICE_HEADER, REAL_TIME_1, header); t.api == [m] + ([m] + ([m] + []))
    ensures var u := Turned(Turned(Turned(Turned(t, ApiGoesOn), ApiGoesOn), ApiGoesOn), ApiGoesOn);
      Closes(u.s.cur) == 1 && AfterClose(u.s.cur) == 3
  {
    hide Turned, Do, Closes, AfterClose, IsCloseOp;
    var m := Send(VOICE_HEADER, REAL_TIME_1, header);
    HeaderIsNoClose(header);
    GoesOn(t, m, [m] + ([m] + []));
    DoCounts(t.s, m);
    var a := Turned(t, ApiGoesOn);
    GoesOn(a, m, [m] + []);
    DoCounts(a.s, m);
    var b := Turned(a, ApiGoesOn);
    GoesOn(b, m, []);
    DoCounts(b.s, m);
    NothingToDo(Turned(b, ApiGoesOn));
  }

  lemma NothingToDo(t: Threads)
    requires t.api == []
    ensures Turned(t, ApiGoesOn) == t
  {
  }

  lemma HeaderIsNoClose(header: seq<bv8>)
    ensures !IsCloseOp(Send(VOICE_HEADER, REAL_TIME_1, header))
  {
  }

  /** Three headers after a CLOSE: StartVoiceCall has tested the state, then a socket error ends the session. */
  lemma ThreeAfterClose(t: Threads, source: bv32, callee: bv32, toGroup: bool)
    requires Ready(t)
    ensures var u := Scheduled(t, [ApiCalls(CallStartVoice(source, callee, toGroup))] + ERROR_UP_TO_CLOSE
                                  + [ApiGoesOn, ApiGoesOn, ApiGoesOn, ApiGoesOn, ApiGoesOn, ApiGoesOn]);
      Closes(u.s.cur) == 1 && AfterClose(u.s.cur) == 3
  {
    hide Turned, Scheduled, Closes, AfterClose, VoiceHeaderBytes, ERROR_UP_TO_CLOSE;
    var begin := [ApiCalls(CallStartVoice(source, callee, toGroup))];
    var rest := [ApiGoesOn, ApiGoesOn, ApiGoesOn, ApiGoesOn, ApiGoesOn, ApiGoesOn];
    ScheduledOne(t, begin[0]);
    CallBegins(t, CallStartVoice(source, callee, toGroup));
    var a := Scheduled(t, begin);
    ErrorSendsClose(a);
    ScheduledSplit(t, begin, ERROR_UP_TO_CLOSE);
    ApiFollows(Scheduled(a, ERROR_UP_TO_CLOSE), VoiceHeaderBytes(source, callee, toGroup));
    ScheduledSplit(t, begin + ERROR_UP_TO_CLOSE, rest);
  }

  lemma {:induction false} OpenIsUncounted(h: seq<Entry>)
    requires WellOrdered(h) && !Summarize(h).closed
    ensures Closes(h) == 0 && AfterClose(h) == 0
  {
    hide Fips.Hash, PacketAllowed;
    if h != [] {
      OpenIsUncounted(h[..|h| - 1]);
    }
  }

  lemma RunIsReady(t: Threads, events: seq<Event>)
    requires AtRest(t) && Run(t.s, events).state == CONNECTED
    ensures Ready(Threads(Run(t.s, events), [], []))
  {
    hide Run, WellOrdered, Summarize, Closes, AfterClose, Initial;
    RunKeeps(t.s, events);
    TimersAndSocket(t.s, events);
    OpenIsUncounted(Run(t.s, events).cur);
  }

  /** From every run that connects a schedule goes on to three packets after CLOSE: the bound is reached. */
  lemma ThreeDoFollow(t: Threads, events: seq<Event>, source: bv32, callee: bv32, toGroup: bool)
    returns (turns: seq<Turn>)
    requires AtRest(t) && Run(t.s, events).state == CONNECTED
    requires forall i :: 0 <= i < |events| ==> !events[i].CallConnectFails?
    ensures var h := Scheduled(t, turns).s.cur; Closes(h) == 1 && AfterClose(h) == 3
  {
    hide Run, Scheduled, Closes, AfterClose, Ready, ERROR_UP_TO_CLOSE;
    RunIsReady(t, events);
    turns := RunScheduled(t, events);
    var more := [ApiCalls(CallStartVoice(source, callee, toGroup))] + ERROR_UP_TO_CLOSE
                + [ApiGoesOn, ApiGoesOn, ApiGoesOn, ApiGoesOn, ApiGoesOn, ApiGoesOn];
    ThreeAfterClose(Threads(Run(t.s, events), [], []), source, callee, toGroup);
    ScheduledSplit(t, turns, more);
    turns := turns + more;
  }

  /** The API thread's way to its CLOSE. */
  lemma ApiHangsUpToClose(t: Threads)
    requires t.api == HANGING_UP && t.s.socketOpen
    ensures Closes(Turned(Turned(t, ApiGoesOn), ApiGoesOn).s.cur) == Closes(t.s.cur) + 1
  {
    hide Turned, Do, Closes, AfterClose, IsCloseOp;
    FourOf();
    var close := Send(CLOSE, NONE, []);
    assert HANGING_UP == [SetState(DISCONNECTED)] + ([close] + [Shut, TellDisconnected]);
    GoesOn(t, SetState(DISCONNECTED), [close] + [Shut, TellDisconnected]);
    DoCounts(t.s, SetState(DISCONNECTED));
    NoClose(SetState(DISCONNECTED));
    var a := Turned(t, ApiGoesOn);
    GoesOn(a, close, [Shut, TellDisconnected]);
    DoCounts(a.s, close);
  }

  /** Disconnect and a socket error at once: both find the client connected, and both send a CLOSE. */
  lemma TwoCloses(t: Threads)
    requires Ready(t)
    ensures Closes(Scheduled(t, [ApiCalls(CallDisconnect), IoHandles(ReceiveError(false)), IoGoesOn, IoGoesOn, IoGoesOn,
                                 ApiGoesOn] + [IoGoesOn, IoGoesOn, ApiGoesOn] + [ApiGoesOn]).s.cur) == 2
  {
    hide Turned, Scheduled, Closes, AfterClose, HANGING_UP;
    var first := [ApiCalls(CallDisconnect), IoHandles(ReceiveError(false)), IoGoesOn, IoGoesOn, IoGoesOn, ApiGoesOn];
    SixTurns(t, ApiCalls(CallDisconnect), IoHandles(ReceiveError(false)), IoGoesOn, IoGoesOn, IoGoesOn, ApiGoesOn);
    CallBegins(t, CallDisconnect);
    var a := Turned(t, ApiCalls(CallDisconnect));
    ErrorReported(a);
    var b := Turned(Turned(Turned(a, IoHandles(ReceiveError(false))), IoGoesOn), IoGoesOn);
    HangsUp(b);
    var c := Turned(b, IoGoesOn);
    HangsUp(c);
    var d := Turned(c, ApiGoesOn);
    ThreeTurns(d, IoGoesOn, IoGoesOn, ApiGoesOn);
    HangsUpToClose(d);
    ScheduledSplit(t, first, [IoGoesOn, IoGoesOn, ApiGoesOn]);
    var e := Turned(Turned(d, IoGoesOn), IoGoesOn);
    ApiHangsUpToClose(e);
    ScheduledOne(Turned(e, ApiGoesOn), ApiGoesOn);
    ScheduledSplit(t, first + [IoGoesOn, IoGoesOn, ApiGoesOn], [ApiGoesOn]);
  }
}
