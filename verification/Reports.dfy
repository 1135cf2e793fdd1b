/**
 Errors over whole runs and whole schedules: every send that fails is reported at once, and the reason a session ends
 with is the last error reported in it.
 */
module Reports {
  import opened Effects
  import opened Grammar
  import opened Session
  import opened SessionProofs
  import opened Threads
  import opened Wire
  import Fips

  /** How many sends a history attempts. */
  function Attempts(h: seq<Entry>): (n: nat) {
    if h == [] then 0 else Attempts(h[..|h| - 1]) + if h[|h| - 1].Sent? then 1 else 0
  }

  /** How many all sessions before session `k` attempt. */
  function Before(all: seq<seq<Entry>>, k: nat): (n: nat)
    requires k <= |all|
  {
    if k == 0 then 0 else Before(all, k - 1) + Attempts(all[k - 1])
  }

  /** The last error reported in a history. */
  function ErrorIn(h: seq<Entry>): (e: ClientError) {
    if h == [] then SUCCESS else if h[|h| - 1].OnError? then h[|h| - 1].error else ErrorIn(h[..|h| - 1])
  }

  /** Right after every send that fails comes its onError(SOCKET_IO); `base` sends were attempted before. */
  predicate FailuresReported(h: seq<Entry>, failing: nat -> bool, base: nat) {
    forall j :: 0 <= j < |h| ==> ReportedAt(h, j, failing, base)
  }

  predicate ReportedAt(h: seq<Entry>, j: nat, failing: nat -> bool, base: nat)
    requires j < |h|
  {
    h[j].Sent? && failing(base + Attempts(h[..j])) ==> j + 1 < |h| && h[j + 1] == OnError(SOCKET_IO)
  }

  /** onDisconnected is given the last error reported before it, or SUCCESS if there was none. */
  predicate ReasonsGiven(h: seq<Entry>) {
    forall j :: 0 <= j < |h| && h[j].OnDisconnected? ==> h[j].reason == ErrorIn(h[..j])
  }

  ghost predicate Accounted(s: Session, base: nat) {
    && s.sends == base + Attempts(s.cur) && s.lastError == ErrorIn(s.cur)
    && FailuresReported(s.cur, s.failing, base) && ReasonsGiven(s.cur)
  }

  // ----- One more entry -----

  lemma TallyMore(h: seq<Entry>, e: Entry)
    ensures Attempts(h + [e]) == Attempts(h) + if e.Sent? then 1 else 0
    ensures ErrorIn(h + [e]) == if e.OnError? then e.error else ErrorIn(h)
  {
    assert (h + [e])[..|h|] == h;
  }

  lemma ReasonsMore(h: seq<Entry>, e: Entry)
    requires ReasonsGiven(h) && (e.OnDisconnected? ==> e.reason == ErrorIn(h))
    ensures ReasonsGiven(h + [e])
  {
    hide ErrorIn;
    var g := h + [e];
    forall j | 0 <= j < |g| && g[j].OnDisconnected?
      ensures g[j].reason == ErrorIn(g[..j])
    {
      if j < |h| {
        assert g[j] == h[j] && g[..j] == h[..j];
      } else {
        assert g[..j] == h;
      }
    }
  }

  lemma StillReported(h: seq<Entry>, more: seq<Entry>, j: nat, failing: nat -> bool, base: nat)
    requires j < |h| && ReportedAt(h, j, failing, base)
    ensures ReportedAt(h + more, j, failing, base)
  {
    hide Attempts;
    assert (h + more)[..j] == h[..j] && (h + more)[j] == h[j];
  }

  lemma ReportedMore(h: seq<Entry>, e: Entry, failing: nat -> bool, base: nat)
    requires FailuresReported(h, failing, base) && (e.Sent? ==> !failing(base + Attempts(h)))
    ensures FailuresReported(h + [e], failing, base)
  {
    hide Attempts, ReportedAt;
    forall j | 0 <= j < |h + [e]|
      ensures ReportedAt(h + [e], j, failing, base)
    {
      if j < |h| {
        StillReported(h, [e], j, failing, base);
      } else {
        LastReported(h, e, failing, base);
      }
    }
  }

  lemma LastReported(h: seq<Entry>, e: Entry, failing: nat -> bool, base: nat)
    requires e.Sent? ==> !failing(base + Attempts(h))
    ensures ReportedAt(h + [e], |h|, failing, base)
  {
    hide Attempts;
    Whole(h, e);
    NotFailing(h + [e], |h|, failing, base);
  }

  lemma NotFailing(g: seq<Entry>, j: nat, failing: nat -> bool, base: nat)
    requires j < |g| && (g[j].Sent? ==> !failing(base + Attempts(g[..j])))
    ensures ReportedAt(g, j, failing, base)
  {
    hide Attempts;
  }

  lemma Whole(h: seq<Entry>, e: Entry)
    ensures (h + [e])[..|h|] == h && (h + [e])[|h|] == e
  {
  }

  lemma ReportedBoth(h: seq<Entry>, p: Packet, failing: nat -> bool, base: nat)
    requires FailuresReported(h, failing, base)
    ensures FailuresReported(h + ([Sent(p)] + [OnError(SOCKET_IO)]), failing, base)
  {
    hide Attempts, ReportedAt;
    var more := [Sent(p)] + [OnError(SOCKET_IO)];
    forall j | 0 <= j < |h + more|
      ensures ReportedAt(h + more, j, failing, base)
    {
      if j < |h| {
        StillReported(h, more, j, failing, base);
      } else {
        BothReported(h, p, j, failing, base);
      }
    }
  }

  lemma BothReported(h: seq<Entry>, p: Packet, j: nat, failing: nat -> bool, base: nat)
    requires |h| <= j < |h| + 2
    ensures ReportedAt(h + ([Sent(p)] + [OnError(SOCKET_IO)]), j, failing, base)
  {
    hide Attempts;
    var g := h + ([Sent(p)] + [OnError(SOCKET_IO)]);
    assert g[|h|] == Sent(p) && g[|h| + 1] == OnError(SOCKET_IO);
  }

  // ----- One operation -----

  lemma NoteAccounted(s: Session, e: Entry, t: Session, base: nat)
    requires Accounted(s, base) && t.cur == s.cur + [e] && t.sends == s.sends && t.failing == s.failing && !e.Sent?
    requires t.lastError == if e.OnError? then e.error else s.lastError
    requires e.OnDisconnected? ==> e.reason == s.lastError
    ensures Accounted(t, base)
  {
    hide Attempts, ErrorIn, FailuresReported, ReasonsGiven;
    TallyMore(s.cur, e);
    ReasonsMore(s.cur, e);
    ReportedMore(s.cur, e, s.failing, base);
  }

  lemma SendAccounted(s: Session, kind: bv16, flags: bv16, payload: seq<bv8>, base: nat)
    requires Accounted(s, base)
    ensures Accounted(TransmitRaw(s, kind, flags, payload), base)
  {
    hide TransmitRaw, Outgoing, Attempts, ErrorIn, FailuresReported, ReasonsGiven;
    TransmitExactly(s, kind, flags, payload);
    if s.socketOpen {
      var p := Outgoing(s, kind, flags, payload);
      TallyMore(s.cur, Sent(p));
      ReasonsMore(s.cur, Sent(p));
      if s.failing(s.sends) {
        TallyMore(s.cur + [Sent(p)], OnError(SOCKET_IO));
        ReasonsMore(s.cur + [Sent(p)], OnError(SOCKET_IO));
        ReportedBoth(s.cur, p, s.failing, base);
        assert s.cur + [Sent(p)] + [OnError(SOCKET_IO)] == s.cur + ([Sent(p)] + [OnError(SOCKET_IO)]);
      } else {
        ReportedMore(s.cur, Sent(p), s.failing, base);
        assert s.cur + ([Sent(p)] + []) == s.cur + [Sent(p)];
      }
    }
  }

  /** An operation that raises no error and ends no session but through the members for that. */
  predicate IsPlain(op: Op) {
    op.Tell? ==> !op.entry.Sent? && !op.entry.OnError? && !op.entry.OnDisconnected?
  }

  lemma DoAccounted(s: Session, op: Op, base: nat)
    requires Accounted(s, base) && IsPlain(op)
    ensures Accounted(Do(s, op), base)
  {
    hide TransmitRaw, Accounted;
    match op
    case Send(kind, flags, payload) => SendAccounted(s, kind, flags, payload, base);
    case ZeroRealTime => TellAccounted(s, op, CallBegan, base);
    case Tell(e) => TellAccounted(s, op, e, base);
    case Err(error) => TellAccounted(s, op, OnError(error), base);
    case TellDisconnected => TellAccounted(s, op, OnDisconnected(s.lastError), base);
    case OpenSocket(port) => TellAccounted(s, op, Opened(port), base);
    case _ => FieldsAccounted(s, op, base);
  }

  lemma TellAccounted(s: Session, op: Op, e: Entry, base: nat)
    requires Accounted(s, base) && IsPlain(op) && !op.Send?
    requires
      || (op.ZeroRealTime? && e == CallBegan) || (op.Tell? && e == op.entry) || (op.Err? && e == OnError(op.error))
      || (op.TellDisconnected? && e == OnDisconnected(s.lastError)) || (op.OpenSocket? && e == Opened(op.port))
    ensures Accounted(Do(s, op), base)
  {
    hide Accounted;
    SendsKept(s, base);
    NoteAccounted(s, e, Do(s, op), base);
  }

  lemma SendsKept(s: Session, base: nat)
    requires Accounted(s, base)
    ensures s.lastError == ErrorIn(s.cur)
  {
  }

  lemma FieldsAccounted(s: Session, op: Op, base: nat)
    requires Accounted(s, base)
    requires !op.Send? && !op.ZeroRealTime? && !op.Tell? && !op.Err? && !op.TellDisconnected? && !op.OpenSocket?
    ensures Accounted(Do(s, op), base)
  {
    hide Attempts, ErrorIn, FailuresReported, ReasonsGiven;
  }

  predicate ArePlain(ops: seq<Op>) { forall i :: 0 <= i < |ops| ==> IsPlain(ops[i]) }

  lemma MorePlain(s: Session, op: Op, ops: seq<Op>)
    requires ArePlain(ops)
    ensures ArePlain(More(s, op) + ops)
  {
  }

  lemma {:induction false} AloneAccounted(s: Session, ops: seq<Op>, base: nat)
    requires Accounted(s, base) && ArePlain(ops)
    ensures Accounted(Alone(s, ops), base)
    decreases Weight(ops)
  {
    hide Accounted, Do, More, Weight, IsPlain;
    if ops != [] {
      WeightFalls(s, ops);
      assert IsPlain(ops[0]);
      MorePlain(s, ops[0], ops[1..]);
      DoAccounted(s, ops[0], base);
      AloneAccounted(Do(s, ops[0]), More(s, ops[0]) + ops[1..], base);
    }
  }

  // ----- What calls and handlers set out to do is plain -----

  lemma PacketPlain(s: Session, packet: seq<bv8>)
    ensures ArePlain(PacketOps(s, packet))
  {
    hide ParseFrame, Callback, Fips.Hash;
    if ParseFrame(packet).Some? {
      var f := ParseFrame(packet).value;
      CallbackDelivers(f.header, f.payload);
    }
  }

  lemma HandlerPlain(s: Session, e: Event)
    requires IsHandler(e)
    ensures ArePlain(HandlerOps(s, e))
  {
    hide PacketOps, Received, HelloOp;
    HelloPlain(s);
    if e.Datagram? {
      PacketPlain(s, Received(e.bytes));
    }
  }

  lemma HelloPlain(s: Session)
    ensures IsPlain(HelloOp(s))
  {
    hide VersionBytes;
  }

  lemma CallPlain(s: Session, e: Event)
    requires IsCall(e)
    ensures ArePlain(CallOps(s, e))
  {
    hide SubscriptionBytes, TextBytes, LocationBytes, VoiceHeaderBytes;
  }

  // ----- Runs -----

  /** The same between steps; the last error means nothing once a session is over. */
  ghost predicate AllAccounted(s: Session) {
    var all := Sessions(s);
    && s.sends == Before(all, |s.past|) + Attempts(s.cur)
    && (s.state != DISCONNECTED ==> s.lastError == ErrorIn(s.cur))
    && forall k :: 0 <= k < |all| ==> FailuresReported(all[k], s.failing, Before(all, k)) && ReasonsGiven(all[k])
  }

  lemma {:induction false} BeforeSame(a: seq<seq<Entry>>, b: seq<seq<Entry>>, k: nat)
    requires k <= |a| && k <= |b| && a[..k] == b[..k]
    ensures Before(a, k) == Before(b, k)
  {
    hide Attempts;
    if k > 0 {
      assert a[k - 1] == a[..k][k - 1] && b[k - 1] == b[..k][k - 1];
      assert a[..k - 1] == a[..k][..k - 1] && b[..k - 1] == b[..k][..k - 1];
      BeforeSame(a, b, k - 1);
    }
  }

  lemma CurrentAccounted(s: Session)
    requires AllAccounted(s) && s.lastError == ErrorIn(s.cur)
    ensures Accounted(s, Before(Sessions(s), |s.past|))
  {
    hide Attempts, Before, ErrorIn, FailuresReported, ReasonsGiven;
    assert Sessions(s)[|s.past|] == s.cur;
  }

  lemma ReplacedAccounted(s: Session, t: Session)
    requires AllAccounted(s) && t.past == s.past && t.failing == s.failing
    requires Accounted(t, Before(Sessions(s), |s.past|))
    ensures AllAccounted(t)
  {
    hide Attempts, Before, ErrorIn, FailuresReported, ReasonsGiven;
    var a, b := Sessions(s), Sessions(t);
    forall k | 0 <= k <= |s.past|
      ensures Before(a, k) == Before(b, k)
    {
      assert a[..k] == b[..k];
      BeforeSame(a, b, k);
    }
    assert b[|s.past|] == t.cur;
    forall k | 0 <= k < |b|
      ensures FailuresReported(b[k], t.failing, Before(b, k)) && ReasonsGiven(b[k])
    {
      if k < |s.past| {
        assert b[k] == a[k];
      }
    }
  }

  lemma NewSessionAccounted(s: Session, password: seq<bv8>)
    requires AllAccounted(s) && s.state == DISCONNECTED
    ensures AllAccounted(Connect(s, password))
  {
    hide Attempts, Before, ErrorIn, FailuresReported, ReasonsGiven;
    var t := Connect(s, password);
    var a, b := Sessions(s), Sessions(t);
    NothingAccounted(password, s.failing, Before(b, |t.past|));
    BeforeMore(s, t);
    forall k | 0 <= k <= |s.past|
      ensures Before(a, k) == Before(b, k)
    {
      assert a[..k] == b[..k];
      BeforeSame(a, b, k);
    }
    forall k | 0 <= k < |b|
      ensures FailuresReported(b[k], t.failing, Before(b, k)) && ReasonsGiven(b[k])
    {
      if k < |t.past| {
        assert b[k] == a[k];
      }
    }
  }

  /** The sessions before the new one attempted all the sends there were. */
  lemma BeforeMore(s: Session, t: Session)
    requires t.past == if s.cur == [] then s.past else Sessions(s)
    ensures Before(Sessions(t), |t.past|) == Before(Sessions(s), |s.past|) + Attempts(s.cur)
  {
    var a, b := Sessions(s), Sessions(t);
    assert a[..|s.past|] == b[..|s.past|];
    BeforeSame(a, b, |s.past|);
    if s.cur != [] {
      assert b[|s.past|] == s.cur;
    }
  }

  lemma NothingAccounted(password: seq<bv8>, failing: nat -> bool, base: nat)
    ensures var h := [Began(password)];
      Attempts(h) == 0 && ErrorIn(h) == SUCCESS && FailuresReported(h, failing, base) && ReasonsGiven(h)
    ensures Attempts([]) == 0 && ErrorIn([]) == SUCCESS && FailuresReported([], failing, base) && ReasonsGiven([])
  {
    TallyMore([], Began(password));
    assert [] + [Began(password)] == [Began(password)];
  }

  /** A disconnected client only begins sessions. */
  ghost predicate Idles(s: Session, t: Session) {
    && t.cur == s.cur && t.past == s.past && t.sends == s.sends && t.state == DISCONNECTED && t.failing == s.failing
  }

  lemma IdleCall(s: Session, e: Event)
    requires s.state == DISCONNECTED && IsCall(e)
    ensures Idles(s, Step(s, e))
  {
    hide TransmitRaw, SubscriptionBytes, TextBytes, LocationBytes, VoiceHeaderBytes;
  }

  lemma IdleReceive(s: Session, e: Event)
    requires s.state == DISCONNECTED && (e.ReceiveError? || e.Datagram?)
    ensures Idles(s, Step(s, e))
  {
    hide Fail, ProcessPacket, Received;
  }

  lemma IdleTimer(s: Session, e: Event)
    requires s.state == DISCONNECTED && (e.ResolverDone? || e.TimeoutTimer? || e.KeepAliveTimer?)
    ensures Idles(s, Step(s, e))
  {
    hide Fail, SendKeepAlive;
  }

  lemma IdleHandler(s: Session, e: Event)
    requires s.state == DISCONNECTED && IsHandler(e)
    ensures Idles(s, Step(s, e))
  {
    hide Step, Idles;
    if e.ReceiveError? || e.Datagram? {
      IdleReceive(s, e);
    } else {
      IdleTimer(s, e);
    }
  }

  lemma IdleStart(s: Session, e: Event)
    requires s.state == DISCONNECTED && e.CallConnectFails?
    ensures Idles(s, Step(s, e))
  {
  }

  lemma IdleDisconnected(s: Session, e: Event)
    requires s.state == DISCONNECTED && !e.CallConnect?
    ensures Idles(s, Step(s, e))
  {
    hide Step, Idles;
    if IsCall(e) {
      IdleCall(s, e);
    } else if IsHandler(e) {
      IdleHandler(s, e);
    } else {
      IdleStart(s, e);
    }
  }

  lemma IdleAccounted(s: Session, t: Session)
    requires AllAccounted(s) && t.cur == s.cur && t.past == s.past && t.sends == s.sends && t.failing == s.failing
    requires t.state == DISCONNECTED
    ensures AllAccounted(t)
  {
    hide Attempts, Before, ErrorIn, FailuresReported, ReasonsGiven;
  }

  lemma ActiveAccounted(s: Session, e: Event)
    requires Inv(s) && AllAccounted(s) && s.state != DISCONNECTED && (IsCall(e) || IsHandler(e))
    ensures AllAccounted(Step(s, e))
  {
    hide Inv, Step, AllAccounted, Accounted, CallOps, HandlerOps, ArePlain;
    ErrorStands(s);
    CurrentAccounted(s);
    var base := Before(Sessions(s), |s.past|);
    StepKeeps(s, e);
    if IsCall(e) {
      CallPlain(s, e);
      CallAlone(s, e);
      AloneAccounted(s, CallOps(s, e), base);
    } else {
      HandlerPlain(s, e);
      HandlerAlone(s, e);
      AloneAccounted(s, HandlerOps(s, e), base);
    }
    ReplacedAccounted(s, Step(s, e));
  }

  lemma ErrorStands(s: Session)
    requires AllAccounted(s) && s.state != DISCONNECTED
    ensures s.lastError == ErrorIn(s.cur)
  {
  }

  lemma StepAccounted(s: Session, e: Event)
    requires Inv(s) && AllAccounted(s)
    ensures AllAccounted(Step(s, e))
  {
    hide Inv, Step, AllAccounted, Connect;
    if e.CallConnect? {
      ConnectIsStep(s, e);
      if s.state == DISCONNECTED {
        NewSessionAccounted(s, e.password);
      } else {
        Refused(s, e.password);
      }
    } else if s.state == DISCONNECTED {
      IdleDisconnected(s, e);
      IdleAccounted(s, Step(s, e));
    } else if e.CallConnectFails? {
      RefusedToo(s, e);
    } else {
      ActiveAccounted(s, e);
    }
  }

  lemma Refused(s: Session, password: seq<bv8>)
    requires s.state != DISCONNECTED
    ensures Connect(s, password) == s
  {
  }

  lemma RefusedToo(s: Session, e: Event)
    requires s.state != DISCONNECTED && e.CallConnectFails?
    ensures Step(s, e) == s
  {
  }

  lemma {:induction false} RunAccounted(s: Session, events: seq<Event>)
    requires Initial(s)
    ensures AllAccounted(Run(s, events)) && Run(s, events).failing == s.failing
    decreases |events|
  {
    hide AllAccounted, Step, Initial, Inv;
    if events == [] {
      StartAccounted(s);
    } else {
      var init := events[..|events| - 1];
      RunAccounted(s, init);
      RunKeeps(s, init);
      StepAccounted(Run(s, init), events[|events| - 1]);
      StepKeeps(Run(s, init), events[|events| - 1]);
    }
  }

  lemma StartAccounted(s: Session)
    requires Initial(s)
    ensures AllAccounted(s)
  {
    NothingAccounted([], s.failing, 0);
  }

  /**
   In every session of every run: right after every send that fails comes its onError(SOCKET_IO), and onDisconnected
   is given the last error reported in the session, or SUCCESS.
   */
  lemma RunsReport(s: Session, events: seq<Event>, k: nat)
    requires Initial(s) && k < |Sessions(Run(s, events))|
    ensures var all := Sessions(Run(s, events));
      FailuresReported(all[k], s.failing, Before(all, k)) && ReasonsGiven(all[k])
  {
    hide Initial, Run, Attempts, Before, ErrorIn, FailuresReported, ReasonsGiven;
    RunAccounted(s, events);
  }

  // ----- Schedules -----

  ghost predicate TurnsAccounted(t: Threads) {
    AllAccounted(t.s) && t.s.lastError == ErrorIn(t.s.cur) && ArePlain(t.api) && ArePlain(t.io)
  }

  lemma PlainTail(ops: seq<Op>)
    requires ops != [] && ArePlain(ops)
    ensures IsPlain(ops[0]) && ArePlain(ops[1..])
  {
    hide IsPlain;
  }

  lemma DoneAccounted(s: Session, op: Op)
    requires AllAccounted(s) && s.lastError == ErrorIn(s.cur) && IsPlain(op)
    ensures AllAccounted(Do(s, op)) && Do(s, op).lastError == ErrorIn(Do(s, op).cur)
  {
    hide AllAccounted, Do, IsPlain, Attempts, Before, ErrorIn, FailuresReported, ReasonsGiven;
    CurrentAccounted(s);
    DoAccounted(s, op, Before(Sessions(s), |s.past|));
    DoKeepsPast(s, op);
    ReplacedAccounted(s, Do(s, op));
  }

  lemma DoKeepsPast(s: Session, op: Op)
    ensures Do(s, op).past == s.past && Do(s, op).failing == s.failing
  {
    hide TransmitRaw;
    if op.Send? {
      TransmitSame(s, op.kind, op.flags, op.payload);
    }
  }

  lemma ConnectAccounted(t: Threads, password: seq<bv8>)
    requires TurnsAccounted(t)
    ensures AllAccounted(Connect(t.s, password))
    ensures Connect(t.s, password).lastError == ErrorIn(Connect(t.s, password).cur)
  {
    hide AllAccounted, ErrorIn;
    if t.s.state == DISCONNECTED {
      NewSessionAccounted(t.s, password);
      NothingAccounted(password, t.s.failing, 0);
    }
  }

  lemma TurnAccounted(t: Threads, turn: Turn)
    requires TurnsAccounted(t)
    ensures TurnsAccounted(Turned(t, turn))
  {
    hide AllAccounted, ErrorIn, Do, More, CallOps, HandlerOps, ArePlain, Connect;
    match turn
    case ApiConnects(password) => ConnectAccounted(t, password);
    case ApiCalls(e) =>
      if IsCall(e) {
        CallPlain(t.s, e);
      }
    case ApiGoesOn =>
      if t.api != [] {
        PlainTail(t.api);
        MorePlain(t.s, t.api[0], t.api[1..]);
        DoneAccounted(t.s, t.api[0]);
      }
    case IoHandles(e) =>
      if IsHandler(e) {
        HandlerPlain(t.s, e);
      }
    case IoGoesOn =>
      if t.io != [] {
        PlainTail(t.io);
        MorePlain(t.s, t.io[0], t.io[1..]);
        DoneAccounted(t.s, t.io[0]);
      }
  }

  lemma {:induction false} ScheduleAccounted(t: Threads, turns: seq<Turn>)
    requires AtRest(t)
    ensures TurnsAccounted(Scheduled(t, turns)) && Scheduled(t, turns).s.failing == t.s.failing
    decreases |turns|
  {
    hide TurnsAccounted, Turned, AtRest;
    if turns == [] {
      RestAccounted(t);
    } else {
      var init := turns[..|turns| - 1];
      ScheduleAccounted(t, init);
      TurnAccounted(Scheduled(t, init), turns[|turns| - 1]);
      TurnKeepsFailing(Scheduled(t, init), turns[|turns| - 1]);
    }
  }

  lemma TurnKeepsFailing(t: Threads, turn: Turn)
    ensures Turned(t, turn).s.failing == t.s.failing
  {
    hide Do, More, CallOps, HandlerOps;
    if turn.ApiGoesOn? && t.api != [] {
      DoKeepsPast(t.s, t.api[0]);
    }
    if turn.IoGoesOn? && t.io != [] {
      DoKeepsPast(t.s, t.io[0]);
    }
  }

  lemma RestAccounted(t: Threads)
    requires AtRest(t)
    ensures TurnsAccounted(t)
  {
    StartAccounted(t.s);
    NothingAccounted([], t.s.failing, 0);
  }

  /** The same in every session of every schedule of the two threads. */
  lemma SchedulesReport(t: Threads, turns: seq<Turn>, k: nat)
    requires AtRest(t) && k < |Sessions(Scheduled(t, turns).s)|
    ensures var all := Sessions(Scheduled(t, turns).s);
      FailuresReported(all[k], t.s.failing, Before(all, k)) && ReasonsGiven(all[k])
  {
    hide AtRest, Scheduled, Attempts, Before, ErrorIn, FailuresReported, ReasonsGiven;
    ScheduleAccounted(t, turns);
  }
}
