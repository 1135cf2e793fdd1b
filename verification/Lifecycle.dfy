/** What the invariant means for the history of every session of every run. */
module Lifecycle {
  import opened Bits
  import opened Grammar
  import opened Session
  import opened SessionProofs
  import opened Wire
  import Fips

  // ----- Reading a well-ordered history -----

  lemma {:induction false} At(h: seq<Entry>, i: nat)
    requires WellOrdered(h) && i < |h|
    ensures WellOrdered(h[..i]) && Allowed(Summarize(h[..i]), h[i])
    ensures Summarize(h[..i + 1]) == Next(Summarize(h[..i]), h[i])
    decreases |h|
  {
    hide Allowed, Next;
    var init := h[..|h| - 1];
    if i < |init| {
      At(init, i);
      assert init[..i] == h[..i] && init[..i + 1] == h[..i + 1];
    } else {
      assert h[..i] == init && h[..i + 1] == h && h[..i + 1][..i] == init;
    }
  }

  /** What never goes back. */
  predicate Later(m: Summary, n: Summary) {
    && (m.began ==> n.began && n.password == m.password)
    && (m.bound ==> n.bound && n.port == m.port)
    && (m.challenged ==> n.challenged && n.salt == m.salt)
    && m.auths <= n.auths && (m.connected ==> n.connected)
    && (m.closed ==> n.closed) && (m.ended ==> n.ended)
  }

  lemma OneLater(m: Summary, e: Entry)
    requires Allowed(m, e)
    ensures Later(m, Next(m, e))
  {
  }

  lemma {:induction false} Monotone(h: seq<Entry>, i: nat, j: nat)
    requires WellOrdered(h) && i <= j <= |h|
    ensures Later(Summarize(h[..i]), Summarize(h[..j]))
    decreases j
  {
    hide Allowed, Next, Summarize, WellOrdered;
    if i < j {
      Monotone(h, i, j - 1);
      At(h, j - 1);
      OneLater(Summarize(h[..j - 1]), h[j - 1]);
    }
  }

  predicate IsRoutine(e: Entry, kind: bv16) {
    e.Sent? && !IsRealTime(e.packet.flags) && e.packet.kind == kind
  }

  predicate IsAuthentication(e: Entry) { IsRoutine(e, AUTHENTICATION) }

  predicate IsClose(e: Entry) { IsRoutine(e, CLOSE) }

  lemma Unchanged(m: Summary, e: Entry)
    ensures !e.Challenged? ==> Next(m, e).challenged == m.challenged && Next(m, e).salt == m.salt
    ensures !IsAuthentication(e) ==> Next(m, e).auths == m.auths
    ensures !e.OnConnected? ==> Next(m, e).connected == m.connected
  {
  }

  /** A challenge was accepted before, and its salt is the one summarised. */
  lemma {:induction false} SaltAccepted(h: seq<Entry>) returns (c: nat)
    requires Summarize(h).challenged
    ensures c < |h| && h[c] == Challenged(Summarize(h).salt)
  {
    hide IsAuthentication, AfterPacket;
    if h[|h| - 1].Challenged? {
      c := |h| - 1;
    } else {
      Unchanged(Summarize(h[..|h| - 1]), h[|h| - 1]);
      c := SaltAccepted(h[..|h| - 1]);
    }
  }

  lemma {:induction false} SomeAuthentication(h: seq<Entry>) returns (i: nat)
    requires Summarize(h).auths > 0
    ensures i < |h| && IsAuthentication(h[i])
  {
    hide IsAuthentication, AfterPacket;
    if IsAuthentication(h[|h| - 1]) {
      i := |h| - 1;
    } else {
      Unchanged(Summarize(h[..|h| - 1]), h[|h| - 1]);
      i := SomeAuthentication(h[..|h| - 1]);
    }
  }

  lemma {:induction false} ConnectedLogged(h: seq<Entry>) returns (j: nat)
    requires Summarize(h).connected
    ensures j < |h| && h[j].OnConnected?
  {
    hide IsAuthentication, AfterPacket;
    if h[|h| - 1].OnConnected? {
      j := |h| - 1;
    } else {
      Unchanged(Summarize(h[..|h| - 1]), h[|h| - 1]);
      j := ConnectedLogged(h[..|h| - 1]);
    }
  }

  lemma PasswordBegan(h: seq<Entry>)
    requires WellOrdered(h) && h != []
    ensures h[0] == Began(Summarize(h).password) && Summarize(h).began
  {
    hide WellOrdered, Summarize;
    At(h, 0);
    assert h[..0] == [] && h[..|h|] == h;
    Monotone(h, 1, |h|);
    EmptySummary();
  }

  lemma EmptySummary()
    ensures Summarize([]) == EMPTY
  {
  }

  // ----- Login -----

  /** The answer to a challenge accepted earlier in the same session, under the password the session began with. */
  ghost predicate AnswersChallenge(h: seq<Entry>, i: nat)
    requires i < |h|
  {
    && h[i].Sent? && h[0].Began?
    && exists c :: 0 <= c < i && h[c].Challenged? && h[i].packet.payload == Fips.Hash(h[c].salt + h[0].password)
  }

  lemma AuthenticationAnswers(h: seq<Entry>, i: nat)
    requires WellOrdered(h) && i < |h| && IsAuthentication(h[i])
    ensures AnswersChallenge(h, i)
  {
    hide WellOrdered, Summarize;
    At(h, i);
    var before := h[..i];
    EmptySummary();
    assert before != [];
    PasswordBegan(before);
    var c := SaltAccepted(before);
    assert h[c] == before[c] && h[0] == before[0];
  }

  lemma OnlyOneChallenge(h: seq<Entry>, i: nat, j: nat)
    requires WellOrdered(h) && i < j < |h|
    ensures !(h[i].Challenged? && h[j].Challenged?)
    ensures !(IsAuthentication(h[i]) && IsAuthentication(h[j]))
    ensures !(h[i].OnConnected? && h[j].OnConnected?)
    ensures IsClose(h[i]) ==> h[j].OnError? || h[j].OnDisconnected?
    ensures !h[i].OnDisconnected?
  {
    hide WellOrdered, Summarize;
    At(h, i);
    At(h, j);
    Monotone(h, i + 1, j);
  }

  lemma ConnectedAfterAuthentication(h: seq<Entry>, j: nat)
    requires WellOrdered(h) && j < |h| && h[j].OnConnected?
    ensures exists i :: 0 <= i < j && IsAuthentication(h[i])
  {
    hide WellOrdered, Summarize, IsAuthentication, PacketAllowed, Next;
    At(h, j);
    var i := SomeAuthentication(h[..j]);
    assert h[i] == h[..j][i];
  }

  /** The life of one session, read off its history. */
  ghost predicate OrderlySession(h: seq<Entry>) {
    // At most one challenge is accepted, one AUTHENTICATION sent and one onConnected raised,
    && (forall i, j :: 0 <= i < j < |h| ==> !(h[i].Challenged? && h[j].Challenged?))
    && (forall i, j :: 0 <= i < j < |h| ==> !(IsAuthentication(h[i]) && IsAuthentication(h[j])))
    && (forall i, j :: 0 <= i < j < |h| ==> !(h[i].OnConnected? && h[j].OnConnected?))
    // the AUTHENTICATION answers the accepted challenge, and onConnected comes only after it;
    && (forall i :: 0 <= i < |h| && IsAuthentication(h[i]) ==> AnswersChallenge(h, i))
    && (forall j :: 0 <= j < |h| && h[j].OnConnected? ==> exists i :: 0 <= i < j && IsAuthentication(h[i]))
    // nothing but an error and onDisconnected follows CLOSE, and nothing at all follows onDisconnected.
    && (forall i, j :: 0 <= i < j < |h| && IsClose(h[i]) ==> h[j].OnError? || h[j].OnDisconnected?)
    && (forall i :: 0 <= i < |h| - 1 ==> !h[i].OnDisconnected?)
  }

  lemma WellOrderedIsOrderly(h: seq<Entry>)
    requires WellOrdered(h)
    ensures OrderlySession(h)
  {
    hide WellOrdered, AnswersChallenge, IsAuthentication, IsClose;
    forall i, j | 0 <= i < j < |h|
      ensures !(h[i].Challenged? && h[j].Challenged?) && !(IsAuthentication(h[i]) && IsAuthentication(h[j]))
      ensures !(h[i].OnConnected? && h[j].OnConnected?)
      ensures IsClose(h[i]) ==> h[j].OnError? || h[j].OnDisconnected?
    {
      OnlyOneChallenge(h, i, j);
    }
    forall i | 0 <= i < |h| - 1
      ensures !h[i].OnDisconnected?
    {
      OnlyOneChallenge(h, i, i + 1);
    }
    forall i | 0 <= i < |h| && IsAuthentication(h[i])
      ensures AnswersChallenge(h, i)
    {
      AuthenticationAnswers(h, i);
    }
    forall j | 0 <= j < |h| && h[j].OnConnected?
      ensures exists i :: 0 <= i < j && IsAuthentication(h[i])
    {
      ConnectedAfterAuthentication(h, j);
    }
  }

  lemma EndedByCallback(h: seq<Entry>)
    requires WellOrdered(h) && Summarize(h).ended
    ensures h != [] && h[|h| - 1].OnDisconnected?
  {
    hide PacketAllowed;
    EmptySummary();
  }

  /**
   Lifecycle over all runs: every session is orderly; every session but the last is over, ended by onDisconnected;
   the last is over exactly when the client is disconnected; a connected client has raised onConnected.
   */
  lemma RunsAreOrderly(s: Session, events: seq<Event>)
    requires Initial(s)
    ensures var t := Run(s, events); var all := Sessions(t);
      && (forall k :: 0 <= k < |all| ==> OrderlySession(all[k]))
      && (forall k :: 0 <= k < |t.past| ==> t.past[k] != [] && t.past[k][|t.past[k]| - 1].OnDisconnected?)
      && (t.state == DISCONNECTED && t.cur != [] ==> t.cur[|t.cur| - 1].OnDisconnected?)
      && (t.state != DISCONNECTED ==> t.cur != [] && forall i :: 0 <= i < |t.cur| ==> !t.cur[i].OnDisconnected?)
      && (t.state == CONNECTED ==> exists j :: 0 <= j < |t.cur| && t.cur[j].OnConnected?)
  {
    hide OrderlySession, WellOrdered, Summarize, Run, Initial;
    var t := Run(s, events);
    RunKeeps(s, events);
    forall k | 0 <= k < |Sessions(t)|
      ensures OrderlySession(Sessions(t)[k])
    {
      assert k < |t.past| ==> Finished(t.past[k]);
      WellOrderedIsOrderly(Sessions(t)[k]);
    }
    forall k | 0 <= k < |t.past|
      ensures t.past[k] != [] && t.past[k][|t.past[k]| - 1].OnDisconnected?
    {
      assert Finished(t.past[k]);
      EndedByCallback(t.past[k]);
    }
    LastSession(t);
  }

  lemma LastSession(t: Session)
    requires Inv(t)
    ensures t.state == DISCONNECTED && t.cur != [] ==> t.cur[|t.cur| - 1].OnDisconnected?
    ensures t.state != DISCONNECTED ==> t.cur != [] && forall i :: 0 <= i < |t.cur| ==> !t.cur[i].OnDisconnected?
    ensures t.state == CONNECTED ==> exists j :: 0 <= j < |t.cur| && t.cur[j].OnConnected?
  {
    hide WellOrdered, Summarize;
    EmptySummary();
    if t.state == DISCONNECTED && t.cur != [] {
      EndedByCallback(t.cur);
    }
    if t.state != DISCONNECTED {
      forall i | 0 <= i < |t.cur|
        ensures !t.cur[i].OnDisconnected?
      {
        At(t.cur, i);
        Monotone(t.cur, i + 1, |t.cur|);
        assert t.cur[..|t.cur|] == t.cur;
      }
    }
    if t.state == CONNECTED {
      var j := ConnectedLogged(t.cur);
    }
  }

  // ----- Timers and socket -----

  /** In every reachable state. */
  lemma TimersAndSocket(s: Session, events: seq<Event>)
    requires Initial(s)
    ensures var t := Run(s, events);
      && (t.timeoutArmed <==> t.state == CONNECTING || t.state == AUTHENTICATING)
      && (t.keepAliveArmed <==> t.state == CONNECTED)
      && (t.state == AUTHENTICATING || t.state == CONNECTED ==> t.socketOpen)
      && (t.socketOpen ==> t.state != DISCONNECTED)
      && (t.receiving <==> t.socketOpen)
      && (t.startups.timer ==> t.state == DISCONNECTED)
  {
    hide Run, Initial, WellOrdered, Summarize;
    RunKeeps(s, events);
  }

  /**
   A timeout during the login ends the session, after reporting RESPONSE_TIMEOUT to onError. The reason given to
   onDisconnected and returned by ConnectSync is RESPONSE_TIMEOUT exactly when there was no CLOSE to send or sending
   it succeeded: a failing send overwrites the last error. Outside the login the timer does nothing.
   */
  lemma TimeoutOutcome(s: Session)
    ensures s.state == CONNECTED || s.state == DISCONNECTED ==>
      TimeoutFired(s, false) == s.(timeoutArmed := false, startups := TimerStopped(s.startups))
    ensures s.state == CONNECTING || s.state == AUTHENTICATING ==>
      var t := TimeoutFired(s, false);
      && t.state == DISCONNECTED && !t.timeoutArmed && !t.keepAliveArmed && !t.socketOpen
      && s.cur + [OnError(RESPONSE_TIMEOUT)] <= t.cur
      && t.cur[|t.cur| - 1] == OnDisconnected(t.lastError)
      && (t.lastError == RESPONSE_TIMEOUT <==> !s.socketOpen || !s.failing(s.sends))
      && SyncResult(t) == t.lastError
  {
    hide Fail;
    if s.state == CONNECTING || s.state == AUTHENTICATING {
      FailOutcome(s.(timeoutArmed := false, startups := TimerStopped(s.startups)), RESPONSE_TIMEOUT);
    }
  }

  lemma FailOutcome(s: Session, error: ClientError)
    requires s.state != DISCONNECTED && error != SUCCESS
    ensures var t := Fail(s, error);
      && t.state == DISCONNECTED && !t.timeoutArmed && !t.keepAliveArmed && !t.socketOpen
      && s.cur + [OnError(error)] <= t.cur && t.cur[|t.cur| - 1] == OnDisconnected(t.lastError)
      && t.lastError == if s.socketOpen && s.failing(s.sends) then SOCKET_IO else error
  {
    hide TransmitRaw;
    var t := Report(s, error).(state := DISCONNECTED);
    TransmitSame(t, CLOSE, NONE, []);
    TransmitError(t, CLOSE, NONE, []);
  }

  lemma TransmitError(s: Session, kind: bv16, flags: bv16, payload: seq<bv8>)
    ensures TransmitRaw(s, kind, flags, payload).lastError
         == if s.socketOpen && s.failing(s.sends) then SOCKET_IO else s.lastError
  {
    hide IsRealTime, Outgoing;
  }

  /** A run that shows it: the hello is sent, nobody answers, and the CLOSE, the second send, fails. */
  lemma TimeoutOverwritten(s: Session, password: seq<bv8>, port: nat)
    requires Initial(s) && s.failing(1)
    ensures var t := Run(s, [CallConnect(password), ResolverDone(Bound(port)), TimeoutTimer(false)]);
      && t.cur != [] && t.cur[|t.cur| - 1] == OnDisconnected(SOCKET_IO) && OnError(RESPONSE_TIMEOUT) in t.cur
      && SyncResult(t) == SOCKET_IO
  {
    hide Resolved, TimeoutFired, Connect;
    var b := Resolved(Connect(s, password), Bound(port));
    ThreeSteps(s, CallConnect(password), ResolverDone(Bound(port)), TimeoutTimer(false));
    AwaitingAnswer(s, password, port);
    TimeoutEntries(b);
  }

  lemma ThreeSteps(s: Session, d: Event, e: Event, f: Event)
    ensures Run(s, [d, e, f]) == Step(Step(Step(s, d), e), f)
  {
    hide Step;
    assert [d, e, f][..2] == [d, e] && [d, e][..1] == [d] && [d][..0] == [];
    assert Run(s, [d]) == Step(s, d);
    assert Run(s, [d, e]) == Step(Step(s, d), e);
  }

  /** The client after its hello, whether or not that could be sent. */
  lemma AwaitingAnswer(s: Session, password: seq<bv8>, port: nat)
    requires Initial(s)
    ensures var b := Resolved(Connect(s, password), Bound(port));
      b.state == CONNECTING && b.socketOpen && b.sends == 1 && b.failing == s.failing
  {
    hide VersionBytes, TransmitRaw;
    var t := ReceiveLoopStarted(Note(Connect(s, password).(socketOpen := true), Opened(port)));
    var payload := VersionBytes(Version(s.dmrId, OPEN_TERMINAL, s.description));
    TransmitSame(t, KEEP_ALIVE, NONE, payload);
    TransmitCounts(t, KEEP_ALIVE, NONE, payload);
  }

  lemma TimeoutEntries(s: Session)
    requires s.state == CONNECTING && s.socketOpen && s.failing(s.sends)
    ensures var t := TimeoutFired(s, false);
      && t.cur != [] && t.cur[|t.cur| - 1] == OnDisconnected(SOCKET_IO) && OnError(RESPONSE_TIMEOUT) in t.cur
      && SyncResult(t) == SOCKET_IO
  {
    hide Fail;
    TimeoutOutcome(s);
    FailOutcome(s.(timeoutArmed := false, startups := TimerStopped(s.startups)), RESPONSE_TIMEOUT);
    assert TimeoutFired(s, false).cur[|s.cur|] == OnError(RESPONSE_TIMEOUT);
  }

  /** ConnectSync reports success for a connected client only. */
  lemma SyncReportsSuccess(s: Session)
    ensures SyncResult(s) == SUCCESS <==> s.state == CONNECTED
  {
  }

  // ----- Voice -----

  datatype Letter = H | A | T

  predicate IsVoice(e: Entry) {
    e.Sent? && IsRealTime(e.packet.flags)
  }

  function LetterOf(p: Packet): (r: Letter) {
    if p.kind == VOICE_HEADER then H else if p.kind == VOICE_TERMINATOR then T else A
  }

  /** The voice packets of a history, in order. */
  function VoiceWord(h: seq<Entry>): (r: seq<Letter>) {
    if h == [] then []
    else VoiceWord(h[..|h| - 1]) + if IsVoice(h[|h| - 1]) then [LetterOf(h[|h| - 1].packet)] else []
  }

  /** Prefixes of ((H H H A*)+ T)*. */
  predicate Calls(w: seq<Letter>)
    decreases |w|, 0
  {
    w <= [H, H, H] || (|w| >= 3 && w[..3] == [H, H, H] && Rest(w[3..]))
  }

  /** What may follow H H H. */
  predicate Rest(w: seq<Letter>)
    decreases |w|, 1
  {
    || w == []
    || (w[0] == A && Rest(w[1..]))
    || (w[0] == T && Calls(w[1..]))
    || (w[0] == H && Calls(w))
  }

  /** What may follow in each of the automaton's states. */
  predicate From(v: Voicing, w: seq<Letter>) {
    match v
    case Quiet => Calls(w)
    case OneHeader => w <= [H, H] || (|w| >= 2 && w[..2] == [H, H] && Rest(w[2..]))
    case TwoHeaders => w <= [H] || (|w| >= 1 && w[0] == H && Rest(w[1..]))
    case Talking => Rest(w)
  }

  function Move(v: Voicing, x: Letter): (r: Voicing) {
    match x
    case H => NextVoicing(v, VOICE_HEADER)
    case A => v
    case T => Quiet
  }

  lemma FromStep(v: Voicing, x: Letter, w: seq<Letter>)
    requires (x == H || v == Talking) && From(Move(v, x), w)
    ensures From(v, [x] + w)
  {
    var y := [x] + w;
    assert y[1..] == w;
    if x == H {
      assert |w| >= 1 ==> y[2..] == w[1..];
      assert |w| >= 2 ==> y[3..] == w[2..] && y[..3] == [x] + w[..2];
    }
  }

  /** Whether a word may be read from `v`, letter by letter. */
  predicate Readable(v: Voicing, w: seq<Letter>)
    decreases |w|
  {
    w == [] || ((w[0] == H || v == Talking) && Readable(Move(v, w[0]), w[1..]))
  }

  function After(v: Voicing, w: seq<Letter>): (r: Voicing)
    decreases |w|
  {
    if w == [] then v else After(Move(v, w[0]), w[1..])
  }

  lemma {:induction false} ReadableIsGrammatical(v: Voicing, w: seq<Letter>)
    requires Readable(v, w)
    ensures From(v, w)
    decreases |w|
  {
    hide From;
    if w == [] {
      FromEmpty(v);
    } else {
      ReadableIsGrammatical(Move(v, w[0]), w[1..]);
      FromStep(v, w[0], w[1..]);
      assert w == [w[0]] + w[1..];
    }
  }

  lemma FromEmpty(v: Voicing)
    ensures From(v, [])
  {
  }

  lemma {:induction false} ReadOneMore(v: Voicing, w: seq<Letter>, x: Letter)
    ensures Readable(v, w + [x]) <==> Readable(v, w) && (x == H || After(v, w) == Talking)
    ensures After(v, w + [x]) == Move(After(v, w), x)
    decreases |w|
  {
    if w == [] {
      assert [x][1..] == [];
    } else {
      ReadOneMore(Move(v, w[0]), w[1..], x);
      assert (w + [x])[1..] == w[1..] + [x];
    }
  }

  lemma LetterAllowed(m: Summary, e: Entry)
    requires Allowed(m, e)
    ensures IsVoice(e) ==> LetterOf(e.packet) == H || m.voicing == Talking
    ensures Next(m, e).voicing == if IsVoice(e) then Move(m.voicing, LetterOf(e.packet)) else m.voicing
  {
    hide Fips.Hash, NumberRight;
  }

  lemma {:induction false} VoiceReadable(h: seq<Entry>)
    requires WellOrdered(h)
    ensures Readable(Quiet, VoiceWord(h)) && After(Quiet, VoiceWord(h)) == Summarize(h).voicing
  {
    hide Allowed, Next, IsRealTime, LetterOf, Readable, After;
    if h == [] {
      ReadNothing();
    } else {
      var init, e := h[..|h| - 1], h[|h| - 1];
      VoiceReadable(init);
      LetterAllowed(Summarize(init), e);
      if IsVoice(e) {
        ReadOneMore(Quiet, VoiceWord(init), LetterOf(e.packet));
      } else {
        assert VoiceWord(init) + [] == VoiceWord(init);
      }
    }
  }

  lemma ReadNothing()
    ensures Readable(Quiet, []) && After(Quiet, []) == Quiet
  {
  }

  /**
   In every session of every run the voice packets spell a prefix of ((H H H A*)+ T)*; the session starts afresh,
   so a call left open by the session before allows nothing.
   */
  lemma VoiceGrammar(s: Session, events: seq<Event>, k: nat)
    requires Initial(s) && k < |Sessions(Run(s, events))|
    ensures Calls(VoiceWord(Sessions(Run(s, events))[k]))
  {
    hide Run, Initial, WellOrdered, Summarize, VoiceWord, Readable, Calls;
    RunKeeps(s, events);
    var t := Run(s, events);
    assert k < |t.past| ==> Finished(t.past[k]);
    VoiceReadable(Sessions(t)[k]);
    ReadableIsGrammatical(Quiet, VoiceWord(Sessions(t)[k]));
  }

  // ----- Numbers -----

  /** How many routine packets a history holds. */
  function RoutineCount(h: seq<Entry>): (r: nat) {
    if h == [] then 0
    else RoutineCount(h[..|h| - 1]) + if h[|h| - 1].Sent? && !IsRealTime(h[|h| - 1].packet.flags) then 1 else 0
  }

  /** How many real-time packets it holds since the last call began. */
  function RealTimeCount(h: seq<Entry>): (r: nat) {
    if h == [] || h[|h| - 1].CallBegan? then 0
    else RealTimeCount(h[..|h| - 1]) + if h[|h| - 1].Sent? && IsRealTime(h[|h| - 1].packet.flags) then 1 else 0
  }

  /** The number due to the next packet with these flags. */
  function Due(h: seq<Entry>, flags: bv16): (r: nat) {
    (if IsRealTime(flags) then RealTimeCount(h) else RoutineCount(h)) % TWO32
  }

  /** Every packet carries, mod 2^32, the number of packets of its own stream before it. */
  predicate RightlyNumbered(h: seq<Entry>) {
    forall i :: 0 <= i < |h| && h[i].Sent? ==> h[i].packet.number == Due(h[..i], h[i].packet.flags)
  }

  lemma NumberedMore(h: seq<Entry>, e: Entry)
    requires RightlyNumbered(h)
    requires e.Sent? ==> e.packet.number == Due(h, e.packet.flags)
    ensures RightlyNumbered(h + [e])
    ensures RoutineCount(h + [e]) == RoutineCount(h) + if e.Sent? && !IsRealTime(e.packet.flags) then 1 else 0
    ensures RealTimeCount(h + [e]) == if e.CallBegan? then 0
      else RealTimeCount(h) + if e.Sent? && IsRealTime(e.packet.flags) then 1 else 0
  {
    var g := h + [e];
    assert g[..|h|] == h;
    forall i | 0 <= i < |g| && g[i].Sent?
      ensures g[i].packet.number == Due(g[..i], g[i].packet.flags)
    {
      if i < |h| {
        assert g[i] == h[i] && g[..i] == h[..i];
      }
    }
  }

  lemma NumberAllowed(m: Summary, e: Entry)
    requires Allowed(m, e)
    ensures e.Sent? ==> NumberRight(m, e.packet)
    ensures Next(m, e).routine == m.routine + if e.Sent? && !IsRealTime(e.packet.flags) then 1 else 0
    ensures Next(m, e).realTime
         == if e.CallBegan? then 0 else m.realTime + if e.Sent? && IsRealTime(e.packet.flags) then 1 else 0
  {
    hide PacketAllowed, NumberRight, IsRealTime;
  }

  lemma {:induction false} WellOrderedNumbers(h: seq<Entry>)
    requires WellOrdered(h)
    ensures RightlyNumbered(h)
    ensures Summarize(h).routine == RoutineCount(h) && Summarize(h).realTime == RealTimeCount(h)
  {
    hide Allowed, Next, Summarize, RightlyNumbered, RoutineCount, RealTimeCount, IsRealTime;
    if h == [] {
      NoNumbers();
      EmptySummary();
    } else {
      var init, e := h[..|h| - 1], h[|h| - 1];
      WellOrderedNumbers(init);
      Snoc(init, e);
      NumberAllowed(Summarize(init), e);
      NumberedMore(init, e);
      assert init + [e] == h;
    }
  }

  lemma NoNumbers()
    ensures RightlyNumbered([]) && RoutineCount([]) == 0 && RealTimeCount([]) == 0
  {
  }

  /** The numbers of every session of every run. */
  lemma RunsAreNumbered(s: Session, events: seq<Event>, k: nat)
    requires Initial(s) && k < |Sessions(Run(s, events))|
    ensures RightlyNumbered(Sessions(Run(s, events))[k])
  {
    hide Run, Initial, WellOrdered, Summarize, RightlyNumbered;
    RunKeeps(s, events);
    var t := Run(s, events);
    assert k < |t.past| ==> Finished(t.past[k]);
    WellOrderedNumbers(Sessions(t)[k]);
  }
}
