/** A whole voice call, from the calls of one client to the callbacks of another. */
module VoiceCall {
  import opened Bits
  import opened Delivery
  import opened Session
  import opened SessionProofs
  import opened Lifecycle
  import opened Sequences
  import opened Wire

  // ----- The sender -----

  /** SendAudioFrame, once for every frame. */
  function FramesSent(s: Session, frames: seq<seq<bv8>>): (r: Session) {
    if frames == [] then s else SendAudioFrame(FramesSent(s, frames[..|frames| - 1]), frames[|frames| - 1])
  }

  function Called(s: Session, source: bv32, destination: bv32, isGroup: bool, frames: seq<seq<bv8>>): (r: Session) {
    EndVoiceCall(FramesSent(StartVoiceCall(s, source, destination, isGroup), frames))
  }

  /** The number of the packet after `n` frames: the three headers took 0, 1 and 2. */
  function FrameNumber(n: nat): (number: nat) {
    (3 + n) % TWO32
  }

  function AudioBytes(n: nat, ambe: seq<bv8>): (b: seq<bv8>) {
    PacketBytes(Packet(DMR_AUDIO_FRAME, REAL_TIME_1, FrameNumber(n), ambe))
  }

  function HeaderDatagram(number: nat, source: bv32, destination: bv32, isGroup: bool): (b: seq<bv8>) {
    PacketBytes(Packet(VOICE_HEADER, REAL_TIME_1, number, VoiceHeaderBytes(source, destination, isGroup)))
  }

  function EndBytes(n: nat): (b: seq<bv8>) {
    PacketBytes(Packet(VOICE_TERMINATOR, REAL_TIME_1, FrameNumber(n), []))
  }

  function AudioWire(frames: seq<seq<bv8>>): (wire: seq<seq<bv8>>)
    ensures |wire| == |frames|
  {
    if frames == [] then []
    else AudioWire(frames[..|frames| - 1]) + [AudioBytes(|frames| - 1, frames[|frames| - 1])]
  }

  function HeaderWire(source: bv32, destination: bv32, isGroup: bool): (wire: seq<seq<bv8>>)
    ensures |wire| == 3
  {
    [HeaderDatagram(0, source, destination, isGroup), HeaderDatagram(1, source, destination, isGroup),
     HeaderDatagram(2, source, destination, isGroup)]
  }

  ghost predicate InCall(s: Session, number: nat) {
    s.state == CONNECTED && s.socketOpen && s.inCall && s.realTimeSeq == number
  }

  lemma TransmitInCall(s: Session, kind: bv16, payload: seq<bv8>)
    requires InCall(s, s.realTimeSeq)
    ensures InCall(TransmitRaw(s, kind, REAL_TIME_1, payload), (s.realTimeSeq + 1) % TWO32)
  {
    hide TransmitRaw;
    TransmitSame(s, kind, REAL_TIME_1, payload);
    NextNumber(s, kind, payload);
  }

  lemma StartInCall(s: Session, source: bv32, destination: bv32, isGroup: bool)
    requires s.state == CONNECTED && s.socketOpen
    ensures InCall(StartVoiceCall(s, source, destination, isGroup), FrameNumber(0))
  {
    hide TransmitRaw, VoiceHeaderBytes;
    var b := VoiceHeaderBytes(source, destination, isGroup);
    TransmitInCall(CallStarted(s), VOICE_HEADER, b);
    var t1 := SendHeader(CallStarted(s), b);
    TransmitInCall(t1, VOICE_HEADER, b);
    TransmitInCall(SendHeader(t1, b), VOICE_HEADER, b);
  }

  lemma NextFrameNumber(n: nat)
    ensures (FrameNumber(n) + 1) % TWO32 == FrameNumber(n + 1)
  {
    WrapNext(3 + n);
  }

  lemma {:induction false} FramesOnWire(s: Session, frames: seq<seq<bv8>>)
    requires InCall(s, FrameNumber(0))
    ensures InCall(FramesSent(s, frames), FrameNumber(|frames|))
    ensures Datagrams(FramesSent(s, frames).cur) == Datagrams(s.cur) + AudioWire(frames)
    decreases |frames|
  {
    hide TransmitRaw, PacketBytes, Datagrams, FrameNumber;
    if frames != [] {
      var init, last := frames[..|frames| - 1], frames[|frames| - 1];
      var t := FramesSent(s, init);
      FramesOnWire(s, init);
      AudioSent(t, last);
      TransmitInCall(t, DMR_AUDIO_FRAME, last);
      NextFrameNumber(|init|);
    }
  }

  lemma HeadersOnWire(s: Session, source: bv32, destination: bv32, isGroup: bool)
    requires s.state == CONNECTED && s.socketOpen
    ensures Datagrams(StartVoiceCall(s, source, destination, isGroup).cur)
         == Datagrams(s.cur) + HeaderWire(source, destination, isGroup)
  {
    hide StartVoiceCall, PacketBytes, VoiceHeaderBytes, Datagrams;
    HeadersSent(s, source, destination, isGroup);
  }

  lemma EndOnWire(s: Session, n: nat)
    requires InCall(s, FrameNumber(n))
    ensures Datagrams(EndVoiceCall(s).cur) == Datagrams(s.cur) + [EndBytes(n)]
  {
    hide EndVoiceCall, PacketBytes, Datagrams, FrameNumber;
    TerminatorSent(s);
  }

  /** What a whole call puts on the wire. */
  lemma CallOnWire(s: Session, source: bv32, destination: bv32, isGroup: bool, frames: seq<seq<bv8>>)
    requires s.state == CONNECTED && s.socketOpen
    ensures Datagrams(Called(s, source, destination, isGroup, frames).cur)
         == Datagrams(s.cur) + (HeaderWire(source, destination, isGroup) + AudioWire(frames) + [EndBytes(|frames|)])
  {
    hide StartVoiceCall, EndVoiceCall, FramesSent, EndBytes, Datagrams, FrameNumber, AudioWire, HeaderWire, InCall;
    HeadersOnWire(s, source, destination, isGroup);
    StartInCall(s, source, destination, isGroup);
    var t := StartVoiceCall(s, source, destination, isGroup);
    FramesOnWire(t, frames);
    EndOnWire(FramesSent(t, frames), |frames|);
    Regroup(Datagrams(s.cur), HeaderWire(source, destination, isGroup), AudioWire(frames), [EndBytes(|frames|)]);
    Associate(Datagrams(s.cur), HeaderWire(source, destination, isGroup) + AudioWire(frames), [EndBytes(|frames|)]);
  }

  // ----- The receiver -----

  /** One datagram: as the whole packet, or through the receive buffer. */
  function Fed(r: Session, datagram: seq<bv8>, buffered: bool): (t: Session) {
    if buffered then HandleReceive(r, datagram, true) else ProcessPacket(r, datagram)
  }

  function FedAll(r: Session, wire: seq<seq<bv8>>, buffered: bool): (t: Session) {
    if wire == [] then r else Fed(FedAll(r, wire[..|wire| - 1], buffered), wire[|wire| - 1], buffered)
  }

  function NoteAll(r: Session, entries: seq<Entry>): (t: Session) {
    r.(cur := r.cur + entries)
  }

  lemma {:induction false} FedSplit(r: Session, a: seq<seq<bv8>>, b: seq<seq<bv8>>, buffered: bool)
    ensures FedAll(r, a + b, buffered) == FedAll(FedAll(r, a, buffered), b, buffered)
    decreases |b|
  {
    hide Fed;
    if b == [] {
      assert a + b == a;
    } else {
      FedSplit(r, a, b[..|b| - 1], buffered);
      assert (a + b)[..|a + b| - 1] == a + b[..|b| - 1];
    }
  }

  lemma NoteMore(r: Session, entries: seq<Entry>, more: seq<Entry>)
    ensures NoteAll(NoteAll(r, entries), more) == NoteAll(r, entries + more)
    ensures Listening(r) ==> Listening(NoteAll(r, entries))
  {
    assert r.cur + entries + more == r.cur + (entries + more);
  }

  /** The buffer cuts a frame of this length. */
  predicate TooLong(ambe: seq<bv8>, buffered: bool) {
    buffered && 18 + |ambe| % TWO16 > RECEIVE_BUFFER
  }

  /** The callbacks of the frames: numbered from 3, each cut to its length mod 2^16, without those the buffer cuts. */
  function FramesHeard(frames: seq<seq<bv8>>, buffered: bool): (entries: seq<Entry>)
    ensures |entries| <= |frames|
  {
    if frames == [] then []
    else
      var last := frames[|frames| - 1];
      FramesHeard(frames[..|frames| - 1], buffered) + FrameHeard(|frames| - 1, last, buffered)
  }

  function FrameHeard(n: nat, ambe: seq<bv8>, buffered: bool): (entries: seq<Entry>)
    ensures |entries| <= 1
  {
    if TooLong(ambe, buffered) then [] else [OnAudioFrame(Low32(FrameNumber(n)), ambe[..|ambe| % TWO16])]
  }

  function HeadersHeard(source: bv32, destination: bv32, isGroup: bool): (entries: seq<Entry>) {
    var e := OnVoiceHeader(Voice(source, destination, isGroup));
    [e, e, e]
  }

  lemma FrameFed(r: Session, n: nat, ambe: seq<bv8>, buffered: bool)
    requires buffered ==> Listening(r)
    ensures Fed(r, AudioBytes(n, ambe), buffered)
         == NoteAll(r, FrameHeard(n, ambe, buffered))
  {
    hide PacketBytes, ProcessPacket, HandleReceive, Low32, FrameNumber;
    AudioDispatched(r, ambe, FrameNumber(n));
    NoteNothing(r);
    if buffered {
      PacketReceived(r, Packet(DMR_AUDIO_FRAME, REAL_TIME_1, FrameNumber(n), ambe));
    }
  }

  lemma NoteNothing(r: Session)
    ensures NoteAll(r, []) == r
  {
    assert r.cur + [] == r.cur;
  }

  lemma HeaderFed(r: Session, number: nat, source: bv32, destination: bv32, isGroup: bool, buffered: bool)
    requires buffered ==> Listening(r)
    ensures Fed(r, HeaderDatagram(number, source, destination, isGroup), buffered)
         == NoteAll(r, [OnVoiceHeader(Voice(source & 0xFFFFFF, destination & 0xFFFFFF, isGroup))])
  {
    hide PacketBytes, ProcessPacket, HandleReceive, VoiceHeaderBytes;
    VoiceDispatched(r, source, destination, isGroup, number);
    if buffered {
      PacketReceived(r, Packet(VOICE_HEADER, REAL_TIME_1, number, VoiceHeaderBytes(source, destination, isGroup)));
    }
  }

  lemma EndFed(r: Session, n: nat, buffered: bool)
    requires buffered ==> Listening(r)
    ensures Fed(r, EndBytes(n), buffered) == NoteAll(r, [OnVoiceTerminator])
  {
    hide PacketBytes, ProcessPacket, HandleReceive, FrameNumber;
    TerminatorDispatched(r, FrameNumber(n));
    if buffered {
      PacketReceived(r, Packet(VOICE_TERMINATOR, REAL_TIME_1, FrameNumber(n), []));
    }
  }

  lemma {:induction false} FramesFed(r: Session, frames: seq<seq<bv8>>, buffered: bool)
    requires buffered ==> Listening(r)
    ensures FedAll(r, AudioWire(frames), buffered) == NoteAll(r, FramesHeard(frames, buffered))
    decreases |frames|
  {
    hide Fed, AudioBytes, NoteAll, FrameHeard, Listening;
    if frames == [] {
      NoteNothing(r);
    } else {
      var init, last := frames[..|frames| - 1], frames[|frames| - 1];
      var wire := AudioWire(frames);
      FramesFed(r, init, buffered);
      assert wire[..|wire| - 1] == AudioWire(init);
      NoteMore(r, FramesHeard(init, buffered), []);
      FrameFed(NoteAll(r, FramesHeard(init, buffered)), |init|, last, buffered);
      NoteMore(r, FramesHeard(init, buffered), FrameHeard(|init|, last, buffered));
    }
  }

  lemma FedThree(r: Session, a: seq<bv8>, b: seq<bv8>, c: seq<bv8>, buffered: bool)
    ensures FedAll(r, [a, b, c], buffered) == Fed(Fed(Fed(r, a, buffered), b, buffered), c, buffered)
    ensures FedAll(r, [a], buffered) == Fed(r, a, buffered)
  {
    hide Fed;
    assert [a, b, c][..2] == [a, b] && [a, b][..1] == [a] && [a][..0] == [];
    assert FedAll(r, [a], buffered) == Fed(r, a, buffered);
    assert FedAll(r, [a, b], buffered) == Fed(Fed(r, a, buffered), b, buffered);
  }

  lemma HeadersFed(r: Session, source: bv32, destination: bv32, isGroup: bool, buffered: bool)
    requires buffered ==> Listening(r)
    ensures FedAll(r, HeaderWire(source, destination, isGroup), buffered)
         == NoteAll(r, HeadersHeard(source & 0xFFFFFF, destination & 0xFFFFFF, isGroup))
  {
    hide Fed, HeaderDatagram, NoteAll;
    var e := OnVoiceHeader(Voice(source & 0xFFFFFF, destination & 0xFFFFFF, isGroup));
    HeaderFed(r, 0, source, destination, isGroup, buffered);
    NoteMore(r, [e], [e]);
    HeaderFed(NoteAll(r, [e]), 1, source, destination, isGroup, buffered);
    NoteMore(r, [e] + [e], [e]);
    assert [e] + [e] + [e] == HeadersHeard(source & 0xFFFFFF, destination & 0xFFFFFF, isGroup);
    HeaderFed(NoteAll(r, [e] + [e]), 2, source, destination, isGroup, buffered);
    FedThree(r, HeaderDatagram(0, source, destination, isGroup), HeaderDatagram(1, source, destination, isGroup),
             HeaderDatagram(2, source, destination, isGroup), buffered);
  }

  /** What the callbacks of a whole call come to. */
  lemma CallHeard(r: Session, source: bv32, destination: bv32, isGroup: bool, frames: seq<seq<bv8>>, buffered: bool)
    requires buffered ==> Listening(r)
    ensures FedAll(r, HeaderWire(source, destination, isGroup) + AudioWire(frames) + [EndBytes(|frames|)], buffered)
         == NoteAll(r, HeadersHeard(source & 0xFFFFFF, destination & 0xFFFFFF, isGroup)
                       + FramesHeard(frames, buffered) + [OnVoiceTerminator])
  {
    hide Fed, FedAll, EndBytes, NoteAll, HeadersHeard, FramesHeard, HeaderWire, AudioWire;
    var headers, audio := HeaderWire(source, destination, isGroup), AudioWire(frames);
    var h := HeadersHeard(source & 0xFFFFFF, destination & 0xFFFFFF, isGroup);
    var f := FramesHeard(frames, buffered);
    FedSplit(r, headers + audio, [EndBytes(|frames|)], buffered);
    FedSplit(r, headers, audio, buffered);
    HeadersFed(r, source, destination, isGroup, buffered);
    NoteMore(r, h, f);
    FramesFed(NoteAll(r, h), frames, buffered);
    NoteMore(r, h + f, [OnVoiceTerminator]);
    EndFed(NoteAll(r, h + f), |frames|, buffered);
    FedThree(NoteAll(r, h + f), EndBytes(|frames|), [], [], buffered);
  }

  // ----- When it is what was said -----

  /** Every frame in order, numbered from 3. */
  function FramesSaid(frames: seq<seq<bv8>>): (entries: seq<Entry>)
    ensures |entries| == |frames|
  {
    seq(|frames|, i requires 0 <= i < |frames| => OnAudioFrame(Low32(FrameNumber(i)), frames[i]))
  }

  ghost predicate AllFit(frames: seq<seq<bv8>>, limit: nat) {
    forall i :: 0 <= i < |frames| ==> |frames[i]| <= limit
  }

  function Limit(buffered: bool): (n: nat) {
    if buffered then 1006 else 65535
  }

  lemma FrameFits(ambe: seq<bv8>, buffered: bool)
    ensures !TooLong(ambe, buffered) && ambe[..|ambe| % TWO16] == ambe <==> |ambe| <= Limit(buffered)
  {
  }

  lemma SaidMore(frames: seq<seq<bv8>>)
    requires frames != []
    ensures FramesSaid(frames) == FramesSaid(frames[..|frames| - 1])
                                  + [OnAudioFrame(Low32(FrameNumber(|frames| - 1)), frames[|frames| - 1])]
  {
    hide Low32, FrameNumber;
  }

  lemma {:induction false} FramesHeardExactly(frames: seq<seq<bv8>>, buffered: bool)
    ensures FramesHeard(frames, buffered) == FramesSaid(frames) <==> AllFit(frames, Limit(buffered))
    decreases |frames|
  {
    hide Low32, FrameNumber, Limit, TooLong, FramesSaid;
    if frames != [] {
      var init, last := frames[..|frames| - 1], frames[|frames| - 1];
      FramesHeardExactly(init, buffered);
      SaidMore(frames);
      FrameFits(last, buffered);
      LastApart(FramesHeard(init, buffered), FramesSaid(init));
      assert AllFit(frames, Limit(buffered)) <==> AllFit(init, Limit(buffered)) && |last| <= Limit(buffered);
    }
  }

  lemma LastApart<T>(a: seq<T>, b: seq<T>)
    ensures forall x: T, y: T {:trigger a + [x], b + [y]} :: a + [x] == b + [y] <==> a == b && x == y
  {
    forall x: T, y: T
      ensures a + [x] == b + [y] <==> a == b && x == y
    {
      assert (a + [x])[..|a|] == a && (b + [y])[..|b|] == b;
    }
  }

  lemma SameLength(h: seq<Entry>, f: seq<Entry>, g: seq<Entry>, k: seq<Entry>, t: seq<Entry>)
    requires |h| == |k|
    ensures h + f + t == k + g + t <==> h == k && f == g
  {
    if h + f + t == k + g + t {
      assert |f| == |g|;
      assert (h + f + t)[..|h|] == h && (k + g + t)[..|k|] == k;
      assert (h + f + t)[|h|..|h| + |f|] == f && (k + g + t)[|k|..|k| + |g|] == g;
    }
  }

  lemma IdsSaid(source: bv32, destination: bv32, isGroup: bool)
    ensures HeadersHeard(source & 0xFFFFFF, destination & 0xFFFFFF, isGroup)
         == HeadersHeard(source, destination, isGroup)
       <==> source < 0x100_0000 && destination < 0x100_0000
  {
    var h := HeadersHeard(source & 0xFFFFFF, destination & 0xFFFFFF, isGroup);
    assert h[0] == HeadersHeard(source, destination, isGroup)[0]
      <==> source & 0xFFFFFF == source && destination & 0xFFFFFF == destination;
    LowId(source);
    LowId(destination);
  }

  lemma LowId(x: bv32)
    ensures x & 0xFFFFFF == x <==> x < 0x100_0000
  {
  }

  lemma SameNotes(r: Session, a: seq<Entry>, b: seq<Entry>)
    ensures NoteAll(r, a) == NoteAll(r, b) <==> a == b
  {
    assert (r.cur + a)[|r.cur|..] == a && (r.cur + b)[|r.cur|..] == b;
  }

  /**
   A whole call, end to end: StartVoiceCall, any number of SendAudioFrame and EndVoiceCall emit three datagrams, one
   for each frame, and one. A client that gets them in order raises onVoiceHeader three times, onAudioFrame once for
   each frame, numbered from 3, and onVoiceTerminator once, all with what was said - exactly when the ids have 24
   bits and no frame is longer than 65535 bytes, or 1006 through the receive buffer.
   */
  lemma CallDelivered(s: Session, events: seq<Event>, source: bv32, destination: bv32, isGroup: bool,
                      frames: seq<seq<bv8>>, r: Session, buffered: bool)
    requires Initial(s) && Run(s, events).state == CONNECTED && (buffered ==> Listening(r))
    ensures var before := Run(s, events);
      var sent, after := Datagrams(before.cur), Datagrams(Called(before, source, destination, isGroup, frames).cur);
      && |after| == |sent| + |frames| + 4 && sent <= after
      && (FedAll(r, after[|sent|..], buffered)
          == NoteAll(r, HeadersHeard(source, destination, isGroup) + FramesSaid(frames) + [OnVoiceTerminator])
          <==> source < 0x100_0000 && destination < 0x100_0000 && AllFit(frames, Limit(buffered)))
  {
    hide Initial, Run, Called, Datagrams, HeaderWire, AudioWire, EndBytes, FedAll, NoteAll, FramesHeard, FramesSaid,
         AllFit, Limit, Listening;
    TimersAndSocket(s, events);
    var before := Run(s, events);
    CallOnWire(before, source, destination, isGroup, frames);
    CallHeard(r, source, destination, isGroup, frames, buffered);
    var wire := HeaderWire(source, destination, isGroup) + AudioWire(frames) + [EndBytes(|frames|)];
    var sent := Datagrams(before.cur);
    assert (sent + wire)[|sent|..] == wire;
    FramesHeardExactly(frames, buffered);
    IdsSaid(source, destination, isGroup);
    var h := HeadersHeard(source & 0xFFFFFF, destination & 0xFFFFFF, isGroup);
    var k := HeadersHeard(source, destination, isGroup);
    SameLength(h, FramesHeard(frames, buffered), FramesSaid(frames), k, [OnVoiceTerminator]);
    SameNotes(r, h + FramesHeard(frames, buffered) + [OnVoiceTerminator], k + FramesSaid(frames) + [OnVoiceTerminator]);
  }
}
