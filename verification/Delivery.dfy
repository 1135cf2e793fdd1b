/**
 From one client's API to another client's callback: the bytes that leave the sender's socket, what the network may
 append to them or cut off, and the one callback they cause - or not - at the receiver.
 */
module Delivery {
  import opened Bits
  import opened Endian
  import opened Lifecycle
  import opened Rfc
  import opened Session
  import opened SessionProofs
  import opened Utf
  import opened Wire
  import opened WireProofs

  // ----- Packets -----

  /** Appended bytes change nothing. */
  lemma AppendedIgnored(r: Session, p: Packet, extra: seq<bv8>)
    ensures ProcessPacket(r, PacketBytes(p) + extra) == ProcessPacket(r, PacketBytes(p))
  {
    hide Frame, ParseFrame, Dispatch, Low32, Low16;
    FrameParsed(p.kind, p.flags, Low32(p.number), p.payload, extra);
    FrameParsed(p.kind, p.flags, Low32(p.number), p.payload, []);
    assert PacketBytes(p) + [] == PacketBytes(p);
  }

  /** Every proper prefix of a packet is dropped: no state change, no callback. */
  lemma PrefixDropped(r: Session, p: Packet, k: nat)
    requires |p.payload| < TWO16 && k < |PacketBytes(p)|
    ensures ProcessPacket(r, PacketBytes(p)[..k]) == r
  {
    hide Frame, ParseFrame, Dispatch, Low32;
    FrameIsLong(p);
    CutFrameDropped(p.kind, p.flags, Low32(p.number), p.payload, k);
  }

  lemma FrameIsLong(p: Packet)
    ensures |PacketBytes(p)| == 18 + |p.payload|
  {
    hide HeaderBytes;
  }

  /** What the receiver's handlers are given: the payload as far as the 16-bit length tells it. */
  lemma PacketDispatched(r: Session, p: Packet, extra: seq<bv8>)
    ensures ProcessPacket(r, PacketBytes(p) + extra)
         == Dispatch(r, Header(p.kind, p.flags, Low32(p.number), Low16(|p.payload|)), p.payload[..|p.payload| % TWO16])
  {
    hide Frame, ParseFrame, Dispatch, Low32, Low16;
    FrameParsed(p.kind, p.flags, Low32(p.number), p.payload, extra);
  }

  /** Through the receive buffer: the same, unless the buffer cuts the packet. */
  lemma PacketReceived(r: Session, p: Packet)
    requires Listening(r)
    ensures HandleReceive(r, PacketBytes(p), true)
         == if 18 + |p.payload| % TWO16 <= RECEIVE_BUFFER then ProcessPacket(r, PacketBytes(p)) else r
  {
    hide HandleReceive, Frame, ParseFrame, Dispatch, Low32, Low16;
    var b := PacketBytes(p);
    ReceiveContinues(r, b, true);
    FrameIsLong(p);
    assert Received(b) == b[..|Received(b)|] && b[..|b|] == b;
    if 18 + |p.payload| % TWO16 <= RECEIVE_BUFFER {
      CutFrameKept(p.kind, p.flags, Low32(p.number), p.payload, |Received(b)|);
      CutFrameKept(p.kind, p.flags, Low32(p.number), p.payload, |b|);
    } else {
      CutFrameDropped(p.kind, p.flags, Low32(p.number), p.payload, |Received(b)|);
    }
  }

  lemma NoCallback(h: Header, payload: seq<bv8>)
    requires h.kind == CLOSE
    ensures Callback(h, payload) == None
  {
  }

  /** A CLOSE from the server neither ends the session nor raises anything. */
  lemma CloseIgnored(r: Session, flags: bv16, number: nat, payload: seq<bv8>, extra: seq<bv8>)
    ensures ProcessPacket(r, PacketBytes(Packet(CLOSE, flags, number, payload)) + extra) == r
  {
    hide PacketBytes, ProcessPacket, Callback, Low32, Low16;
    var p := Packet(CLOSE, flags, number, payload);
    PacketDispatched(r, p, extra);
    NoCallback(Header(CLOSE, flags, Low32(number), Low16(|payload|)), payload[..|payload| % TWO16]);
  }

  /** Two callbacks on the same history are the same callback. */
  lemma SameNote(r: Session, a: Entry, b: Entry)
    ensures Note(r, a) == Note(r, b) <==> a == b
    ensures Note(r, a) != r
  {
    assert (r.cur + [a])[|r.cur|] == a && (r.cur + [b])[|r.cur|] == b;
    assert |Note(r, a).cur| > |r.cur|;
  }

  /** What a payload of the receiver's own callback kind comes to. */
  lemma DeliveredExactly(r: Session, h: Header, payload: seq<bv8>, e: Entry)
    requires h.kind != CHALLENGE && h.kind != KEEP_ALIVE
    ensures Dispatch(r, h, payload) == Note(r, e) <==> Callback(h, payload) == Some(e)
  {
    hide Callback, Note;
    if Callback(h, payload).Some? {
      SameNote(r, Callback(h, payload).value, e);
    } else {
      SameNote(r, e, e);
    }
  }

  /** A transmission puts one datagram on the wire. */
  lemma OneDatagram(s: Session, kind: bv16, flags: bv16, payload: seq<bv8>)
    requires s.socketOpen
    ensures Datagrams(TransmitRaw(s, kind, flags, payload).cur)
         == Datagrams(s.cur) + [PacketBytes(Outgoing(s, kind, flags, payload))]
    ensures TransmitRaw(s, kind, flags, payload).socketOpen
  {
    hide Numbered, Outgoing, PacketBytes, Datagrams;
    TransmitSame(s, kind, flags, payload);
    NumberedEntry(s, kind, flags, payload);
    MoreDatagrams(s.cur, Sent(Outgoing(s, kind, flags, payload)));
    var t := Numbered(s, kind, flags, payload);
    MoreDatagrams(t.cur, OnError(SOCKET_IO));
  }

  // ----- Text messages -----

  lemma TextDispatched(r: Session, t: Text, number: nat, extra: seq<bv8>)
    ensures ProcessPacket(r, PacketBytes(Packet(MESSAGE_TEXT, NONE, number, TextBytes(t))) + extra)
         == Note(r, OnTextMessage(t))
       <==> |ToUtf16(t.text)| <= 32759 && Generalized(t.text)
  {
    hide PacketBytes, ProcessPacket, Dispatch, ParseText, TextBytes, ToUtf16, Generalized, Low32, Low16;
    var b := TextBytes(t);
    PacketDispatched(r, Packet(MESSAGE_TEXT, NONE, number, b), extra);
    DeliveredExactly(r, Header(MESSAGE_TEXT, NONE, Low32(number), Low16(|b|)), b[..|b| % TWO16], OnTextMessage(t));
    TextExactly(t);
  }

  lemma TextReceived(r: Session, t: Text, number: nat)
    requires Listening(r)
    ensures HandleReceive(r, PacketBytes(Packet(MESSAGE_TEXT, NONE, number, TextBytes(t))), true)
         == Note(r, OnTextMessage(t))
       <==> |ToUtf16(t.text)| <= 495 && Generalized(t.text)
  {
    hide PacketBytes, ProcessPacket, HandleReceive, ToUtf16, Generalized, Low32, Low16;
    var p := Packet(MESSAGE_TEXT, NONE, number, TextBytes(t));
    PacketReceived(r, p);
    TextDispatched(r, t, number, []);
    assert PacketBytes(p) + [] == PacketBytes(p);
  }

  /** What a connected client's SendTextMessage puts on the wire. */
  lemma TextSent(s: Session, destination: bv32, isGroup: bool, text: seq<bv8>)
    requires s.state == CONNECTED && s.socketOpen
    ensures Datagrams(SendTextMessage(s, destination, isGroup, text).cur) == Datagrams(s.cur)
         + [PacketBytes(Packet(MESSAGE_TEXT, NONE, s.routineSeq, TextBytes(Text(s.dmrId, destination, isGroup, text))))]
  {
    hide TextBytes, TransmitRaw, PacketBytes, Datagrams;
    OneDatagram(s, MESSAGE_TEXT, NONE, TextBytes(Text(s.dmrId, destination, isGroup, text)));
  }

  /**
   End to end: in every run a connected client's SendTextMessage emits one datagram; another client that processes
   it, with anything appended, raises onTextMessage once with the same source, destination, group flag and text -
   exactly when the text has at most 32759 UTF-16 units and is generalized UTF-8. Well-formed UTF-8 is. A client
   that receives it through its 1024-byte buffer does so exactly when it has at most 495 units.
   */
  lemma TextDelivered(s: Session, events: seq<Event>, destination: bv32, isGroup: bool, text: seq<bv8>,
                      r: Session, extra: seq<bv8>)
    requires Initial(s) && Run(s, events).state == CONNECTED
    ensures var before := Run(s, events);
      var wire := Datagrams(SendTextMessage(before, destination, isGroup, text).cur);
      var delivered := Note(r, OnTextMessage(Text(before.dmrId, destination, isGroup, text)));
      && |wire| == |Datagrams(before.cur)| + 1 && Datagrams(before.cur) <= wire
      && (ProcessPacket(r, wire[|wire| - 1] + extra) == delivered
          <==> |ToUtf16(text)| <= 32759 && Generalized(text))
      && (Listening(r) ==>
          (HandleReceive(r, wire[|wire| - 1], true) == delivered <==> |ToUtf16(text)| <= 495 && Generalized(text)))
  {
    hide Initial, Run, SendTextMessage, PacketBytes, ProcessPacket, HandleReceive, ToUtf16, Generalized, Datagrams,
         TextBytes;
    TimersAndSocket(s, events);
    var before := Run(s, events);
    var t := Text(before.dmrId, destination, isGroup, text);
    TextSent(before, destination, isGroup, text);
    TextDispatched(r, t, before.routineSeq, extra);
    if Listening(r) {
      TextReceived(r, t, before.routineSeq);
    }
  }

  // ----- Subscriptions -----

  lemma PacketParsed(p: Packet)
    requires |p.payload| < TWO16
    ensures ParseFrame(PacketBytes(p))
         == Some(Framed(Header(p.kind, p.flags, Low32(p.number), Low16(|p.payload|)), p.payload))
  {
    hide Frame, ParseFrame, Low32, Low16;
    FrameParsed(p.kind, p.flags, Low32(p.number), p.payload, []);
    assert PacketBytes(p) + [] == PacketBytes(p);
    assert p.payload[..|p.payload| % TWO16] == p.payload;
  }

  function Asked(s: Session, talkgroup: bv32, cancel: bool): (r: Session) {
    if cancel then Unsubscribe(s, talkgroup) else Subscribe(s, talkgroup)
  }

  /** Whether a datagram is a request of this kind for the talkgroup's voice. */
  predicate Asks(datagram: seq<bv8>, kind: bv16, talkgroup: bv32) {
    match ParseFrame(datagram)
    case None => false
    case Some(f) =>
      f.header.kind == kind
      && ParseSubscription(f.payload) == Some(Subscription(SESSION_TYPE_GROUP_VOICE, talkgroup))
  }

  lemma PacketAsks(p: Packet, talkgroup: bv32)
    requires p.payload == SubscriptionBytes(Subscription(SESSION_TYPE_GROUP_VOICE, talkgroup))
    ensures Asks(PacketBytes(p), p.kind, talkgroup)
  {
    hide PacketBytes, ParseFrame, LE32, Low32, Low16, ParseSubscription;
    PacketParsed(p);
    SubscriptionTrip(Subscription(SESSION_TYPE_GROUP_VOICE, talkgroup));
  }

  /** Both calls tell the server the session type and the talkgroup; only the kind of packet differs. */
  lemma SubscriptionDelivered(s: Session, events: seq<Event>, talkgroup: bv32, cancel: bool)
    requires Initial(s) && Run(s, events).state == CONNECTED
    ensures var before := Run(s, events);
      var wire := Datagrams(Asked(before, talkgroup, cancel).cur);
      && |wire| == |Datagrams(before.cur)| + 1 && Datagrams(before.cur) <= wire
      && Asks(wire[|wire| - 1], if cancel then CANCELLING else SUBSCRIPTION, talkgroup)
  {
    hide Initial, Run, TransmitRaw, PacketBytes, Asks, SubscriptionBytes, Datagrams;
    TimersAndSocket(s, events);
    var before := Run(s, events);
    var payload := SubscriptionBytes(Subscription(SESSION_TYPE_GROUP_VOICE, talkgroup));
    var kind := if cancel then CANCELLING else SUBSCRIPTION;
    OneDatagram(before, kind, NONE, payload);
    PacketAsks(Outgoing(before, kind, NONE, payload), talkgroup);
  }

  // ----- Location reports -----

  lemma CutLocation(l: Location, k: nat)
    requires 10 <= k <= |LocationBytes(l)|
    ensures var n := (|l.nmea| + 1) % TWO16; var b := LocationBytes(l)[..k];
      ParseLocation(b) == if 10 + n > k then None else Some(l.(nmea := CutAtNul((l.nmea + [0])[..n])))
  {
    hide LocationBytes, U16At, U32At, CutAtNul, Low16, Number16;
    LocationFields(l);
    var b, n := LocationBytes(l)[..k], (|l.nmea| + 1) % TWO16;
    CutFields(LocationBytes(l), k);
    if 10 + n <= k {
      assert b[10..10 + n] == LocationBytes(l)[10..][..n];
    }
  }

  lemma CutFields(b: seq<bv8>, k: nat)
    requires 10 <= k <= |b|
    ensures U32At(b[..k], 4) == U32At(b, 4) && U16At(b[..k], 8) == U16At(b, 8)
  {
    hide Of16, Of32;
  }

  /** A location report survives its frame exactly when it has at most 65524 bytes and none is NUL. */
  lemma LocationFramed(l: Location)
    ensures ParseLocation(LocationBytes(l)[..|LocationBytes(l)| % TWO16]) == Some(l)
       <==> |l.nmea| <= 65524 && 0 !in l.nmea
  {
    hide LocationBytes, ParseLocation, CutAtNul;
    var k, n := |LocationBytes(l)| % TWO16, (|l.nmea| + 1) % TWO16;
    if k < 10 {
      ShortLocation(LocationBytes(l)[..k]);
    } else {
      CutLocation(l, k);
      if |l.nmea| <= 65524 {
        assert (l.nmea + [0])[..n] == l.nmea + [0];
        CutBeforeNul(l.nmea);
      } else if |l.nmea| >= 65535 {
        assert |CutAtNul((l.nmea + [0])[..n])| <= n < |l.nmea|;
      }
    }
  }

  lemma ShortLocation(b: seq<bv8>)
    requires |b| < 10
    ensures ParseLocation(b) == None
  {
  }

  lemma LocationDispatched(r: Session, l: Location, number: nat)
    ensures ProcessPacket(r, PacketBytes(Packet(LOCATION_REPORT, NONE, number, LocationBytes(l))))
         == Note(r, OnLocationReport(l))
       <==> |l.nmea| <= 65524 && 0 !in l.nmea
  {
    hide PacketBytes, ProcessPacket, Dispatch, ParseLocation, LocationBytes, Low32, Low16;
    var b := LocationBytes(l);
    var p := Packet(LOCATION_REPORT, NONE, number, b);
    DeliveredExactly(r, Header(LOCATION_REPORT, NONE, Low32(number), Low16(|b|)), b[..|b| % TWO16],
                     OnLocationReport(l));
    PacketDispatched(r, p, []);
    assert PacketBytes(p) + [] == PacketBytes(p);
    LocationFramed(l);
  }

  lemma LocationSent(s: Session, nmea: seq<bv8>)
    requires s.state == CONNECTED && s.socketOpen
    ensures Datagrams(SendLocationReport(s, nmea).cur) == Datagrams(s.cur)
         + [PacketBytes(Packet(LOCATION_REPORT, NONE, s.routineSeq, LocationBytes(Location(0, nmea))))]
  {
    hide LocationBytes, TransmitRaw, PacketBytes, Datagrams;
    OneDatagram(s, LOCATION_REPORT, NONE, LocationBytes(Location(0, nmea)));
  }

  /** End to end, a location report arrives as it was given exactly under these conditions. */
  lemma LocationDelivered(s: Session, events: seq<Event>, nmea: seq<bv8>, r: Session)
    requires Initial(s) && Run(s, events).state == CONNECTED
    ensures var before := Run(s, events);
      var wire := Datagrams(SendLocationReport(before, nmea).cur);
      var delivered := Note(r, OnLocationReport(Location(0, nmea)));
      && |wire| == |Datagrams(before.cur)| + 1 && Datagrams(before.cur) <= wire
      && (ProcessPacket(r, wire[|wire| - 1]) == delivered <==> |nmea| <= 65524 && 0 !in nmea)
      && (Listening(r) ==>
          (HandleReceive(r, wire[|wire| - 1], true) == delivered <==> |nmea| <= 995 && 0 !in nmea))
  {
    hide Initial, Run, SendLocationReport, PacketBytes, ProcessPacket, HandleReceive, Datagrams;
    TimersAndSocket(s, events);
    var before := Run(s, events);
    LocationSent(before, nmea);
    LocationDispatched(r, Location(0, nmea), before.routineSeq);
    if Listening(r) {
      PacketReceived(r, Packet(LOCATION_REPORT, NONE, before.routineSeq, LocationBytes(Location(0, nmea))));
    }
  }

  // ----- Voice -----

  lemma VoiceCallback(h: Header, payload: seq<bv8>, voice: Voice)
    requires h.kind == VOICE_HEADER && ParseVoiceHeader(payload) == Some(voice)
    ensures Callback(h, payload) == Some(OnVoiceHeader(voice))
  {
    hide ParseVoiceHeader, ParseText, ParseStatus, ParseRequest, ParseLocation;
  }

  lemma VoiceProcessed(r: Session, payload: seq<bv8>, number: nat, voice: Voice)
    requires |payload| == 12 && ParseVoiceHeader(payload) == Some(voice)
    ensures ProcessPacket(r, PacketBytes(Packet(VOICE_HEADER, REAL_TIME_1, number, payload)))
         == Note(r, OnVoiceHeader(voice))
  {
    hide PacketBytes, ProcessPacket, Dispatch, ParseVoiceHeader, Callback, Low32, Low16, Note;
    var p := Packet(VOICE_HEADER, REAL_TIME_1, number, payload);
    var h := Header(VOICE_HEADER, REAL_TIME_1, Low32(number), Low16(|payload|));
    PacketDispatched(r, p, []);
    assert PacketBytes(p) + [] == PacketBytes(p);
    assert payload[..|payload| % TWO16] == payload;
    VoiceCallback(h, payload, voice);
    DeliveredExactly(r, h, payload, OnVoiceHeader(voice));
  }

  lemma VoiceDispatched(r: Session, source: bv32, destination: bv32, isGroup: bool, number: nat)
    ensures ProcessPacket(r, PacketBytes(Packet(VOICE_HEADER, REAL_TIME_1, number,
                                                VoiceHeaderBytes(source, destination, isGroup))))
         == Note(r, OnVoiceHeader(Voice(source & 0xFFFFFF, destination & 0xFFFFFF, isGroup)))
  {
    hide PacketBytes, ProcessPacket, ParseVoiceHeader, VoiceHeaderBytes, Note;
    VoiceHeaderExactly(source, destination, isGroup);
    VoiceProcessed(r, VoiceHeaderBytes(source, destination, isGroup), number,
                   Voice(source & 0xFFFFFF, destination & 0xFFFFFF, isGroup));
  }

  /** The three headers of a call, numbered from zero. */
  lemma HeadersSent(s: Session, source: bv32, destination: bv32, isGroup: bool)
    requires s.state == CONNECTED && s.socketOpen
    ensures var b := VoiceHeaderBytes(source, destination, isGroup);
      Datagrams(StartVoiceCall(s, source, destination, isGroup).cur) == Datagrams(s.cur)
         + [PacketBytes(Packet(VOICE_HEADER, REAL_TIME_1, 0, b)), PacketBytes(Packet(VOICE_HEADER, REAL_TIME_1, 1, b)),
            PacketBytes(Packet(VOICE_HEADER, REAL_TIME_1, 2, b))]
  {
    hide VoiceHeaderBytes, TransmitRaw, PacketBytes, Datagrams;
    var b := VoiceHeaderBytes(source, destination, isGroup);
    var t0 := CallStarted(s);
    MoreDatagrams(s.cur, CallBegan);
    OneDatagram(t0, VOICE_HEADER, REAL_TIME_1, b);
    NextNumber(t0, VOICE_HEADER, b);
    var t1 := SendHeader(t0, b);
    OneDatagram(t1, VOICE_HEADER, REAL_TIME_1, b);
    NextNumber(t1, VOICE_HEADER, b);
    var t2 := SendHeader(t1, b);
    OneDatagram(t2, VOICE_HEADER, REAL_TIME_1, b);
  }

  lemma NextNumber(s: Session, kind: bv16, payload: seq<bv8>)
    requires s.socketOpen
    ensures TransmitRaw(s, kind, REAL_TIME_1, payload).realTimeSeq == (s.realTimeSeq + 1) % TWO32
    ensures Outgoing(s, kind, REAL_TIME_1, payload).number == s.realTimeSeq
  {
    hide TransmitRaw;
    TransmitCounts(s, kind, REAL_TIME_1, payload);
    assert IsRealTime(REAL_TIME_1);
  }

  /**
   End to end: StartVoiceCall emits three datagrams; each makes another client raise onVoiceHeader with the same
   group flag and both ids mod 2^24, hence with the very ids exactly when they have 24 bits.
   */
  lemma VoiceHeaderDelivered(s: Session, events: seq<Event>, source: bv32, destination: bv32, isGroup: bool,
                             r: Session, i: nat)
    requires Initial(s) && Run(s, events).state == CONNECTED && i < 3
    ensures var before := Run(s, events);
      var sent := Datagrams(before.cur);
      var wire := Datagrams(StartVoiceCall(before, source, destination, isGroup).cur);
      && |wire| == |sent| + 3 && sent <= wire
      && ProcessPacket(r, wire[|sent| + i])
         == Note(r, OnVoiceHeader(Voice(source & 0xFFFFFF, destination & 0xFFFFFF, isGroup)))
      && (ProcessPacket(r, wire[|sent| + i]) == Note(r, OnVoiceHeader(Voice(source, destination, isGroup)))
          <==> source < 0x100_0000 && destination < 0x100_0000)
  {
    hide Initial, Run, StartVoiceCall, PacketBytes, ProcessPacket, Datagrams, ParseVoiceHeader;
    TimersAndSocket(s, events);
    var before := Run(s, events);
    HeadersSent(before, source, destination, isGroup);
    VoiceDispatched(r, source, destination, isGroup, i);
    SameNote(r, OnVoiceHeader(Voice(source & 0xFFFFFF, destination & 0xFFFFFF, isGroup)),
             OnVoiceHeader(Voice(source, destination, isGroup)));
    VoiceHeaderExactly(source, destination, isGroup);
  }

  lemma AudioSent(s: Session, ambe: seq<bv8>)
    requires s.state == CONNECTED && s.socketOpen && s.inCall
    ensures Datagrams(SendAudioFrame(s, ambe).cur)
         == Datagrams(s.cur) + [PacketBytes(Packet(DMR_AUDIO_FRAME, REAL_TIME_1, s.realTimeSeq, ambe))]
  {
    hide TransmitRaw, PacketBytes, Datagrams;
    OneDatagram(s, DMR_AUDIO_FRAME, REAL_TIME_1, ambe);
    assert IsRealTime(REAL_TIME_1);
  }

  lemma AudioDispatched(r: Session, ambe: seq<bv8>, number: nat)
    ensures ProcessPacket(r, PacketBytes(Packet(DMR_AUDIO_FRAME, REAL_TIME_1, number, ambe)))
         == Note(r, OnAudioFrame(Low32(number), ambe[..|ambe| % TWO16]))
  {
    hide PacketBytes, ProcessPacket, Low32, Low16;
    var p := Packet(DMR_AUDIO_FRAME, REAL_TIME_1, number, ambe);
    PacketDispatched(r, p, []);
    assert PacketBytes(p) + [] == PacketBytes(p);
  }

  /**
   End to end: an audio frame arrives with its number, and whole exactly when it has fewer than 65536 bytes; through
   the receive buffer exactly when it has at most 1006.
   */
  lemma AudioDelivered(s: Session, events: seq<Event>, ambe: seq<bv8>, r: Session)
    requires Initial(s) && Run(s, events).state == CONNECTED && Run(s, events).inCall
    ensures var before := Run(s, events);
      var wire := Datagrams(SendAudioFrame(before, ambe).cur);
      var delivered := Note(r, OnAudioFrame(Low32(before.realTimeSeq), ambe));
      && |wire| == |Datagrams(before.cur)| + 1 && Datagrams(before.cur) <= wire
      && (ProcessPacket(r, wire[|wire| - 1]) == delivered <==> |ambe| < TWO16)
      && (Listening(r) ==> (HandleReceive(r, wire[|wire| - 1], true) == delivered <==> |ambe| <= 1006))
  {
    hide Initial, Run, SendAudioFrame, PacketBytes, ProcessPacket, HandleReceive, Datagrams, Low32;
    TimersAndSocket(s, events);
    var before := Run(s, events);
    AudioSent(before, ambe);
    AudioDispatched(r, ambe, before.realTimeSeq);
    SameNote(r, OnAudioFrame(Low32(before.realTimeSeq), ambe[..|ambe| % TWO16]),
             OnAudioFrame(Low32(before.realTimeSeq), ambe));
    if Listening(r) {
      PacketReceived(r, Packet(DMR_AUDIO_FRAME, REAL_TIME_1, before.realTimeSeq, ambe));
    }
  }

  lemma TerminatorSent(s: Session)
    requires s.state == CONNECTED && s.socketOpen && s.inCall
    ensures Datagrams(EndVoiceCall(s).cur)
         == Datagrams(s.cur) + [PacketBytes(Packet(VOICE_TERMINATOR, REAL_TIME_1, s.realTimeSeq, []))]
  {
    hide TransmitRaw, PacketBytes, Datagrams;
    OneDatagram(s, VOICE_TERMINATOR, REAL_TIME_1, []);
    assert IsRealTime(REAL_TIME_1);
  }

  lemma TerminatorCallback(h: Header, payload: seq<bv8>)
    requires h.kind == VOICE_TERMINATOR
    ensures Callback(h, payload) == Some(OnVoiceTerminator)
  {
  }

  lemma TerminatorDispatched(r: Session, number: nat)
    ensures ProcessPacket(r, PacketBytes(Packet(VOICE_TERMINATOR, REAL_TIME_1, number, [])))
         == Note(r, OnVoiceTerminator)
  {
    hide PacketBytes, ProcessPacket, Dispatch, Callback, Low32, Low16, Note;
    var p := Packet(VOICE_TERMINATOR, REAL_TIME_1, number, []);
    var h := Header(VOICE_TERMINATOR, REAL_TIME_1, Low32(number), Low16(0));
    PacketDispatched(r, p, []);
    assert PacketBytes(p) + [] == PacketBytes(p);
    assert p.payload[..0] == [];
    TerminatorCallback(h, []);
    DeliveredExactly(r, h, [], OnVoiceTerminator);
  }
}
