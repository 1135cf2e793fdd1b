/**
 When agreement on the local port is not agreement on the password: a session with a wrong password that is
 connected all the same, by what the server and earlier sessions of the port have said.
 */
module PortReuse {
  import opened Grammar
  import opened Handshake
  import opened Lifecycle
  import opened Login
  import opened Server
  import opened Session
  import opened SessionProofs
  import opened Wire
  import Fips

  // ----- Wrong passwords -----

  /** Entry `j` of session `k`, on `port`, is an AUTHENTICATION with the digest the server expects. */
  predicate Proven(s: Session, v: Server, k: nat, j: nat, port: nat) {
    && k < |Sessions(s)| && j < |Sessions(s)[k]| && IsAuthentication(Sessions(s)[k][j])
    && Sessions(s)[k][j].packet.payload == Expected(v) && PortOf(Sessions(s)[k]) == port
  }

  /** After these moves the client is connected, in the session it was in before them. */
  ghost predicate ConnectsBy(d: Net, moves: seq<Move>) {
    Play(d, moves).client.state == CONNECTED && |Play(d, moves).client.past| == |d.client.past|
  }

  /** Unless a new session begins, the histories of the earlier ones stay and the current one grows. */
  ghost predicate SameOrNewer(s: Session, t: Session) {
    && |s.past| <= |t.past| && t.cur != []
    && (|s.past| == |t.past| ==> s.past == t.past && s.cur <= t.cur)
  }

  lemma StepSame(s: Session, e: Event)
    requires Inv(s) && s.cur != []
    ensures SameOrNewer(s, Step(s, e))
  {
    hide Inv, Step;
    StepKeeps(s, e);
    if e.CallConnect? {
      ConnectSame(s, e);
    }
  }

  lemma ConnectSame(s: Session, e: Event)
    requires e.CallConnect? && s.cur != []
    ensures SameOrNewer(s, Step(s, e))
  {
  }

  lemma MovedSame(n: Net, m: Move)
    requires NetInv(n) && n.client.cur != []
    ensures SameOrNewer(n.client, Moved(n, m).client)
  {
    hide Inv, Step, SameOrNewer, RepliesEarned, AllSalted, Earned, Taken, ReplyBytes, PacketBytes, PortOf;
    SameItself(n.client);
    match m
    case ClientStep(e) => StepSame(n.client, e);
    case ToServer(_, _, _) =>
    case ToClient(i) =>
      if i < |n.server.outbox| {
        StepSame(n.client, Datagram(ReplyBytes(n.server.outbox[i]), true));
      }
    case StrayToServer(_, _, _) =>
    case StrayToClient(bytes) => StepSame(n.client, Datagram(bytes, false));
  }

  lemma SameItself(s: Session)
    requires s.cur != []
    ensures SameOrNewer(s, s)
  {
  }

  lemma {:induction false} PlaySame(n: Net, moves: seq<Move>)
    requires NetInv(n) && n.client.cur != []
    ensures SameOrNewer(n.client, Play(n, moves).client)
    decreases |moves|
  {
    hide NetInv, Moved;
    if moves != [] {
      var init := moves[..|moves| - 1];
      PlaySame(n, init);
      PlayKeepsOn(n, init);
      MovedSame(Play(n, init), moves[|moves| - 1]);
    }
  }

  lemma SessionsEarlier(s: Session, t: Session, k: nat)
    requires k < |t.past| && t.past == if s.cur == [] then s.past else Sessions(s)
    ensures k < |Sessions(s)| && Sessions(s)[k] == t.past[k] == Sessions(t)[k]
  {
  }

  /** A connection under the wrong password owes to an earlier session on the port. */
  lemma ConnectedByEarlier(m: Net, d: Net, moves: seq<Move>, password: seq<bv8>, port: nat)
    returns (k: nat, j: nat)
    requires NetInv(d) && [Began(password), Opened(port)] <= d.client.cur && ConnectsBy(d, moves)
    requires d.client.past == if m.client.cur == [] then m.client.past else Sessions(m.client)
    requires d.server == m.server && !DigestsEqual(m.server, password)
    ensures Proven(m.client, m.server, k, j, port)
  {
    hide Inv, Play, RepliesEarned, AllSalted, Earned, PortOf, WireSalt, Fips.Hash, PacketBytes, IsAuthentication;
    var t := Play(d, moves);
    PlayKeepsOn(d, moves);
    PlaySame(d, moves);
    SecretsKept(d, moves);
    k, j := SomeAccepted(t.client, t.server, PortOf(t.client.cur));
    AcceptedDigest(t.client, t.server, k, j, PortOf(t.client.cur));
    CurrentOrdered(t, password, port);
    assert t.client.cur[0] == Began(password);
    assert k < |t.client.past|;
    SessionsEarlier(m.client, t.client, k);
  }

  lemma CurrentOrdered(n: Net, password: seq<bv8>, port: nat)
    requires NetInv(n) && |n.client.cur| >= 2 && n.client.cur[..2] == [Began(password), Opened(port)]
    ensures PortOf(n.client.cur) == port
  {
    hide WellOrdered, Summarize, RepliesEarned, AllSalted, Earned, PortOf;
    PortDialled(n.client.cur, password, port);
  }

  /** A client with a newly opened socket. */
  ghost predicate Dialing(s: Session, password: seq<bv8>, port: nat) {
    s.state == CONNECTING && s.socketOpen && [Began(password), Opened(port)] <= s.cur
  }

  /** Dialling, whether or not the hello can be sent. */
  lemma DialsAnyhow(n: Net, password: seq<bv8>, port: nat)
    requires Inv(n.client) && n.client.state == DISCONNECTED
    ensures var d := Play(n, DialMoves(password, port));
      && d.server == n.server && Dialing(d.client, password, port)
      && d.client.past == if n.client.cur == [] then n.client.past else Sessions(n.client)
  {
    hide Inv, Connect, Resolved;
    ConnectDials(n.client, password);
    var t := Connect(n.client, password);
    OpenedDials(t, port);
    ConnectPast(n.client, password);
    var m := ClientStep(CallConnect(password));
    var ms := DialMoves(password, port);
    assert ms[..1] == [m] && [m][..0] == [];
    assert Play(n, []) == n;
    assert Play(n, [m]) == n.(client := t);
  }

  lemma ConnectPast(s: Session, password: seq<bv8>)
    requires s.state == DISCONNECTED
    ensures Connect(s, password).past == if s.cur == [] then s.past else Sessions(s)
  {
  }

  lemma OpenedDials(s: Session, port: nat)
    requires s.state == CONNECTING && !s.socketOpen && s.cur == [Began(s.password)]
    ensures var t := Resolved(s, Bound(port)); Dialing(t, s.password, port) && t.past == s.past
  {
    hide Fail, VersionBytes, TransmitRaw;
    var t := ReceiveLoopStarted(Note(s.(socketOpen := true), Opened(port)));
    var payload := VersionBytes(Version(s.dmrId, OPEN_TERMINAL, s.description));
    TransmitQuiet(t, KEEP_ALIVE, NONE, payload);
    TransmitSame(t, KEEP_ALIVE, NONE, payload);
    assert t.cur == [Began(s.password), Opened(port)];
  }

  /**
   If a session with a wrong password is ever connected, an earlier session used the same local port and sent the
   digest the server expects.
   */
  lemma WrongPasswordNeedsEarlier(n: Net, moves: seq<Move>, password: seq<bv8>, port: nat, further: seq<Move>)
    returns (k: nat, j: nat)
    requires Start(n)
    requires var m := Play(n, moves);
      && m.client.state == DISCONNECTED && !DigestsEqual(m.server, password)
      && ConnectsBy(Play(m, DialMoves(password, port)), further)
    ensures Proven(Play(n, moves).client, Play(n, moves).server, k, j, port)
  {
    hide NetInv, Start, Play, DialMoves, DigestsEqual, Proven, ConnectsBy;
    var m := Play(n, moves);
    PlayKeeps(n, moves);
    ClientInv(m);
    DialsAnyhow(m, password, port);
    PlayKeepsOn(m, DialMoves(password, port));
    k, j := ConnectedByEarlier(m, Play(m, DialMoves(password, port)), further, password, port);
  }

  // ----- What an answered challenge leaves behind -----

  /** A challenge accepted in a history was whole in the buffer, and the server sent it to the history's port. */
  ghost predicate PromptedBy(h: seq<Entry>, v: Server) {
    (exists j :: 0 <= j < |h| && h[j].Challenged?) ==>
      SaltFits(v.salt) && Reply(Port(PortOf(h)), CHALLENGE, 0, v.salt) in v.outbox
  }

  ghost predicate Prompted(s: Session, v: Server) {
    forall k :: 0 <= k < |Sessions(s)| ==> PromptedBy(Sessions(s)[k], v)
  }

  lemma NothingPrompted(password: seq<bv8>, v: Server)
    ensures PromptedBy([Began(password)], v) && PromptedBy([], v)
  {
  }

  /** Whoever accepted a challenge has a port. */
  lemma ChallengedBound(h: seq<Entry>, j: nat)
    requires WellOrdered(h) && j < |h| && h[j].Challenged?
    ensures Summarize(h).bound
  {
    hide WellOrdered, Summarize, PacketAllowed;
    At(h, j);
    assert h[..|h|] == h;
    Monotone(h, j, |h|);
  }

  lemma QuietPrompted(h: seq<Entry>, g: seq<Entry>, v: Server)
    requires WellOrdered(h) && WellOrdered(g) && QuietGrowth(h, g) && PromptedBy(h, v)
    ensures PromptedBy(g, v)
  {
    hide WellOrdered, Summarize, SaltFits, PortOf;
    if j :| 0 <= j < |g| && g[j].Challenged? {
      assert j < |h| && h[j].Challenged?;
      ChallengedBound(h, j);
      PortKept(h, g);
    }
  }

  lemma ReplacedPrompted(s: Session, t: Session, v: Server)
    requires Prompted(s, v) && t.past == s.past && PromptedBy(t.cur, v)
    ensures Prompted(t, v)
  {
    hide PromptedBy;
    forall k | 0 <= k < |Sessions(t)|
      ensures PromptedBy(Sessions(t)[k], v)
    {
      assert PromptedBy(Sessions(s)[k], v);
    }
  }

  lemma CurrentPrompted(s: Session, v: Server)
    requires Prompted(s, v)
    ensures PromptedBy(s.cur, v)
  {
    hide PromptedBy;
    assert Sessions(s)[|s.past|] == s.cur;
  }

  lemma QuietStepPrompted(s: Session, t: Session, v: Server)
    requires Inv(s) && Inv(t) && Prompted(s, v) && t.past == s.past && Unchallenged(s, t)
    ensures Prompted(t, v)
  {
    hide WellOrdered, FieldsAgree, LoginAgrees, Summarize, PromptedBy, Prompted, QuietGrowth;
    CurrentPrompted(s, v);
    QuietPrompted(s.cur, t.cur, v);
    ReplacedPrompted(s, t, v);
  }

  lemma ConnectPrompted(s: Session, e: Event, v: Server)
    requires Prompted(s, v) && e.CallConnect?
    ensures Prompted(Step(s, e), v)
  {
    hide PromptedBy;
    NothingPrompted(e.password, v);
    var t := Step(s, e);
    forall k | 0 <= k < |Sessions(t)|
      ensures PromptedBy(Sessions(t)[k], v)
    {
      assert k < |Sessions(s)| ==> PromptedBy(Sessions(s)[k], v);
    }
  }

  lemma StepPrompted(s: Session, e: Event, v: Server)
    requires Inv(s) && Prompted(s, v) && !e.Datagram?
    ensures Prompted(Step(s, e), v)
  {
    hide Inv, Step, Prompted, Unchallenged;
    StepKeeps(s, e);
    if e.CallConnect? {
      ConnectPrompted(s, e, v);
    } else {
      StepQuiet(s, e);
      QuietStepPrompted(s, Step(s, e), v);
    }
  }

  /** The server says more and keeps its salt. */
  lemma MorePrompted(s: Session, v: Server, w: Server)
    requires Prompted(s, v) && v.outbox <= w.outbox && w.salt == v.salt
    ensures Prompted(s, w)
  {
    hide SaltFits, PortOf;
    forall k | 0 <= k < |Sessions(s)|
      ensures PromptedBy(Sessions(s)[k], w)
    {
      assert PromptedBy(Sessions(s)[k], v);
    }
  }

  lemma AnsweringPrompted(s: Session, v: Server, from: Endpoint, bytes: seq<bv8>, beyond: nat -> bv8)
    requires Prompted(s, v)
    ensures Prompted(s, Taken(v, from, bytes, beyond))
  {
    hide Taken, Prompted, Authenticates;
    ServerAnswers(v, from, bytes, beyond);
    MorePrompted(s, v, Taken(v, from, bytes, beyond));
  }

  /** A challenge that is accepted came whole, to the port of the current session. */
  lemma ChallengePrompted(s: Session, v: Server)
    requires Inv(s) && Prompted(s, v) && s.socketOpen
    requires SaltFits(v.salt) && Reply(Port(PortOf(s.cur)), CHALLENGE, 0, v.salt) in v.outbox
    ensures Prompted(Challenge(s, WireSalt(v.salt)), v)
  {
    hide InvButPending, Prompted, Challenge, WireSalt, SaltFits, PortOf;
    ChallengeKeeps(s, WireSalt(v.salt));
    var t := Challenge(s, WireSalt(v.salt));
    OpenPort(s);
    OpenOrdered(s, t);
    PortKept(s.cur, t.cur);
    PortPrompted(t.cur, v);
    ReplacedPrompted(s, t, v);
  }

  lemma PortPrompted(h: seq<Entry>, v: Server)
    requires SaltFits(v.salt) && Reply(Port(PortOf(h)), CHALLENGE, 0, v.salt) in v.outbox
    ensures PromptedBy(h, v)
  {
    hide SaltFits, PortOf;
  }

  lemma OpenPort(s: Session)
    requires InvButPending(s) && s.socketOpen
    ensures Summarize(s.cur).bound
  {
    hide WellOrdered, Summarize;
  }

  lemma OpenOrdered(s: Session, t: Session)
    requires InvButPending(t)
    ensures WellOrdered(t.cur)
  {
    hide WellOrdered, Summarize;
  }

  lemma ConfirmPrompted(s: Session, v: Server)
    requires Inv(s) && Prompted(s, v)
    ensures Prompted(Confirm(s), v)
  {
    hide InvButReceive, Prompted, Unchallenged, Confirm;
    ConfirmKeeps(s);
    ConfirmQuiet(s);
    QuietStepPrompted(s, Confirm(s), v);
  }

  lemma ReplyPrompted(s: Session, v: Server, r: Reply)
    requires Inv(s) && Prompted(s, v) && s.receiving && GoodReply(v, r) && r in v.outbox && r.to == Port(PortOf(s.cur))
    ensures Prompted(HandleReceive(s, ReplyBytes(r), true), v)
  {
    hide InvButReceive, Prompted, HandleReceive, ReplyBytes, Challenge, Confirm, WireSalt, SaltFits, PortOf;
    if r.kind == CHALLENGE && r.payload == v.salt {
      assert r == Reply(r.to, CHALLENGE, 0, v.salt);
      ChallengeHeard(s, r.to, v.salt);
      if SaltFits(v.salt) {
        ChallengePrompted(s, v);
      }
    } else {
      assert r == Reply(r.to, KEEP_ALIVE, 0, []);
      ConfirmHeard(s, r.to);
      ConfirmPrompted(s, v);
    }
  }

  lemma ToClientPrompted(n: Net, i: nat)
    requires NetInv(n) && Prompted(n.client, n.server)
    ensures var m := Moved(n, ToClient(i)); Prompted(m.client, m.server)
  {
    hide InvButReceive, Prompted, AllSalted, Earned, RepliesEarned, GoodReply, HandleReceive, ReplyBytes, PortOf;
    if i < |n.server.outbox| && n.client.socketOpen && n.server.outbox[i].to == Port(PortOf(n.client.cur)) {
      ReplyEarned(n, i);
      ReplyPrompted(n.client, n.server, n.server.outbox[i]);
    }
  }

  lemma StrayPrompted(n: Net, bytes: seq<bv8>)
    requires NetInv(n) && Prompted(n.client, n.server)
    ensures Prompted(Moved(n, StrayToClient(bytes)).client, n.server)
  {
    hide InvButReceive, Prompted, Earned, RepliesEarned, AllSalted, HandleReceive, ProcessPacket, PortOf;
    if n.client.receiving {
      ReceivingListens(n.client);
      ReceiveContinues(n.client, bytes, false);
    }
  }

  lemma MovePrompted(n: Net, m: Move)
    requires NetInv(n) && Prompted(n.client, n.server)
    ensures Prompted(Moved(n, m).client, Moved(n, m).server)
  {
    hide Inv, Prompted, Step, Taken, RepliesEarned, AllSalted, Earned, ReplyBytes, PacketBytes, PortOf;
    match m
    case ClientStep(e) =>
      if !e.Datagram? {
        StepPrompted(n.client, e, n.server);
      }
    case ToServer(k, j, beyond) =>
      var all: seq<seq<Entry>> := Sessions(n.client);
      if k < |all| && j < |all[k]| && all[k][j].Sent? {
        AnsweringPrompted(n.client, n.server, Port(PortOf(all[k])), PacketBytes(all[k][j].packet), beyond);
      }
    case ToClient(i) => ToClientPrompted(n, i);
    case StrayToServer(id, bytes, past) => AnsweringPrompted(n.client, n.server, Elsewhere(id), bytes, past);
    case StrayToClient(bytes) => StrayPrompted(n, bytes);
  }

  lemma {:induction false} PlayPrompted(n: Net, moves: seq<Move>)
    requires Start(n)
    ensures Prompted(Play(n, moves).client, Play(n, moves).server)
    decreases |moves|
  {
    hide NetInv, Prompted, Moved, Start;
    if moves == [] {
      StartPrompted(n);
    } else {
      var init := moves[..|moves| - 1];
      PlayPrompted(n, init);
      PlayKeeps(n, init);
      MovePrompted(Play(n, init), moves[|moves| - 1]);
    }
  }

  lemma StartPrompted(n: Net)
    requires Start(n)
    ensures Prompted(n.client, n.server)
  {
    NothingPrompted([], n.server);
  }

  /** So an AUTHENTICATION in a history means that the challenge can be delivered to its port again. */
  lemma ProvenPrompted(n: Net, k: nat, j: nat, port: nat) returns (i: nat)
    requires Inv(n.client) && Prompted(n.client, n.server) && Proven(n.client, n.server, k, j, port)
    ensures SaltFits(n.server.salt)
    ensures i < |n.server.outbox| && n.server.outbox[i] == Reply(Port(port), CHALLENGE, 0, n.server.salt)
  {
    hide Inv, WellOrdered, SaltFits, PortOf, Expected, IsAuthentication;
    var h := Sessions(n.client)[k];
    SessionsOrdered(n.client, k);
    AuthenticationAnswers(h, j);
    assert PromptedBy(h, n.server);
    i :| 0 <= i < |n.server.outbox| && n.server.outbox[i] == Reply(Port(port), CHALLENGE, 0, n.server.salt);
  }

  // ----- A server that no longer listens -----

  lemma MovedSilent(n: Net, m: Move)
    requires !n.server.listening
    ensures Moved(n, m).server == n.server
  {
    hide Step, Processed, PacketBytes, ReplyBytes, PortOf, Sessions;
  }

  /** Nothing changes it. */
  lemma {:induction false} PlaySilent(n: Net, moves: seq<Move>)
    requires !n.server.listening
    ensures Play(n, moves).server == n.server
    decreases |moves|
  {
    hide Moved;
    if moves != [] {
      PlaySilent(n, moves[..|moves| - 1]);
      MovedSilent(Play(n, moves[..|moves| - 1]), moves[|moves| - 1]);
    }
  }

  // ----- Delivering old datagrams -----

  lemma ChallengeTaken(n: Net, i: nat, password: seq<bv8>, port: nat)
    requires NetInv(n) && Dialing(n.client, password, port) && SaltFits(n.server.salt)
    requires i < |n.server.outbox| && n.server.outbox[i] == Reply(Port(port), CHALLENGE, 0, n.server.salt)
    ensures var m := Moved(n, ToClient(i));
      && m.server == n.server && m.client.past == n.client.past && m.client.state == AUTHENTICATING
      && [Began(password), Opened(port)] <= m.client.cur
  {
    hide WellOrdered, Summarize, RepliesEarned, AllSalted, Earned, PortOf, HandleReceive, ReplyBytes, SaltFits,
         WireSalt, Challenge;
    PortDialled(n.client.cur, password, port);
    ChallengeHeard(n.client, Port(port), n.server.salt);
    ChallengeAccepted(n.client, WireSalt(n.server.salt));
  }

  lemma ChallengeAccepted(s: Session, salt: seq<bv8>)
    requires s.state == CONNECTING
    ensures var t := Challenge(s, salt); t.state == AUTHENTICATING && t.past == s.past && s.cur <= t.cur
  {
    hide TransmitRaw, Fips.Hash;
    TransmitSame(Note(s.(state := AUTHENTICATING), Challenged(salt)), AUTHENTICATION, NONE,
                 Fips.Hash(salt + s.password));
  }

  lemma PlayTwo(n: Net, a: Move, b: Move)
    ensures Play(n, [a, b]) == Moved(Moved(n, a), b)
  {
    hide Moved;
    assert [a, b][..1] == [a] && [a][..0] == [];
    assert Play(n, [a]) == Moved(n, a);
  }

  lemma PlayThree(n: Net, a: Move, b: Move, c: Move)
    ensures Play(n, [a, b, c]) == Moved(Moved(Moved(n, a), b), c)
  {
    hide Moved;
    PlayTwo(n, a, b);
    assert [a, b, c][..2] == [a, b];
  }

  /** An old challenge and an old confirmation connect whoever has the port. */
  lemma ConfirmedConnects(d: Net, password: seq<bv8>, port: nat, i: nat, c: nat)
    requires NetInv(d) && Dialing(d.client, password, port) && SaltFits(d.server.salt)
    requires i < |d.server.outbox| && d.server.outbox[i] == Reply(Port(port), CHALLENGE, 0, d.server.salt)
    requires c < |d.server.outbox| && d.server.outbox[c] == Reply(Port(port), KEEP_ALIVE, 0, [])
    ensures ConnectsBy(d, [ToClient(i), ToClient(c)])
  {
    hide NetInv, Moved, SaltFits, Play;
    PlayTwo(d, ToClient(i), ToClient(c));
    ChallengeTaken(d, i, password, port);
    MoveKeeps(d, ToClient(i));
    MoveConfirm(Moved(d, ToClient(i)), c, password, port);
  }

  /** So does an old challenge and an old AUTHENTICATION that a listening server confirms again. */
  lemma ProvenConnects(d: Net, password: seq<bv8>, port: nat, i: nat, k: nat, j: nat, beyond: nat -> bv8)
    requires NetInv(d) && Dialing(d.client, password, port) && SaltFits(d.server.salt) && d.server.listening
    requires i < |d.server.outbox| && d.server.outbox[i] == Reply(Port(port), CHALLENGE, 0, d.server.salt)
    requires k < |d.client.past| && Proven(d.client, d.server, k, j, port)
    ensures ConnectsBy(d, [ToClient(i), ToServer(k, j, beyond), ToClient(|d.server.outbox|)])
  {
    hide NetInv, Moved, SaltFits, IsAuthentication, PortOf, Expected, Play;
    PlayThree(d, ToClient(i), ToServer(k, j, beyond), ToClient(|d.server.outbox|));
    ChallengeTaken(d, i, password, port);
    MoveKeeps(d, ToClient(i));
    var b := Moved(d, ToClient(i));
    assert Sessions(b.client)[k] == Sessions(d.client)[k];
    MoveDigest(b, k, j, beyond);
    MoveKeeps(b, ToServer(k, j, beyond));
    MoveConfirm(Moved(b, ToServer(k, j, beyond)), |d.server.outbox|, password, port);
  }

  // ----- Exactly when -----

  /** An earlier session used the port and sent the digest the server expects. */
  ghost predicate EverProven(s: Session, v: Server, port: nat) {
    exists k, j :: Proven(s, v, k, j, port)
  }

  /** Old datagrams are enough, or will be: the port is confirmed, or a listening server can be made to confirm it. */
  ghost predicate Replayable(n: Net, port: nat) {
    Confirmed(n.server, port) || (n.server.listening && EverProven(n.client, n.server, port))
  }

  ghost predicate CanConnect(d: Net) {
    exists further :: ConnectsBy(d, further)
  }

  lemma ConnectedReplayable(m: Net, d: Net, further: seq<Move>, password: seq<bv8>, port: nat)
    requires NetInv(d) && Dialing(d.client, password, port) && ConnectsBy(d, further)
    requires d.client.past == if m.client.cur == [] then m.client.past else Sessions(m.client)
    requires d.server == m.server && !DigestsEqual(m.server, password)
    ensures Replayable(m, port)
  {
    hide NetInv, Play, DigestsEqual, Proven, Confirmed, PortOf;
    var k, j := ConnectedByEarlier(m, d, further, password, port);
    if !m.server.listening {
      PlaySilent(d, further);
      PlayKeepsOn(d, further);
      ConnectedConfirmed(Play(d, further));
      SamePort(d, further, password, port);
    }
  }

  lemma SamePort(d: Net, further: seq<Move>, password: seq<bv8>, port: nat)
    requires NetInv(d) && Dialing(d.client, password, port) && |Play(d, further).client.past| == |d.client.past|
    ensures PortOf(Play(d, further).client.cur) == port
  {
    hide NetInv, Play, PortOf;
    PlaySame(d, further);
    PlayKeepsOn(d, further);
    CurrentOrdered(Play(d, further), password, port);
  }

  /** A confirmed port has a session that proved itself. */
  lemma ConfirmedProven(m: Net, port: nat)
    requires NetInv(m) && Confirmed(m.server, port)
    ensures EverProven(m.client, m.server, port)
  {
    hide Inv, AllSalted, Earned, PortOf;
    var c :| 0 <= c < |m.server.outbox| && m.server.outbox[c] == Reply(Port(port), KEEP_ALIVE, 0, []);
    ReplyEarned(m, c);
    var k, j := SomeAccepted(m.client, m.server, port);
    AcceptedIsProven(m.client, m.server, k, j, port);
  }

  lemma AcceptedIsProven(s: Session, v: Server, k: nat, j: nat, port: nat)
    requires Accepts(s, v, k, j, port)
    ensures Proven(s, v, k, j, port)
  {
    hide PortOf, Expected, PacketBytes;
  }

  lemma ReplayableConnects(m: Net, d: Net, password: seq<bv8>, port: nat)
    requires NetInv(m) && Prompted(m.client, m.server) && NetInv(d) && Dialing(d.client, password, port)
    requires d.client.past == if m.client.cur == [] then m.client.past else Sessions(m.client)
    requires d.server == m.server && Replayable(m, port)
    ensures CanConnect(d)
  {
    hide NetInv, Prompted, Play, Proven, ConnectsBy, SaltFits, Dialing;
    if Confirmed(m.server, port) {
      ConfirmedProven(m, port);
    }
    var k, j :| Proven(m.client, m.server, k, j, port);
    ClientInv(m);
    var i := ProvenPrompted(m, k, j, port);
    if Confirmed(m.server, port) {
      var c :| 0 <= c < |m.server.outbox| && m.server.outbox[c] == Reply(Port(port), KEEP_ALIVE, 0, []);
      ConfirmedConnects(d, password, port, i, c);
    } else {
      EarlierProven(m, d, k, j, port);
      ProvenConnects(d, password, port, i, k, j, _ => 0);
    }
  }

  /**
   From any reachable state in which the client is disconnected: a session with a wrong password on some local port
   can be connected if and only if the server has confirmed that port before, or still listens and an earlier
   session sent the expected digest from it. Nothing is assumed of the sends, the salt or the hello.
   */
  lemma WrongPasswordExactly(n: Net, moves: seq<Move>, password: seq<bv8>, port: nat)
    requires Start(n)
    requires var m := Play(n, moves); m.client.state == DISCONNECTED && !DigestsEqual(m.server, password)
    ensures var m := Play(n, moves); CanConnect(Play(m, DialMoves(password, port))) <==> Replayable(m, port)
  {
    hide NetInv, Start, Play, DialMoves, DigestsEqual, Dialing, ConnectsBy, Replayable;
    var m := Play(n, moves);
    var d := Play(m, DialMoves(password, port));
    PlayKeeps(n, moves);
    PlayPrompted(n, moves);
    ClientInv(m);
    DialsAnyhow(m, password, port);
    PlayKeepsOn(m, DialMoves(password, port));
    if CanConnect(d) {
      var further :| ConnectsBy(d, further);
      ConnectedReplayable(m, d, further, password, port);
    }
    if Replayable(m, port) {
      ReplayableConnects(m, d, password, port);
    }
  }

  lemma EarlierProven(m: Net, d: Net, k: nat, j: nat, port: nat)
    requires d.server == m.server && d.client.past == if m.client.cur == [] then m.client.past else Sessions(m.client)
    requires Proven(m.client, m.server, k, j, port)
    ensures k < |d.client.past| && Proven(d.client, d.server, k, j, port)
  {
    hide PortOf, Expected, IsAuthentication;
  }

  // ----- A run that needs no password -----

  /** A login with the good password, its end, and a dial with the bad one on the same port. */
  function ReuseMoves(n: Net, good: seq<bv8>, port: nat, beyond: nat -> bv8): (r: seq<Move>) {
    var d := Play(n, DialMoves(good, port));
    DialMoves(good, port) + ExchangeMoves(|d.client.past|, |d.server.outbox|, beyond) + [ClientStep(CallDisconnect)]
  }

  lemma DisconnectMove(n: Net, moves: seq<Move>)
    requires NetInv(n)
    ensures var a, b := Play(n, moves), Play(n, moves + [ClientStep(CallDisconnect)]);
      && b.server == a.server && Grows(a.client, b.client) && NetInv(a) && NetInv(b)
      && b.client.state == DISCONNECTED
  {
    hide NetInv, Disconnect;
    var a := Play(n, moves);
    assert (moves + [ClientStep(CallDisconnect)])[..|moves|] == moves;
    PlayKeepsOn(n, moves);
    PlayKeepsOn(n, moves + [ClientStep(CallDisconnect)]);
    ClientInv(a);
    StepKeeps(a.client, CallDisconnect);
    DisconnectQuiet(a.client);
  }

  lemma MovedPast(n: Net, m: Move)
    requires NetInv(n) && !m.ClientStep?
    ensures Moved(n, m).client.past == n.client.past && n.client.cur <= Moved(n, m).client.cur
  {
    hide Inv, Step, RepliesEarned, AllSalted, Earned, Taken, ReplyBytes, PacketBytes, PortOf, Sessions;
    match m
    case ToServer(_, _, _) =>
    case ToClient(i) =>
      if i < |n.server.outbox| {
        StepKeeps(n.client, Datagram(ReplyBytes(n.server.outbox[i]), true));
      }
    case StrayToServer(_, _, _) =>
    case StrayToClient(bytes) => StepKeeps(n.client, Datagram(bytes, false));
  }

  /** Datagrams alone begin no session. */
  lemma {:induction false} PlayPast(n: Net, moves: seq<Move>)
    requires NetInv(n) && forall i :: 0 <= i < |moves| ==> !moves[i].ClientStep?
    ensures Play(n, moves).client.past == n.client.past && n.client.cur <= Play(n, moves).client.cur
    decreases |moves|
  {
    hide NetInv, Moved;
    if moves != [] {
      var init := moves[..|moves| - 1];
      PlayPast(n, init);
      PlayKeepsOn(n, init);
      MovedPast(Play(n, init), moves[|moves| - 1]);
    }
  }

  /** The good login connects on its port. */
  lemma GoodLogin(n: Net, good: seq<bv8>, port: nat, beyond: nat -> bv8)
    requires Start(n) && AlwaysSends(n.client) && HelloFits(n.client) && SaltFits(n.server.salt)
    requires DigestsEqual(n.server, good)
    ensures var d := Play(n, DialMoves(good, port));
      var t := Play(n, DialMoves(good, port) + ExchangeMoves(|d.client.past|, |d.server.outbox|, beyond));
      NetInv(n) && t.client.state == CONNECTED && PortOf(t.client.cur) == port
  {
    hide NetInv, Play, DialMoves, SaltFits, HelloFits, DigestsEqual, AlwaysSends, PortOf;
    NoMoves(n);
    LoginExactly(n, [], good, port, beyond);
    var d := Play(n, DialMoves(good, port));
    var exchange := ExchangeMoves(|d.client.past|, |d.server.outbox|, beyond);
    PlaySplit(n, DialMoves(good, port), exchange);
    StartInv(n);
    ClientInv(n);
    DialsAnyhow(n, good, port);
    PlayKeepsOn(n, DialMoves(good, port));
    PlayPast(d, exchange);
    PlayKeepsOn(d, exchange);
    CurrentOrdered(Play(d, exchange), good, port);
  }

  lemma NoMoves(n: Net)
    ensures Play(n, []) == n
  {
  }

  /**
   Such a run exists whenever logging in is possible at all: after a login with the good password, a session on
   the same port is connected under any bad one.
   */
  lemma PortReuseConnects(n: Net, good: seq<bv8>, bad: seq<bv8>, port: nat, beyond: nat -> bv8)
    requires Start(n) && AlwaysSends(n.client) && HelloFits(n.client) && SaltFits(n.server.salt)
    requires DigestsEqual(n.server, good) && !DigestsEqual(n.server, bad)
    ensures var m := Play(n, ReuseMoves(n, good, port, beyond));
      CanConnect(Play(m, DialMoves(bad, port)))
  {
    hide NetInv, Play, SaltFits, HelloFits, WireSalt, Fips.Hash, AlwaysSends, PortOf, Proven, ConnectsBy, Confirmed;
    GoodLogin(n, good, port, beyond);
    var d := Play(n, DialMoves(good, port));
    var moves := DialMoves(good, port) + ExchangeMoves(|d.client.past|, |d.server.outbox|, beyond);
    var all := ReuseMoves(n, good, port, beyond);
    assert all == moves + [ClientStep(CallDisconnect)];
    DisconnectMove(n, moves);
    ConnectedConfirmed(Play(n, moves));
    SecretsKept(n, all);
    WrongPasswordExactly(n, all, bad, port);
  }

  lemma ConnectedConfirmed(n: Net)
    requires NetInv(n) && n.client.state == CONNECTED
    ensures Confirmed(n.server, PortOf(n.client.cur))
  {
    hide Inv, RepliesEarned, AllSalted, Earned, PortOf, Confirmed;
  }
}
