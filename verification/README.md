# libOpenDTP, modelled and proved

libOpenDTP is a C++20 client for the Rewind / Open DMR Terminal Protocol over UDP. This project models it in Dafny, in
five parts each building on the ones before, and proves what they keep:

1. **SHA-256** (`Fips`, `Constants`, `Example`, `Streaming`, `Sha256`, `Sha256Proofs`). `Fips` states FIPS 180-4;
   `Constants` derives its constants from the roots of primes, and `Example` works the standard's example through;
   `Sha256` is the streaming context of `src/Sha256.cpp` as a class over arrays, proved to compute it.
2. **Transcoders and codec** (`Utf`, `Rfc`, `UtfProofs`, `Decoding`, `Endian`, `Wire`, `WireProofs`, `Layout`). The
   UTF-8/UTF-16 loops against RFC 3629 and RFC 2781, and against arithmetic on any bytes; the byte-order helpers; and
   every payload the client serializes or reads, as methods over growing buffers and moving offsets: byte by byte, in
   numbers, in both directions, with the exact inputs that survive the trip.
3. **Client session** (`Session`, `Client`, `Grammar`, `SessionProofs`, `Lifecycle`, `Effects`, `Reports`). `Session`
   says what each call and handler does to the client's state; `Client` is the object, each method proved to do just
   that. `Grammar` is an independent automaton over a session's history - attempted sends, callbacks - and
   `SessionProofs` shows that every step of every run stays inside it. `Lifecycle` draws the conclusions. `Effects`
   says what each step adds to the history, and `Reports` follows errors through whole runs.
4. **Two threads** (`Interleaving`, `Threads`, `ThreadProofs`, `Closing`). The calls and handlers taken apart into the
   tests and operations between which the API thread and the I/O thread take turns: what still holds, and what only
   holds while steps are atomic. Every atomic run is one of these schedules.
5. **Protocol** (`Server`, `Handshake`, `Login`, `PortReuse`, `Delivery`, `VoiceCall`). The login against the server
   of `tests/test_client.cpp` over a network that loses, duplicates and reorders real byte sequences, while strangers
   send anything to both sides from addresses of their own; and delivery from one client's API to another client's
   callback.

Bytes are `bv8`, UTF-16 units and wire fields `bv16`/`bv32`, hash words `bv32`. Counters and lengths are numbers with
their wrap-around written out (`uint16_t` lengths mod 2^16, `uint32_t` sequence numbers mod 2^32, the 64-bit bit count
mod 2^64). What the outside decides is a parameter of the step: the outcome of each `send_to` (`failing`), what the
resolver and the socket report, the local port, which datagrams arrive, when timers fire, late or not at all. A run is
any sequence of steps.

## What the code does that its documentation does not say

- `include/opendtp/Client.hpp:197` says `onDisconnected` is also raised by a server-initiated close. The packet switch
  (`src/Client.cpp:414-525`) has no case for CLOSE: it is ignored (`Delivery.CloseIgnored`).
- After a connect timeout `onDisconnected` and `ConnectSync` report RESPONSE_TIMEOUT exactly when there is no CLOSE to
  send or sending it succeeds; a failing send overwrites the reason with SOCKET_IO (`Lifecycle.TimeoutOutcome`; a run
  in which it does: `Lifecycle.TimeoutOverwritten`).
- A text message survives codec and frame exactly up to 32759 UTF-16 units, but the client receives into 1024 bytes
  (`include/opendtp/Client.hpp:309`), so another client's socket takes at most 495; for location reports the bounds
  are 65524 and 995 bytes (`Delivery.TextDelivered`, `Delivery.LocationDelivered`).
- Decoding and re-encoding is the identity on more than well-formed UTF-8: exactly on the grammar of RFC 3629 extended
  with unpaired surrogate forms (`UtfProofs.ByteRoundTripExactly`).
- The login binds a password to a local port, not to a session: replies carry nothing that ties them to a session. A
  session with a wrong password can be connected by old datagrams exactly when the server has confirmed its local port
  before, or still listens and an earlier session sent the expected digest from that port
  (`PortReuse.WrongPasswordExactly`; such a run exists whenever logging in is possible at all:
  `PortReuse.PortReuseConnects`).
- A `Connect` that throws calls `onError` but begins no session and never calls `onDisconnected`
  (`src/Client.cpp:157-163`).
- CLOSE need not be the last packet of a session. A call tests the state (`src/Client.cpp:284`) before `TransmitRaw`
  takes its lock, and the socket is closed after the CLOSE without it (`src/Client.cpp:194-203`): up to three packets
  of one call can follow (`Closing.CloseUnderThreads`, `Closing.ThreeDoFollow`). A user's `Disconnect` beside a socket
  error can send two (`Closing.TwoCloses`).

## Model

| member | source | states |
|---|---|---|
| Sha256.Sha256 | src/Sha256.cpp:163-170 | for every message the result is FIPS 180-4's hash: the digest of the fold of the 6.2.2 compression over the parsed 5.1.1 padding |
| Sha256.MacrosAreFips | src/Sha256.cpp:34-41 | the shift-and-or macros are the rotations of section 4.1.2 |
| Constants.ConstantsAreCubeRoots | src/Sha256.cpp:43-52 | the constant of round t is the first 32 bits of the fractional part of the cube root of the t-th prime |
| Constants.PrimesListed | src/Sha256.cpp:43-52 | the primes meant are exactly those below 312, in order |
| Constants.InitialValueIsSquareRoots | src/Sha256.cpp:99-106 | the initial words are those of the square roots of the first eight primes |
| Example.HashOfAbc | src/Sha256.cpp:163-170 | the standard's example: the digest of "abc", through every schedule word and round |
| Sha256Proofs.LengthIsBigEndian | src/Sha256.cpp:139-146 | the length field is the bit count, most significant byte first |
| Sha256.Sha256Context.constructor | src/Sha256.cpp:96-107 | a fresh context has the initial value of section 5.3.3, counts nothing and has compressed nothing |
| Sha256.CompressInto | src/Sha256.cpp:54-94 | the in-place schedule, rounds and additions are the compression of section 6.2.2 |
| Sha256.RunRounds | src/Sha256.cpp:64-84 | the register-rotating loop gives the working variables after 64 rounds |
| Sha256.Schedule | src/Sha256.cpp:57-62 | the filled array is the message schedule |
| Sha256.Sha256Context.Transform | src/Sha256.cpp:114 | the chaining words stay the fold of all blocks compressed so far |
| Sha256.Sha256Context.Update | src/Sha256.cpp:109-119 | the loop leaves the context that absorbing its input byte by byte leaves |
| Sha256.Sha256Context.AbsorbOne | src/Sha256.cpp:110-118 | one byte: buffered, or the full block compressed and 512 bits counted mod 2^64 |
| Sha256.Sha256Context.PadBuffer | src/Sha256.cpp:124-136 | both padding branches: which block is flushed early and what the first 56 bytes become |
| Sha256.Sha256Context.FinishBlock | src/Sha256.cpp:138-147 | the bit count, mod 2^64 and big-endian, completes the last block |
| Sha256.Sha256Context.Final | src/Sha256.cpp:121-159 | exactly the one or two last blocks are compressed, and the output is the digest of the fold of everything fed |
| Sha256.EmitDigest | src/Sha256.cpp:149-158 | the interleaved output loop writes the eight words big-endian |
| Streaming.AbsorbSplit | src/Sha256.cpp:109-119 | absorbing a then b leaves the same context as absorbing a ++ b, for every split |
| Streaming.AbsorbHolds | src/Sha256.cpp:109-119 | after any message the blocks fed are those of its whole part, the buffer holds exactly the rest, and the count is 512 per block mod 2^64 |
| Streaming.StreamedBlocks | src/Sha256.cpp:109-147 | all blocks compressed, early flush included, are the parsed padded message that is never built |
| Sha256Proofs.RoundsBijective | src/Sha256.cpp:73-84 | for every block the 64 rounds are one to one and onto on the eight words |
| Sha256Proofs.UnroundsRounds | src/Sha256.cpp:73-84 | the explicit inverse, run in reverse round order, restores the starting words |
| Sha256Proofs.RoundsUnrounds | src/Sha256.cpp:73-84 | and running the rounds after it restores the final ones |
| Sha256Proofs.RoundsAreRecurrence | src/Sha256.cpp:73-84 | after any number of rounds b, c, d and f, g, h are a and e of one, two, three rounds before: two recurrences describe the loop |
| Sha256Proofs.PadInjective | src/Sha256.cpp:121-147 | messages of any length with the same padded form are the same, although the length field wraps |
| Sha256Proofs.BlocksDetermineMessage | src/Sha256.cpp:109-147 | two messages of any length give the transform the same blocks if and only if they are equal |
| Utf.Utf8ToUtf16 | src/Protocol.cpp:62-90 | the loop terminates with the decoding function's units, at most one per byte, on any bytes |
| Utf.ReadCodePoint | src/Protocol.cpp:76-78 | the continuation loop reads the code point of the lead and the following bytes, unchecked |
| Utf.Utf16ToUtf8 | src/Protocol.cpp:92-121 | the loop terminates with the encoding function's bytes, at most three per unit, on any units |
| Utf.ToUtf16 | src/Protocol.cpp:62-90 | never more units than bytes |
| Decoding.DecodesAllBytes | src/Protocol.cpp:62-90 | on any bytes the units are what arithmetic says: lead and following bytes by their remainders, bytes that cannot lead skipped, a truncated tail dropped, nothing beyond U+10FFFF |
| Decoding.FollowingBitsIgnored | src/Protocol.cpp:76-78 | byte strings that differ in nothing but the top two bits of following bytes are decoded alike |
| Utf.ToUtf8 | src/Protocol.cpp:92-121 | between one and three bytes a unit |
| UtfProofs.RoundTripUnits | src/Protocol.cpp:62-121 | encoding then decoding is the identity on every unit sequence, unpaired surrogates included |
| UtfProofs.ByteRoundTripExactly | src/Protocol.cpp:62-121 | decoding then encoding is the identity exactly on generalized UTF-8, and idempotent on all byte strings |
| UtfProofs.WellFormedRoundTrip | src/Protocol.cpp:62-121 | so it is the identity on text well-formed by RFC 3629 |
| UtfProofs.MiddleForm | src/Protocol.cpp:62-90 | and the decoded form is the RFC 2781 encoding of the code points the text spells, with no unpaired surrogate |
| UtfProofs.BetweenEncodings | src/Protocol.cpp:62-121 | on scalar values the two loops translate RFC 3629's encoding and RFC 2781's into each other |
| UtfProofs.OctetsAreTable | src/Protocol.cpp:104-118 | the octets pushed are those of the table of RFC 3629 section 3 |
| UtfProofs.EncodedIsGeneralized | src/Protocol.cpp:92-121 | the encoder's output is generalized UTF-8 whatever the units |
| UtfProofs.EncodedWellFormedExactly | src/Protocol.cpp:92-121 | it is well-formed by RFC 3629 section 4 if and only if no surrogate is unpaired |
| Endian.Swap16Reverses | include/opendtp/Protocol.hpp:130-132 | the 2-byte swap reverses the bytes and is its own inverse |
| Endian.Swap32Reverses | include/opendtp/Protocol.hpp:133-140 | the same at 4 bytes |
| Endian.Swap64Reverses | include/opendtp/Protocol.hpp:141-146 | the same at 8 bytes, by three mask-and-shift steps |
| Endian.WriteLE16 | src/Protocol.cpp:33-37 | a host of either byte order appends the same little-endian bytes |
| Endian.WriteLE32 | src/Protocol.cpp:33-37 | the same for 4 bytes |
| Endian.ReadLE16 | src/Protocol.cpp:40-50 | fails without moving the offset exactly at the end of the bytes; otherwise reads the value back on either host |
| Endian.ReadLE32 | src/Protocol.cpp:40-50 | the same for 4 bytes |
| Endian.Read32 | src/Protocol.cpp:33-50 | reading inverts writing |
| Endian.Bytes32 | src/Protocol.cpp:33-50 | writing inverts reading |
| Wire.SerializeHeader | src/Protocol.cpp:125-134 | emits the 18 bytes of the header |
| Wire.DeserializeHeader | src/Protocol.cpp:199-220 | accepts exactly what begins with the signature and has 18 bytes, and returns its fields |
| Wire.SerializeTextMessage | src/Protocol.cpp:163-183 | emits prefix and units, the length field mod 2^16 |
| Wire.DeserializeTextMessage | src/Protocol.cpp:290-320 | every error branch, and the text of the announced units |
| Wire.SerializeLocationReport | src/Protocol.cpp:185-197 | emits the report with its NUL, the length field mod 2^16 |
| Wire.DeserializeLocationReport | src/Protocol.cpp:353-379 | every error branch, and the sentence cut at its first NUL |
| Wire.SerializeVersionData | src/Protocol.cpp:136-143 | emits id, service and description |
| Wire.DeserializeVersionData | src/Protocol.cpp:222-243 | the popping loop leaves the description without its trailing NULs |
| Wire.SerializeSubscription | src/Protocol.cpp:145-151 | emits type and number |
| WireProofs.HeaderFields | src/Protocol.cpp:125-220 | a serialized header is read back whatever follows it |
| WireProofs.HeaderReserialised | src/Protocol.cpp:199-220 | any 18 bytes accepted serialize to themselves, and which are accepted |
| Layout.HeaderLayout | src/Protocol.cpp:125-134 | every header in numbers: the codes of "REWIND01", then type, flags, number and length at their offsets, least significant byte first |
| Layout.HeaderAccepted | src/Protocol.cpp:199-220 | of any bytes: accepted exactly when long enough and signed, and which bytes give which field |
| Layout.PacketLayout | src/Client.cpp:345-361 | every packet a client sends, in numbers |
| Layout.FrameAccepted | src/Client.cpp:402-412 | of any bytes: which are a whole packet, and its payload |
| Layout.ReplyLayout | tests/test_client.cpp:136-148 | every packet the server sends, in numbers; its number is 0 |
| Layout.TypesInClasses | include/opendtp/Common.hpp:44-124 | every type is its message class and number, and the flags, the service and the session type |
| Layout.TextLayout | src/Protocol.cpp:163-183 | every text payload in numbers |
| Layout.TextAccepted | src/Protocol.cpp:290-320 | of any bytes: which are a text message, and its ids, group flag and units |
| Layout.LocationLayout | src/Protocol.cpp:185-197 | every location payload in numbers |
| Layout.LocationAccepted | src/Protocol.cpp:353-379 | of any bytes: which are a location report, and where its sentence ends |
| Layout.VersionLayout | src/Protocol.cpp:136-143 | identity data in numbers |
| Layout.VersionAccepted | src/Protocol.cpp:222-243 | of any bytes: the fields, and the description up to its trailing NULs |
| Layout.SubscriptionLayout | src/Protocol.cpp:145-151 | subscriptions in numbers |
| Layout.StatusAccepted | src/Protocol.cpp:322-336 | of any bytes: which are a text status, and its fields |
| Layout.RequestAccepted | src/Protocol.cpp:338-351 | of any bytes: which are a location request, and its fields |
| Layout.VoiceLayout | src/Client.cpp:240-261 | all twelve bytes of the voice header, for all ids |
| Layout.VoiceAccepted | src/Client.cpp:500-507 | of any bytes: ids and group flag, the top two bits of the first byte and all after the twelfth ignored |
| WireProofs.FrameParsed | src/Client.cpp:345-412 | a transmitted packet, with anything appended, gives type, flags, number and the payload cut to its length mod 2^16 |
| WireProofs.FrameExactly | src/Client.cpp:345-412 | the payload arrives exactly when it has at most 65535 bytes |
| WireProofs.CutFrameDropped | src/Client.cpp:402-410 | a packet cut before its announced end is dropped |
| WireProofs.CutFrameKept | src/Client.cpp:402-412 | one cut at or after it is read as if whole |
| WireProofs.VersionExactly | src/Protocol.cpp:136-243 | identity data round-trips exactly when the description does not end in a NUL |
| WireProofs.VersionTrip | src/Protocol.cpp:136-243 | otherwise up to its trailing NULs |
| WireProofs.SubscriptionTrip | src/Protocol.cpp:145-254 | subscriptions round-trip |
| WireProofs.TextArrives | src/Protocol.cpp:163-320 | for every length, both 16-bit fields wrapping: what text is read back, or that none is |
| WireProofs.TextExactly | src/Protocol.cpp:163-320 | a framed text message arrives unchanged exactly up to 32759 units of generalized UTF-8 |
| WireProofs.LocationExactly | src/Protocol.cpp:185-379 | up to 65534 bytes a report round-trips up to its first NUL, and unchanged exactly then without a NUL |
| WireProofs.VoiceHeaderExactly | src/Client.cpp:240-507 | a voice header keeps the flag and both ids mod 2^24, hence exactly the 24-bit ids |
| Client.Client.constructor | include/opendtp/Client.hpp:86 | a new client is in the initial state |
| Client.Client.TransmitRaw | src/Client.cpp:345-374 | takes and counts the number of its stream even if sending fails, emits the frame, reports the failure; nothing on a closed socket |
| Client.Client.Connect | src/Client.cpp:50-166 | refuses unless disconnected; otherwise counters, call flag and error are reset and a session begins, or, if something throws, onError is called, SOCKET_IO returned, no session begun, and a timer set before is left over |
| Client.Client.Disconnect | src/Client.cpp:186-216 | once: CLOSE if the socket is open, timers cancelled, socket closed, onDisconnected with the last error |
| Client.Client.Resolved | src/Client.cpp:100-155 | the resolver's handler, every failing branch |
| Client.Client.TimeoutFired | src/Client.cpp:83-96 | the timeout handler, also when late or aborted |
| Client.Client.KeepAliveFired | src/Client.cpp:382-388 | the keep-alive handler sends and re-arms only when connected |
| Client.Client.HandleReceive | src/Client.cpp:315-343 | only datagrams of the server, cut to the buffer, are processed; then a receive is pending again |
| Client.Client.ReceiveFailed | src/Client.cpp:316-330 | a socket error ends the session unless it is an abort |
| Client.Client.ProcessPacket | src/Client.cpp:402-525 | drops malformed packets and dispatches the others |
| Client.Client.Challenge | src/Client.cpp:415-430 | in CONNECTING only: answers with the hash of salt and password |
| Client.Client.Confirm | src/Client.cpp:432-455 | in AUTHENTICATING only: connected, timers switched, onConnected |
| Client.Client.Deliver | src/Client.cpp:457-525 | the callback of every other kind of packet, none if its payload is malformed |
| Client.Client.StartVoiceCall | src/Client.cpp:234-267 | resets the real-time counter and sends the header three times |
| Client.Client.SendAudioFrame | src/Client.cpp:269-273 | only in a call |
| Client.Client.EndVoiceCall | src/Client.cpp:275-281 | sends the terminator and ends the call |
| Client.Client.SendTextMessage | src/Client.cpp:283-289 | sends the serialized text when connected |
| Client.Client.SendLocationReport | src/Client.cpp:291-297 | sends the serialized report when connected |
| Client.Client.Subscribe | src/Client.cpp:218-224 | sends the subscription when connected |
| Client.Client.Unsubscribe | src/Client.cpp:226-232 | sends the cancellation when connected |
| Client.Client.ConnectSyncResult | src/Client.cpp:179-183 | the result once the wait is over |
| Client.Drive | src/Client.cpp:50-525 | driven by any sequence of events the object goes where the run of the session functions goes |
| SessionProofs.StepKeeps | src/Client.cpp:50-525 | every call and handler keeps the invariant, only extends the current history and drops none |
| SessionProofs.RunKeeps | src/Client.cpp:50-525 | so it holds in every reachable state |
| Effects.TransmitExactly | src/Client.cpp:345-374 | on an open socket the packet, and onError(SOCKET_IO) right after it exactly if sending fails; on a closed one nothing |
| Effects.ConnectExactly | src/Client.cpp:50-166 | ALREADY_CONNECTED and no change exactly unless disconnected; what else is reset or begun |
| Effects.DisconnectExactly | src/Client.cpp:186-216 | the entries it adds, the reason it gives, and nothing the second time |
| Effects.ResolvedExactly | src/Client.cpp:100-155 | which error is reported in which case, and the hello when there is none |
| Effects.KeepAliveExactly | src/Client.cpp:382-400 | the identity data again and the timer armed again, when connected only |
| Effects.ReceiveFailedExactly | src/Client.cpp:316-330 | SOCKET_IO unless aborted or over |
| Effects.LoginPacketsExactly | src/Client.cpp:415-455 | what challenge and confirmation do in their state, and that they do nothing in any other |
| Effects.DispatchExactly | src/Client.cpp:414-525 | any other packet raises the one callback its type and payload call for, or does nothing at all |
| Effects.CallbackRaises | src/Client.cpp:457-525 | which callback, with what: a report with its very payload |
| Effects.CallsRefused | src/Client.cpp:218-297 | calls on a client that is not connected, and audio outside a call, do nothing |
| Effects.RoutineExactly | src/Client.cpp:218-297 | which packet each routine call sends |
| Effects.SyncAfterDisconnect | src/Client.cpp:179-183 | ConnectSync returns the reason given to onDisconnected, or RESPONSE_TIMEOUT if none was |
| Reports.RunsReport | src/Client.cpp:50-525 | in every session of every run every failing send is directly followed by its onError(SOCKET_IO), and onDisconnected is given the last error reported in the session |
| Reports.SchedulesReport | src/Client.cpp:50-525 | the same in every schedule of the two threads |
| Lifecycle.RunsAreOrderly | src/Client.cpp:186-455 | with atomic steps, every session of every run: one accepted challenge, one AUTHENTICATION, one onConnected at most, in this order; CLOSE at most once and last; onDisconnected last, exactly once per ended session |
| Lifecycle.AuthenticationAnswers | src/Client.cpp:415-428 | the AUTHENTICATION carries the hash of the accepted salt and the session's password |
| Lifecycle.TimersAndSocket | src/Client.cpp:79-448 | in every reachable state: timeout armed exactly while logging in, but for one left by a failed Connect, keep-alive exactly when connected, socket open from AUTHENTICATING on and only in a session, a receive pending exactly while it is open |
| Lifecycle.TimeoutOutcome | src/Client.cpp:83-96 | a timeout while logging in disconnects, after reporting it; when the reason given to onDisconnected and returned by ConnectSync is RESPONSE_TIMEOUT and when not; no effect on a connected client |
| Lifecycle.TimeoutOverwritten | src/Client.cpp:83-373 | a run of three steps whose timeout is reported as SOCKET_IO |
| Lifecycle.SyncReportsSuccess | src/Client.cpp:179-183 | ConnectSync reports success if and only if the client is connected |
| Lifecycle.VoiceGrammar | src/Client.cpp:234-281 | in every session the voice packets spell a prefix of ((HHH A*)+ T)*, so a call left open allows nothing in the next |
| Lifecycle.RunsAreNumbered | src/Client.cpp:57-353 | every packet of every run carries, mod 2^32, the count of its own stream before it: routine from the session's start, real-time from the call's |
| Interleaving.InterleavingsAreNumbered | src/Client.cpp:345-355 | the same under any interleaving of transmissions and counter resets by two threads |
| Interleaving.StepDoes | src/Client.cpp:50-525 | every call and handler after Connect is a sequence of these transmissions, resets and marks, as far as history and numbers go |
| Interleaving.ConnectNumbers | src/Client.cpp:57-61 | a session starts in the state that this needs |
| Threads.CallAlone | src/Client.cpp:186-297 | the operations a call sets out to do, undisturbed, are the atomic step |
| Threads.HandlerAlone | src/Client.cpp:83-525 | the same for every handler |
| Threads.RunScheduled | src/Client.cpp:50-525 | every run of atomic steps is a schedule of the two threads |
| ThreadProofs.VoiceUnderThreads | src/Client.cpp:234-281 | however the two threads take turns between transmissions, the voice packets of every session spell a prefix of ((HHH A*)+ T)* |
| Closing.CloseUnderThreads | src/Client.cpp:186-216 | when the I/O thread alone ends sessions, at most one CLOSE in each and at most three packets after it |
| Closing.PacketAfterCloseExactly | src/Client.cpp:194-358 | a packet follows CLOSE exactly when the API thread has tested the state before and reaches the socket before it is closed |
| Closing.ThreeDoFollow | src/Client.cpp:234-267 | from every run that connects a schedule leads to three packets after CLOSE |
| Closing.TwoCloses | src/Client.cpp:186-196 | Disconnect and a socket error at once send two CLOSE packets |
| Server.MockServer.Receive | tests/test_client.cpp:63-80 | the receive handler: endpoint, log, processing, and no further receive after an error or an empty datagram |
| Server.MockServer.ProcessIncoming | tests/test_client.cpp:86-134 | challenges a hello, confirms exactly the expected digest, ignores the rest |
| Server.MockServer.SendPacket | tests/test_client.cpp:136-148 | replies with any type and flags to the sender of the datagram last received |
| Server.Matches | tests/test_client.cpp:116-124 | the comparison loop decides equality |
| Handshake.MoveKeeps | src/Client.cpp:402-455 | every step of client, server, network or stranger keeps the protocol's invariant |
| Handshake.Agreement | tests/test_client.cpp:86-134 | in every run a connected client has a session on its port whose AUTHENTICATION answered the server's salt and reached the server with the digest it expects, and the server has confirmed to that port; both passwords' digests under the salt are equal |
| Login.WrongPasswordsNeverConnect | src/Client.cpp:402-455 | if no password ever given to Connect has the server's digest, no run reaches CONNECTED |
| Login.FreshPortAgreement | src/Client.cpp:142-455 | on a port no earlier session used, a connected client's own password has the server's digest |
| PortReuse.WrongPasswordExactly | src/Client.cpp:142-455 | from any reachable disconnected state a session with a wrong password on a local port can become connected if and only if the server has confirmed that port before, or still listens and an earlier session sent the expected digest from it |
| PortReuse.WrongPasswordNeedsEarlier | src/Client.cpp:142-455 | if it does, an earlier session of that port sent the expected digest |
| PortReuse.PlayPrompted | tests/test_client.cpp:86-108 | in every run an accepted challenge was whole in the buffer and the server sent it to the port of the session |
| PortReuse.PortReuseConnects | src/Client.cpp:142-455 | a run that does it: good login, disconnect, and on the same port a session connected under any wrong password |
| Login.LoginExactly | src/Client.cpp:99-455 | with nothing lost a login started in any reachable disconnected state connects if and only if the digests are equal and hello and challenge fit their lengths and buffers |
| Login.HelloHeard | tests/test_client.cpp:86-108 | exactly the hellos with room for identity data are challenged |
| Login.HelloIdentifies | tests/test_client.cpp:98-99 | the server learns the client's id |
| Login.ServerExactly | tests/test_client.cpp:63-134 | what the server logs of any datagram, and exactly which it answers with what |
| Delivery.AppendedIgnored | src/Client.cpp:402-412 | bytes appended to a packet change nothing |
| Delivery.PrefixDropped | src/Client.cpp:402-410 | a proper prefix of a packet changes nothing and raises nothing |
| Delivery.PacketReceived | src/Client.cpp:332-410 | through the receive buffer a packet is processed whole, or dropped when longer than 1024 bytes |
| Delivery.CloseIgnored | src/Client.cpp:414-525 | a CLOSE from the server does nothing |
| Delivery.TextDelivered | src/Client.cpp:283-470 | one datagram per text; another client raises onTextMessage once with the same ids, flag and text exactly up to 32759 units of generalized UTF-8, and through its socket exactly up to 495 |
| Delivery.LocationDelivered | src/Client.cpp:291-494 | the same for location reports: exactly up to 65524 bytes, or 995 through the socket, without NUL |
| Delivery.VoiceHeaderDelivered | src/Client.cpp:234-507 | each of a call's three datagrams raises onVoiceHeader with the ids mod 2^24, the very ids exactly when they have 24 bits |
| Delivery.AudioDelivered | src/Client.cpp:269-523 | an audio frame arrives with its number, whole exactly below 65536 bytes, and through the receive buffer exactly up to 1006 |
| VoiceCall.CallDelivered | src/Client.cpp:234-523 | a whole call, delivered in order, raises three onVoiceHeader, each frame once numbered from 3, and one onVoiceTerminator, all as said - exactly for 24-bit ids and frames within these bounds |
| Delivery.SubscriptionDelivered | src/Client.cpp:218-232 | both calls tell the server session type and talkgroup; only the type differs |

## Left out

- Sockets, DNS, the Windows ioctl, console output and real time: they are parameters of the steps.
- Threads: one API thread and the I/O thread are covered at the granularity of a test or an operation, for numbering,
  voice and CLOSE; everything else is proved of atomic steps. More than one API thread is not covered, nor is
  `Connect` before the worker of an earlier session is joined, nor, among threads, a `Connect` that throws. Timers may
  fire late and resolver results may come in a later session; receive handlers belong to the open socket.
- User callbacks are log entries: all registered, none calls back into the client. The message strings of `onError`
  are not modelled.
- Liveness of `ConnectSync`: nothing is said about when its wait ends.
- Handshake.Agreement: all sessions of the client talk to one server; source addresses are not forged, so strangers
  neither speak for the server nor from the client's local ports, which are its alone; digests, not passwords, are
  compared: collision resistance is not part of this model. An attempted send may reach the server even if it was
  reported as failed, which only adds runs.
- Sha256.EmitDigest: the shift by `24 - i * 8` is written as the four shifts it takes.
- Limits of UDP itself on the size of a datagram: `failing` may make any send fail, none is forced to.
- Session polls and super headers (`src/Protocol.cpp:153-161`, `src/Protocol.cpp:256-288`): no client code uses them.
- Text status and location requests are only read, never sent, so nothing is said of a trip.
- The example programs, the build files and the other tests.
