# NETConnect: a model of its session stack and state machines

NETConnect is a peer-to-peer stack in C#, with a companion C++ client. This project models the parts of it that
decide something: how bytes become packets, how packets are wrapped and unwrapped, how the two ends of a connection
agree on a key, how the heartbeat paces itself, how identifiers are written and read, which peers a node holds, and in
which order voice chunks are played. Each file is one module and follows one component.

## The session stack

Five layers, each refining the one above it.

* **Bytes** (`Bytes`, `PacketHeader`, `Framing`). The 18-byte header is a bijection between 18 bytes and its five
  fields. A stream of bytes on which chunks arrive at any pace is a FIFO of packets, as long as no poll gets a header
  without its body; `ReceiveAligned` says exactly when one poll keeps the stream aligned, which is the hypothesis of the
  runs, and `PartialBodyCorrupts` what happens when it does not, because the body is read once and not in a loop.
* **Envelopes** (`Packets`). Keys and ciphertexts are symbolic: a box opens with the matching key and with no other.
  JSON is any codec whose reader inverts its writer. `SendReceiveTransparent` gives the exact condition under which a
  packet that went out is passed on unchanged at the other end.
* **Handshake and dispatch** (`Handshake`, `Endpoints`, `Session`). `Handshake` says what each end makes of one packet
  and of a whole run of turns, with its pings and pongs; `Endpoints` holds the two objects with their loops and proves that
  the loops do just that; `Session` puts both ends and two queues together. Steps are the client's start, a receive at
  either end, and a send by any other code at either end, in any interleaving and any number. One invariant, phase by
  phase, carries three results: key agreement, no loss after a Ready, and progress, the last as an exact account:
  receives done plus receives to come are six plus the frames sent from outside.
* **The wire** (`Wire`). The same connection over bytes, with partial arrivals, polls that come too early and body reads
  that block. Every byte-level run is a frame-level run, so the three results hold from the bytes up.
* **The loops** (`Loops`). The two objects' loops on one connection, in any interleaving of their turns and of sends by
  other code. Every joint run is a run of the wire, each end's part of it is the run its object's methods are proved to
  make, and so agreement, no loss and progress are about those loops.

No proof relies on automatic induction: every lemma switches it off, and each inductive proof is its body.

`ReferenceCodec` builds one codec that satisfies the hypotheses on JSON, so that no theorem is about nothing.
`TlsV2` is the older handshake, with a key drawn at every SYNAck and a SYN that may be repeated. Its callers may call at
any time, after an exception and after authorization too, and the server's may start over until it is authorized.

## The other machines

* `HeartBeat`: every clock reading of a call is a separate input; results hold for every non-decreasing clock, every
  history of latencies and every pattern of failed sends. Pings and pongs go through the packet layer.
* `GuidText`: the character loop of the parser against the exact set of strings it accepts, both printers against one
  reference text, round trips in both directions and the order embedding.
* `Splitter`, `PeerMembership`, `AudioQueue`: the delimiter splitter, the table of peers as a set, and the playback
  queue as a conserved multiset and, exactly when no scan overtakes, a FIFO.

## Where the code and what it says of itself differ

The model follows the code.

* The comments on the adaptive interval (`NETConnect/Shared/HeartBeat.cs:117-123`) say pings come faster on a slow
  link. They do not: the cooldown already decides (`HeartBeat.LatencyIsInert`).
* `LastBeatAt` is described as a confirmed response (`NETConnect/Shared/HeartBeat.cs:25-28`), but a ping that went out
  refreshes it, so a silent peer is never timed out while calls are prompt (`HeartBeat.SilenceIsNotDetected`).
* The client's timeout branch (`NETConnect/BaseTCPClient.cs:305`) has its `!` behind the call instead of before it,
  where it negates nothing; the branch is never taken (`HeartBeat.ClientNeverTimesOut`).
* `TLSV2` on the server says it restarts the whole process when its echo fails (`NETConnect/BaseTCPServer.cs:322-326`).
  It does so exactly when the key it was offered is null (`TlsV2.RestartIsNull`); an echo that fails to go out under a
  stored key throws, as does an ACK of the client's. A caller may then start over, but under the default settings the
  SYN is sealed when the server stores a key, and its answer when the client does, and neither end reads the other's
  seal there. Starting over completes the handshake exactly when neither stores one (`TlsV2.CanCompleteIff`), and both
  failures leave one stored (`TlsV2.FailedOfferIsFinal`, `TlsV2.FailedEchoIsFinal`).
* A timeout is meant to remove the peer behind the connection and tell the others (`NETConnect/BaseTCPServer.cs:407-417`).
  It looks for the handle's id, which is the empty one until `AddPeer` names it, so a peer found by multicast is never
  removed (`PeerMembership.UnregisteredStay`). Entries made by a join have no packet helper, so the announcement of a
  registered peer's departure throws whenever one of them is left (`PeerMembership.AnnouncementThrowsIff`,
  `PeerMembership.RegisteredDeparts`).
* `AddPeer` tests for nothing: with it the table keeps ids distinct exactly when its callers do
  (`PeerMembership.InvIffCareful`).
* `ReadFrom` reads the 64-bit timestamp with a 32-bit read (`PacketHeader.ReadFromOfWrite` gives the exact loss).
* "Remove any peers that exist multiple times" (`NETConnect/Shared/Multicast/Multicast.cs:111-112`) compares
  references and finds nothing in a table whose ids are distinct (`PeerMembership.DistinctIsIdle`).

## Model

| member | source | states |
|---|---|---|
| PacketHeader.WriteTo | NETConnect/Shared/Packet/Headers/PacketHeader.cs:98-108 | the in-place writer fills the first 18 bytes of the caller's buffer with the header's encoding and leaves every other byte as it was |
| PacketHeader.HeaderLayout | NETConnect/Shared/Packet/Headers/PacketHeader.cs:98-108 | byte by byte: length, action, encoding, encryption and timestamp lie at 0, 4, 6, 8 and 10, little-endian, signed fields in two's complement |
| PacketHeader.ValidateInvertsWrite | NETConnect/Shared/Packet/Headers/PacketHeader.cs:180-203 | validating what was written gives the header back, for every 32-bit length, three 16-bit fields and 64-bit timestamp |
| PacketHeader.WriteInvertsValidate | NETConnect/Shared/Packet/Headers/PacketHeader.cs:180-203 | exactly the 18-byte buffers are valid, and writing the header read from one gives its bytes back: the codec is a bijection |
| PacketHeader.ReadFromAccepts | NETConnect/Shared/Packet/Headers/PacketHeader.cs:117-178 | the length test, whose 32-bit sum may wrap, accepts exactly when the integer equation holds, for every array length |
| PacketHeader.ReadFromOfWrite | NETConnect/Shared/Packet/Headers/PacketHeader.cs:132-176 | reading a written packet gives back length, action, encoding, encryption and data, and the sign-extended low word of the timestamp; the header comes back whole if and only if the timestamp fits 32 bits |
| PacketHeader.NarrowTimestamp | NETConnect/Shared/Packet/Headers/PacketHeader.cs:141 | the first four of the eight timestamp bytes, read as a signed integer, are the timestamp wrapped to 32 bits |
| Framing.Socket.Send | NETConnect/MyExtensions/SocketExtensions.cs:99-143 | one buffer of header and body goes out whole, with the count of its bytes, or nothing does and the call throws: on null data, when the transport is gone, or when the body does not fit an array beside its header |
| Framing.Socket.ReceivePacket | NETConnect/MyExtensions/SocketExtensions.cs:212-286 | whatever the shutdown test finds, the poll's outcome and the bytes it leaves unread are those of the stream function: nothing below 18 bytes, a throw on a length that is negative or beyond any array, otherwise one body read padded with zeros |
| Framing.PollCases | NETConnect/MyExtensions/SocketExtensions.cs:212-286 | every case of a poll: below 18 bytes nothing; a length that is negative or beyond any array throws behind the header; else one body read that gets all of the body, part of it padded with zeros, or nothing |
| Framing.NamesOnTheWire | NETConnect/Shared/Packet/Headers/PacketHeader.cs:20-70 | the numbers by which actions and encryptions lie in a frame |
| Framing.ReadyIsAligned | NETConnect/MyExtensions/SocketExtensions.cs:212-232 | the hypothesis the runs put on polls is exactly the condition of the next row |
| Framing.ReceiveAligned | NETConnect/MyExtensions/SocketExtensions.cs:212-232 | a poll delivers the head frame and stops at the next one if and only if the whole body has arrived, or none of it has and the read that blocks gets all of it |
| Framing.PartialBodyCorrupts | NETConnect/MyExtensions/SocketExtensions.cs:222-228 | with only part of a body there, the packet's tail reads as zeros and the true tail stays at the head of the stream |
| Framing.ParseInvertsEncode | NETConnect/MyExtensions/SocketExtensions.cs:99-143 | whatever bytes follow, the frames sent are parsed back first, whole and in order |
| Framing.WriteAppends | NETConnect/MyExtensions/SocketExtensions.cs:99-143 | writing frames to a stream of whole frames appends exactly them to the queue it stands for |
| Framing.PollTakesHead | NETConnect/MyExtensions/SocketExtensions.cs:212-286 | a poll takes nothing when no header has arrived, and exactly the head frame when its body has arrived with the header or the read that blocks for it gets it |
| Framing.StepKeepsOrder | NETConnect/MyExtensions/SocketExtensions.cs:99-232 | one send, arrival or ready poll, blocking or not, keeps: delivered packets followed by the parse of unread bytes are the packets sent |
| Framing.FramingIsFifo | NETConnect/MyExtensions/SocketExtensions.cs:99-286 | the same over every run in which no poll gets a header without its body, whatever the chunks |
| Framing.DeliveredInOrder | NETConnect/MyExtensions/SocketExtensions.cs:99-286 | in every such run from an empty stream, what was delivered is a prefix of what was sent, and all of it once no byte is unread |
| Framing.AllDelivered | NETConnect/MyExtensions/SocketExtensions.cs:99-286 | from every state of a run, an arrival of what is in flight and a poll for each frame deliver all that was sent |
| Packets.SecurityKey.SetRemoteRsaKey | NETConnect/Shared/SecurityKey.cs:65-70 | replaces the remote RSA key, and no other key nor the size |
| Packets.SecurityKey.UpdateLocalRsaKeys | NETConnect/Shared/SecurityKey.cs:53-57 | replaces the local RSA pair and no other key, and stores the size as the level it names, or none |
| Packets.SecurityKey.SetChaChaKey | NETConnect/Shared/SecurityKey.cs:34 | replaces the ChaCha key, and no other key nor the size |
| Packets.SecurityKey.TryGetKey | NETConnect/Shared/SecurityKey.cs:73-97 | says yes exactly when the key selected by type and flags has bytes; a missing local pair is the null dereference |
| Packets.PacketHelper.SendEncryptedPacket | NETConnect/Shared/Packet/PacketHelper.cs:123-161 | puts on the connection exactly the frame the send rule gives, or nothing, and reports the count, a refusal or an exception; keys, settings and unread bytes stay |
| Packets.PacketHelper.SendPacket | NETConnect/Shared/Packet/PacketHelper.cs:85-114 | the same for the branching choice between the caller's encryption, the settings' and none, with every exception turned into -1 |
| Packets.SendRule | NETConnect/Shared/Packet/PacketHelper.cs:86-161 | what a send puts on the wire for every request, encryption asked for and key: the plain data, a box of it under exactly that key, or nothing, as when a ChaCha key has not 32 bytes |
| Packets.EffectiveIsAsked | NETConnect/Shared/Packet/PacketHelper.cs:94-108 | a send ends in the caller's encryption, else in that of settings that are there and switched on, and in none when the caller forbids it |
| Packets.OpenedIff | NETConnect/BaseTCPServer.cs:429-446 | the dispatch branch passes on exactly plain packets as they are and the non-empty messages of ChaCha envelopes under its own 32-byte key, and faults exactly on an RSA envelope without a local pair |
| Packets.KeyForFits | NETConnect/Shared/SecurityKey.cs:73-89 | of the keys an end selects only its local private one opens what was sealed for its pair, and the remote one is selected exactly when asked for |
| Packets.HeaderNamesEnvelope | NETConnect/Shared/Packet/PacketHelper.cs:86-161 | a frame that went out carries type NONE exactly when no encryption was asked for or its key is missing or empty, and then the plain data; otherwise its header and its envelope name the same encryption, the one asked for |
| Packets.SendReceiveTransparent | NETConnect/Shared/Packet/PacketEncrypted.cs:63-125 | what went out is passed on with its action and its data by the receiver's decrypt branch if and only if it did not end in RSA under a stored key, and what ended in ChaCha under a stored key meets the same key |
| Endpoints.BaseTCPClient.constructor | NETConnect/BaseTCPClient.cs:50-51 | a new client is neither authenticating nor authenticated and has received nothing |
| Endpoints.BaseTCPClient.BeginAuthentication | NETConnect/BaseTCPClient.cs:443-462 | stores the generated key, sends the client's id in a plaintext SYN, and changes nothing else |
| Endpoints.BaseTCPClient.OnHandshakePacket | NETConnect/BaseTCPClient.cs:467-529 | keys, flags, faults and bytes sent after one packet are those of the client's handshake rule, on every packet, well-formed or not |
| Endpoints.BaseTCPClient.OnDataReceived | NETConnect/BaseTCPClient.cs:535-559 | a message passed on is recorded and changes no flag or key; unless it is empty, a ping is answered or, stamped outside the calendar, ends the task, and a pong that brings a tracker sets the interval |
| Endpoints.BaseTCPClient.OnPacket | NETConnect/BaseTCPClient.cs:330-346 | passes on a plain packet or an envelope that opens, with what the handlers make of it, drops every other, and changes no flag or key |
| Handshake.ClientFlags | NETConnect/BaseTCPClient.cs:523-526 | only a Ready touches the client's flags: it sets authenticated and clears authenticating |
| Handshake.ClientOnSynAck | NETConnect/BaseTCPClient.cs:472-505 | any key of a SYNAck's authentication is stored; a public one is answered with the ChaCha key sealed for its owner, and any other, or an answer that cannot go out, is an exception |
| Handshake.ClientOnAck | NETConnect/BaseTCPClient.cs:506-522 | an ACK is answered with Ready exactly when it opens with the client's key to that same key; one sealed with another is an exception |
| Endpoints.BaseTCPClient.HandleAuthentication | NETConnect/BaseTCPClient.cs:464-531 | the loop stops early only when authenticated or ended by an exception, and state, unread bytes and bytes sent are those of the run of the turns it took |
| Endpoints.BaseTCPClient.DispatchTurn | NETConnect/BaseTCPClient.cs:302-346 | a dispatch turn is its heartbeat, with the ping it may send, and its poll, with the pong its handlers may send, its test for a timeout never being met |
| Endpoints.BaseTCPClient.HandleConnected | NETConnect/BaseTCPClient.cs:284-346 | authentication followed by dispatch, heartbeats included, is one run of turns, up to the first exception, the heartbeat's end or the cancellation that ends the turns; state, unread bytes and bytes sent are that run's |
| Endpoints.BaseTCPServer.constructor | NETConnect/BaseTCPServer.cs:393-400 | a server serving a client starts out authenticating, not authenticated, with nothing received |
| Endpoints.BaseTCPServer.OnHandshakePacket | NETConnect/BaseTCPServer.cs:484-546 | keys, flags, faults and bytes sent after one packet are those of the server's handshake rule, on every packet, well-formed or not |
| Endpoints.BaseTCPServer.OnDataReceived | NETConnect/BaseTCPServer.cs:552-602 | a message passed on is recorded and changes no flag or key; a ping is answered or, stamped outside the calendar, ends the task, and a pong that brings a tracker sets the interval |
| Endpoints.BaseTCPServer.OnPacket | NETConnect/BaseTCPServer.cs:427-450 | passes on a plain packet or an envelope that opens, with what the handlers make of it, drops every other, and changes no flag or key |
| Handshake.ServerFlags | NETConnect/BaseTCPServer.cs:539-544 | only a Ready touches the server's flags: it sets authenticated and clears authenticating |
| Handshake.ServerOnSyn | NETConnect/BaseTCPServer.cs:489-517 | a peer's id is answered with the server's public key in the plain; without a pair it is an exception; anything else is ignored |
| Handshake.ServerOnAck | NETConnect/BaseTCPServer.cs:518-538 | exactly the key of an authentication that the private key opens is stored and sent back under itself, in the plain if it is null or empty |
| Endpoints.BaseTCPServer.HandleAuthentication | NETConnect/BaseTCPServer.cs:481-548 | the loop stops early only when authenticated or ended by an exception, and state, unread bytes and bytes sent are those of the run of the turns it took |
| Endpoints.BaseTCPServer.DispatchTurn | NETConnect/BaseTCPServer.cs:402-450 | a dispatch turn is its heartbeat, with the ping it may send, and its poll, with the pong its handlers may send, unless the heartbeat ends the task |
| Endpoints.BaseTCPServer.HandleClientConnected | NETConnect/BaseTCPServer.cs:388-469 | authentication followed by dispatch, heartbeats included, is one run of turns, up to the first exception, the heartbeat's end or the cancellation that ends the turns; state, unread bytes and bytes sent are that run's |
| Handshake.ClientStartIs | NETConnect/BaseTCPClient.cs:443-462 | the client's start stores the key it drew, sets the authenticating flag and says its id in the plain |
| Handshake.ServeConcat | NETConnect/BaseTCPServer.cs:388-548 | a run of turns is the run of its first part followed, from the state and the unread bytes it left, by the run of the rest, and the frames sent are joined in order |
| Handshake.WaitingTurn | NETConnect/BaseTCPServer.cs:393-394 | a turn that finds the authenticating flag set behind authentication neither beats nor polls |
| Handshake.TurnHandles | NETConnect/BaseTCPServer.cs:402-602 | what a dispatch turn makes of a packet it passes on: the message recorded, a ping answered with its stamp and the handler's clock or fatal outside the calendar, a pong's latency turned into the interval, after the ping that was due, and nothing else sent |
| Handshake.TurnDrops | NETConnect/BaseTCPServer.cs:427-450 | and of anything else: a packet not passed on changes nothing, an impossible header faults |
| Handshake.ServerEndsIff | NETConnect/BaseTCPServer.cs:403-424 | a server's turn ends its task if and only if it dispatches and its ping is due and does not go out, or is not due and, behind the first beat, the socket is shut down or the last beat is 120 seconds old |
| Handshake.HealthyNeverEnds | NETConnect/BaseTCPServer.cs:403-424 | a server whose clock does not go back, whose calls are prompt, whose pings go out and which sees no shutdown is never ended by its heartbeat, however silent its peer |
| Handshake.ClientNeverEnds | NETConnect/BaseTCPClient.cs:305-327 | no run of the client's loop, under any clock, is ended by its heartbeat |
| Session.ServerReceiveKeeps | NETConnect/BaseTCPServer.cs:427-546 | every receive of the server, in every phase, keeps the session invariant, and unless a handshake body does not fit, lowers the receives to come by one |
| Session.ClientReceiveKeeps | NETConnect/BaseTCPClient.cs:330-529 | the same for every receive of the client |
| Session.ServerSendKeeps | NETConnect/Shared/Packet/PacketHelper.cs:85-161 | a send by other code at the server, under any settings and at any moment, keeps the invariant and the phase |
| Session.ClientSendKeeps | NETConnect/Shared/Multicast/Multicast.cs:163 | the same at the client, where a join's PeerJoin may overtake the handshake |
| Session.OutsideMaySend | NETConnect/Shared/Multicast/Multicast.cs:163 | at any time other code may send anything but the handshake's own actions, and anything once its end is authenticated |
| Session.StartKeeps | NETConnect/BaseTCPClient.cs:443-462 | the client's start keeps the invariant and, when the bodies fit, puts the handshake in its first phase |
| Session.ChosenIsGenerated | NETConnect/BaseTCPClient.cs:447-449 | the key of the session is one the client generated at a start of the run |
| Session.Agreement | NETConnect/BaseTCPServer.cs:482-546 | in every reachable state, a client that is authenticated implies a server that is, and then both hold the same 32-byte key, the one the client generated; the authenticating flag of either is cleared with its authentication; before that at most one handshake frame is in flight |
| Session.NoLoss | NETConnect/BaseTCPServer.cs:428-446 | in every reachable state, what an end has passed on followed by what its dispatch loop will make of the frames still queued is what the peer sent since its Ready, in order and unaltered; nothing is swallowed by a handshake loop |
| Session.RunAccounts | NETConnect/BaseTCPClient.cs:461-527 | over every run, receives done plus receives to come grow only by the frames other code sends |
| Session.Progress | NETConnect/BaseTCPClient.cs:461-527 | when the handshake bodies fit: receives done plus receives to come are six plus the frames from outside, a run that uses them up has authenticated both ends, nobody faults, and until then a start or a receive is enabled |
| Session.Awaited | NETConnect/BaseTCPClient.cs:461-527 | when the bodies fit, a started handshake that is not complete has a frame in flight for an end still in its authentication loop |
| Session.EveryRunCanFinish | NETConnect/BaseTCPServer.cs:481-548 | when the handshake bodies fit, from every reachable state the handshake can still complete |
| Wire.StepRefines | NETConnect/MyExtensions/SocketExtensions.cs:99-286 | every byte-level step is a frame-level step, or changes nothing a frame-level observer sees |
| Wire.WireRunRefines | NETConnect/MyExtensions/SocketExtensions.cs:99-286 | every byte-level run is the frame-level run of the steps it stands for, and leaves whole frames on both links |
| Loops.ServerTurnUnfolds | NETConnect/BaseTCPServer.cs:388-602 | a turn of the server's loop on its link is, on the wire, its ping if one is due, its arrival, its poll unless the heartbeat ended the task, and its pong if the poll took a ping |
| Loops.ClientTurnUnfolds | NETConnect/BaseTCPClient.cs:284-531 | the same for the client's loop, whose heartbeat never ends the task |
| Loops.LoopsAreWire | NETConnect/BaseTCPServer.cs:388-548 | every joint run of the two loops and of sends by other code is the wire run of the steps its turns are made of |
| Loops.ServerServes | NETConnect/BaseTCPServer.cs:388-548 | the server's part of a joint run is the run of its own turns that its methods make |
| Loops.ClientServes | NETConnect/BaseTCPClient.cs:284-531 | the client's part of a joint run is the run of its own turns that its methods make, from where its start left it |
| Loops.LoopSafety | NETConnect/BaseTCPServer.cs:388-548 | agreement and no loss for the objects' own loops, heartbeats and all: the states the two runs of turns end in hold the same key, the authenticating flags are cleared, and what each has received is what the other sent since its Ready |
| Loops.LoopDelivers | NETConnect/BaseTCPServer.cs:388-469 | in every reachable state a running loop with frames on their way to it has a turn whose poll takes one: before authentication, and behind it, where a flag left set would keep it from polling |
| Loops.LoopProgress | NETConnect/BaseTCPClient.cs:284-531 | when the handshake bodies fit: the frames the loops' polls take never exceed six plus the frames from outside the handshake, a run that takes as many has authenticated both ends, and until then there is a turn of a loop still running whose poll takes a frame |
| Wire.WireSafety | NETConnect/BaseTCPServer.cs:428-546 | agreement and no loss over bytes: any interleaving of sends, partial arrivals and polls |
| Wire.WireBudget | NETConnect/BaseTCPClient.cs:461-527 | when the handshake bodies fit: over bytes, frame receives never exceed six plus the frames from outside, and a run that reaches the bound has authenticated both ends |
| Wire.WireProgress | NETConnect/BaseTCPClient.cs:461-527 | when the handshake bodies fit: until both ends are authenticated the client can start or, once the bytes in flight have arrived, a poll takes a frame |
| Wire.ArrivedIsReady | NETConnect/MyExtensions/SocketExtensions.cs:262-286 | once everything sent has arrived, a stream that holds a frame offers its header and its whole body |
| TlsV2.ClientOnSyn | NETConnect/BaseTCPClient.cs:120-153 | an RSA authentication's public key is stored with a new pair and answered with the pair's public key; any other key throws, any other kind is ignored |
| TlsV2.ClientOnSynAck | NETConnect/BaseTCPClient.cs:154-204 | a flag the client's private key opens makes it store a new key and offer it, sealed for the server |
| TlsV2.ClientOnAck | NETConnect/BaseTCPClient.cs:205-237 | only an echo of the client's own key, under a ChaCha header, authorizes it |
| TlsV2.ServerOnSynAck | NETConnect/BaseTCPServer.cs:243-274 | the key of an RSA authentication is stored and a flag sealed for it |
| TlsV2.ServerOnAck | NETConnect/BaseTCPServer.cs:275-339 | the key of a ChaCha authentication the private key opens is stored and echoed under itself; the echo's going out authorizes |
| TlsV2.WithoutPair | NETConnect/BaseTCPServer.cs:213-297 | a server without a pair throws before its SYN and on an ACK in an envelope |
| TlsV2.ServerStepIs | NETConnect/BaseTCPServer.cs:205-344 | a call does nothing once done, else sends the SYN that is missing and takes at most one packet; a throw leaves the caller's flag |
| TlsV2.ServerCallsKeep | NETConnect/BaseTCPServer.cs:205-344 | one call of the server's step, idle or not, completed or ended by an exception, keeps: every ACK on its way to the client echoes the server's key with no handshake frame behind it |
| TlsV2.ClientCallsKeep | NETConnect/BaseTCPClient.cs:101-243 | one call of the client's step, before or after authorization, keeps the same, and authorizes the client only on the server's key |
| TlsV2.Safety | NETConnect/BaseTCPClient.cs:101-243 | in every run of the two steps, however often the client re-keys, calls throw and the server's caller starts over, an authorized client's current key is the server's |
| TlsV2.RekeyedRun | NETConnect/BaseTCPClient.cs:167-189 | such runs exist under all settings that end neither in RSA nor in ChaCha (absent ones, encryption switched off): for any two keys, the client draws the first, whose ACK is not sent, the process starts over, and the client draws the second and both ends are authorized with it |
| TlsV2.RestartIsNull | NETConnect/BaseTCPServer.cs:305-328 | the server's code starts the process over if and only if the packet offers it a null key, which it then stores, sending nothing |
| TlsV2.RestartIsTaken | NETConnect/BaseTCPServer.cs:213-227 | under the default settings, the SYN after such a restart is taken by any client, which stores the server's public key and a new pair |
| TlsV2.SynUnderstood | NETConnect/BaseTCPServer.cs:213-227 | under the default settings, a client takes a SYN exactly when the server that sends it stores no ChaCha key; otherwise the client is unchanged |
| TlsV2.AnswerUnderstood | NETConnect/BaseTCPClient.cs:146-148 | under the default settings, a server takes the answer to a SYN exactly when the client that sends it stores no ChaCha key; otherwise the server is unchanged |
| TlsV2.CanCompleteIff | NETConnect/BaseTCPServer.cs:205-344 | from every reachable state with nothing of the handshake in flight, and under any settings, some further run completes the handshake if and only if both ends are authorized already, or none is and neither end would seal what it says: the settings do not end in RSA, nor in ChaCha while either end stores a ChaCha key |
| TlsV2.FailedOfferIsFinal | NETConnect/BaseTCPClient.cs:176-194 | under settings that end in ChaCha, as the default ones do, a run leads to a state, the client's ACK having thrown, in which only the client stores a key and from which no run completes the handshake |
| TlsV2.FailedEchoIsFinal | NETConnect/BaseTCPServer.cs:309-327 | and to one, the server's echo having thrown, in which both store the key, with the same end |
| HeartBeat.HeartBeat.constructor | NETConnect/Shared/HeartBeat.cs:28-42 | the starting values, with one clock reading for each of the two stamps |
| HeartBeat.HeartBeat.IsTimeout | NETConnect/Shared/HeartBeat.cs:44-49 | true exactly from 120 s after the last beat on, once the first beat is over |
| HeartBeat.HeartBeat.SetLastBeat | NETConnect/Shared/HeartBeat.cs:51-57 | sets the two stamps, each to its own reading, and nothing else |
| HeartBeat.HeartBeat.SendPing | NETConnect/Shared/HeartBeat.cs:98-110 | sends the ping as the packet layer does; success and disconnection are opposites, and only a ping that went out moves the stamps |
| HeartBeat.HeartBeat.TrySendHeartBeat | NETConnect/Shared/HeartBeat.cs:60-96 | state and answer are those of the step function of the clock readings, the shutdown test and whether the ping went out, and the bytes sent are the ping's when one was due |
| HeartBeat.TrySendIs | NETConnect/Shared/HeartBeat.cs:60-96 | the step on its readings: when a ping is due, what it and its failure do to stamps and answer, and that otherwise exactly a shutdown or 120 seconds behind the first beat disconnect |
| HeartBeat.HeartBeat.UpdateLatency | NETConnect/Shared/HeartBeat.cs:113-124 | the three-way interval of the latency, strict at both bounds, and nothing else but the stored latency |
| HeartBeat.IntervalIs | NETConnect/Shared/HeartBeat.cs:113-124 | the slower the link the shorter the interval: a second above 200 ms, ten below 50, five between |
| HeartBeat.HeartBeat.HandleHeartBeatActions | NETConnect/Shared/HeartBeat.cs:127-154 | a ping is answered with a tracker of its stamp and the own clock, or throws on a stamp outside the calendar; a pong whose text is a tracker is completed, sets latency and interval and is logged once; any other packet or text changes nothing |
| HeartBeat.AnswerIff | NETConnect/Shared/HeartBeat.cs:129-137 | a ping is answered exactly when its stamp lies in the years 1 to 9999, with that stamp |
| HeartBeat.BeatsAreSealed | NETConnect/Shared/HeartBeat.cs:98-137 | pings and pongs go out sealed under ChaCha settings with a usable key |
| HeartBeat.CooldownDecides | NETConnect/Shared/HeartBeat.cs:70-84 | in every state a run reaches, after any pongs, a ping is due exactly when the cooldown is over |
| HeartBeat.LatencyIsInert | NETConnect/Shared/HeartBeat.cs:113-124 | two runs with the same clock readings, send results and shutdowns give the same answers and end alike, whatever latencies each was told |
| HeartBeat.PingsAreSpaced | NETConnect/Shared/HeartBeat.cs:60-110 | in every run each ping is stamped at least a cooldown after the one before it |
| HeartBeat.PingRate | NETConnect/Shared/HeartBeat.cs:60-110 | any window holds at most one ping for each whole cooldown in it and one more, and any two pings are as many times ten seconds apart as there are pings from one to the other, for every run and latency history |
| HeartBeat.DisconnectsExplained | NETConnect/Shared/HeartBeat.cs:60-110 | in every run whose calls are prompt, a disconnection is reported only on a failed ping or a shutdown, and never with a ping that went out |
| HeartBeat.PromptnessIsNeeded | NETConnect/Shared/HeartBeat.cs:44-57 | the promptness bound is tight: one tick beyond it, however divided, there is a run that reports an unexplained disconnection |
| HeartBeat.SilenceIsNotDetected | NETConnect/Shared/HeartBeat.cs:98-110 | a run of prompt calls whose pings go out never reports a disconnection, although nothing is ever heard from the peer |
| HeartBeat.ClientNeverTimesOut | NETConnect/BaseTCPClient.cs:305-327 | the condition of the client's timeout branch holds in no state and after no call |
| HeartBeat.LatencyIsSkewFree | NETConnect/Shared/HeartBeat.cs:127-154 | through the ping's frame, the responder's clock, the pong's text and its frame, whichever way either is encrypted: the latency is the originator's elapsed time up to the millisecond of the stamp; it is exact if and only if the send fell on a whole millisecond, and not negative when the clock did not go back; the responder's reading is in the tracker and not in the latency |
| GuidText.DigitRoundTrip | CPlusConnectApp/guid.cpp:162-194 | the digit printed for a value is valid, is no dash, and is read as that value |
| GuidText.ValidAre | CPlusConnectApp/guid.cpp:179-194 | the digits are the 22 characters 0-9, a-f and A-F |
| GuidText.ValuesAre | CPlusConnectApp/guid.cpp:162-177 | a digit of either case has the value of its place among them |
| GuidText.FromString | CPlusConnectApp/guid.cpp:202-242 | from arbitrary array contents, the loop leaves the decoded bytes when the dashes removed leave exactly 32 hex digits, and zeros for every other string |
| GuidText.AcceptsIff | CPlusConnectApp/guid.cpp:202-242 | exactly those strings are accepted that, without dashes and in lower case, are the digits of some printed identifier; any other gives zeros |
| GuidText.VariantsParse | CPlusConnectApp/guid.cpp:202-242 | every case variant of a printed identifier, with dashes anywhere, is accepted and parsed to it |
| GuidText.ParseAt | CPlusConnectApp/guid.cpp:196-242 | each byte of an accepted text is the value of its two digits |
| GuidText.Zeroify | CPlusConnectApp/guid.cpp:249-253 | every byte of the array is zero |
| GuidText.ParseInvertsStr | CPlusConnectApp/guid.cpp:114-137 | the text of every identifier is accepted and parsed back to it |
| GuidText.StrOfParse | CPlusConnectApp/guid.cpp:114-242 | printing an accepted parse keeps its digits, in lower case |
| GuidText.ParseIdentifies | CPlusConnectApp/guid.cpp:202-242 | two accepted texts give the same identifier if and only if their digits agree up to case |
| GuidText.StrIsText | CPlusConnectApp/guid.cpp:114-137 | the five groups joined are the digits of the 16 bytes with dashes before bytes 4, 6, 8 and 10 |
| GuidText.StrLayout | CPlusConnectApp/guid.cpp:114-137 | 36 characters, dashes in the ninth, fourteenth, nineteenth and twenty-fourth place, and each byte's two digits where they belong |
| GuidText.InsertionIsStr | CPlusConnectApp/guid.cpp:74-100 | the stream insertion writes the same text as the string conversion |
| GuidText.OrderEmbeds | CPlusConnectApp/guid.cpp:102-105 | the byte order of two identifiers is the alphabetical order of their texts |
| GuidText.LessIff | CPlusConnectApp/guid.cpp:102-105 | of two identifiers the first differing byte decides |
| Splitter.GetLine | CPlusConnectApp/UTF8Helper.h:40-42 | one read takes the text up to the next delimiter, which it consumes, or to the end |
| Splitter.Split | CPlusConnectApp/UTF8Helper.h:35-45 | no token holds the delimiter, the tokens joined are the input but for one delimiter at its end, and there are none exactly for the empty input |
| Splitter.SplitIsDetermined | CPlusConnectApp/UTF8Helper.h:35-45 | those promises leave one possible list of tokens |
| PeerMembership.Peer.HandleJoin | NETConnect/Shared/Multicast/Multicast.cs:105-168 | the new table is the join rule's for every sender and every outcome of the address and the connection, clients are untouched, and the packet is taken as known, as an exception, as unreached, or announced with the peers known before |
| PeerMembership.TakenIs | NETConnect/Shared/Multicast/Multicast.cs:110-166 | known senders and the node itself are not looked at, a malformed address throws, and exactly a sender that connects is told of everybody there was and added |
| PeerMembership.Peer.AddClient | NETConnect/BaseTCPServer.cs:365-369 | a new connection's handle is the last of the clients and carries the empty id |
| PeerMembership.Peer.AddPeer | NETConnect/Peers/Peer.cs:71-91 | the connection's handle takes the peer's id wherever it is listed, is listed once more, and an entry with a packet helper is appended; the peer is told of those known before |
| PeerMembership.RegisterIs | NETConnect/Peers/Peer.cs:71-91 | handle by handle: the connection's handle, wherever listed, has the id and is listed once more, every other keeps its own; one entry is appended |
| PeerMembership.Peer.HandleTimeout | NETConnect/BaseTCPServer.cs:407-419 | tables, the peers told of the departure and the exception are those of the removal rule, for every id |
| PeerMembership.TimeOutIs | NETConnect/BaseTCPServer.cs:407-417 | with an entry and a handle of the id the first of each is taken out and the others stay in order; those left are told up to the first without a packet helper; without, nothing happens |
| PeerMembership.Peer.Announce | NETConnect/BaseTCPServer.cs:416-417 | the peers told are those before the first without a packet helper, and there is an exception exactly when there is one |
| PeerMembership.FindPeerById | NETConnect/Peers/Peer.cs:146-156 | found if and only if both lists know the id; the entry is the first of the table that carries it and the handle one of the clients with that id |
| PeerMembership.DistinctIsIdle | NETConnect/Shared/Multicast/Multicast.cs:111-112 | removing duplicates changes no table with distinct ids |
| PeerMembership.DistinctIs | NETConnect/Shared/Multicast/Multicast.cs:111-112 | removing duplicates keeps of each entry its first occurrence, in order |
| PeerMembership.JoinKeeps | NETConnect/Shared/Multicast/Multicast.cs:110-166 | a join keeps ids distinct and foreign, adds exactly a sender that connected, is not known and is not the node, and moves nobody |
| PeerMembership.RegisterKeepsIff | NETConnect/Peers/Peer.cs:71-91 | a registration keeps ids distinct and foreign if and only if the id is unknown and not the node's own: it tests neither |
| PeerMembership.InvIffCareful | NETConnect/Peers/Peer.cs:71-91 | throughout a run of joins, connections, registrations and timeouts ids stay distinct and foreign if and only if each registration is of an id then unknown and not the node's own |
| PeerMembership.TimeOutKeeps | NETConnect/BaseTCPServer.cs:407-414 | a timeout removes one entry and one handle, both of the id looked for, if there are both, and nothing otherwise |
| PeerMembership.TableIsASet | NETConnect/Shared/Multicast/Multicast.cs:105-168 | over every run whose registrations are so, the list is the set of members it is meant to hold, each once, and the clients are the handles they are meant to be |
| PeerMembership.PeerTable | NETConnect/Peers/Peer.cs:32-40 | in every such run from an empty table: ids distinct and never the own one, Peer mode exactly when somebody is a member, and a search for the own id, as the client's timeout makes, finds and removes nobody |
| PeerMembership.AnnouncementThrowsIff | NETConnect/BaseTCPServer.cs:407-417 | from any table, the announcement of a departure throws if and only if somebody departs and somebody without a packet helper is left |
| PeerMembership.UnregisteredStay | NETConnect/BaseTCPServer.cs:407-417 | in every run, a peer whose id is not the empty one and that no registration names is a member exactly when it joined, and its timeout changes nothing: peers that multicast found are never removed |
| PeerMembership.RegisteredDeparts | NETConnect/BaseTCPServer.cs:407-417 | a run in which a registered peer departs while one found by multicast is left: it leaves, nobody is told, the announcement throws, and its handle, which was listed twice, is still listed |
| PeerMembership.OnlyTheNamelessLeave | NETConnect/BaseTCPServer.cs:407-417 | in every run without registrations, somebody departs if and only if the empty id is looked for, is a member and there is a client; nobody is told, and the announcement throws if and only if somebody is left |
| PeerMembership.NamelessDeparts | NETConnect/BaseTCPServer.cs:407-417 | a run with such a departure: a peer joined with the empty id, as a datagram without a sender has, and another after it |
| AudioQueue.Audio.Init | NETConnect/Audio/Audio.cs:27-51 | playback is running, and queue and playback are as they were |
| AudioQueue.Audio.Stop | NETConnect/Audio/Audio.cs:97-102 | playback is not running, and queue and playback are as they were |
| AudioQueue.Audio.QueueAudio | NETConnect/Audio/Audio.cs:56-64 | throws exactly when playback is not running; otherwise appends a non-empty chunk with its arrival time, ignores an empty one, plays nothing |
| AudioQueue.Audio.RemovePlayed | NETConnect/Audio/Audio.cs:80-84 | removes from the queue, first equal item first, the chosen items that pass the second test, and no other |
| AudioQueue.Audio.ProcessQueueOnce | NETConnect/Audio/Audio.cs:77-88 | one turn feeds exactly the bytes of the first scan's items, in order, and removes what the second test agrees to; the bytes fed so far stay those of the items played, in order |
| AudioQueue.DrainIs | NETConnect/Audio/Audio.cs:77-88 | a turn under any readings: it plays what the first scan chooses and takes out what the second agrees to |
| AudioQueue.SecondScanAgrees | NETConnect/Audio/Audio.cs:77-80 | with a clock that does not go back, everything the first test chose passes the second |
| AudioQueue.Conservation | NETConnect/Audio/Audio.cs:56-92 | over every run of arrivals and turns, each non-empty chunk has been played once or is still queued |
| AudioQueue.DrainOrder | NETConnect/Audio/Audio.cs:77-88 | a turn keeps the order if and only if its first scan chooses the front of the queue |
| AudioQueue.OrderKept | NETConnect/Audio/Audio.cs:56-92 | over every run, what was played followed by what is queued is what arrived, in order, if and only if every turn plays the front of its queue |
| AudioQueue.OrderKeptExactly | NETConnect/Audio/Audio.cs:56-92 | the same on the readings, when the same array is not queued twice at the same time: the order is kept if and only if no scan reads an item as unripe ahead of one it reads as ripe |
| AudioQueue.BytesInOrder | NETConnect/Audio/Audio.cs:86-88 | then the bytes fed and the bytes queued are the bytes that arrived, in order |
| AudioQueue.PlayedInOrder | NETConnect/Audio/Audio.cs:56-92 | in particular the order is kept by every run with one clock value a scan and arrivals that do not go back |
| AudioQueue.ScanCanReorder | NETConnect/Audio/Audio.cs:77 | it is lost when the clock crosses the delay within a scan of two chunks that arrived together: the second is played first |
| AudioQueue.PlayAudio | NETConnect/Audio/Audio.cs:200-232 | the pieces fed are the recording, none is empty, and all but the last hold 1024 bytes |

## Left out

- RSA, ChaCha20-Poly1305, SHA and key generation: ideal boxes and keys; two keys have the same hash only when they are
  the same. The size limit of RSAES-OAEP messages (section 7.1 of RFC 8017) is not modelled; the only RSA bodies the
  handshakes send are one key or one flag.
- JSON text: any codec whose reader inverts its writer. Text of one type read as another type, the literal `null`, and
  a serializer that fails are not modelled.
- A connection that closes during a session run: the session, wire and loop machines keep the transport open. Below
  them, a closed transport is a send that throws, and the shutdown test of a poll changes nothing it does.
- A body split across arrivals: `Framing.PartialBodyCorrupts` shows what it does, and the runs of `Framing`, `Wire` and
  `Loops` are those in which no poll gets a header without its body.
- Handshake bodies too large for one array: the session model ends in a phase of its own, in which agreement and no
  loss still hold; progress is claimed when they fit.
- Several clients on one server object: its authentication flags are the object's, so one connection is the model.
- Threads: sends, polls with what follows from them, queue operations and table operations are atomic steps.
- Outside sends of handshake actions before a sender's own end is authenticated: nothing but the handshake sends them.
- The heartbeat in `Session` and `Wire`: there pings and pongs are sends from outside; `Loops` says which turns send them.
- Framing.Socket.ReceivePacket: a zero-byte read of an empty body is taken not to block.
- TlsV2.Safety: the step functions are modelled on values, so update in place and aliasing of the shared keys are not
  captured; a caller that starts over after its end was authorized is not modelled.
- PeerMembership.Peer.AddPeer: does not model the event it raises at the end; `AddPeers`, `IsUniquePeers` and
  `GetUniquePeers` are left out. An announcement that is sent and fails is one that was made.
- The printers of `GuidText` under stream flags other than the default ones, and characters outside the basic range.
- AudioQueue.Conservation: a full playback buffer that discards samples, a wall clock that goes back, and a list
  changed while it is being scanned.
- The average latency, `PacketHMAC`, `NetworkStats`, AES keys, and messages on the console.
- The handlers' other actions (voice, `PeerJoin`) and what an application makes of a packet that was passed on.
- Microphone capture, the GUI, the PS4 client, sockets, accept loops, multicast groups and network discovery.
