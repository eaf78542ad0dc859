# ZTLNP: a verified model

This project models the core of ZTLNP, a zero-trust networking protocol written in Python, and
proves properties of the model.  It covers five parts of the program and how they act together:

* the packet format and one session's sequence numbers and replay window;
* the sliding-window ARQ channel with selective acknowledgements, as two endpoints over a network
  that drops, duplicates, delays and reorders everything;
* the two-party handshake, as two devices with one protocol instance each over such a network;
* the trust store and the key-rotation manager that works on it, as one state machine;
* route announcements between any number of routers over a fixed set of links.

`dafny verify dfyconfig.toml` checks everything.

## How it is built

Code that updates objects is modelled by classes (`Session`, `Device`, `Protocol`,
`SlidingWindowChannel`, `WindowedPacket`, `TrustRecord`, `TrustStore`, `RotationManager`, `RouteTable`,
`Router`).  Each of their methods is proved equal to a function of its inputs and the old state, and
what the program promises is proved about those functions, over single calls and over whole runs.
In a run, a *log* or *trace* beside the state records what has happened; no function of the program
reads it.

| file | content |
|---|---|
| `Basics.dfy`, `Crypto.dfy` | results, big-endian integers, the cryptographic calls and their assumed laws |
| `Packet.dfy`, `Session.dfy`, `Sack.dfy` | wire format; replay window; SACK frames and run compression |
| `Device.dfy`, `Authentication.dfy` | one endpoint; what it lets in of arbitrary bytes |
| `Protocol.dfy`, `ProtocolCalls.dfy` | the handshake state machine; its phase diagram over arbitrary bytes and calls |
| `SendWindow.dfy`, `ReceiveBuffer.dfy`, `Channel.dfy` | the two halves of the channel, and the channel class |
| `SenderRuns.dfy`, `Spans.dfy` | retransmission: backoff, budgets, termination; how far apart the numbers in the windows lie |
| `Arq.dfy`, `ArqRuns.dfy` | two channel endpoints; theorems over all runs |
| `ArqSteps.dfy`, `ArqLoss.dfy`, `ArqSpan.dfy`, `ArqStall.dfy` | single moves; a run that loses data; a run whose window stretches; when delivery can go on, and a run that stalls |
| `Handshake.dfy`, `HandshakeRuns.dfy`, `HandshakeLive.dfy`, `HandshakeEnds.dfy`, `HandshakeCounters.dfy` | two-party handshake; theorems over all runs; the run that establishes and the run that sticks; how an established pair parts; from the handshake to the channels |
| `Trust.dfy`, `Identity.dfy`, `Rotation.dfy` | trust store; transitions and `resolve`; rotation manager |
| `TrustRuns.dfy`, `RotationRuns.dfy`, `TrustProperties.dfy`, `TrustSignatures.dfy`, `RotationLimits.dfy` | every interleaving of store operations and rotations; what is accepted, and who signed it; short runs in which rotations get past a limit |
| `Router.dfy`, `RouteNetwork.dfy`, `RouteMeaning.dfy` | one router; a network of routers; what a router's answers amount to |
| `Sample.dfy`, `ArqSample.dfy` | a toy engine that meets the assumed laws, and channels over it, so that hypotheses can be seen to be met |

## Assumptions

Cryptography enters as functions a run is parameterised by (`Crypto.Engine`).  Where a theorem needs
them, three laws are assumed (`Lawful`): a signature verifies under the public key of the private key
that made it; a ciphertext opens to its plaintext under its own key and under no other; both ends of a
key exchange compute the same secret.  HKDF-SHA-256 over distinct labels and fixed-width identifiers is
taken to be injective, so a derived key is the tuple of what it is derived from.  SHA-256 is an
arbitrary function; nothing needs it to be free of collisions, but the two parties of a handshake are
assumed to have different identifiers.

`Sample.ToyIsLawful` exhibits functions that meet the three laws together, and the lemmas whose names end in
`CanBeMet` or `AreReached` exhibit inputs for the hypotheses of the concrete runs below.

The clock, random nonces and key seeds are inputs.  One reading of the clock serves a whole call.
Timeouts and trust scores are real numbers.

## Where the code and its documentation disagree

The model follows the code.

* The protocol's written description has KEY_EXCHANGE confirm with the plaintext `OK`; the code
  (ztlnp/protocol.py:253, 267, 308) uses `KEY_EXCHANGE_OK`.
* The module comment of ztlnp/sliding_window.py:27-33 says the send window is `[send_base, send_base + window_size)`
  and the receive window is bounded; the code bounds only the number of packets in flight.
  `SpanCanExceedWindow` and `BufferHasNoBound` show both claims fail; `SpanHeldIff` and `WindowHeldIff` say
  exactly when they hold.
* RFC 2018 makes a block's right edge exclusive; here it is inclusive.
* A cumulative acknowledgement also covers numbers below the first one received.  If the second data
  packet overtakes the first, the first is dropped by its sender as acknowledged and is never
  delivered (`OvertakenFirstPacketIsLost`); `DroppedIsHeldIffNotBelowBase` says exactly when this happens.
* Acknowledgements take numbers from the same counter as data, so two sides that both send data stall
  each other: `AcknowledgingStallsOwnData` is such a run.  A packet kept for retransmission is resent with its first
  timestamp, so once that is 30 seconds old it is refused for good.  `DeliveryPassesFromIff` says exactly when a
  receiver whose clock has reached a given time can still be brought as far as a given number,
  `DeliveryPassesForwardIff` does so for clocks that never run backwards, and `DeliveryPassesIff` for clocks that
  may be set at will, where the replay window alone decides.
* A responder creates its session before it checks the confirmation.  If that first confirmation is
  out of the clock-skew window, the responder can never reach ESTABLISHED (`ResponderEstablishesIff`,
  `StuckForever`; `SkewedHandshakeSticks` is such a run).
* `hop_count` is documented as the number of hops; for an entry learned over `len` links it is
  `2 * len - 1` (`HopCountsAreOdd`, `TwoLinksCountThree`).
* A rotation carries neither the endorsement depth nor the blacklist to the new identity
  (`RotationResetsDepth`, `RotationLeavesBlacklistBehind`).  `RotationCanExceedDepth` is a run with a depth limit of 1
  in which a device that may not endorse does so after a rotation; in `RotationCanEscapeDistrust` a distrusted
  device is trusted again under its new identity.
* The target id inside an endorsement is not compared with the key it comes with: `EndorsementCanMissItsTarget` is
  a run in which the named device stays unknown and another is ENDORSED, and `EndorsementReachesNamedIff` says
  exactly when the named record is the one reached.
* `max_rotations` is documented as the most rotations a chain can have; the code tests only how many led to the
  old id.  With a budget of 1, A can be rotated into B and then X into A, an acyclic chain of two
  (`ChainCanExceedBudget`), and two ids rotated into each other form a cycle from which `resolve` returns a
  retired id (`RotationsCanCycle`).  `BudgetThroughoutIff` says exactly when the bound holds throughout a run, and
  `ClimbThroughoutIff` exactly when the counts themselves stay right, which makes every chain resolve
  (`ClimbingChainsResolve`).  That every rotation goes to an identity not seen before is enough for
  both (`FreshChainsResolve`), but not necessary.

## Model

| member | source | states |
|---|---|---|
| Packets.SequenceAtOffset | ztlnp/packet.py:38-45 | The four bytes at offset 80 of any packet that serialises decode to its sequence number, which is how the channel recovers it. |
| BigEndian.DecodeSplit | ztlnp/packet.py:38-45 | Numbers are read most significant byte first: a longer field is its first part times the span of the rest, plus the rest. |
| Packets.RoundTrip | ztlnp/packet.py:140-205 | Parsing a serialised in-range packet gives the packet back if and only if its signature has 64 bytes and its timestamp is not zero. |
| Packets.ParsesIff | ztlnp/packet.py:145-205 | Which byte strings are packets, where each field stands, and which exception the others raise. |
| Packets.ParseImage | ztlnp/packet.py:145-205 | Bytes after the signature are ignored, and a zero timestamp is replaced by the clock. |
| Packets.Reserialise | ztlnp/packet.py:120-205 | Serialising an accepted input gives its first 164+N bytes if and only if it carried a timestamp. |
| Packets.SignedBytesInjective | ztlnp/packet.py:136-138 | Packets with equal signed bytes are equal apart from the signature. |
| Sessions.Session.NextSequence | ztlnp/session.py:71-79 | Returns the counter and increments it; nothing else changes. |
| Sessions.Session.CheckReplay | ztlnp/session.py:81-120 | Accepts or refuses, and updates maximum and window, exactly as the function the run theorems are about. |
| Sessions.WindowRefinesHistory | ztlnp/session.py:81-120 | In every run the pruned 64-entry window accepts exactly what a check against the whole history would, and equals the accepted numbers above max - 64. |
| Sessions.NoNumberTwice | ztlnp/session.py:100-120 | No sequence number is accepted twice in a run, even after it has left the window. |
| Sessions.WindowIsBounded | ztlnp/session.py:111-120 | The window never holds more than 64 numbers. |
| Sack.AllAcked | ztlnp/sliding_window.py:141-151 | The set returned is exactly the numbers up to the cumulative mark and those inside a block, both ends included. |
| Sack.EncodeFrame | ztlnp/sliding_window.py:107-114 | The byte form of a frame, or an error when a value does not fit its field. |
| Sack.DecodeFrame | ztlnp/sliding_window.py:117-139 | The frame read from bytes, or an error when they are too short. |
| Sack.FrameRoundTrip | ztlnp/sliding_window.py:107-139 | Decoding an encoded frame whose values fit gives it back, whatever follows it. |
| Sack.FrameLayout | ztlnp/sliding_window.py:83-114 | Where the mark, the count and each block's ends stand in the bytes, and which frames are marked selective. |
| Sack.CodesIff | ztlnp/sliding_window.py:107-139 | Frames are encoded if and only if every number fits its field, and bytes decoded if and only if they hold the blocks they announce. |
| Sack.RunsAreUnique | ztlnp/sliding_window.py:442-459 | A set of numbers has at most one decomposition into ascending blocks separated by gaps. |
| Sack.CompressRuns | ztlnp/sliding_window.py:446-457 | The loop computes the run decomposition function. |
| Sack.RunsOfKeys | ztlnp/sliding_window.py:442-459 | That function yields the unique maximal-run decomposition of the buffer's keys. |
| Devices.Device.constructor | ztlnp/device.py:34-57 | A new device has no sessions and its id is the hash of its identity key. |
| Devices.Device.GenerateEphemeralKeypair | ztlnp/device.py:125-135 | A key pair for the peer is made, or an existing one reused. |
| Devices.Device.RegisterPendingPeer | ztlnp/device.py:116-123 | The peer's identity key is kept until a session exists. |
| Devices.Device.CompleteKeyExchange | ztlnp/device.py:137-194 | A session with the derived keys replaces the handshake material, or nothing changes when there is no ephemeral key. |
| Devices.Device.RemoveSession | ztlnp/device.py:220-222 | The session is dropped and nothing else. |
| Devices.Device.BuildHelloPacket | ztlnp/device.py:228-258 | The HELLO that the handshake theorems are about, with an ephemeral key made if needed. |
| Devices.Device.BuildSealedPacket | ztlnp/device.py:260-373 | Seals and signs or MACs a packet under the next number; the number is used up even if serialising then fails. |
| Devices.Device.ReceivePacket | ztlnp/device.py:379-457 | Parses, authenticates and replay-checks; at most the replay window changes. |
| Devices.Device.DecryptPacket | ztlnp/device.py:459-471 | Opens the payload under the session's key, or fails without a session or with the wrong key. |
| Devices.SealingIsGenuine | ztlnp/device.py:260-373 | A sealed packet carries the counter's number and the clock, is sealed under the session key and is signed or MACed over its own header. |
| Devices.SealingIs | ztlnp/device.py:260-373 | Every field of a sealed packet, flags and recipient included; it fails if and only if the session is missing, or the number or ciphertext does not fit, and then still uses the number. |
| Devices.CompletingIs | ztlnp/device.py:137-194 | The session a key exchange yields, its keys over secret and ids with the initiator first, its counters at zero, and the handshake material of that peer alone gone; an error if and only if the ephemeral key is missing. |
| Devices.GenuinePacketArrives | ztlnp/device.py:379-471 | Between paired devices a genuine packet, put on the wire and read back, passes every check but possibly the replay check, and opens to its plaintext. |
| PacketAuthentication.ReceivesIff | ztlnp/device.py:379-457 | Of all byte strings, those let in are exactly the well-formed packets that are authentic (a HELLO under its own key, a session's packet under the session's MAC key or the peer's key by flag 4, another under the pending key) and, for a session's packet, within 30 seconds and new to the 64-number window. |
| PacketAuthentication.ReceivingChanges | ztlnp/device.py:409-457 | A refused packet changes nothing; one let in adds its number to its session and changes nothing else. |
| PacketAuthentication.RefusedWith | ztlnp/device.py:409-457 | The exception for a well-formed packet that is refused. |
| PacketAuthentication.LetInIsAuthentic | ztlnp/device.py:379-457 | Whatever sequence of byte strings arrives, every packet let in is authentic under the keys the device began with. |
| PacketAuthentication.NoNumberLetInTwice | ztlnp/device.py:450-457 | Whatever arrives, no number of a session is let in twice, and the session's window stays exactly that of the numbers let in. |
| Protocols.Protocol.Initiate | ztlnp/protocol.py:79-103 | Refused unless IDLE; otherwise the HELLO and the new state. |
| Protocols.Protocol.ProcessIncoming | ztlnp/protocol.py:109-148 | The new state and the reply or exception, for every packet type and phase. |
| Protocols.Protocol.HandleHello | ztlnp/protocol.py:192-232 | The peer fields change before the phase is looked at; then answer, complete or refuse. |
| Protocols.Protocol.HandleKeyExchange | ztlnp/protocol.py:234-276 | The responder creates its session before it checks the confirmation; the initiator only checks. |
| Protocols.Protocol.HandleBye | ztlnp/protocol.py:289-295 | Only an established side drops its session and closes. |
| Protocols.Protocol.SendData | ztlnp/protocol.py:154-169 | Refused unless ESTABLISHED; otherwise a sealed DATA packet. |
| Protocols.Protocol.ReceiveData | ztlnp/protocol.py:171-186 | Refused unless ESTABLISHED or for another packet type; otherwise the plaintext. |
| ProtocolCalls.InitiatesIff | ztlnp/protocol.py:79-103 | Initiating works if and only if IDLE: it greets the named peer under an ephemeral key that is reused if there was one, and notes peer and role. |
| ProtocolCalls.AnswersIff | ztlnp/protocol.py:192-215 | HELLO_RECEIVED is entered from IDLE on a HELLO with 64 bytes or more, and in no other way. |
| ProtocolCalls.AnswerIs | ztlnp/protocol.py:192-215 | The answer is a greeting back, with the peer's keys noted, its identity key pending and the role of responder. |
| ProtocolCalls.ConfirmsIff | ztlnp/protocol.py:217-230 | KEY_EXCHANGE_SENT is entered from HELLO_SENT on a HELLO from someone greeted, if the confirmation fits the wire, and in no other way. |
| ProtocolCalls.EstablishesIff | ztlnp/protocol.py:234-271 | On arbitrary bytes, ESTABLISHED is entered if and only if they are an authentic KEY_EXCHANGE that opens to the confirmation text under the initiator's session, or under the one a responder then derives within 30 seconds of its clock. |
| ProtocolCalls.ClosesIff | ztlnp/protocol.py:289-295 | On arbitrary bytes, CLOSED is entered if and only if an ESTABLISHED side is given an authentic BYE, and the peer's session goes with it. |
| ProtocolCalls.FailsIff | ztlnp/protocol.py:144-146 | On arbitrary bytes, FAILED is entered if and only if they are an authentic ERROR to a side that is not CLOSED. |
| ProtocolCalls.PassesIff | ztlnp/protocol.py:278-287 | Data and acknowledgements pass silently when ESTABLISHED and are refused otherwise. |
| ProtocolCalls.OutOfPhase | ztlnp/protocol.py:109-295 | What each packet type does in a phase that does not expect it; a late HELLO still overwrites the peer's keys. |
| ProtocolCalls.NotLetIn | ztlnp/protocol.py:125-133 | Bytes that are not let in change nothing and raise what receiving raised. |
| ProtocolCalls.TerminalForever | ztlnp/protocol.py:126-130 | From CLOSED or FAILED no sequence of calls, with any bytes, changes anything, and every call is refused. |
| ProtocolCalls.PhasesOnlyAdvance | ztlnp/protocol.py:79-295 | Over every sequence of calls with any bytes, a phase once left is never entered again. |
| ProtocolCalls.EstablishedWasConfirmed | ztlnp/protocol.py:234-295 | Over every sequence of calls from IDLE with any bytes, a side that is ESTABLISHED or CLOSED entered ESTABLISHED at some call on an authentic KEY_EXCHANGE. |
| SendWindow.WindowedPacket.RecordRetransmit | ztlnp/sliding_window.py:187-190 | One more retry, the timeout doubled up to the cap, the clock noted. |
| SendWindow.WireSequence | ztlnp/sliding_window.py:301-308 | The number read back from a serialised DATA packet is the session counter it was built with. |
| Channels.SlidingWindowChannel.Send | ztlnp/sliding_window.py:287-319 | Nothing when the window is full; otherwise the packet is sealed, sent and put at the end of the window under its number, or the error of a missing session or, on the signed path, of a protocol that is not ESTABLISHED. |
| Channels.SendingViaIff | ztlnp/sliding_window.py:298-306 | With a session in place, send is the move of the channel runs if and only if the window is full, or a peer is set and the protocol is ESTABLISHED or MACs are used. |
| Channels.SlidingWindowChannel.ProcessSack | ztlnp/sliding_window.py:325-349 | Removes exactly the covered packets, counts them, and refreshes the base if packets are left. |
| Channels.SlidingWindowChannel.GetRetransmissions | ztlnp/sliding_window.py:355-386 | Retries what is due in order, drops what has run out, and raises without returning anything if any has. |
| Channels.SlidingWindowChannel.Receive | ztlnp/sliding_window.py:392-440 | In any phase: receives and decrypts, then delivers, buffers or discards, and returns the data made ready and a frame. |
| Channels.SlidingWindowChannel.Accept | ztlnp/sliding_window.py:421-437 | The in-order, out-of-order and duplicate cases, with the drain loop. |
| Channels.SlidingWindowChannel.BuildSack | ztlnp/sliding_window.py:442-459 | The frame of the current receive state. |
| Channels.SlidingWindowChannel.BuildSackAck | ztlnp/sliding_window.py:461-494 | The frame sealed in an ACK packet, under the next number of the session, in any phase; an error without a session. |
| Channels.AckingViaIff | ztlnp/sliding_window.py:461-494 | An acknowledgement is the frame sealed in an ACK, in any phase, if and only if there is a session and the frame fits; otherwise no number is used. |
| ReceiveBuffer.DeliversIff | ztlnp/sliding_window.py:392-440 | Of arbitrary bytes, receive takes those that are let in and open; any others leave the receive buffer as it was. |
| ReceiveBuffer.AcceptTracks | ztlnp/sliding_window.py:421-437 | One accepted packet keeps the receiver equal to what its accepted set determines, and returns exactly the data that became contiguous. |
| ReceiveBuffer.TracksIsUnique | ztlnp/sliding_window.py:421-437 | Base and accepted set determine the receiver: delivered up to the first gap, the rest buffered. |
| ReceiveBuffer.ArrivalOrderIrrelevant | ztlnp/sliding_window.py:421-437 | For one first packet, final state and total output do not depend on the order or repetition of arrivals. |
| ReceiveBuffer.SackMeaning | ztlnp/sliding_window.py:141-151 | A frame covers exactly the numbers up to the mark and the buffered ones, and its blocks are the runs of the buffer. |
| ReceiveBuffer.SackBlocksAboveGap | ztlnp/sliding_window.py:442-459 | Every block lies strictly above the first gap. |
| ReceiveBuffer.SackOverTheWire | ztlnp/sliding_window.py:107-151 | The meaning of a frame survives encoding and decoding when its values fit. |
| SenderRuns.BackoffIsCappedExponential | ztlnp/sliding_window.py:187-190 | After k >= 1 retries the timeout is min(base * 2^k, max). |
| SenderRuns.EnqueuedOk | ztlnp/sliding_window.py:287-319 | A new packet keeps the window ordered and within its size, and the base a lower bound. |
| SenderRuns.AcknowledgedOk | ztlnp/sliding_window.py:325-349 | A SACK removes exactly what it covers; the base does not fall and becomes the lowest left, if any. |
| SenderRuns.RetransmittingOk | ztlnp/sliding_window.py:355-386 | A poll drops exactly the due packets without retries left, leaves the base alone, and raises if and only if it dropped any. |
| SenderRuns.PollReturns | ztlnp/sliding_window.py:355-386 | A poll raises if and only if some packet has waited out its timeout without retries left; otherwise it returns the bytes of exactly the packets that have waited out theirs, once each, in ascending number. |
| SenderRuns.PollAges | ztlnp/sliding_window.py:355-386 | Afterwards each of these has one more retry, the clock as its sending time and the next timeout; those without retries left are gone, the rest are as they were. |
| SenderRuns.PollSpends | ztlnp/sliding_window.py:355-386 | A poll that finds something due strictly lowers the sum of the retries left. |
| SenderRuns.AckSpendsNothing | ztlnp/sliding_window.py:325-349 | An acknowledgement never raises that sum. |
| SenderRuns.RetransmissionEnds | ztlnp/sliding_window.py:355-386 | Without new sends, whatever clock and peer do, at most (packets in flight) * (max_retries + 1) polls find work. |
| SenderRuns.ReturnedAtMostMaxRetries | ztlnp/sliding_window.py:366-386 | Each packet is returned for retransmission at most max_retries times, and never more often than counted. |
| Arq.SendsKeeps | ztlnp/sliding_window.py:287-319 | Sending keeps the two-endpoint invariant. |
| Arq.ReceivesKeeps | ztlnp/sliding_window.py:392-440 | Receiving any data packet ever sent, again or late, keeps it. |
| Arq.SendsAckKeeps | ztlnp/sliding_window.py:461-494 | Acknowledging with any frame ever produced keeps it. |
| Arq.ReceivesAckKeeps | ztlnp/sliding_window.py:325-349 | Processing any acknowledgement ever sent, stale ones included, keeps it. |
| Arq.PollsKeeps | ztlnp/sliding_window.py:355-386 | Polling for retransmissions keeps it. |
| ArqRuns.InOrderExactlyOnce | ztlnp/sliding_window.py:392-440 | In every run, all a side's receive has returned is the plaintexts the peer gave to an unbroken range of numbers from the first one received: in order, none missing, none twice. |
| ArqRuns.NoFalseAcknowledgement | ztlnp/sliding_window.py:442-459 | Whatever any frame ever produced covers is held by the receiver, if and only if its number is not below the first one received. |
| ArqRuns.AcknowledgedStaysHeld | ztlnp/sliding_window.py:421-437 | What a frame covered once is held for the rest of the run. |
| ArqRuns.DroppedIsHeldIffNotBelowBase | ztlnp/sliding_window.py:325-349 | What process_sack has dropped is held by the peer if and only if its number is not below the first one the peer received. |
| ArqRuns.FirstCopyAcceptedIff | ztlnp/session.py:100-120 | The first copy of a data packet arriving in time is accepted if and only if its number is above the highest accepted minus 64. |
| ArqRuns.FirstCopyNeverRefused | ztlnp/session.py:100-120 | While no number above n + 63 has been used, the first copy of packet n is never refused, whatever was lost or reordered. |
| ArqRuns.SenderBooks | ztlnp/sliding_window.py:287-386 | In every run sent data splits into in flight, acknowledged and given up; in flight is within the window size of that side's channel, ascending, below the counter and not below the base, which never falls. |
| ArqRuns.RetransmissionsAreCopies | ztlnp/sliding_window.py:366-386 | Retransmission yields only the exact bytes of packets sent before. |
| ArqRuns.StallsAtNumberNotData | ztlnp/session.py:71-79 | Once a number at or above the base went to something other than data, delivery never gets past it. |
| ArqStall.DeliveryPassesFromIff | ztlnp/session.py:91-120 | From any point of any run, some continuation in which the receiver's clock never reads less than t delivers up to an already used number n if and only if every number from the mark to n is a data packet's that has been accepted, or that is above the highest accepted minus 64 and stamped no more than 30 seconds before t. |
| ArqStall.DeliveryPassesForwardIff | ztlnp/session.py:91-120 | The same for continuations in which the receiver's clock never runs backwards, when the missing numbers were stamped in ascending order. |
| ArqStall.DeliveryPassesIff | ztlnp/session.py:91-120 | The same with clocks that may be set at will: only the numbers count. |
| ArqStall.ExpiredStays | ztlnp/session.py:94-98 | A data packet stamped more than 30 seconds before t is let through by no continuation in which the receiver's clock reads t or later. |
| ArqStall.RefusedStays | ztlnp/session.py:100-120 | A number not let through that the replay window has moved past is never let through in any continuation. |
| ArqStall.AcknowledgingStallsOwnData | ztlnp/sliding_window.py:461-494 | A seven-move run of two sides that both send: the second packet of one waits in the other's buffer behind an acknowledgement's number, and in no continuation does delivery get past it. |
| ArqStall.TalkCanBeMet | ztlnp/session.py:71-79 | That run exists for any three texts that fit a packet. |
| ArqLoss.OvertakenFirstPacketIsLost | ztlnp/sliding_window.py:421-422 | A five-move run in which the first packet is dropped as acknowledged and is not held by its receiver. |
| ArqLoss.ReadyCanBeMet | ztlnp/sliding_window.py:421-422 | That run exists for any two texts that fit a packet. |
| Spans.SendKeepsSpanIff | ztlnp/sliding_window.py:283-319 | A send keeps everything in flight within window_size of the base if and only if the window was empty or the new number is within it. |
| Spans.SpanHeldIff | ztlnp/sliding_window.py:283-386 | In any run of a sender, sends, acknowledgements and polls in any order, the documented send window holds throughout if and only if every send into a nonempty window has sequence - send_base < window_size. |
| ArqSpan.SpanCanExceedWindow | ztlnp/sliding_window.py:283-349 | A ten-move run of two endpoints with window size 2: one packet is acknowledged, the next is lost, the third is acknowledged, and the lost one and the fourth are in flight, three numbers from base to end. |
| ArqSpan.RoomyCanBeMet | ztlnp/sliding_window.py:283-349 | That run exists for any text that fits a packet. |
| Spans.ReceiveKeepsWindowIff | ztlnp/sliding_window.py:421-437 | A packet keeps the receive buffer within a given distance of the mark if and only if its number is within it. |
| Spans.WindowHeldIff | ztlnp/sliding_window.py:421-437 | For any arrivals the documented receive window holds throughout if and only if no arrival was beyond it. |
| Spans.BufferHasNoBound | ztlnp/sliding_window.py:421-437 | For every count there are arrivals that leave exactly that many packets buffered. |
| Handshakes.KeysAgreeIff | ztlnp/device.py:165-178 | Two sides that derived from the same two HELLOs have equal keys if and only if their roles differ. |
| Handshakes.ConfirmationOpensIff | ztlnp/protocol.py:234-276 | A confirmation opens at the other side if and only if both derived the same keys in opposite roles. |
| Handshakes.InitiatedKeeps | ztlnp/protocol.py:79-103 | Initiating, towards anyone, keeps the handshake invariant and takes nothing back. |
| Handshakes.DeliveredKeeps | ztlnp/protocol.py:109-148 | Delivering any packet the peer ever sent keeps it, error paths included. |
| Handshakes.HelloKeeps | ztlnp/protocol.py:192-232 | Handling a HELLO in any phase keeps it. |
| Handshakes.ConfirmationKeeps | ztlnp/protocol.py:234-276 | Handling a KEY_EXCHANGE in any phase keeps it. |
| Handshakes.EmittedKeeps | ztlnp/device.py:260-373 | Building DATA, ACK or BYE packets at any time keeps it. |
| HandshakeRuns.RunKeeps | ztlnp/protocol.py:79-295 | Every run keeps the handshake invariant; identities, the ephemeral key of a HELLO sent, derived keys, packets sent and the fact of having initiated are never taken back. |
| HandshakeRuns.EstablishedMeansAgreed | ztlnp/protocol.py:192-276 | In every run, when a side is ESTABLISHED it holds a session, and the peer has derived the same session key and MAC key in the opposite role. |
| HandshakeRuns.EstablishedRoles | ztlnp/protocol.py:205-271 | On either side, then, the protocol's initiator flag is the role of the keys, and exactly one side initiated. |
| HandshakeRuns.SimultaneousInitiationNeverEstablishes | ztlnp/protocol.py:205-232 | If both sides initiated, neither is ESTABLISHED or CLOSED, now or after any continuation. |
| HandshakeRuns.KeysAreDerivedOnce | ztlnp/device.py:154-194 | Once derived, a side's keys are the same in every continuation. |
| HandshakeRuns.EstablishedSidesCommunicate | ztlnp/device.py:379-471 | After any run that established both sides, what one seals the other authenticates and opens to the same plaintext, unless the replay check refuses it. |
| HandshakeRuns.ResponderEstablishesIff | ztlnp/protocol.py:236-259 | A waiting responder becomes ESTABLISHED on the confirmation if and only if its timestamp is within the skew; otherwise it is stuck. |
| HandshakeRuns.InitiatorEstablishesIff | ztlnp/protocol.py:261-271 | A waiting initiator becomes ESTABLISHED on a confirmation if and only if it is fresh and the peer did not initiate as well. |
| HandshakeRuns.StuckForever | ztlnp/protocol.py:236-254 | A responder that derived its session without a valid confirmation stays in HELLO_RECEIVED in every continuation. |
| HandshakeLive.UndisturbedHandshakeEstablishes | ztlnp/protocol.py:79-276 | From any two distinct identities, whatever seeds and nonces, five moves establish both sides when the clocks are within the skew. |
| HandshakeLive.SkewedHandshakeSticks | ztlnp/protocol.py:236-254 | With the clocks further apart, four moves leave the responder with a session and no way on, and it is not ESTABLISHED in any continuation. |
| HandshakeLive.BothEndsAreReached | ztlnp/protocol.py:79-276 | Both kinds of run exist: a reachable world with both sides ESTABLISHED, and one with the responder stuck. |
| HandshakeEnds.SealedArrives | ztlnp/device.py:421-457 | In every run, a DATA, ACK or BYE packet the peer has sent is refused by an established side on time or number alone. |
| HandshakeEnds.ByeClosesIff | ztlnp/protocol.py:289-295 | In every run, a BYE the peer has sent leaves an established side CLOSED without a session if and only if it is within 30 seconds and its number is new; otherwise nothing changes. |
| HandshakeEnds.ClosedForever | ztlnp/protocol.py:126-130 | A CLOSED side is CLOSED, without a session, and refuses every call, in every continuation. |
| HandshakeEnds.ErrorFailsIff | ztlnp/protocol.py:144-146 | After any run that established both sides, an ERROR packet one of them seals makes the other FAILED if and only if it is within 30 seconds and its number new; it then refuses every call for good. |
| HandshakeCounters.EstablishedSidesOpenChannels | ztlnp/session.py:71-120 | After any run that established both sides, their counters and replay windows are such that two channels can start, whatever the settings of each, so every channel theorem applies. |
| Transitions.TransitionRoundTrip | ztlnp/identity.py:126-161 | Parsing a serialised transition gives it back. |
| Transitions.TransitionReserialises | ztlnp/identity.py:126-161 | Serialising a parsed blob gives its 168 bytes back, whatever they are. |
| Transitions.TransitionParsesIff | ztlnp/identity.py:126-161 | Exactly the blobs of 168 bytes are read, each field at its place, and exactly the transitions whose time fits 64 bits are written. |
| Transitions.BodyIsInjective | ztlnp/identity.py:126-133 | Transitions signed over equal bytes are equal apart from the signature. |
| Resolution.ResolveLoop | ztlnp/identity.py:378-385 | The loop terminates on every map and computes the recursive form. |
| Resolution.ResolveIsActiveIff | ztlnp/identity.py:365-385 | On every map the result is reachable, and it is not retired if and only if no cycle is reachable from the input. |
| Resolution.ResolveIsIdempotent | ztlnp/identity.py:365-385 | On every map, cycles included, resolving twice is resolving once. |
| Resolution.ResolveFollowsRetirement | ztlnp/identity.py:365-385 | Off the cycles, a retired id resolves to what its successor resolves to. |
| Resolution.RetiringStaysAcyclicIff | ztlnp/identity.py:350-351 | One more retirement keeps the map free of cycles if and only if following the map from the new id does not lead to the old one. |
| Resolution.RetiringStaysBoundedIff | ztlnp/identity.py:349-351 | One more retirement keeps every chain within a bound if and only if the new id does not lead to the old one and no chain into the old one is too long to be joined to the one out of the new. |
| TrustStores.TrustStore.Add | ztlnp/trust.py:181-212 | Adds under the key's hash, or raises the level of the record already there; other records are the same objects. |
| TrustStores.TrustStore.ProcessHello | ztlnp/trust.py:275-308 | Known sender: the stored key must match; unknown: added at TOFU if allowed. |
| TrustStores.TrustStore.VerifyFingerprint | ztlnp/trust.py:314-340 | A matching fingerprint raises the level to VERIFIED at least; otherwise nothing changes. |
| TrustStores.TrustStore.AddEndorsement | ztlnp/trust.py:346-422 | The checks in order with their errors; on success the target at ENDORSED, the endorser listed once, the depth set. |
| TrustStores.TrustStore.Trusts | ztlnp/trust.py:222-232 | Trusted exactly when not blacklisted, stored and at the minimum level. |
| TrustStores.TrustStore.Distrust | ztlnp/trust.py:234-247 | The id is blacklisted and nothing else changes. |
| TrustStores.TrustStore.RemoveBlacklist | ztlnp/trust.py:253-255 | The id leaves the blacklist and nothing else changes. |
| TrustStores.GroupedIsInjective | ztlnp/trust.py:433-446 | A fingerprint determines the digest it was made from. |
| TrustStores.GroupedDigits | ztlnp/trust.py:433-446 | Group k of a fingerprint is the four hexadecimal digits of the k-th pair of digest bytes. |
| TrustStores.GroupedColons | ztlnp/trust.py:433-446 | A colon follows every group but the last. |
| TrustSignatures.EndorsementAcceptedIff | ztlnp/trust.py:374-409 | An endorsement is accepted if and only if it has 160 bytes, starts with the endorser's id, is signed under the key stored for it, and the endorser is VERIFIED or above and below the depth limit. |
| TrustSignatures.EndorsementRefused | ztlnp/trust.py:374-409 | A refusal changes nothing; it is reported as poisoning when size, endorser and level pass and the depth does not. |
| TrustSignatures.EndorsementEffect | ztlnp/trust.py:411-422 | An acceptance makes the carried key ENDORSED, one deeper than its endorser, listed once and last; nothing else changes. |
| TrustSignatures.GreetingIs | ztlnp/trust.py:275-308 | A known sender passes if and only if it shows its stored key; an unknown one is added at TOFU if the policy allows it. |
| TrustSignatures.VerifyingIs | ztlnp/trust.py:314-340 | A fingerprint passes if and only if it is the stored key's, and leaves that record at VERIFIED or ENDORSED. |
| TrustSignatures.AddingIs | ztlnp/trust.py:181-212 | A known key gets the higher of the two levels, a new one of 32 bytes a fresh record under its hash. |
| TrustSignatures.TransitionAcceptedIff | ztlnp/identity.py:290-338 | A transition is accepted if and only if its old id is stored, its new id is the hash of its new key, it is newer than the last, not more than 30 seconds ahead, signed under the stored key, and within the budget. |
| TrustSignatures.TransitionRefused | ztlnp/identity.py:290-338 | A refusal changes nothing and is a rotation error, unless the time does not fit. |
| TrustSignatures.EndorsementsAreSigned | ztlnp/trust.py:396-409 | In every run every accepted endorsement is signed under the key still stored for its endorser, and its target is the hash of the key it carries. |
| TrustSignatures.TransitionsAreSigned | ztlnp/identity.py:325-328 | In every run every accepted transition is signed under the key still stored for its old id, and its new id is the hash of its new key. |
| TrustSignatures.EndorsersHaveSigned | ztlnp/identity.py:340-347 | In every run, behind every endorser listed on a record stands its signature for that record's key, or for a key from which a line of signed rotations leads to it. |
| TrustSignatures.SuccessorEndorsersInOrder | ztlnp/identity.py:344-347 | A successor's endorsers are its own, then those of the old record it lacks, each in their order. |
| Rotations.RotationManager.ApplyTransition | ztlnp/identity.py:269-363 | The checks in order; on success store and all four maps change as the run theorems say, on failure nothing does. |
| Rotations.RotationManager.CarryOver | ztlnp/identity.py:344-347 | The successor gains the endorsers it lacks, in order, also when old and new are one record. |
| Rotations.RotationManager.Resolve | ztlnp/identity.py:365-385 | The resolved id under the current retirements. |
| RotationRuns.RunKeeps | ztlnp/identity.py:269-363 | Over every interleaving of store operations and rotations the books stay consistent, and no record is lost, re-keyed, lowered in level or stripped of an endorser. |
| TrustProperties.RecordsAreSound | ztlnp/trust.py:181-212 | In every run each key is stored under its hash, endorsers are listed once, are still VERIFIED or above, and had an endorsement accepted for this key or for one rotated into it. |
| TrustProperties.DepthsAreWitnessed | ztlnp/trust.py:379-422 | In every run a record of depth d > 0 is ENDORSED, d is within the limit, and a time-ordered chain of exactly d accepted endorsements, begun at depth 0, ends at it. |
| TrustProperties.EndorsementsStayListed | ztlnp/trust.py:416-421 | An accepted endorsement stays on its target's record, and its endorser at VERIFIED or above, for the rest of the run. |
| TrustProperties.NoTransitionTwice | ztlnp/identity.py:312-323 | Accepted timestamps strictly increase per old id, so no transition is accepted twice. |
| TrustProperties.ChainsAreOnRecord | ztlnp/identity.py:349-363 | Counts lie in 1..max_rotations, each history is exactly the accepted transitions into its id, and each retirement and timestamp is that of an accepted transition. |
| TrustProperties.SuccessorDominates | ztlnp/identity.py:340-347 | After an accepted rotation the new record has the higher of the two levels and all endorsers of both; every other record is unchanged. |
| TrustProperties.RotationResetsDepth | ztlnp/identity.py:340-347 | A successor not stored before may endorse if and only if the old level is VERIFIED or above and the depth limit at least 1, whatever the old depth was. |
| TrustProperties.RotationLeavesBlacklistBehind | ztlnp/identity.py:340-347 | Such a successor is trusted if and only if it is not itself blacklisted and the old level suffices. |
| TrustProperties.EndorsementReachesNamedIff | ztlnp/trust.py:406-421 | After an accepted endorsement the id it names is listed as endorsed, if it was not before, if and only if it is the hash of the key it carries; and a new one changes no record but the one it names exactly then. |
| TrustProperties.EndorsementCanMissItsTarget | ztlnp/trust.py:406-421 | A run in which a signed endorsement naming one device raises another to ENDORSED and leaves the named one unknown. |
| TrustProperties.GreetingKnowsSenderIff | ztlnp/trust.py:294-308 | An accepted HELLO makes an unknown sender known if and only if its id is the hash of its key. |
| TrustProperties.FingerprintMatchesIff | ztlnp/trust.py:334-340 | A fingerprint is accepted for a sound record if and only if it is that of the record's own id. |
| TrustProperties.DistrustHolds | ztlnp/trust.py:222-255 | A distrusted id stays untrusted through every operation but the one that lifts the distrust. |
| TrustProperties.RotationStaysAcyclicIff | ztlnp/identity.py:349-351 | An accepted rotation keeps retirements free of cycles if and only if its target does not lead back to the old id. |
| TrustProperties.RetiringClimbsIff | ztlnp/identity.py:349-355 | Where each retirement counts one more rotation, one more transition keeps it so if and only if its target is another id which, if it is retired or another id's target, already has the count it is about to be given. |
| TrustProperties.ClimbThroughoutIff | ztlnp/identity.py:331-363 | Over every run, counts climb throughout if and only if every accepted transition met that guard when it was applied. |
| TrustProperties.BudgetThroughoutIff | ztlnp/identity.py:331-363 | Over every run, no chain ever has more than max_rotations rotations if and only if no accepted target led back to its old id, and no chain into the old id was too long to be joined to the one out of the target. |
| TrustProperties.ClimbingChainsResolve | ztlnp/identity.py:349-385 | Where counts climb there is no cycle and no chain over the budget, and resolve reaches an active id within the rotations the chain has left. |
| TrustProperties.FreshChainsResolve | ztlnp/identity.py:349-385 | When every accepted target is new, forks included, counts climb, so all of that holds. |
| RotationLimits.RotationsCanCycle | ztlnp/identity.py:349-385 | A four-operation run in which two keys are rotated into each other and resolve returns a retired id. |
| RotationLimits.ChainCanExceedBudget | ztlnp/identity.py:331-355 | A five-operation run with max_rotations 1 that ends in an acyclic chain of two rotations. |
| RotationLimits.RotationCanExceedDepth | ztlnp/trust.py:379-399 | A four-operation run with a depth limit of 1: the endorsed device's own endorsement is refused as too deep, its rotated successor's is accepted at depth 1. |
| RotationLimits.RotationCanEscapeDistrust | ztlnp/identity.py:340-347 | A three-operation run after which a distrusted id is untrusted and its successor trusted. |
| Routers.RouteTable.Add | ztlnp/router.py:127-139 | The entry over the same hop is replaced in place, otherwise the entry goes last; destinations stay in order of first insertion. |
| Routers.RouteTable.BestRoute | ztlnp/router.py:141-150 | The first of the highest-scoring fresh entries. |
| Routers.PlacedOk | ztlnp/router.py:127-139 | Each hop keeps one entry, the latest, and entries over other hops are kept. |
| Routers.BestIsMaximal | ztlnp/router.py:141-150 | There is no best entry if and only if none is fresh; otherwise it is a fresh one that no fresh one outscores. |
| Routers.ScoreIsMonotone | ztlnp/router.py:97-99 | More trust, fewer hops and less latency never score lower. |
| RouteMeaning.ScoreIs | ztlnp/router.py:97-99 | Score times hops times latency, at least 1, is the trust. |
| RouteMeaning.BestIsFirst | ztlnp/router.py:141-150 | The best route is the first of the highest-scoring entries refreshed within the limit, and is missing if and only if there is none. |
| RouteMeaning.InsertedIs | ztlnp/router.py:127-139 | Filing an entry replaces the one to the same destination over the same hop and nothing else. |
| RouteMeaning.InsertedInPlace | ztlnp/router.py:127-139 | A refreshed entry keeps its place, a new entry or destination goes last, and everything else stays where it was. |
| Routers.Router.constructor | ztlnp/router.py:196-220 | The trust cap is clamped to 0 from below, to 1 from above, and otherwise kept. |
| Routers.Router.AddDirectRoute | ztlnp/router.py:226-264 | The direct entry with hop count 1 is added. |
| Routers.Router.GetRoute | ztlnp/router.py:266-280 | The best route, or an error when there is none. |
| Routers.Router.BuildAnnouncePayload | ztlnp/router.py:316-362 | Ourselves at 0, then extras and known destinations one hop further, deduplicated and clamped to 16 bits. |
| Routers.Router.ProcessAnnouncePayload | ztlnp/router.py:364-427 | The entries learned, in order and without one to ourselves, and the table they lead to; an error for a bad size. |
| Routers.AnnouncedIff | ztlnp/router.py:353-357 | An id and count survive deduplication if and only if that count is the lowest for the id. |
| Routers.PayloadRoundTrip | ztlnp/router.py:359-362 | A payload reads back as the entries it was made of, in order, with counts clamped at 0xFFFF. |
| RouteMeaning.AnnouncementIs | ztlnp/router.py:340-362 | An announcement, read back, says of each id the lowest count on offer: 0 for oneself, one more than an extra's, or one more than the best route's; clamped to 16 bits; and nothing else. |
| RouteMeaning.AnnouncementOrder | ztlnp/router.py:340-362 | It names the router first, then the extras, then the table's destinations, each where first mentioned. |
| RouteMeaning.LearnedAre | ztlnp/router.py:405-425 | One entry is learned per announced id but one's own, in order, one hop further, over the sender and as of now. |
| RouteMeaning.LearnedTrustDecays | ztlnp/router.py:401-422 | At count 0 the trust is the sender's, up to the cap; each further count multiplies it by 0.9. |
| RouteMeaning.HeardIs | ztlnp/router.py:394-427 | After a payload a table holds, per destination, the last entry heard over the sender's hop and the old ones over other hops; a payload of the wrong size is an error and changes nothing. |
| RouteMeaning.NoneToOneself | ztlnp/router.py:407-408 | In every run no router ever learns a route to itself. |
| RouteNetworks.LearnedTrustIsCapped | ztlnp/router.py:405-425 | Whatever its sender is worth, a learned entry of count h is trusted at most cap * 0.9^(h-1), and at most 1. |
| RouteNetworks.StepKeeps | ztlnp/router.py:316-427 | Every registration, announcement and reception, late or repeated, keeps the network invariant. |
| RouteNetworks.RoutesAreReal | ztlnp/router.py:340-425 | In every run every entry of every router is backed by a walk over real links of at most hop_count links, unless the count is saturated, and was learned from an announcement, unless it is a direct route of count 1. |
| RouteNetworks.LearnedRoutesAreCapped | ztlnp/router.py:405-425 | In every run every entry ever learned, whatever its count h, is trusted at most cap * 0.9^(h-1); direct routes keep the trust they are registered with. |
| RouteNetworks.HopCountsAreOdd | ztlnp/router.py:346-425 | Without extra destinations the count of an entry backed by a walk of len links is exactly min(2 * len - 1, 65536). |
| RouteNetworks.TwoLinksCountThree | ztlnp/router.py:346-425 | A concrete line of three routers in which a destination two links away has hop count 3. |
| RouteNetworks.TablesStayValid | ztlnp/router.py:127-139 | In every run each router holds at most one entry per destination and hop, under the destination it is for. |

## Left out

- Channels.SlidingWindowChannel.Receive: is fed DATA packets only in the runs; the code does not check the packet type, and the runs do not say what feeding it other packets does.
- ArqRuns.InOrderExactlyOnce: promises safety, not delivery; a retransmitted duplicate is refused before it can be acknowledged again, so delivery cannot be promised.
- HandshakeRuns.EstablishedMeansAgreed: is about two devices with one protocol instance each, and a network that delivers only what the other side sent; what arbitrary bytes can do is in `ProtocolCalls` and `PacketAuthentication`, per call and per side.
- HandshakeEnds.ErrorFailsIff: no function of the program builds ERROR packets, so the two-party runs send none; the packet here is sealed as the program's other packets are.
- HandshakeCounters.EstablishedSidesOpenChannels: in the channel runs that follow, packets sent before the channels were opened are no longer delivered.
- TrustStores.TrustStore.Add: the records returned are the stored objects, but what a caller writes into them directly is not modelled, nor is the time a record was added at.
- Routers.Router.BuildAnnouncePayload: extra destinations have counts of at least 0, and one reading of the clock serves all route lookups of a call.
- RouteNetworks.RoutesAreReal: links do not change, and a walk may visit a router more than once.
- Identifiers, public keys and nonces have their fixed lengths by type, so the errors for other lengths are modelled only where the program can meet them.
- Clock readings are whole milliseconds between 1 and 2^64 - 1 in packets and sessions; time below a millisecond is not modelled.
- HELLO packets to the broadcast address, and `Device.rotate_key`, which replaces a device's identity.
- The cryptographic primitives themselves; their laws are the assumptions above.
- `reliability.py` (stop-and-wait), `privacy.py` (padding, jitter, cover traffic) and `transport.py` (sockets, queues, threads).
- `Router.forward`, `RouteTable.remove`, QR payloads, read-only accessors and `create_endorsement`.
- Exception messages, `__repr__`, and the example program.
