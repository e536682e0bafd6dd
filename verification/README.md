# A verified model of an MQTT 5.0 client

This project models the core of an MQTT 5.0 client and proves what the client relies on. It has three parts.

**The session.** `Session` takes requests from the application, leases packet identifiers, tracks what is in flight,
orders acknowledgements, and decides what survives a disconnect. `SessionState.dfy` says what each operation does to the
session as a value; `Session.dfy` and `PkidPool.dfy` are the mutable objects with the loops of the original, proved to do
the same; `EventLoop.dfy` says what the event loop does with a script of inputs, and `Connection.dfy` is the loop itself.
`Runs.dfy` is the step relation: any interleaving of requests, tokens used
or dropped, packets in both directions, disconnects and CONNACKs, with histories of what went in and came out. The
theorems are about every run over any number of connections:

- `Identifiers.dfy`: leased identifiers are exactly those in flight; every QoS 1 publish request is in one place.
- `Replay.dfy`: unacknowledged PUBLISHes come first on a connection, in order, and only repeats carry DUP.
- `AckOrder.dfy`, `AckRuns.dfy`: each received PUBLISH has one owner of its acknowledgement; PUBACKs come out in order.
- `Expiry.dfy`: what is left between connections.
- `Contents.dfy`: packets carry what the events of the run say: messages, subscriptions, reasons, identifiers, intervals.
- `EventLoop.dfy`, `Connection.dfy`: what ends a connection, that only a flushed DISCONNECT is the application's, that no
  input is lost, and that every connection ends with a session ready for the next.

Three things are trusted to the server, as predicates of a step: `KindMatches` (an acknowledgement does not name an
identifier held by an operation of another kind), `NotBeforeReplay` (a PUBLISH that waits for its replay is not
acknowledged) and `NotReused` (an inbound identifier is not reused before it is acknowledged). For the first two the
project proves that a step keeps the invariant if and only if it satisfies the predicate, and exhibits a run that breaks
it: `MismatchLosesARequest`, `TooEarlyRepeatsAnAcknowledged`. Breaking the third makes the original panic
(`NeverPanics`); that step changes nothing in the model, so what is proved of runs holds up to the panic and needs no
hypothesis about it.

**The codec and byte transport.** `Varint.dfy`, `Wire.dfy`, `Properties.dfy`, `PropertyLists.dfy`, `Codec.dfy` say what
encoders and decoders compute; `Buffers.dfy` has them as they run, draining a source and filling a destination.
`RoundTrip.dfy` has the laws. `Layout.dfy` gives the layout of each packet in literal bytes, apart from encoder and
decoder, and proves that encoded packets have it; `Explicit.dfy` proves what properties that are written out, defaults
included and in any order, decode to; `Spelling.dfy` proves that a decoder accepts nothing but spellings of the packet it
returns. An encoder's effect is a sequence of operations, copy or share, and `Accumulators.dfy` and
`Transport.dfy` prove that the scatter/gather queue, the flushing writer and the framing reader carry exactly those
bytes, however the network cuts them up.

**Topic filters.** `TopicFilter.dfy` has validation, shared subscriptions and matching, and the exact gap between the
matcher and section 4.7 of MQTT Version 5.0.

Modelling choices that matter when reading the statements:

- Channels are FIFO sequences, and `next_outgoing_packet` is one step: it has no suspension point between taking a
  request and recording it. A push that happens while it polls is a step before or after it.
- A completion notifier is a number. QoS 1 publish requests are numbered in the order they are made, and a token and the
  request made through it carry the token's number.
- Strings are byte strings; which bytes form a valid MQTT string is a parameter `ok` of every codec function, so the
  laws hold for whatever table the original uses.
- `validate`-style errors, `Err` returns and `expect`/`assert!` panics are all outcomes of the model.
- The comment at `src/client/session.rs:876-878` gives disconnects priority over acknowledgements. That is so for
  polling, but an acknowledgement whose turn it is already goes out before anything is polled
  (`src/client/session.rs:333-351`). The model follows the code.

## Model

| member | source | states |
|---|---|---|
| `PkidPool.LeaseIsFirstFree` | src/client/session/pkid.rs:70-85 | no identifier is refused unless all are leased; otherwise the first free one in circular order is leased and nothing else changes |
| `PkidPool.SearchIsFirst` | src/client/session/pkid.rs:78-84 | the search loop finds the first free identifier among the next `tries`, and misses only if all of them are leased |
| `PkidPool.FullCount` | src/client/session/pkid.rs:73-77 | counting the leases decides whether any identifier is free, which makes the loop safe |
| `PkidPool.PkidPool.constructor` | src/client/session/pkid.rs:57-68 | nothing leased, cursor at 1 |
| `PkidPool.PkidPool.Next` | src/client/session/pkid.rs:32-47 | the repeated range yields the cursor and moves it to its circular successor |
| `PkidPool.PkidPool.LeaseNext` | src/client/session/pkid.rs:72-85 | the loop ends within `max` steps with the lease that `Lease` specifies |
| `PkidPool.PkidPool.ReleaseId` | src/client/session/pkid.rs:87-92 | the identifier is free afterwards; says whether it was leased |
| `PkidPool.NoIdentifierStarves` | src/client/session/pkid.rs:58-92 | between two leases of one identifier, in any sequence of leases and releases, no other identifier stays free throughout |
| `PkidPool.ReachesFreeFirst` | src/client/session/pkid.rs:72-92 | while an identifier stays free, the search comes to it before it comes back to the one leased earlier |
| `OrderedMap.Find` | src/client/session.rs:993-1001 | position of the first entry with an identifier, and presence |
| `OrderedMap.InsertIds` | src/client/session.rs:268-270 | inserting adds the identifier and keeps identifiers distinct |
| `OrderedMap.RemoveIds` | src/client/session.rs:425-431 | `shift_remove` removes exactly that identifier and keeps the others distinct |
| `Session.PubAckToken.Send` | src/client/token/acknowledgement.rs:316-366 | a used token makes exactly one request, with the reason and properties given, or none if the session is gone; its drop adds no second |
| `Session.PubAckToken.Drop` | src/client/token/acknowledgement.rs:349-366 | an unused token acknowledges with success when it is dropped; a used one does nothing |
| `Session.PubAckToken.InnerSend` | src/client/token/acknowledgement.rs:328-346 | queues the request with the token's identifier and epoch, or reports that the session is gone |
| `Session.Session.constructor` | src/client/session.rs:76-113 | a new session: disconnected, epoch 0, expiry 0, everything empty |
| `Session.Session.Poll` | src/client/session.rs:879-971 | takes from the channels by priority and leases identifiers for subscriptions and QoS 1 publishes |
| `Session.Session.PollRest` | src/client/session.rs:904-970 | the part of the poll after disconnects and acknowledgements; a request that gets no identifier stays queued |
| `Session.Session.NextOutgoingRequest` | src/client/session.rs:328-396 | the loop computes `NextRequest`: ready acknowledgements first, stale ones dropped, others routed to their entries |
| `Session.Session.Record` | src/client/session.rs:147-318 | each request becomes the packet it asks for, field by field, and leaves the in-flight record its acknowledgement needs |
| `Session.Session.NextOutgoingPacket` | src/client/session.rs:119-326 | replays go first with DUP set, then requests |
| `Session.Session.CompleteInflight` | src/client/session.rs:398-435 | releases the identifier, removes the operation and resolves its notifier, or reports an unexpected packet |
| `Session.Session.IncomingConnAck` | src/client/session.rs:482-538 | a refused or mismatched CONNACK changes nothing; an accepted one starts a new epoch, with the session resumed or expired |
| `Session.Session.IncomingPublish` | src/client/session.rs:580-616 | tracks a QoS 1 PUBLISH and hands out its token, which is dropped at once without a receiver |
| `Session.Session.IncomingAuth` | src/client/session.rs:618-655 | ends a reauthentication if the method matches |
| `Session.Session.IncomingPingResp` | src/client/session.rs:657-663 | completes the oldest ping; an unsolicited one is ignored |
| `Session.Session.Disconnected` | src/client/session.rs:665-731 | subscriptions, pings, authentication and acknowledgement order end; the replay queue is rebuilt from what is in flight |
| `Session.Session.ReleaseAll` | src/client/session.rs:672-681 | draining a table, in any order, releases exactly its identifiers |
| `Session.Session.SessionExpired` | src/client/session.rs:733-766 | cancels every QoS 1 publish in flight, releases its identifier and clears the replay queue |
| `Session.Session.ConnectionLost` | src/client/session.rs:556-578 | server and transport disconnects: the session expires if the interval in effect is zero |
| `Session.Session.ClientDisconnect` | src/client/session.rs:540-554 | the interval of the DISCONNECT overrides the one in effect before expiry is decided |
| `SessionState.PollTakesMostUrgent` | src/client/session.rs:876-971 | polling takes the most urgent request that waits, in the order disconnect, acknowledgement, authentication, ping, subscription, QoS 0, QoS 1, keep-alive, and nothing only if nothing waits |
| `SessionState.PollTakesOldest` | src/client/session.rs:887-970 | it is the oldest of its kind, nothing else is taken, and only the identifier handed out with it is leased |
| `SessionState.RegisterCarries` | src/client/session.rs:150-317 | the packet made from a request has the fields of the request |
| `AckOrder.LoopIsOnePass` | src/client/session.rs:328-396 | for every state, the polling loop equals one pass: ready acknowledgement, disconnect, acknowledgement, anything else |
| `AckOrder.SettleAnswersFirst` | src/client/session.rs:333-396 | no request is taken for forged, and the acknowledgement that comes out is the answer to the oldest waiting PUBLISH |
| `AckOrder.SettleMakesProgress` | src/client/session.rs:333-396 | an acknowledgement comes out if and only if the oldest waiting PUBLISH is no longer with a token |
| `AckOrder.RequestIsAwaited` | src/client/session.rs:383-388 | a request of this connection names a tracked PUBLISH whose entry is not ready yet |
| `AckOrder.RouteKeepsOwned` | src/client/session.rs:363-388 | moving a request to its entry keeps every waiting PUBLISH owned exactly once |
| `AckOrder.PopKeepsOwned` | src/client/session.rs:333-353 | a ready first entry answers for the first waiting PUBLISH, and the rest stay owned exactly once |
| `Runs.NextKind` | src/client/session.rs:121-326 | one packet is a replay, a first send with a fresh lease, a subscription with a fresh lease, or touches none of these |
| `Runs.ElsewhereKeeps` | src/client/session.rs:581-663 | inbound PUBLISHes, pings, authentication and tokens leave identifiers, publish requests and the connection alone |
| `Identifiers.LeasesKeptExactly` | src/client/session.rs:401-435 | a step keeps "leased = disjoint union of the in-flight maps" if and only if it is not an acknowledgement of the wrong kind |
| `Identifiers.LeasesAlwaysExact` | src/client/session.rs:997-1007 | in every run with matching acknowledgements the in-flight maps share no key and the pool leases exactly their keys |
| `Identifiers.EachRequestInOnePlace` | src/client/session.rs:250-272 | each QoS 1 request ever made is queued, in flight with its identifier, or resolved once by a PUBACK for that identifier or by expiry |
| `Identifiers.RequestsAlwaysKept` | src/client/session.rs:933-960 | requests are sent first in the order they were made, those in flight stay in that order, none is lost or resolved twice |
| `Identifiers.PubAckKeepsRequests` | src/client/session.rs:425-435 | a PUBACK moves one request from in flight to resolved and keeps the order of the others |
| `Identifiers.ExpiryKeepsRequests` | src/client/session.rs:738-743 | expiry moves every request in flight to resolved |
| `Identifiers.AckUndoesSend` | src/client/session.rs:193-272 | a SUBSCRIBE, UNSUBSCRIBE or first PUBLISH followed by its acknowledgement leaves in-flight maps and leases as before, and resolves the publish request |
| `Identifiers.MismatchLosesARequest` | src/client/session.rs:406-411 | a run in which a SUBACK frees the identifier of a PUBLISH in flight, and a request ends up nowhere |
| `Replay.ReplayKeptExactly` | src/client/session.rs:425-431 | a step keeps "replay queue = last entries in flight with DUP set, all of them when disconnected" if and only if it does not acknowledge a waiting replay |
| `Replay.ReplayAlwaysExact` | src/client/session.rs:701-730 | so it holds in every run that does not, even if a connection drops part-way through its replay |
| `Replay.RemovalKeepsTail` | src/client/session.rs:425-431 | removing an entry in flight keeps the queue its tail if and only if the entry is not in the queue |
| `Replay.UnacknowledgedComeFirst` | src/client/session.rs:126-146 | on every connection the PUBLISHes unacknowledged at its beginning come out first, in first-send order with DUP, and nothing after them is a repeat |
| `Replay.DupMarksRepeats` | src/client/session.rs:258-272 | over all connections DUP is clear exactly the first time a request's PUBLISH is given out, which otherwise has the same topic, payload, retain flag and properties each time |
| `Replay.SendingAlwaysRight` | src/client/session.rs:127-146 | the two facts above hold together in every run |
| `Replay.TooEarlyRepeatsAnAcknowledged` | src/client/session.rs:425-431 | a run in which an acknowledged PUBLISH is sent again while its identifier is free |
| `AckRuns.AcknowledgedInOrder` | src/client/session.rs:329-396 | the PUBACKs of a connection are, in order and without repeats, the answers to the first PUBLISHes received on it |
| `AckRuns.OwnedExactlyOnce` | src/client/session.rs:365-388 | a tracked identifier is owned by exactly one of a current token, a current queued request and its entry; an untracked one by none |
| `AckRuns.NeverPanics` | src/client/session.rs:383-387 | the "forged" panic never fires, and a QoS 1 PUBLISH panics if and only if its identifier is that of a PUBLISH received on this connection and not acknowledged yet |
| `AckRuns.AnsweredIsNext` | src/client/token/acknowledgement.rs:349-365 | once the oldest token is used or dropped its PUBACK is next unless a replay or DISCONNECT goes first; before that no PUBACK comes out |
| `AckRuns.AcksAlwaysRight` | src/client/session.rs:344-388 | the invariant behind these, in every run, across epochs |
| `AckRuns.NewEpoch` | src/client/session.rs:697-699 | no token or request of an earlier connection counts on a new one |
| `Expiry.BetweenConnections` | src/client/session.rs:665-766 | without a connection only PUBLISHes are in flight, all queued for replay and owning all leases; with expiry 0 nothing is left |
| `Expiry.EndOfConnection` | src/client/session.rs:540-578 | however a connection ends, the effective interval decides: zero cancels all and frees all, otherwise PUBLISHes and leases are kept as they were |
| `Expiry.NothingChangesMeanwhile` | src/client/session.rs:482-538 | until the next accepted CONNACK nothing in flight, leased or resolved changes |
| `Expiry.BeginningOfConnection` | src/client/session.rs:505-516 | an accepted CONNACK resumes exactly what was kept, or cancels it all and frees every identifier |
| `Contents.PublishAsAskedFor` | src/client/session.rs:250-272 | each QoS 1 PUBLISH given out has the topic, payload, retain flag and properties of the n-th QoS 1 publish event, n being its request |
| `Contents.RequestsAlwaysCarried` | src/client/session.rs:193-248 | over a run QoS 0 PUBLISHes, SUBSCRIBEs, UNSUBSCRIBEs and AUTHs come out in the order asked for, once each and with the content asked for; the rest still waits |
| `Contents.DisconnectIsAskedFor` | src/client/session.rs:887-897 | a DISCONNECT given out is the one the application asked for on this connection |
| `Contents.StepMoves` | src/client/session.rs:121-326 | a packet is made from the oldest request of its queue and no other queue moves; a PINGREQ is one asked for, or one the keep alive calls for |
| `Contents.AcknowledgedAsAnswered` | src/client/token/acknowledgement.rs:316-366 | every PUBACK carries the reason and properties with which its token was used, or success and none if it was dropped or nobody received the PUBLISH |
| `Contents.AnswerComesOut` | src/client/token/acknowledgement.rs:328-346 | whatever is answered through the token of a PUBLISH is the PUBACK that comes out for it |
| `Contents.ReceivedAsArrived` | src/client/session.rs:581-603 | the PUBLISHes that are acknowledged are those that arrived on this connection, in order of arrival and with their identifiers |
| `Contents.ResolvedAsTold` | src/client/session.rs:425-435 | a request is completed only by a PUBACK the server sent for it, and cancelled only by an end of connection with interval zero or a CONNACK without a session |
| `Contents.IntervalsAsAgreed` | src/client/session.rs:511-533 | the expiry interval and keep alive in force are those of the last CONNACK or CONNECT, and then of the application's DISCONNECT |
| `Contents.ConnAckRefused` | src/client/session.rs:489-503 | a CONNACK is refused exactly if its authentication method is not the one asked for, where one has to be given; refused or rejected, it changes nothing |
| `Contents.AuthRefused` | src/client/session.rs:619-655 | an AUTH is accepted exactly if a reauthentication by that method is under way and the server does not ask for one |
| `Contents.AckRefused` | src/client/session.rs:401-435 | an acknowledgement is refused exactly if no operation of its kind is in flight with its identifier |
| `Contents.PingRespAnswersOldest` | src/client/session.rs:657-663 | a PINGRESP removes exactly the oldest PINGREQ in flight |
| `Contents.PingsAreCounted` | src/client/session.rs:313-316 | the PINGREQs in flight are those given out on this connection and not answered |
| `Contents.IdleOnlyIfNothingWaits` | src/client/session.rs:887-970 | nothing is sent only if nothing is to be replayed and no request waits that could be served |
| `Connection.Connection.Connect` | src/client.rs:545-558 | a CONNACK is one step; the connection begins if and only if it is accepted |
| `Connection.Connection.Submit` | src/client/session.rs:806-819 | a request of the application is one step |
| `Connection.Connection.Answer` | src/client/token/acknowledgement.rs:316-365 | using or dropping a held token is one step |
| `Connection.Connection.TakeAck` | src/client.rs:1097-1107 | SUBACK, UNSUBACK and PUBACK are one step each, and an error exactly if the session returns one |
| `Connection.Connection.TakePublish` | src/client.rs:1117-1117 | an inbound PUBLISH is one step, or panics exactly if its identifier is still tracked |
| `Connection.Connection.WriteOut` | src/client.rs:1074-1091 | does what `Written` says: every packet given out is written in order, then one flush; ends as the application's exactly if a DISCONNECT is written and flushed, in an I/O error exactly if a write or flush fails, and otherwise with nothing left to send |
| `Connection.Connection.Handle` | src/client.rs:1072-1131 | does what `Handled` says: each possible input is its own step, `Next` is followed only by further packets, a protocol failure is exactly a refused packet or a CONNACK, a crash exactly an unsupported or reused PUBLISH |
| `Connection.Connection.RunInner` | src/client.rs:1043-1133 | does what `Played` says of the script, and ended for the cause that the last input read gives |
| `Connection.Connection.RunUntilDisconnect` | src/client.rs:1009-1041 | the steps of the script, then exactly one step that ends the connection and matches how the loop ended; a DISCONNECT given out decides it by its flush; and if acknowledgements match, the session returned is ready for the next connection, with what was in flight kept or cancelled as the effective interval says |
| `EventLoop.PacketConsumes` | src/client.rs:1076-1089 | every packet but a keep-alive ping uses up something that waited, so the writing loop ends |
| `EventLoop.WritesAndFlushes` | src/client.rs:1075-1091 | one write per packet, then one flush; all but the last of these succeeded, and an I/O error is exactly a failure of the last; the application's ending is exactly a DISCONNECT that was written and flushed; without an ending the session has nothing to send |
| `EventLoop.HandlesRight` | src/client.rs:1072-1131 | which steps each input gives and whether it ends the connection, in terms of the session's own answers |
| `EventLoop.EndsForItsCause` | src/client.rs:1050-1132 | how many inputs are read, and that each ending comes from the input that ends it: server DISCONNECT, timeout, failed read, failed write or flush, refused packet, unsupported PUBLISH, or the end of the stream |
| `EventLoop.PlayedDecides` | src/client.rs:1083-1087 | a DISCONNECT given out ends the connection as the application's if its flush succeeds and as an I/O error otherwise |
| `EventLoop.EveryInputTaken` | src/client.rs:1094-1128 | every packet of the server and every request read is one step, in order and without repeats |
| `EventLoop.EndReturns` | src/client.rs:1009-1041 | after the end of any run of matching acknowledgements only PUBLISHes are in flight, all to be replayed and holding all leases; a zero effective interval leaves nothing and cancels all, any other keeps them exactly |
| `EventLoop.TraceIsRun` | src/client.rs:1009-1041 | executions one after the other make up a run, so all theorems about runs apply to them |
| `Varint.RoundTrip` | src/mqtt_proto.rs:683-738 | decode(encode(n) + rest) is n, with exactly rest left |
| `Varint.Encode` | src/mqtt_proto.rs:707-738 | succeeds exactly below 2^28, with one to four bytes |
| `Varint.EncodeIsShortest` | src/mqtt_proto.rs:683-738 | no byte string that decodes to n is shorter than its encoding |
| `Varint.AppendKeepsDecision` | src/mqtt_proto.rs:683-705 | a decision, value or error, is unchanged by bytes appended |
| `Varint.IncompleteExactly` | src/mqtt_proto.rs:683-705 | incomplete if and only if there are fewer than four bytes and all have the continuation bit |
| `Varint.LengthIsMonotone` | src/mqtt_proto.rs:707-738 | larger numbers take no fewer bytes |
| `Varint.DecodeLoop` | src/mqtt_proto.rs:683-705 | the shifting loop computes the base-128 value |
| `Varint.EncodeLoop` | src/mqtt_proto.rs:707-738 | the emitting loop computes the digits and gives up after four |
| `Properties.OneBack` | src/mqtt_proto/property.rs:535-756 | a well-formed property not at its default comes back from its encoding, whatever follows |
| `Properties.DecodedIsWellFormed` | src/mqtt_proto/property.rs:292-490 | whatever decodes is well-formed and takes no more room when written again |
| `PropertyLists.ListBack` | src/mqtt_proto/property.rs:506-533 | an encoded list decodes to the gathered list without its defaults, and its length prefix is the count of its bytes |
| `PropertyLists.DecodedListKeeps` | src/mqtt_proto/property.rs:759-863 | a decoded list is well-formed and re-encodes in no more bytes than it took |
| `Buffers.Source.TakeBinary` | src/mqtt_proto/binary_data.rs:88-111 | takes prefix and content together, or reports that bytes are missing |
| `Buffers.Source.TakeProperty` | src/mqtt_proto/property.rs:292-490 | drains one property: identifier, value of its type, checked |
| `Buffers.Source.TakeProperties` | src/mqtt_proto/property.rs:249-290 | drains a length and exactly that many bytes of properties, refusing duplicates and strangers |
| `Buffers.DecodePubAckFrom` | src/mqtt_proto/puback.rs:103-162 | drains a PUBACK in any of its three forms |
| `Buffers.DecodeDisconnectFrom` | src/mqtt_proto/disconnect.rs:111-158 | drains a DISCONNECT in any of its three forms |
| `Buffers.DecodePublishFrom` | src/mqtt_proto/publish.rs:89-159 | drains topic, identifier, properties, and the rest as payload |
| `Buffers.DecodeTosFrom` | src/mqtt_proto/subscribe.rs:179-181 | the loop drains the subscriptions to the end |
| `Buffers.DecodeSubscribeFrom` | src/mqtt_proto/subscribe.rs:172-192 | drains identifier, properties and a non-empty list of subscriptions |
| `Buffers.DecodeConnectFrom` | src/mqtt_proto/connect.rs:157-265 | drains a CONNECT, field by field as its flags say |
| `Buffers.DecodePacketFrom` | src/mqtt_proto.rs:316-390 | dispatches on the first byte and refuses anything left over |
| `Buffers.Sink.PutProperty` | src/mqtt_proto/property.rs:535-756 | writes nothing for a default, otherwise identifier and value |
| `Buffers.Sink.PutProperties` | src/mqtt_proto/property.rs:506-533 | a counting pass, the count, a writing pass |
| `Buffers.EncodePubAckTo` | src/mqtt_proto/puback.rs:164-209 | writes the shortest of the three forms |
| `Buffers.EncodeDisconnectTo` | src/mqtt_proto/disconnect.rs:160-203 | writes the shortest of the three forms |
| `Buffers.EncodePublishTo` | src/mqtt_proto/publish.rs:161-212 | topic, identifier if any, properties, payload shared and not copied |
| `Buffers.EncodeSubscribeTo` | src/mqtt_proto/subscribe.rs:194-220 | refuses an empty list |
| `Buffers.EncodeConnectTo` | src/mqtt_proto/connect.rs:355-496 | flags, header, properties, will, credentials; refuses a will that is too large |
| `Buffers.EncodePacketTo` | src/mqtt_proto.rs:536-560 | a counting pass over the body, the fixed header, the body |
| `RoundTrip.PacketRoundTrip` | src/mqtt_proto.rs:392-411 | every well-formed packet whose body fits encodes, and decode_full(encode(p)) = p |
| `RoundTrip.RoundTripExactly` | src/mqtt_proto.rs:392-411 | of the packets that encode, exactly the well-formed ones come back |
| `RoundTrip.ReencodeRoundTrip` | fuzz/fuzz_targets/packet_roundtrip.rs:39-55 | whatever decodes is well-formed, re-encodes in no more bytes and decodes to itself |
| `RoundTrip.EncodesExactly` | src/mqtt_proto.rs:536-560 | a well-formed packet encodes if and only if its body is below 2^28 bytes, and in exactly the bytes counted |
| `RoundTrip.EncodingIsInjective` | src/mqtt_proto.rs:498-560 | well-formed packets with the same encoding are equal |
| `Layout.EncodedAsLaidOut` | src/mqtt_proto.rs:498-560 | every encoded packet is, byte for byte, the literal layout: first byte with its flag bits, length, fields high byte first, properties by identifier |
| `Layout.ConnectLaidOut` | src/mqtt_proto/connect.rs:355-496 | CONNECT: the name MQTT, version 5, the flags bit by bit, keep alive, properties, client identifier, will, credentials |
| `Layout.PropertyLaidOut` | src/mqtt_proto/property.rs:535-756 | each property is its identifier and value in literal bytes, and nothing at its default |
| `Layout.LengthLaidOut` | src/mqtt_proto.rs:707-738 | a length is laid out in one to four bytes, seven bits each, lowest first |
| `Layout.SubscriptionsLaidOut` | src/mqtt_proto/subscribe.rs:87-115 | each subscription is its filter and an options byte given bit by bit |
| `Layout.LaidOutIsDecoded` | src/mqtt_proto.rs:392-411 | every well-formed packet laid out so is decoded to itself |
| `Layout.EncodesIfFits` | src/mqtt_proto.rs:536-560 | a packet encodes exactly if its parts fit their length fields, its subscription identifiers are below 2^28 and a SUBSCRIBE is not empty |
| `Layout.ReasonCodes` | src/mqtt_proto/disconnect.rs:111-158 | the reason codes that PUBACK and DISCONNECT are accepted with |
| `Explicit.ReadAsWritten` | src/mqtt_proto/property.rs:292-498 | what an identifier and value are read as is written with that identifier and value, defaults included |
| `Explicit.PropertyIsRead` | src/mqtt_proto/property.rs:292-498 | every property, at its default or not, is read back from its literal bytes |
| `Explicit.ListGathered` | src/mqtt_proto/property.rs:759-863 | a list in any order is accepted exactly if each identifier is allowed and only repeatable ones repeat, and is gathered into exactly its values |
| `Explicit.WrittenOutIsDecoded` | src/mqtt_proto.rs:316-411 | a packet with its properties written out, in any order and at their defaults, decodes to the record with exactly those values |
| `Spelling.DecodedIsSpelled` | src/mqtt_proto.rs:316-411 | whatever decodes is a spelling of the packet it decodes to: literal fields around properties that carry exactly its values, a length not necessarily shortest, or a short form |
| `Spelling.PropertyIsSpelled` | src/mqtt_proto/property.rs:292-498 | a property that is accepted is spelled by its identifier and value |
| `Spelling.SizedIsSpelled` | src/mqtt_proto/property.rs:249-290 | a list that is accepted is a length and that many bytes of acceptable properties |
| `Spelling.ConnectIsSpelled` | src/mqtt_proto/connect.rs:157-265 | a CONNECT that is accepted has the name, version, flags and fields of the record |
| `Spelling.SubscriptionsAreSpelled` | src/mqtt_proto/subscribe.rs:45-85 | the subscriptions that are accepted are spelled by filter and options byte, reserved bits clear |
| `RoundTrip.PubAckBack` | src/mqtt_proto/puback.rs:103-209 | a well-formed PUBACK that encodes comes back |
| `RoundTrip.DisconnectBack` | src/mqtt_proto/disconnect.rs:111-203 | a well-formed DISCONNECT that encodes comes back |
| `RoundTrip.PublishBack` | src/mqtt_proto/publish.rs:89-212 | a well-formed PUBLISH that encodes comes back |
| `RoundTrip.SubscribeBack` | src/mqtt_proto/subscribe.rs:172-250 | a well-formed SUBSCRIBE that encodes comes back |
| `RoundTrip.ConnectBack` | src/mqtt_proto/connect.rs:157-496 | a well-formed CONNECT that encodes comes back |
| `RoundTrip.ConnectFlagsBack` | src/mqtt_proto/connect.rs:376-399 | the flag byte determines every field it was made from |
| `Accumulators.IovecsAccumulator.TryPutSlice` | src/buffer_pool/accumulators/iovecs.rs:65-78 | copies exactly if the reserved room suffices |
| `Accumulators.IovecsAccumulator.PutShared` | src/buffer_pool/accumulators/iovecs.rs:52-63 | appends the buffer to the content; an empty one is dropped |
| `Accumulators.IovecsAccumulator.PutDone` | src/buffer_pool/accumulators/iovecs.rs:80-86 | moves the uncommitted bytes to the queue, in order |
| `Accumulators.IovecsAccumulator.ToIovecs` | src/buffer_pool/accumulators/iovecs.rs:88-102 | the first buffers of the queue and their total length |
| `Accumulators.IovecsAccumulator.Drain` | src/buffer_pool/accumulators/iovecs.rs:104-139 | fast or slow, removes exactly the first n bytes and keeps the size right and no chunk empty |
| `Accumulators.IovecsAccumulator.DrainSlow` | src/buffer_pool/accumulators/iovecs.rs:112-138 | the slow path alone, also where it removes everything |
| `Accumulators.IovecsAccumulator.Apply` | src/buffer_pool/accumulators/iovecs.rs:52-86 | an encoder's operations append its bytes, and never lack room once the copied bytes are reserved |
| `Accumulators.CountBytes` | src/mqtt_proto/byte_counter.rs:44-55 | the first pass counts what the second emits: all bytes, or those that are copied |
| `Accumulators.SameBytes` | src/buffer_pool/accumulators/single.rs:37-68 | fed and drained alike, the queue and the single buffer hold the same bytes |
| `Transport.Writer.WriteBatch` | src/io/writer.rs:86-101 | any schedule of partial writes puts a prefix of the batch on the wire, the whole on success; it succeeds exactly if every write made takes something |
| `Transport.Writer.Flush` | src/io/writer.rs:75-107 | ends for every schedule and succeeds exactly if every write made takes something and the stream flushes; then everything queued is on the wire, in order; otherwise a prefix is |
| `Transport.Writer.Write` | src/io/writer.rs:36-72 | succeeds exactly if a flush before it does not fail, the packet encodes and there is room, and then appends the packet's bytes; otherwise the output is unchanged, or partly flushed if that flush failed |
| `Transport.Reader.Read` | src/io/reader.rs:40-87 | however the stream is cut, the result is the first frame of the bytes and the rest stays pending |
| `Transport.HeaderStable` | src/mqtt_proto.rs:1063-1080 | more bytes do not change a fixed header that was decoded or refused |
| `Transport.EndToEnd` | src/io/reader.rs:40-87 | the bytes of a list of packets are received as exactly that list |
| `Transport.SendAndReceive` | src/io/writer.rs:36-107 | packets written and flushed through any network, cut into any non-empty chunks, are read back as they were; they are sent exactly if every write made takes something and every flush succeeds |
| `TopicFilter.ScannerIsLevelLanguage` | src/mqtt_proto/filter.rs:140-191 | the character automaton accepts exactly the strings whose levels are plain, `+`, or a final `#` |
| `TopicFilter.ParseFilterExactly` | src/mqtt_proto/filter.rs:73-193 | a filter is accepted if and only if it is in that language, after an optional well-formed `$share` prefix |
| `TopicFilter.NewFilter` | src/mqtt_proto/filter.rs:73-193 | the checks and the loop, in the order of the code and with its errors |
| `TopicFilter.Scan` | src/mqtt_proto/filter.rs:140-191 | the state loop over the characters |
| `TopicFilter.ClassifyReassembles` | src/mqtt_proto/filter.rs:43-65 | prefix, group, `/` and inner filter concatenate to the original, and the inner filter is in the level language |
| `TopicFilter.LevelsJoin` | src/mqtt_proto/topic.rs:62-64 | splitting at `/` and joining again is the identity |
| `TopicFilter.MatchLevels` | src/mqtt_proto/filter.rs:377-415 | the iterator loop computes the recursive match |
| `TopicFilter.MatchesTopic` | src/mqtt_proto/filter.rs:221-230 | a filter `$share/<group>/<inner>` matches by the levels of the inner filter, any other by those of its text; the answer is that of section 4.7 but for the two exceptions |
| `TopicFilter.LevelsBetweenSlashes` | src/mqtt_proto/topic.rs:62-64 | levels are what stands between slashes |
| `TopicFilter.WildcardCharacters` | src/mqtt_proto/filter.rs:141-190 | which bytes are wildcards, where they may stand, and that a topic has none |
| `TopicFilter.MatchingGap` | src/mqtt_proto/filter.rs:377-415 | for a valid filter the match implies section 4.7, and they differ exactly on `#` against its parent and on a wildcard against a later level that starts with `$` |
| `TopicFilter.MatchingGapIsReal` | src/mqtt_proto/filter.rs:377-415 | both differences occur |

## Left out

- QoS 2: its flows are unimplemented in the original; the model has no PUBREC, PUBREL or PUBCOMP, and an inbound QoS 2 PUBLISH is reported as a panic.
- Protocol version 3: the client only speaks version 5.
- The codecs of CONNACK, AUTH, SUBACK, UNSUBSCRIBE, UNSUBACK, PUBREC, PUBREL and PUBCOMP: same shapes as the modelled packets, so they would only add easy members; decoding them is reported as `UnmodelledPacket`.
- Unicode validity of strings: a parameter.
- Time: keep-alive and PINGRESP deadlines are inputs (`due`, `PingRespTimeout`); timers, their resets and durations are not modelled.
- Notifiers of subscriptions, pings, reauthentication, QoS 0 publishes and acknowledgements: only those of QoS 1 publishes are accounted for. A second reauthentication request overwrites the first, as in the original.
- Receive-maximum flow control: not implemented in the original.
- Width of the connection epoch: unbounded instead of 64 bits.
- The choice between the two accumulators behind one writer (`src/buffer_pool/accumulators/either.rs`): the writer is modelled over the queue of buffers, and `SameBytes` relates it to the single buffer.
- Traits: encoders are generic over their destination in the original; here they fill a list of operations that each destination interprets.
- Memory: pool growth either succeeds or fails (`room`), and the unsafe buffer internals are not modelled.
- Sockets, TLS, WebSockets, proxies, connection setup before the CONNACK, tokio channels and wakers, logging.
- Connection.Connection.RunUntilDisconnect: writes and flushes succeed or fail by a script instead of going through `Transport.Writer`, because the session also emits packets whose codecs are not modelled.
- Session.Session.IncomingPublish: what a panic leaves behind is not modelled; the state is given as before the call.
