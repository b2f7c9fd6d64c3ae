# OpenTR-369 agent: a verified model

A Dafny model of three parts of a USP (TR-369) agent, with proofs about it. `dafny verify dfyconfig.toml`
checks all of it.

**CoAP transport.** USP records travel between agent and controller in blocks (RFC 7252, RFC 7959 Block1). The
client (`coap_client.c`) sends one block at a time and waits; the server (`coap_server.c`) assembles. `CoapClient`
and `CoapServer` specify the two ends as functions on values, `CoapSender.Sender` and `CoapServer.CoapSession` are
the objects with the source's fields, proved equal to these functions method by method. `CoapNetwork` puts a client,
a session for each socket it ever opens, and channels that lose and duplicate into one transition system and states
what every run guarantees; `CoapWire` says what the client leaves on its sockets, `CoapClientProofs` that it always
makes progress. `CoapIntegrity` says when a record arrives as it was sent, exactly; `CoapAttempts` and `CoapUnmixed`
that this is always so unless the client gives a record up or the server does not accept a sender; `CoapMixing` has a
run in which it is not. `CoapExchange` is about what does happen: the two ends lead each other on from block to
block. `CoapDelivery` puts that together: a record that is submitted arrives, although blocks and answers are lost on
the way. `CoapSockets` says over which socket a record is sent, `CoapQueue` in which order, `CoapTimers` after which
waits. `CoapOptions`, `CoapBlockOption`, `CoapUri`, `CoapCodec`, `CoapRequests` and `CoapWriter` are the PDU codec, as
functions and as loops over buffers, and `CoapDatagrams` ties its bytes to the PDUs of the runs.

**Data model.** The supported data model is a tree of nodes with a bucketed index over the hashes of their paths
(`SchemaTree`, `SchemaRegistration`, `SchemaLookup`, `SchemaStore`); `SchemaCreation` says which paths can be
registered and what that adds, `SchemaRuns` what holds after any registrations. `SchemaPaths` and `InstanceNumbers`
are the texts: schema paths, instantiated paths, instance strings.
`DatabaseKeys` and `DatabaseMigration` concern the rows of the parameter database; `InstanceSet`, `InstanceScopes`,
`InstanceCascade` and `InstanceLaws` the object instances, their default values and the cascade that deletes them.

**Bulk data.** `BulkData` has the reporting grid and the retained reports of a profile, `AltNames` the reduction of
parameter names in reports.

## Where the code departs from what it says

The model follows the code; these are the places where that shows.

- A token change in the middle of a record is announced as the start of a new record, but the bytes received so far
  are kept (`coap_server.c:1473-1479`). A record is intact exactly if its session held nothing when its first block
  was taken (`CoapIntegrity.Integrity`); what it held is made of beginnings of other records. `CoapMixing.MixedRun`
  shows that this happens: a client that gives up a record reuses its socket (`coap_client.c:876-881`). It happens
  only so or by the next point (`CoapUnmixed.IntactUnlessGivenUp`).
- A completed record with an unacceptable reply-to is not freed (`coap_server.c:1239-1254`): `CoapServer.FreedIfPosted`.
  It is then in front of the next record as a whole.
- An error response is acted on before the check for an empty queue (`coap_client.c:787-791`), so a duplicate of it
  ends the agent: `CoapClientProofs.HandleKeepsSound` and `DuplicateErrorIsFatal`.
- A PDU without payload marker yields its option bytes as payload (`coap_common.c:756-766`): `CoapCodec.PduRoundTrip`.
- Block numbers are counts. Neither end rescales them when the size shrinks, so the two agree with each other
  (`CoapNetwork.LockStep`), but a block lies where section 2.2 of RFC 7959 puts it exactly if it is the first of its
  record or the size is still that of the first (`CoapNetwork.NumberedAsStandard`); `CoapWire.FirstSmallerBlock` is
  the block at which the two part.
- A reply-to with an IPv6 address cannot be parsed back (`CoapUri.ReplyToRoundTrip`).
- The maximum size that a "too large" response should announce is never written, because error responses are
  finished before (`coap_server.c:1790-1826`): `CoapServer.SizeNeverAnnounced`, `CoapNetwork.SizeNeverOnWire`.
- A malformed instance string ends a migration and leaves the rows behind it (`DatabaseMigration.MovedExactly`). If
  the old and the new path have the same hash, a row is deleted right after it has been stored
  (`database.c:1346-1363`): values survive exactly if the hashes differ (`DatabaseMigration.AllWellFormedMoved`).
- The loop that instantiates a path stays where it is if its buffer is full (`data_model.c:3312-3320`). This happens
  exactly if the buffer has no room for what is written up to the last character copied from the path
  (`SchemaPaths.StallsWithoutRoom`). Numbers behind that character would be cut off instead, so
  `SchemaPaths.FormInstantiatedPath` requires room for them too.
- `IsDbParam` admits kinds whose rows a delete does not remove (`InstanceLaws.SettableRowsSurvive`).

## Assumptions

Tokens drawn by the client have not been used before. Channels keep their order: the server remembers only the last
message id. `SchemaLookup.FoundIsMeant` assumes that no hash collides with the path looked up, and a table is found by
its path without the last number exactly if none does (`SchemaLookup.TableIsFound`); all other results hold for the
FNV-1 hash as it is. Names registered contain no dot, brace or asterisk and do not begin with a digit. Answers of the
surroundings (clock, random numbers, name lookup, connecting, sending, unpacking a record, the reply-to check, vendor
callbacks) are parameters.

## Model

| member | source | states |
|---|---|---|
| CoapIntegrity.Integrity | tr369/src/main/cpp/openTr369/core/coap_server.c:1229-1261 | In every run over channels that lose and duplicate, with retransmission, restarts and abandoned records: each record the server completes was begun at exactly one step, and is a submitted record behind what its session held before that step, which is made of beginnings of submitted records; it is byte for byte the submitted one if and only if the session held nothing then |
| CoapIntegrity.IntactUnlessMixed | tr369/src/main/cpp/openTr369/core/coap_server.c:1468-1479 | All records completed in a run are byte for byte the submitted ones if and only if none of them was begun while its session held bytes of another |
| CoapUnmixed.IntactUnlessGivenUp | tr369/src/main/cpp/openTr369/core/coap_client.c:868-902 | If the client gives no record up after retransmitting it in vain and the server accepts every sender, no record is ever begun on top of another, and every record completed is posted, byte for byte as submitted |
| CoapUnmixed.DeliveredIntact | tr369/src/main/cpp/openTr369/core/coap_client.c:768-855 | Under these conditions a record leaves the queue because of a 'Changed' response only if the server posted exactly this record in that very attempt |
| CoapAttempts.HandleWell | tr369/src/main/cpp/openTr369/core/coap_client.c:917-1004 | An event adds at most one entry to the open socket's log, leaves all other logs alone, and begins another record on a socket already used only after a final response, after giving up, or when lingering |
| CoapMixing.MixedRun | tr369/src/main/cpp/openTr369/core/coap_client.c:868-902 | Giving up does mix records: for every record of more than one block followed by a short one for the same peer there is a run in which the server posts the second behind the first block of the first |
| CoapDelivery.EveryRecordArrives | tr369/src/main/cpp/openTr369/core/coap_client.c:627-710 | Any record up to 64 KiB, of any number of blocks, submitted to a client at rest arrives whichever of its blocks and answers are lost, if its host is found, its socket opens and no block has to be sent more than four times: every run goes on, by lost copies, deliveries and answers alone, to a state in which exactly one more record has been completed, byte for byte this one, and posted, and it has left the queue as delivered |
| CoapDelivery.Transfer | tr369/src/main/cpp/openTr369/core/coap_server.c:1146-1262 | The same from any point of any run at which the session is ready for the block being sent |
| CoapExchange.AnswerLeadsOn | tr369/src/main/cpp/openTr369/core/coap_server.c:1790-1826 | Both ends together: the answer to a block that is taken, or was held already, makes the client send the next block, in the smaller of its own size and the one the server prefers; the answer to the last block makes it finish, with Changed exactly if the record unpacks |
| CoapExchange.RejectionEnds | tr369/src/main/cpp/openTr369/core/coap_client.c:786-791 | A block that is rejected ends the sending of its record, and the session forgets it |
| CoapExchange.OldAnswerIgnored | tr369/src/main/cpp/openTr369/core/coap_client.c:778-784 | In every run an answer to an earlier block of the record being sent is ignored, unless a multiple of 65536 PDUs lies between them |
| CoapSockets.BlocksGoRight | tr369/src/main/cpp/openTr369/core/coap_client.c:958-1003 | In every run each block was handed to a socket that leads to the address its host had when the attempt began and to its port, encrypted exactly if the record asks for that; the first block of a record that asks for a new socket was the first thing its socket carried |
| CoapSockets.HandleKeepsDirected | tr369/src/main/cpp/openTr369/core/coap_client.c:978-986 | After every event a client that sends does so over a socket that leads where the record has to go |
| CoapSockets.GoesWhereLookedUp | tr369/src/main/cpp/openTr369/core/coap_client.c:958-1003 | An attempt goes to the address just looked up, and opens a socket for it exactly unless the open one leads there and the record does not ask for a new one |
| CoapQueue.HeadStays | tr369/src/main/cpp/openTr369/core/coap_client.c:627-735 | The record being sent leaves the queue only if the server has settled it or the client has run out of retransmissions or attempts, not because it expires and not because of anything else that is read, lost or submitted |
| CoapQueue.FirstInFirstOut | tr369/src/main/cpp/openTr369/core/coap_client.c:508-581 | In every run the queue is what is left of the records submitted, in the order of their submission |
| CoapQueue.QueuedOnce | tr369/src/main/cpp/openTr369/core/coap_client.c:508-581 | A record that is queued already changes nothing; another one becomes the last, and nothing but expired records goes |
| CoapTimers.BacksOff | tr369/src/main/cpp/openTr369/core/coap_client.c:868-902 | Each time a block is not acknowledged in time it is sent again over the same socket and the wait doubles |
| CoapTimers.ReconnectsInstead | tr369/src/main/cpp/openTr369/core/coap_client.c:868-902 | An encrypted session is given up instead, and connected anew at once if nothing has failed before |
| CoapTimers.WaitsLonger | tr369/src/main/cpp/openTr369/core/coap_client.c:1217-1255 | Each time the host is not found the wait before the next attempt doubles |
| CoapTimers.StartsOver | tr369/src/main/cpp/openTr369/core/coap_client.c:749-775 | A RST, what is no acknowledgement, a foreign token, a faulty PDU or a lost connection make the client send the record again from its beginning over another connection, after a RST in answer except to a RST |
| CoapTimers.Lingers | tr369/src/main/cpp/openTr369/core/coap_client.c:943-952 | After its last record a client keeps its socket for five minutes and closes it then |
| CoapNetwork.DeliveredWasCompleted | tr369/src/main/cpp/openTr369/core/coap_client.c:768-855 | A record leaves the queue because of a 'Changed' response only if the server completed it in that very attempt |
| CoapNetwork.DeliveredWasPosted | tr369/src/main/cpp/openTr369/core/coap_server.c:1239-1254 | If every reply-to names its sender, such a record was posted |
| CoapNetwork.CompletedOncePerToken | tr369/src/main/cpp/openTr369/core/coap_server.c:1282-1288 | Within one attempt, that is under one token, a record is completed at most once |
| CoapNetwork.LockStep | tr369/src/main/cpp/openTr369/core/coap_server.c:1523-1569 | While the server assembles the record being sent it is at the client's current block or exactly one past it, in blocks and in bytes, through any sequence of block size reductions |
| CoapNetwork.NeverAhead | tr369/src/main/cpp/openTr369/core/coap_server.c:1510-1569 | The session never meets a block of its record later than the one it expects |
| CoapNetwork.NumberedAsStandard | tr369/src/main/cpp/openTr369/core/coap_client.c:681-692 | In every run a block lies at its number times its size if and only if it is the first of its record or the block size has not been reduced |
| CoapWire.NumbersAreCounts | tr369/src/main/cpp/openTr369/core/coap_client.c:684-692 | On every socket a block lies at or behind the position that its number and size announce, and behind it exactly if it is not the first and the size has been reduced |
| CoapWire.FirstSmallerBlock | tr369/src/main/cpp/openTr369/core/coap_client.c:681-709 | The block sent when the receiver first asks for a smaller size is numbered by the old size |
| CoapNetwork.SizeNeverOnWire | tr369/src/main/cpp/openTr369/core/coap_server.c:1790-1826 | In no run does a response, saved or on its way, announce the maximum size of a record |
| CoapNetwork.RecognisedAsRepeat | tr369/src/main/cpp/openTr369/core/coap_server.c:1282-1288 | A PDU is answered from memory exactly if a multiple of 65536 PDUs lies between it and the one handled last: always for a repetition, never for the next PDU |
| CoapNetwork.StepKeeps | tr369/src/main/cpp/openTr369/core/coap_client.c:447-490 | Every client event, every delivery and every answer keeps the invariant that relates the logs, the session, the answers under way and the completions |
| CoapWire.HandleKeepsWire | tr369/src/main/cpp/openTr369/core/coap_client.c:1304-1372 | Every event keeps what is known of the sockets' logs: message ids count up, a block continues its predecessor or opens an attempt under a token never used before, and carries the slice of its record that its number and size say |
| CoapWire.HandleFrom | tr369/src/main/cpp/openTr369/core/coap_client.c:508-581 | Everything on the wire and in the queue stems from a submitted record |
| CoapClientProofs.HandleKeepsSound | tr369/src/main/cpp/openTr369/core/coap_client.c:447-490 | Between events a client with records waits for exactly one thing, an acknowledgement over its socket or the time to reconnect, and a client without records for neither; exactly one event breaks this, an error response after the queue has become empty |
| CoapClientProofs.NeverStuck | tr369/src/main/cpp/openTr369/core/coap_client.c:447-490 | A client with records has exactly one deadline; a turn with nothing to read changes nothing before it and brings the client strictly closer to an empty queue from then on |
| CoapClientProofs.DuplicateErrorIsFatal | tr369/src/main/cpp/openTr369/core/coap_client.c:1680-1690 | That event, a late error response for the record sent last, reaches the assertion on the empty queue |
| CoapClientProofs.TurnDescends | tr369/src/main/cpp/openTr369/core/coap_client.c:627-710 | Every reaction to a PDU, a timeout or a lost connection decreases a lexicographic measure: queue, reconnections left, waiting, bytes left, retransmissions left |
| CoapClientProofs.SilenceIsEffective | tr369/src/main/cpp/openTr369/core/coap_client.c:868-902 | A timeout always changes the client, so silence alone drains the queue |
| CoapClientProofs.HandleKeepsSize | tr369/src/main/cpp/openTr369/core/coap_client.c:681-709 | The block size in use always has an encoding, whatever sizes the receiver asks for |
| CoapClientProofs.GivesUpOnSameSocket | tr369/src/main/cpp/openTr369/core/coap_client.c:868-902 | A client that gives up a record sends the next one for the same peer over the same socket under a new token |
| CoapClient.PurgesExpired | tr369/src/main/cpp/openTr369/core/coap_client.c:1638-1667 | Purging keeps the head of the queue, removes an expired record wherever else it is, and keeps all others in order |
| CoapSender.Sender.StopSendingToController | tr369/src/main/cpp/openTr369/core/coap_client.c:1181-1202 | Closes the socket and clears the transfer and all timers |
| CoapSender.Sender.RemoveExpiredCoapMessages | tr369/src/main/cpp/openTr369/core/coap_client.c:1638-1667 | Removes every expired record but the head, keeping the order |
| CoapSender.Sender.IsUspRecordInCoapQueue | tr369/src/main/cpp/openTr369/core/coap_client.c:1706-1726 | True exactly if a queued item has these bytes |
| CoapSender.Sender.SendCoapBlock | tr369/src/main/cpp/openTr369/core/coap_client.c:1349-1372 | Hands over the current block and starts waiting for its acknowledgement |
| CoapSender.Sender.SendFirstCoapBlock | tr369/src/main/cpp/openTr369/core/coap_client.c:1304-1336 | Starts a record under a new token at block 0; the new state is that of the specification |
| CoapSender.Sender.StartSendingCoapUspRecord | tr369/src/main/cpp/openTr369/core/coap_client.c:917-1004 | Moves on to a record, over the open socket if it leads to the right peer; the mutual recursion with retrying ends |
| CoapSender.Sender.ClientConnectToController | tr369/src/main/cpp/openTr369/core/coap_client.c:1019-1089 | Opens a socket, or leaves none |
| CoapSender.Sender.RetryClientSendLater | tr369/src/main/cpp/openTr369/core/coap_client.c:1217-1255 | Gives up the connection, then waits to reconnect or drops the record after four attempts |
| CoapSender.Sender.SendCoapRstFromClient | tr369/src/main/cpp/openTr369/core/coap_client.c:1269-1289 | Takes the next message id for a RST |
| CoapSender.Sender.CalcCoapClientActions | tr369/src/main/cpp/openTr369/core/coap_client.c:749-855 | The reaction to a PDU, test by test, is that of the specification |
| CoapSender.Sender.HandleCoapAck | tr369/src/main/cpp/openTr369/core/coap_client.c:627-710 | The state after any reading of the socket is that of the specification |
| CoapSender.Sender.HandleNoCoapAck | tr369/src/main/cpp/openTr369/core/coap_client.c:868-902 | Retransmits with doubled timeout, reconnects an encrypted session, or gives up |
| CoapSender.Sender.HandleCoapClientConnectionError | tr369/src/main/cpp/openTr369/core/coap_client.c:721-735 | A lost connection is retried if a record is queued |
| CoapSender.Sender.QueueBinaryMessage | tr369/src/main/cpp/openTr369/core/coap_client.c:508-581 | Queues a record unless it is queued already, and starts sending if it is the only one |
| CoapSender.Sender.ProcessSocketActivity | tr369/src/main/cpp/openTr369/core/coap_client.c:447-490 | One turn of the polling loop |
| CoapServer.TakenBlock | tr369/src/main/cpp/openTr369/core/coap_server.c:1370-1569 | A block is taken in exactly two situations: block 0 of a record not being assembled, or the one block that comes next in the record that is |
| CoapServer.StaysBounded | tr369/src/main/cpp/openTr369/core/coap_server.c:1583-1605 | Whatever datagram arrives, the assembled bytes stay within 64 KiB and the saved response belongs to the saved message id |
| CoapServer.SecondTimeIsReplay | tr369/src/main/cpp/openTr369/core/coap_server.c:1721-1743 | Receiving any PDU a second time changes nothing, completes nothing and repeats the response; it comes from memory exactly if the PDU was not refused with a RST and is no RST |
| CoapServer.SizeNeverAnnounced | tr369/src/main/cpp/openTr369/core/coap_server.c:1790-1826 | No response to any datagram announces a maximum size, not even one that says 'too large'; `CoapSession.SendCoapAck`, which has the branch that would, is proved never to take it for any flags |
| CoapServer.TokenChangeKeepsBytes | tr369/src/main/cpp/openTr369/core/coap_server.c:1468-1479 | A new token in the middle of a record leaves the bytes of that record in front of the new one |
| CoapServer.FreedIfPosted | tr369/src/main/cpp/openTr369/core/coap_server.c:1239-1261 | A completed record is freed exactly if it is posted or its response cannot be sent |
| CoapServer.WrongRequest | tr369/src/main/cpp/openTr369/core/coap_server.c:1325-1410 | Which of 4.05, 4.15, 4.04 and 4.00 answers a request that is wrong, in which order, and that the assembly is dropped |
| CoapServer.WrongBlock | tr369/src/main/cpp/openTr369/core/coap_server.c:1523-1605 | A block behind a gap or larger than the one before is answered with 4.08, one too much with 4.13; otherwise the block that comes next is taken |
| CoapServer.NoRequest | tr369/src/main/cpp/openTr369/core/coap_server.c:1290-1316 | What is no request is answered with a RST, except a RST, and drops the assembly |
| CoapServer.UnreadableDatagram | tr369/src/main/cpp/openTr369/core/coap_server.c:1196-1227 | A datagram that cannot be read is answered as the parser asks; one that is not answered changes nothing |
| CoapServer.DiscoveryAnswered | tr369/src/main/cpp/openTr369/core/coap_server.c:1318-1323 | Resource discovery is answered with link format and leaves a record being assembled alone |
| CoapServer.CoapSession.FreeReceivedUspRecord | tr369/src/main/cpp/openTr369/core/coap_server.c:1119-1131 | Empties the assembly |
| CoapServer.CoapSession.AppendCoapPayload | tr369/src/main/cpp/openTr369/core/coap_server.c:1583-1605 | Appends the payload, or refuses and leaves the buffer alone if it would become too long |
| CoapServer.CoapSession.HandleFirstCoapBlock | tr369/src/main/cpp/openTr369/core/coap_server.c:1370-1453 | Flags and new assembly are those of the verdict on a first block |
| CoapServer.CoapSession.HandleSubsequentCoapBlock | tr369/src/main/cpp/openTr369/core/coap_server.c:1468-1569 | Flags and new assembly are those of the verdict on a later block |
| CoapServer.CoapSession.CalcCoapServerActions | tr369/src/main/cpp/openTr369/core/coap_server.c:1278-1355 | The flags are those of the verdict on the PDU |
| CoapServer.CoapSession.CalcCoapClassForAck | tr369/src/main/cpp/openTr369/core/coap_server.c:1856-1914 | Class and code of the response for every combination of flags that occurs |
| CoapServer.CoapSession.SendCoapAck | tr369/src/main/cpp/openTr369/core/coap_server.c:1721-1743 | Writes, saves and sends the response of the specification; under no combination of flags does it carry the size option |
| CoapServer.CoapSession.ReceiveCoapBlock | tr369/src/main/cpp/openTr369/core/coap_server.c:1146-1262 | The whole effect of a datagram, well-formed or not, equals the specification; neither consistency check of the flags can fail |
| CoapOptions.OptionRoundTrip | tr369/src/main/cpp/openTr369/core/coap_common.c:857-949 | Walking over a written option returns it and stops right behind it, for all deltas and lengths below 268 |
| CoapOptions.OptionListRoundTrip | tr369/src/main/cpp/openTr369/core/coap_common.c:731-766 | Every list of options in ascending order is read back up to the marker or the end |
| CoapOptions.ReadsStandard | tr369/src/main/cpp/openTr369/core/coap_common.c:857-949 | Every option in the form of section 3.1 of RFC 7252 is read as it is meant, with deltas and lengths up to the largest of the standard, beyond what the writer writes |
| CoapOptions.CutShort | tr369/src/main/cpp/openTr369/core/coap_common.c:857-949 | Every option cut short, wherever, is malformed |
| CoapOptions.EncodeOption | tr369/src/main/cpp/openTr369/core/coap_common.c:617-673 | No written option begins with the end marker, and each needs at most three bytes besides its data |
| CoapOptions.WalkOption | tr369/src/main/cpp/openTr369/core/coap_common.c:857-949 | A successful step consumes at least one byte and stays within the datagram |
| CoapOptions.WriteOption | tr369/src/main/cpp/openTr369/core/coap_common.c:617-673 | Writes exactly the encoding behind what the buffer holds |
| CoapOptions.OptionWalker.WalkCoapOption | tr369/src/main/cpp/openTr369/core/coap_common.c:857-949 | Walks over one option of a buffer as specified, or gives up where it stands |
| CoapBlockOption.BlockRoundTrip | tr369/src/main/cpp/openTr369/core/coap_common.c:550-599 | Number, more-flag and size survive the Block1 option exactly if the number is below 2^20 |
| CoapBlockOption.ParsedSize | tr369/src/main/cpp/openTr369/core/coap_common.c:1139-1179 | A received block size is one of the seven, or 2048 for the reserved exponent |
| CoapBlockOption.SizeRoundTrip | tr369/src/main/cpp/openTr369/core/coap_common.c:1315-1374 | The exponent of each of the seven sizes gives the size back |
| CoapUri.ReplyToRoundTrip | tr369/src/main/cpp/openTr369/core/coap_common.c:1198-1255 | A reply-to survives exactly if its host contains no ':' and no '/' |
| CoapUri.HostIsPlain | tr369/src/main/cpp/openTr369/core/coap_common.c:1198-1255 | Whatever the query, the parser never yields a host with a separator in it |
| CoapCodec.PduRoundTrip | tr369/src/main/cpp/openTr369/core/coap_common.c:688-769 | Parsing header, token, options and payload as written amounts to applying the options in order; without a marker the option bytes come back as payload |
| CoapCodec.ParseListed | tr369/src/main/cpp/openTr369/core/coap_common.c:731-754 | Parsing options while walking equals reading the list and applying it up to the first option that does not fit |
| CoapCodec.AcceptedHeader | tr369/src/main/cpp/openTr369/core/coap_common.c:688-731 | Whatever datagram is accepted begins with the header and token of the PDU it is parsed to, with version 1, no reserved class and a token of at most 8 bytes |
| CoapCodec.ParseBytes | tr369/src/main/cpp/openTr369/core/coap_common.c:688-769 | A datagram is parsed, ignored, refused with a RST or rejected with Bad Option, never anything else |
| CoapRequests.RequestRoundTrip | tr369/src/main/cpp/openTr369/core/coap_client.c:1387-1499 | A written request reads back with its token, message id, path, reply-to, block, total size and payload exactly if peer address and path segments are not empty, the query is a reply-to of at most 127 bytes and the block number is below 2^20 |
| CoapWriter.WriteCoapBlock | tr369/src/main/cpp/openTr369/core/coap_client.c:1387-1499 | Writes exactly the encoded request, no longer than the size computed beforehand; returns 0 and writes nothing exactly if that size exceeds the buffer |
| CoapWriter.RoomOfRequest | tr369/src/main/cpp/openTr369/core/coap_client.c:1438-1445 | The size computed beforehand is the room for header, token, all options, marker and payload |
| CoapWriter.WriteOptions | tr369/src/main/cpp/openTr369/core/coap_client.c:1467-1487 | Writes a list of options, each relative to the one before |
| CoapWriter.AckRoundTrip | tr369/src/main/cpp/openTr369/core/coap_server.c:1759-1840 | A response reads back as written; one that asks for another block comes with its option bytes as payload |
| CoapWriter.WriteCoapAck | tr369/src/main/cpp/openTr369/core/coap_server.c:1759-1840 | Writes exactly the encoded response |
| CoapWriter.ParsePdu | tr369/src/main/cpp/openTr369/core/coap_common.c:688-769 | The parsing loop over a buffer equals the specification for every datagram |
| CoapDatagrams.DatagramArrives | tr369/src/main/cpp/openTr369/core/coap_server.c:1146-1262 | What the server does with the datagram of a block is what it does in a run with the block |
| CoapDatagrams.UnanswerableRequest | tr369/src/main/cpp/openTr369/core/coap_common.c:1035-1047 | A request without reply-to is rejected with Bad Option under its own message id and token |
| CoapDatagrams.RepliesAreWritable | tr369/src/main/cpp/openTr369/core/coap_server.c:1759-1840 | Whatever datagram arrives, the response can be written, now and when it is repeated |
| CoapDatagrams.ResponseArrives | tr369/src/main/cpp/openTr369/core/coap_client.c:749-855 | The client judges the datagram of a response as it judges in a run the response |
| CoapDatagrams.RstRoundTrip | tr369/src/main/cpp/openTr369/core/coap_common.c:510-533 | A written RST reads back with its message id and token |
| CoapDatagrams.ParsedInRange | tr369/src/main/cpp/openTr369/core/coap_common.c:688-769 | Message ids, tokens and blocks of parsed PDUs are in range for every input |
| InstanceNumbers.InstancesRoundTrip | tr369/src/main/cpp/openTr369/core/data_model.c:3773-3804 | Parsing a formed instance string gives back the list |
| InstanceNumbers.MalformedExactly | tr369/src/main/cpp/openTr369/core/data_model.c:3773-3850 | A string is malformed exactly if it holds anything but digits and dots |
| InstanceNumbers.InstanceTextInjective | tr369/src/main/cpp/openTr369/core/data_model.c:3726-3758 | So different lists have different strings |
| InstanceNumbers.FormInstanceString | tr369/src/main/cpp/openTr369/core/data_model.c:3726-3758 | The loop forms the string of the specification |
| InstanceNumbers.ParseInstanceString | tr369/src/main/cpp/openTr369/core/data_model.c:3773-3804 | The loop parses as the specification, failing on the same strings |
| InstanceNumbers.ParseInstanceInteger | tr369/src/main/cpp/openTr369/core/data_model.c:3819-3850 | Reads one number and moves behind the dot, or fails on the first character that is no digit |
| SchemaPaths.InstantiateThenScan | tr369/src/main/cpp/openTr369/core/data_model.c:2880-2981 | Scanning an instantiated path gives back its schema path and its numbers, or fails if there are more than six |
| SchemaPaths.ScanText | tr369/src/main/cpp/openTr369/core/data_model.c:2880-2981 | The same for paths with wildcards or '{i}' in place of numbers |
| SchemaPaths.ExtraDots | tr369/src/main/cpp/openTr369/core/data_model.c:2906-2923 | Doubled and trailing dots change nothing, in any path |
| SchemaPaths.InstantiateNeeds | tr369/src/main/cpp/openTr369/core/data_model.c:3281-3334 | A path is instantiated exactly if there are as many numbers as '{i}' |
| SchemaPaths.CalcHashFromPath | tr369/src/main/cpp/openTr369/core/data_model.c:2880-2981 | The loop yields the hash of the scanned schema path and the numbers, and fails exactly on more than six numbers |
| SchemaPaths.FormInstantiatedPath | tr369/src/main/cpp/openTr369/core/data_model.c:3281-3334 | With room for what is written, the loop ends and forms the path of the specification within its buffer, or fails as it does |
| SchemaPaths.StallsWithoutRoom | tr369/src/main/cpp/openTr369/core/data_model.c:3290-3320 | For every path, list of numbers and buffer size, right or wrong in number: the loop stalls if and only if it has a character to copy and the buffer no room for all it writes up to the last of these and the terminator |
| SchemaTree.FindExact | tr369/src/main/cpp/openTr369/core/data_model.c:4663-4678 | The index finds a node by its hash if there is one, and nothing else |
| SchemaTree.GrownOk | tr369/src/main/cpp/openTr369/core/data_model.c:3866-3907 | Creating and linking a node keeps index and tree in agreement: each node once in the bucket of its hash, distinct hashes, distinct sibling names, parameters before objects in the order of registration |
| SchemaRegistration.WalkKeeps | tr369/src/main/cpp/openTr369/core/data_model.c:3103-3263 | Registering any path keeps that agreement, whether it succeeds or fails, and takes nothing away |
| SchemaRegistration.WalkLeads | tr369/src/main/cpp/openTr369/core/data_model.c:3103-3263 | A successful registration leads to its node through nodes of the required kinds; where the kind of the last node is not checked, it is a table exactly if the path says so |
| SchemaRegistration.WalkGood | tr369/src/main/cpp/openTr369/core/data_model.c:3103-3263 | Registering names without dots, numbers and markers keeps the tree free of others |
| SchemaRegistration.AgainIsNoChange | tr369/src/main/cpp/openTr369/core/data_model.c:3215-3262 | Registering again finds the node if it may exist and fails if it may not; nothing changes |
| SchemaCreation.RegisterAdds | tr369/src/main/cpp/openTr369/core/data_model.c:3103-3263 | A path can be registered if and only if it has at most 32 segments, the nodes that exist along it are of the kinds asked for, the last one is missing or may exist, and every missing one is no table except at the end and has a hash that no other node has, be it old or new; then exactly its missing nodes are added |
| SchemaCreation.WalkAdds | tr369/src/main/cpp/openTr369/core/data_model.c:3135-3263 | What a registration adds, failed or not: nothing if a node that exists is not what is asked for, otherwise the missing nodes up to the first that cannot be created |
| SchemaCreation.WalkGrows | tr369/src/main/cpp/openTr369/core/data_model.c:3150-3192 | The nodes added are in order, with the names, kinds, paths and hashes asked for, each the only child of the one before; but for the child list they are linked into no other node changes |
| SchemaCreation.StepsAsked | tr369/src/main/cpp/openTr369/core/data_model.c:3103-3119 | A path asks for tables where it has markers, for objects elsewhere, and for the kind given at its end |
| SchemaCreation.ElsewhereRefused | tr369/src/main/cpp/openTr369/core/data_model.c:3122-3136 | A path that is empty, too long or below neither root is refused without change |
| SchemaLookup.SegmentsBack | tr369/src/main/cpp/openTr369/core/data_model.c:3927-3988 | Splitting the text of a path gives its segments back, instances making tables of them |
| SchemaLookup.RegisterAll | tr369/src/main/cpp/openTr369/core/data_model.c:3103-3263 | Any sequence of registrations keeps index and tree in agreement |
| SchemaLookup.RegisterThenFind | tr369/src/main/cpp/openTr369/core/data_model.c:3006-3085 | After a successful registration, and after any further ones, every instance of the path leads to its node, its numbers and 'qualified' |
| SchemaLookup.NodeIsFound | tr369/src/main/cpp/openTr369/core/data_model.c:3006-3085 | Every instance of the path of any node leads to that node, its numbers and 'qualified' |
| SchemaLookup.TableIsFound | tr369/src/main/cpp/openTr369/core/data_model.c:3013-3035 | A table path without its last number leads to the table, the other numbers and 'unqualified' if and only if no other path in the tree has the same hash as that path |
| SchemaLookup.FoundIsMeant | tr369/src/main/cpp/openTr369/core/data_model.c:3006-3085 | Conversely a node found is the one the path means, if no hash collides |
| SchemaLookup.DotsDoNotMatter | tr369/src/main/cpp/openTr369/core/data_model.c:2906-2923 | Looking up is indifferent to doubled and trailing dots |
| SchemaLookup.PathsDiffer | tr369/src/main/cpp/openTr369/core/data_model.c:3103-3263 | In every well-formed tree of such names as may be registered, different nodes have different paths |
| SchemaStore.EveryRunIsOk | tr369/src/main/cpp/openTr369/core/data_model.c:151-263 | From the two root nodes on, whatever has been registered, every node is found by its hash |
| SchemaStore.RootsApart | tr369/src/main/cpp/openTr369/core/data_model.c:151-163 | The hashes of the two root nodes differ |
| SchemaRuns.NodesAreFound | tr369/src/main/cpp/openTr369/core/data_model.c:3006-3085 | After any registrations, failed ones included, every node is found by every instance of its path |
| SchemaRuns.TablesAreFound | tr369/src/main/cpp/openTr369/core/data_model.c:3013-3035 | After any registrations, a table is found by its path without the last number exactly if no other path has the same hash |
| SchemaRuns.OrdersCount | tr369/src/main/cpp/openTr369/core/data_model.c:3194-3213 | After any registrations the order of every node is the number of '{i}' in its path |
| SchemaRuns.KeysLeadBack | tr369/src/main/cpp/openTr369/core/data_model.c:3354-3459 | After any registrations every instance of a parameter has a key exactly if it is one of the database, and the key leads back to its path |
| SchemaRuns.RenamedKeysLeadOn | tr369/src/main/cpp/openTr369/core/data_model.c:3354-3403 | After any registrations every instance of a renamed parameter has the key of the same instance of the new parameter exactly if that is one of the database, and the key leads to its path |
| SchemaStore.OrderIsMarkers | tr369/src/main/cpp/openTr369/core/data_model.c:3194-3213 | In every such tree the order of a node is the number of '{i}' in its path |
| SchemaStore.Schema.FindNodeFromHash | tr369/src/main/cpp/openTr369/core/data_model.c:4663-4678 | Searches one bucket; the result is that of the index |
| SchemaStore.Schema.CreateNode | tr369/src/main/cpp/openTr369/core/data_model.c:3866-3907 | Adds the node in front of its bucket, or nothing if its hash is taken |
| SchemaStore.Schema.FindMatchingChild | tr369/src/main/cpp/openTr369/core/data_model.c:3473-3493 | The child of that name, if any |
| SchemaStore.Schema.FindLinkToFirstObject | tr369/src/main/cpp/openTr369/core/data_model.c:4691-4711 | Position of the first object among the children |
| SchemaStore.Schema.LinkChild | tr369/src/main/cpp/openTr369/core/data_model.c:3173-3192 | Links a parameter before the first object, an object at the end |
| SchemaStore.Schema.AddSchemaPath | tr369/src/main/cpp/openTr369/core/data_model.c:3103-3263 | New tree and result are those of the specification |
| SchemaStore.Schema.GetNodeFromPath | tr369/src/main/cpp/openTr369/core/data_model.c:3006-3085 | The result is that of the specification, for every path |
| DatabaseKeys.PathToKeyToPath | tr369/src/main/cpp/openTr369/core/data_model.c:3354-3459 | In every such tree the key of a database parameter that has not been migrated leads back to its path |
| DatabaseKeys.MigratedKey | tr369/src/main/cpp/openTr369/core/data_model.c:3354-3459 | The key of a parameter, migrated or not, leads to the path of the node its rows are kept at exactly if that has as many instances |
| DatabaseKeys.KeysDiffer | tr369/src/main/cpp/openTr369/core/data_model.c:3354-3403 | No two instances of parameters share a key |
| InstanceCascade.DataModel.DeleteChildParams | tr369/src/main/cpp/openTr369/core/data_model.c:4179-4256 | Deletes exactly the rows of all database parameters below the node for every nested instance, exactly the nested instances, and queues one deletion for each |
| InstanceCascade.DataModel.DeleteChild | tr369/src/main/cpp/openTr369/core/data_model.c:4190-4247 | The same for one child, by its kind |
| InstanceCascade.DataModel.DeleteAllInstances | tr369/src/main/cpp/openTr369/core/data_model.c:4273-4328 | The same for all instances of a table |
| InstanceCascade.DataModel.DeleteInstance | tr369/src/main/cpp/openTr369/core/data_model.c:1028-1178 | Deletes an existing instance of a table with everything in it, and does nothing otherwise |
| InstanceCascade.DataModel.AddChildParams | tr369/src/main/cpp/openTr369/core/data_model.c:4054-4162 | Writes exactly the rows of the instance's own parameters, nested tables aside, or fails exactly if a value is not supplied |
| InstanceCascade.DataModel.AddInstance | tr369/src/main/cpp/openTr369/core/data_model.c:770-1014 | 'Existing' exactly if the number asked for is taken and may exist; an attempt exactly if it is not taken, the parent exists and the hooks consent; the attempt succeeds exactly if every own parameter has a value, and then adds the instance asked for, or else the one after the highest, with its rows; otherwise the instances stay as they were |
| InstanceCascade.DataModel.GetNextInstance | tr369/src/main/cpp/openTr369/core/dm_inst_vector.c:298-338 | One more than the highest number in the table |
| InstanceLaws.EachRemovalNotifiedOnce | tr369/src/main/cpp/openTr369/core/data_model.c:1158-1175 | Deleting an instance queues exactly one deletion for each instance removed, the deleted one first |
| InstanceLaws.AddThenDelete | tr369/src/main/cpp/openTr369/core/data_model.c:937-1013 | Adding an instance and deleting it again restores the instances, and restores the rows exactly if none of that instance's rows was there before |
| InstanceCascade.AddingKeepsClosed | tr369/src/main/cpp/openTr369/core/data_model.c:896-909 | No instance exists without those it is nested in: adding keeps this |
| InstanceCascade.DeletingKeepsClosed | tr369/src/main/cpp/openTr369/core/dm_inst_vector.c:187-236 | Deleting keeps it too |
| InstanceLaws.SettableRowsSurvive | tr369/src/main/cpp/openTr369/core/data_model.h:265-272 | A row that can be set from the command line is deleted exactly if its kind is one of the five that the data model stores and it is in the deleted instance |
| InstanceSet.DeletedTogether | tr369/src/main/cpp/openTr369/core/data_model.c:4179-4256 | Deletions of disjoint parts compose |
| InstanceScopes.SiblingUntouched | tr369/src/main/cpp/openTr369/core/data_model.c:4179-4256 | Deleting below one child leaves what is below another as it was |
| DatabaseMigration.AllWellFormedMoved | tr369/src/main/cpp/openTr369/core/database.c:1299-1369 | If no row is malformed, exactly the rows with the right number of instances are gone from the old hash; they are readable under the new one, with their values, if and only if it is another |
| DatabaseMigration.OthersUntouched | tr369/src/main/cpp/openTr369/core/database.c:1299-1369 | All other rows stay as they were |
| DatabaseMigration.MovedExactly | tr369/src/main/cpp/openTr369/core/database.c:1317-1365 | In general a row is moved exactly if it fits both paths and no malformed row comes before it |
| DatabaseMigration.UspDatabase.MigratePath | tr369/src/main/cpp/openTr369/core/database.c:1299-1369 | What becomes of every row of the database |
| BulkData.NextIntervalIsLeast | tr369/src/main/cpp/openTr369/core/device_bulkdata.c:2105-2118 | For a reference in the past or the future the wait is the least number of seconds in 1..interval that lands on the grid |
| BulkData.NextSend | tr369/src/main/cpp/openTr369/core/device_bulkdata.c:2066-2091 | The earlier of grid and retry is taken, the grid if there is no retry, and the retry count is kept exactly if the retry comes strictly first |
| BulkData.RunKeepsWindow | tr369/src/main/cpp/openTr369/core/device_bulkdata.c:2210-2282 | In every run of collections, failures, retries, successes and limit changes the retained reports are the newest since the last clearing, in order, at most one more than the maximum |
| BulkData.HandleKeepsWindow | tr369/src/main/cpp/openTr369/core/device_bulkdata.c:2227-2250 | A collection leaves at most one more than the limit, the new report among them; a retry adds none |
| BulkData.DropsOnlyOldest | tr369/src/main/cpp/openTr369/core/device_bulkdata.c:2227-2250 | A collection drops a retained report if and only if as many newer ones are retained as the limit allows; the number retained is the smaller of limit and old number, plus one for the new report |
| BulkData.RunRetains | tr369/src/main/cpp/openTr369/core/device_bulkdata.c:2210-2282 | If the limit never falls below n, at least the newest n unsent reports are retained in every run of collections, failures, retries and cancelled retries |
| BulkData.FailureIsRetried | tr369/src/main/cpp/openTr369/core/device_bulkdata.c:450-499 | A failed transfer keeps the reports, and is tried again exactly if a retry is allowed or under way and comes before the next report |
| BulkData.PushRetains | tr369/src/main/cpp/openTr369/core/device_bulkdata.c:2295-2373 | Sending as an event retains at most the one report that could not be sent, and loses nothing before notifications are enabled |
| BulkData.BulkDataProfile.ClearRetainedReports | tr369/src/main/cpp/openTr369/core/device_bulkdata.c:2419-2433 | No report is retained and no retry is under way |
| BulkData.BulkDataProfile.DropOldestRetainedReports | tr369/src/main/cpp/openTr369/core/device_bulkdata.c:2387-2406 | Keeps exactly the newest reports, in order |
| BulkData.BulkDataProfile.CollectReport | tr369/src/main/cpp/openTr369/core/device_bulkdata.c:2227-2250 | Drops to the limit, then appends; nothing during a retry |
| BulkData.BulkDataProfile.NotifyTransferResult | tr369/src/main/cpp/openTr369/core/device_bulkdata.c:450-499 | Clears after success, counts a retry after failure, and returns the wait to the earlier of grid and retry, cancelling the retry if the grid is not later |
| BulkData.BulkDataProfile.ResyncProfile | tr369/src/main/cpp/openTr369/core/device_bulkdata.c:2024-2052 | The wait to the earlier of grid and retry; the retry goes on exactly if it comes strictly first |
| BulkData.BulkDataProfile.ProcessHttp | tr369/src/main/cpp/openTr369/core/device_bulkdata.c:2210-2282 | Collects, and treats a report that cannot be scheduled as a failed transfer |
| BulkData.BulkDataProfile.ProcessUspEvent | tr369/src/main/cpp/openTr369/core/device_bulkdata.c:2295-2373 | Before notifications are enabled only the timer is set anew; without a time stamp nothing happens; otherwise a report stays only if it could be put together but not generated |
| AltNames.AltNameIsReduced | tr369/src/main/cpp/openTr369/core/device_bulkdata.c:2451-2547 | For every expression of literals, wildcards and search expressions, every expansion and every suffix: the alternative name, the indices in order and the suffix, separated by single dots; without an alternative name, the full path |
| AltNames.ReduceToAltName | tr369/src/main/cpp/openTr369/core/device_bulkdata.c:2451-2547 | The loop over expression, path and buffer writes the reduction of the specification |

## Left out

- Sockets, `select`, DTLS, cookies, name lookup and interface polling; their results are parameters.
- Choosing the session for a datagram and closing it when a peer disconnects (`coap_server.c`): each socket has one session, which lives on.
- PDUs from anyone but the server's session: in a run the client receives only what that session sent; the client's own proofs admit any PDU.
- CoapDelivery.EveryRecordArrives: over an encrypted session nothing may be lost, because the client then connects anew instead of sending a copy; that a later attempt arrives is not stated.
- Reordering in the network, and the 300 second lifetime of a session.
- The agent terminates if a request does not fit its buffer of 1152 bytes; in the runs every request fits.
- The token of a RST that answers a header with a bad version, class or token size is taken to be zeros of the announced length.
- NUL characters inside URI options, overflow of port numbers, and characters beyond ASCII in hashed paths.
- Splitting and percent-decoding the resource into path segments (`text_utils.c`): a request carries the segments. Records of 16 MiB and more, whose block numbers outgrow their field, only in `CoapBlockOption`.
- Buffer sizes of paths (256 characters) and of instance arrays (six numbers) except in the scan, which checks them, and in `SchemaPaths.FormInstantiatedPath`; instance numbers beyond 31 bits.
- Registering a path that begins with an instance, which the source does not check for.
- ParseSchemaPath is modelled on values: SchemaLookup.Pieces and SchemaLookup.Assemble split the text instead of replacing dots in a copy of it.
- InstanceCascade.DataModel.DeleteAllInstances: the instances are a set, so the order in which the instances of one table are deleted and notified is left open.
- InstanceCascade.DataModel.AddInstance: vendor hooks and grouped tables are one answer, and the queue of additions to notify is not modelled.
- Refreshing instances by callback, permissions, unique keys and operations of the data model.
- SQLite: the database is a finite map and its statements succeed. Obfuscated values.
- InstanceSet.Deleted: orphaned rows, of nested instances that do not exist, stay where they are, as in the source.
- BulkData.BulkDataProfile.NotifyTransferResult: whether the profile is enabled and the timer itself; the retry wait is a parameter, as is the generation, compression and sending of reports.
- AltNames.ReduceToAltName: the checks against a small output buffer; it is large enough.
- COAP_CLIENT_Stop, the CLI, STOMP, MQTT, certificates, the vendor layer, JNI and Java: thin code around libraries, or easy members.
