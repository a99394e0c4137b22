# zMQTT in Dafny

zMQTT is an MQTT 3.1.1 / 5.0 client. This project models the parts of it that are state machines or byte
arithmetic, and proves what they promise: the receiver's side of QoS 1 and 2 with session replay, the subscription
trie, the packet codec with its property blocks and incremental reader, packet identifier ownership and the
per-filter locks of the protocol engine, and the request/response dispatcher.

Each module follows one source file or one object of it.

| module | file | what it holds |
|---|---|---|
| `Util` | Util.dfy | options, results, lexicographic order, filtered sequences |
| `Topics` | Topics.dfy | topic filters: validation, stripping, matching, specificity |
| `Subscriptions` | Subscriptions.dfy | the wildcard trie as heap objects, against a scan of its registrations |
| `Wire`, `Properties`, `TypedProperties` | Wire.dfy, Properties.dfy, TypedProperties.dfy | wire fields, property blocks, the eleven typed property classes |
| `Codec`, `CodecProofs`, `Reader` | Codec.dfy, CodecProofs.dfy, Reader.dfy | the packets, their round trips, packet framing over a byte stream |
| `Layout` | Layout.dfy | the bytes of every packet as sections 1.5, 2 and 3 of MQTT 5.0 lay them out, with literal numbers, written apart from the codec |
| `State`, `Outbound` | State.dfy, Outbound.dfy | the identifier pool and the four maps of outstanding operations |
| `Guards`, `Ownership` | Guards.dfy, Ownership.dfy | filter locks of concurrent tasks, and the broker's filter set they protect |
| `Dispatcher`, `DispatcherLaws` | Dispatcher.dfy, DispatcherLaws.dfy | correlation-based request/response routing, and what each operation does field by field |
| `Replay`, `ReplayLaws` | Replay.dfy, ReplayLaws.dfy | the replay buffer of a resumed session, and what each operation does field by field |
| `Inbound`, `InboundLaws` | Inbound.dfy, InboundLaws.dfy | the inbound publish flow; duplicates, records and quota units |
| `Routing` | Routing.dfy | over runs of the inbound flow, each message goes where the selection sent it |
| `Session` | Session.dfy | the inbound flow and the replay buffer together |
| `Requests` | Requests.dfy | the inbound flow and the request dispatcher together |

How the source is represented:

- Objects whose methods update their fields are classes. Each method is proved against a function of the old state,
  and the promises are lemmas about those functions. Where the source awaits, the stretch between two awaits is one
  step; a run is any sequence of enabled steps, and the main results hold in every state any run reaches.
- Exceptions are error values (`Result`, `Option`), or a `closed` flag where they end the connection.
- The codec works on bytes: a string stands for its UTF-8 encoding, of length at most 65535. Topic filters in the trie
  are character strings, since the source splits and compares characters there.
- Python dictionaries whose order matters are sequences of pairs. Registrations of the trie are a sequence, oldest first.
- Futures, waiters and interests of the dispatcher are numbered; the numbers stand for object identity.
- The choice of a recipient, a full queue, a detached entry, a failing send and the end of a timer are parameters of a step.
  In `Session` the replay buffer decides what is held, and in `Requests` the dispatcher decides who gets a request.

Where a promise needs a condition, the condition is proved too:

- The trie walk agrees with `_match_parts` for every topic exactly for filters whose `#` is the last level
  (`Topics.WalkAgreesExactly`); every filter the client accepts has that shape, also after stripping.
- Releasing an identifier keeps the pool sound exactly when it is positive (`State.PacketIdPool.Release`).
- The counters of the replay buffer stay right throughout a run exactly when it is never cleared while an open pass has
  messages in its hands (`Replay.EveryRun`, `Replay.ClearAgrees`); `Replay.ClearDuringPass` is a run in which `_discard`
  then fails on a missing topic. That nothing is lost holds in every run (`Replay.NothingLost`).
- Held messages of one route leave in arrival order, in line with those still held, exactly as long as no delivery overtakes
  an unmatched message of its own route (`Replay.OrderedExactly`); an overtaken message may still be dropped, and what has
  left is in order exactly when nothing that has left was overtaken before (`Replay.ReleasedOrderedExactly`). In
  `Replay.RoomMidPassReorders` a queue gets room while the PUBACK of another message is sent, and the order is lost.
- A message under an identifier the broker may use again is taken in exactly when the drain no longer has the message that
  had it: the buffer discards an identifier only after the acknowledgement has been sent (`Session.ReuseLostExactly`,
  `Session.TakenInExactly`); in `Session.ReuseInHandLoses` the broker is faster, and the message is lost.
- A claimed QoS 2 response reaches its waiter exactly when its claim passes the guard of `complete` at PUBREL
  (`Requests.PubRelReachesExactly`); in `Requests.LateReleaseReachesNobody` the requester has given up, PUBCOMP goes out
  and nobody has the message.
- A response observer stays behind exactly when a topic whose observer is in place is forgotten without asking for its
  removal, a readiness task succeeds that nobody answers for any more, or a removal is given up before it has acted
  (`Dispatcher.StepTidy`, `Dispatcher.TidyExactly`). In `Dispatcher.CancelledTwiceLeavesObserver` a registration is cancelled
  twice before SUBACK, and one stays; a rejected SUBSCRIBE leaves nothing (`Dispatcher.RejectionLeavesNothing`).
- Receive Maximum covers every unfinished identifier throughout a run exactly when no flow ends under an identifier that
  another unfinished message has (`Inbound.CountedThroughoutExactly`); `Inbound.ReuseLosesCount` shows the loss when a
  broker reuses one, and `Inbound.UnfinishedIsCounted` that there is none when it does not.
- Every message goes where its selection sent it, stated over runs without the delivery functions (`Routing.SentWhereSelected`),
  and the bytes of every packet are those of a layout written apart from the encoder (`Layout.EncodedLayout`).
- A PUBCOMP ends an outbound flight whatever state it is in, where the specification expects a PUBREC first.

## Model

| member | source | states |
|---|---|---|
| Topics.ValidateSubscribeExact | src/zmqtt/_internal/types/topic.py:16-34 | the character checks accept exactly the non-empty filters whose levels are well formed and that have no `$` after the first character |
| Topics.StrippedFilterWellFormed | src/zmqtt/_internal/topic_matching.py:25-51 | stripping `$share`, or any decorator prefix, from an accepted filter leaves well-formed levels |
| Topics.ShareStripped | src/zmqtt/_internal/topic_matching.py:25-51 | a shared subscription is matched against what follows its group |
| Topics.DecoratorStripped | src/zmqtt/_internal/topic_matching.py:25-51 | a filter behind one of the stripped prefixes is matched without it |
| Topics.PlainUnchanged | src/zmqtt/_internal/topic_matching.py:25-51 | every other filter is matched as it is, `$share` without a filter behind its group included |
| Topics.TopicMatchesExactly | src/zmqtt/_internal/topic_matching.py:54-69 | a filter whose `#` is last matches a topic if and only if both or neither begin with `$` and the levels fit: equal or `+` one by one, a last `#` standing for its parent and all below |
| Topics.WalkAgreesExactly | src/zmqtt/_internal/topic_matching.py:60-69 | the trie walk and `_match_parts` agree on all topics if and only if `#` occurs only as the last level |
| Topics.SameSpecificitySameFilter | src/zmqtt/_internal/topic_matching.py:72-81 | two filters of equal specificity that match one topic are the same filter |
| Topics.SortsFirstExactly | src/zmqtt/_internal/topic_matching.py:72-81 | of two filters that match one topic, one sorts first if and only if, at the first level where they differ, it is literal and the other is not, or it is `+` against `#`, or it is the parent of the other's `#` |
| Subscriptions.SubscriptionIndex.constructor | src/zmqtt/_internal/subscription_index.py:33-37 | a new index is the valid index of no registrations |
| Subscriptions.SubscriptionIndex.Add | src/zmqtt/_internal/subscription_index.py:39-53 | the registration goes last, replacing one of the same filter, and the whole trie is again determined by the registrations |
| Subscriptions.SubscriptionIndex.Remove | src/zmqtt/_internal/subscription_index.py:80-95 | exactly the registration of that filter goes, with every node it alone kept alive |
| Subscriptions.SubscriptionIndex.RemoveEntry | src/zmqtt/_internal/subscription_index.py:154-175 | the recursive removal prunes exactly the nodes no registration needs any more |
| Subscriptions.SubscriptionIndex.Clear | src/zmqtt/_internal/subscription_index.py:97-101 | nothing is registered and no observer is left |
| Subscriptions.SubscriptionIndex.AddMany | src/zmqtt/_internal/subscription_index.py:103-105 | the registrations are those of adding the items one by one; entries of other filters stay |
| Subscriptions.SubscriptionIndex.AddResponseObserver | src/zmqtt/_internal/subscription_index.py:58-66 | true exactly for the first observer of a topic; the trie is untouched |
| Subscriptions.SubscriptionIndex.RemoveResponseObserver | src/zmqtt/_internal/subscription_index.py:68-72 | true exactly when the topic had an observer |
| Subscriptions.SubscriptionIndex.Contains | src/zmqtt/_internal/subscription_index.py:55-56 | true exactly when a registration has the filter |
| Subscriptions.SubscriptionIndex.Collect | src/zmqtt/_internal/subscription_index.py:177-204 | the walk appends, in its order, exactly what lies on matching paths below a node |
| Subscriptions.SubscriptionIndex.Match | src/zmqtt/_internal/subscription_index.py:107-115 | walk, filter and sort give the sorted scan of the registrations |
| Subscriptions.WalkFinds | src/zmqtt/_internal/subscription_index.py:177-204 | the walk finds a registration if and only if its path matches the topic level by level |
| Subscriptions.WalkIsScan | src/zmqtt/_internal/subscription_index.py:107-115 | walking the trie, filtering and sorting equals scanning all registrations, each once |
| Subscriptions.ScanRanked | src/zmqtt/_internal/subscription_index.py:107-115 | the answer is ordered by specificity, ties in registration order, without repetition |
| Subscriptions.MatchOrderedByLevels | src/zmqtt/_internal/subscription_index.py:107-115 | any two registrations in the answer are in the order their levels give, literal before `+` before `#` where they first differ, or have the same filter and are in registration order |
| Subscriptions.AcceptedMatchIsScan | src/zmqtt/_internal/subscription_index.py:107-115 | over accepted and stripped filters, match is exactly the scan with `_topic_matches` |
| Subscriptions.SubscriptionIndex.Select | src/zmqtt/_internal/subscription_index.py:123-124 | selecting uses exactly the candidates of match |
| Subscriptions.SelectIsEarliestMostSpecific | src/zmqtt/_internal/subscription_index.py:139-152 | every other match of the recipient's topic is less tight level by level, or has the same filter and was registered later; there is no recipient only if nothing matches |
| Subscriptions.ExactFilterWins | src/zmqtt/_internal/subscription_index.py:139-152 | a registered filter that equals the topic and has no wildcard is always the recipient's |
| Subscriptions.TiesReportedExactly | src/zmqtt/_internal/subscription_index.py:139-152 | the tied filters are, in registration order, exactly the matching registrations of the recipient's filter, and none if there is only one |
| Subscriptions.SubscriptionIndex.SelectByIdentifier | src/zmqtt/_internal/subscription_index.py:126-137 | the identifier table gives exactly the registrations that carry the identifier |
| Subscriptions.IdentifierRouting | src/zmqtt/_internal/subscription_index.py:126-137 | routing by identifier stays within its carriers and prefers those whose filter matches; the identifier is reported missing exactly when nobody carries it, and then recipient and ties are those of plain selection |
| Subscriptions.AddThenRemove | src/zmqtt/_internal/subscription_index.py:39-95 | adding a new filter and removing it leaves the registrations as they were |
| Subscriptions.LogDeterminesIndex | src/zmqtt/_internal/subscription_index.py:32-53 | two indexes with equal registrations have equal nodes, node lists and tables |
| Subscriptions.SameLogSameIndex | src/zmqtt/_internal/subscription_index.py:32-105 | whenever an index has the registrations of an earlier moment, its nodes, links, node lists and tables are those of that moment |
| Subscriptions.SubscriptionIndex.AddAndRemove | src/zmqtt/_internal/subscription_index.py:39-95 | adding a new filter and removing it restores every node, link, node list and table |
| Subscriptions.NoEmptyNode | src/zmqtt/_internal/subscription_index.py:154-175 | outside the root every node holds a registration or has a child |
| Wire.EncodeVarint | src/zmqtt/_internal/packets/_wire.py:9-23 | the loop writes the base-128 bytes of every value in range and rejects the rest |
| Wire.DecodeVarint | src/zmqtt/_internal/packets/_wire.py:26-45 | the loop reads what the recursive definition reads, within four bytes |
| Wire.VarintRoundTrip | src/zmqtt/_internal/packets/_wire.py:9-45 | an encoded value is read back with its width, at any offset |
| Wire.FieldRoundTrip | src/zmqtt/_internal/packets/_wire.py:48-79 | a length-prefixed field is read back with its length, at any offset |
| Properties.WireTypesPartition | src/zmqtt/_internal/packets/properties.py:49-98 | each of the 27 property ids has exactly one wire type |
| Properties.EncodeProps | src/zmqtt/_internal/packets/properties.py:100-119 | the loop writes the entries in order, a user property once per pair |
| Properties.DecodePropsBlock | src/zmqtt/_internal/packets/properties.py:130-179 | the loop reads the block as the recursive definition does and reports prefix plus body as consumed |
| Properties.PropsRoundTrip | src/zmqtt/_internal/packets/properties.py:100-179 | decoding the encoded entries loads exactly them, user pairs in order and with repeats |
| Properties.BlockRoundTrip | src/zmqtt/_internal/packets/properties.py:122-179 | a property block is read back at any offset, whatever follows it |
| TypedProperties.TypedRoundTrip | src/zmqtt/_internal/packets/properties.py:357-720 | a typed property object is read back with the bytes it took, an empty one as None |
| TypedProperties.ConnectLawful | src/zmqtt/_internal/packets/properties.py:357-376 | CONNECT properties survive the trip through the dictionary |
| TypedProperties.WillLawful | src/zmqtt/_internal/packets/properties.py:378-395 | will properties survive it |
| TypedProperties.ConnAckLawful | src/zmqtt/_internal/packets/properties.py:397-430 | CONNACK properties survive it |
| TypedProperties.PublishLawful | src/zmqtt/_internal/packets/properties.py:432-450 | PUBLISH properties survive it |
| TypedProperties.PubAckLawful | src/zmqtt/_internal/packets/properties.py:452-460 | acknowledgement properties survive it |
| TypedProperties.SubscribeLawful | src/zmqtt/_internal/packets/properties.py:462-470 | SUBSCRIBE properties survive it |
| TypedProperties.SubAckLawful | src/zmqtt/_internal/packets/properties.py:472-480 | SUBACK properties survive it |
| TypedProperties.UnsubscribeLawful | src/zmqtt/_internal/packets/properties.py:482-486 | UNSUBSCRIBE properties survive it |
| TypedProperties.UnsubAckLawful | src/zmqtt/_internal/packets/properties.py:488-496 | UNSUBACK properties survive it |
| TypedProperties.DisconnectLawful | src/zmqtt/_internal/packets/properties.py:498-512 | DISCONNECT properties survive it |
| TypedProperties.AuthLawful | src/zmqtt/_internal/packets/properties.py:514-528 | AUTH properties survive it |
| Codec.EncodeSubscribe | src/zmqtt/_internal/packets/codec.py:172-183 | the loop writes every request in order behind the fixed header, or fails as the first failing one |
| Codec.DecodeSubscribe | src/zmqtt/_internal/packets/codec.py:432-478 | the loop reads requests to the end of the body, or fails as the first failing one |
| Codec.EncodeUnsubscribe | src/zmqtt/_internal/packets/codec.py:194-200 | the loop writes every filter in order behind the fixed header |
| Codec.DecodeUnsubscribe | src/zmqtt/_internal/packets/codec.py:494-516 | the loop reads filters to the end of the body |
| Codec.Decode | src/zmqtt/_internal/packets/codec.py:552-651 | the inline header loop reports incomplete data, an oversized packet or a bad header exactly as the recursive reading does |
| CodecProofs.ConnectFlagBits | src/zmqtt/_internal/packets/codec.py:101-132 | the CONNECT flag bits are read back independently of each other |
| CodecProofs.ConnectRoundTrip | src/zmqtt/_internal/packets/codec.py:101-132 | CONNECT with any will, credentials and properties is read back |
| CodecProofs.ConnAckRoundTrip | src/zmqtt/_internal/packets/codec.py:135-140 | CONNACK is read back |
| CodecProofs.PublishRoundTrip | src/zmqtt/_internal/packets/codec.py:143-154 | PUBLISH is read back, a QoS 0 packet without its identifier |
| CodecProofs.AckRoundTrip | src/zmqtt/_internal/packets/codec.py:157-169 | PUBACK, PUBREC, PUBREL and PUBCOMP are read back in their short and long forms |
| CodecProofs.SubscribeRoundTrip | src/zmqtt/_internal/packets/codec.py:172-183 | SUBSCRIBE is read back, 3.1.1 keeping the QoS only |
| CodecProofs.SubAckRoundTrip | src/zmqtt/_internal/packets/codec.py:186-191 | SUBACK is read back |
| CodecProofs.UnsubscribeRoundTrip | src/zmqtt/_internal/packets/codec.py:194-200 | UNSUBSCRIBE is read back |
| CodecProofs.UnsubAckRoundTrip | src/zmqtt/_internal/packets/codec.py:203-209 | UNSUBACK is read back, on 3.1.1 without reason codes |
| CodecProofs.DisconnectRoundTrip | src/zmqtt/_internal/packets/codec.py:212-218 | DISCONNECT is read back, on 3.1.1 empty |
| CodecProofs.AuthRoundTrip | src/zmqtt/_internal/packets/codec.py:278-282 | AUTH is read back with its properties on either version |
| CodecProofs.PacketRoundTrip | src/zmqtt/_internal/packets/codec.py:221-651 | for every packet that encodes, any following bytes and any size limit, decoding gives its normal form and exactly its length, or the oversize error exactly when it is larger than the limit |
| CodecProofs.EncodingIsInjective | src/zmqtt/_internal/packets/codec.py:221-286 | packets with one encoding have one normal form |
| Layout.EncodedLayout | src/zmqtt/_internal/packets/codec.py:92-286 | every encoding is the literal first byte of its packet type and flags, the remaining length in base 128, and a body laid out as the standard says: big-endian identifiers, `MQTT` with its level, literal property identifiers |
| Layout.FirstByteIs | src/zmqtt/_internal/packets/codec.py:92-286 | 0x10, 0x20, 0x30 with DUP, QoS and RETAIN bits, 0x40, 0x50, 0x62, 0x70, 0x82, 0x90, 0xA2, 0xB0, 0xC0, 0xD0, 0xE0 and 0xF0, packet by packet |
| Layout.EncodesExactly | src/zmqtt/_internal/packets/codec.py:92-286 | a packet encodes if and only if every part of it fits its representation and its body has at most 268435455 bytes |
| Layout.ConnectLayout | src/zmqtt/_internal/packets/codec.py:101-132 | protocol name and level, the connect flags bit by bit, the big-endian keepalive, and the payload in the order of the standard |
| Layout.ConnAckLayout | src/zmqtt/_internal/packets/codec.py:135-140 | the session bit, the return code and the property block |
| Layout.PublishLayout | src/zmqtt/_internal/packets/codec.py:143-154 | the topic, a big-endian identifier above QoS 0, the property block and the payload |
| Layout.AckLayout | src/zmqtt/_internal/packets/codec.py:157-169 | the big-endian identifier, with reason code and properties only where they say something |
| Layout.SubscribeLayout | src/zmqtt/_internal/packets/codec.py:172-183 | the identifier, the property block, and each filter with its options byte |
| Layout.SubAckLayout | src/zmqtt/_internal/packets/codec.py:186-191 | the identifier, the property block and one byte for each code |
| Layout.UnsubscribeLayout | src/zmqtt/_internal/packets/codec.py:194-200 | the identifier, the property block and the filters |
| Layout.UnsubAckLayout | src/zmqtt/_internal/packets/codec.py:203-209 | the identifier, and on 5.0 the property block and the codes |
| Layout.DisconnectLayout | src/zmqtt/_internal/packets/codec.py:212-218 | empty on 3.1.1 and for a plain goodbye, else the reason code and the property block |
| Layout.AuthLayout | src/zmqtt/_internal/packets/codec.py:278-282 | the reason code and the property block |
| Layout.VarintLayout | src/zmqtt/_internal/packets/_wire.py:9-23 | the shortest base-128 form, lowest digits first, the top bit set on all bytes but the last |
| Layout.FieldLayout | src/zmqtt/_internal/packets/_wire.py:48-79 | a field is its big-endian length and its bytes |
| Layout.EntriesLayout | src/zmqtt/_internal/packets/properties.py:100-119 | each entry is its identifier byte and its value in the wire type the standard gives that number |
| Layout.BlockLayout | src/zmqtt/_internal/packets/properties.py:122-127 | a block is the length of its entries and the entries |
| Layout.ConnectEntries | src/zmqtt/_internal/packets/properties.py:357-376 | the CONNECT properties and the identifiers they are written under, in order |
| Layout.WillEntries | src/zmqtt/_internal/packets/properties.py:378-395 | likewise for the will |
| Layout.ConnAckEntries | src/zmqtt/_internal/packets/properties.py:397-430 | likewise for CONNACK |
| Layout.PublishEntries | src/zmqtt/_internal/packets/properties.py:432-450 | likewise for PUBLISH |
| Layout.PubAckEntries | src/zmqtt/_internal/packets/properties.py:452-460 | likewise for the acknowledgements |
| Layout.SubscribeEntries | src/zmqtt/_internal/packets/properties.py:462-470 | likewise for SUBSCRIBE |
| Layout.SubAckEntries | src/zmqtt/_internal/packets/properties.py:472-480 | likewise for SUBACK |
| Layout.UnsubscribeEntries | src/zmqtt/_internal/packets/properties.py:482-486 | likewise for UNSUBSCRIBE |
| Layout.UnsubAckEntries | src/zmqtt/_internal/packets/properties.py:488-496 | likewise for UNSUBACK |
| Layout.DisconnectEntries | src/zmqtt/_internal/packets/properties.py:498-512 | likewise for DISCONNECT |
| Layout.AuthEntries | src/zmqtt/_internal/packets/properties.py:514-528 | likewise for AUTH |
| Layout.HeaderReadExactly | src/zmqtt/_internal/packets/codec.py:572-603 | from any bytes with a remaining length: an oversized packet is refused at once, an unfinished one awaited, and the body of a whole one decoded by type and flags |
| Layout.NoLength | src/zmqtt/_internal/packets/codec.py:572-597 | without a finished remaining length more bytes are awaited, until four of them have their top bit set |
| Layout.AckReadExactly | src/zmqtt/_internal/packets/codec.py:414-429 | acknowledgements of any length: the reason code is optional, and so are the properties behind it |
| Layout.EndReadExactly | src/zmqtt/_internal/packets/codec.py:539-651 | DISCONNECT and AUTH may end early; packet type 0 is refused |
| Layout.ConnAckReadExactly | src/zmqtt/_internal/packets/codec.py:360-376 | a CONNACK without properties, and one that is too short |
| Layout.ConnectRefused | src/zmqtt/_internal/packets/codec.py:289-306 | a CONNECT that does not name MQTT, or has another level than 4 or 5 or a will of QoS 3, is refused |
| Layout.ShortRefused | src/zmqtt/_internal/packets/codec.py:379-530 | a body without its whole identifier, and a filter without its options byte, are refused |
| Layout.ReservedRefused | src/zmqtt/_internal/packets/codec.py:379-478 | QoS 3 and retain handling 3 are refused |
| Layout.NumberReadExactly | src/zmqtt/_internal/packets/properties.py:130-160 | an identifier outside the standard's 27 is refused; a numeric one is read in its width and replaces an earlier value |
| Layout.TextReadExactly | src/zmqtt/_internal/packets/properties.py:160-179 | a text property replaces an earlier value, a user property adds a pair behind those read before |
| Reader.DecodeStable | src/zmqtt/_internal/packets/codec.py:552-603 | once decoding gives a packet or an exception, later bytes do not change it |
| Reader.PrefixIsIncomplete | src/zmqtt/_internal/packets/codec.py:552-603 | a proper prefix of an encoded packet that the size limit allows is neither a packet nor an error |
| Reader.DrainInTwo | src/zmqtt/_internal/packets/reader.py:43-54 | draining a prefix and then the rest equals draining the whole |
| Reader.DrainExactly | src/zmqtt/_internal/packets/reader.py:43-54 | draining decodes packet after packet off the front, and stops exactly where decoding needs more bytes or raises, with that exception |
| Reader.PacketBuffer.constructor | src/zmqtt/_internal/packets/reader.py:26-34 | an empty buffer has been fed and has yielded nothing |
| Reader.PacketBuffer.Feed | src/zmqtt/_internal/packets/reader.py:36-41 | unread bytes are kept, parsed ones dropped, and what was yielded plus what is unread still equals one drain of everything fed; refused, with nothing changed, exactly while an iteration is suspended |
| Reader.PacketBuffer.Next | src/zmqtt/_internal/packets/reader.py:43-54 | one resumption yields the next packet, or ends or raises exactly as one drain of everything fed would |
| Reader.PacketBuffer.DrainAll | src/zmqtt/_internal/packets/reader.py:43-54 | iterating to the end yields the remaining packets and the same exception, if any |
| Reader.ChunkingIrrelevant | src/zmqtt/_internal/packets/reader.py:36-54 | two runs fed the same bytes, cut and iterated in any way, yield the same packets, keep the same unread bytes and end in the same exception |
| Reader.StreamRoundTrip | src/zmqtt/_internal/packets/reader.py:43-54 | a stream of encoded packets is read back packet by packet |
| Reader.EncodedStreamSurvivesChunking | src/zmqtt/_internal/packets/reader.py:36-54 | however such a stream is cut, exactly the encoded packets come out and nothing is left |
| State.SomeFreeAbove | src/zmqtt/_internal/state.py:20-29 | with fewer than 65535 identifiers taken and all below the cursor taken, one at or above it is free, so the loop never wraps |
| State.LeastFreeIsUnique | src/zmqtt/_internal/state.py:20-29 | there is only one least free identifier, so the result of acquire is determined |
| State.PacketIdPool.constructor | src/zmqtt/_internal/state.py:16-18 | no identifier is in use |
| State.PacketIdPool.Acquire | src/zmqtt/_internal/state.py:20-29 | terminates with the least free identifier of 1..65535, and fails exactly when all are taken |
| State.PacketIdPool.Release | src/zmqtt/_internal/state.py:31-33 | the identifier is free again, and the pool stays sound if and only if it is positive |
| Outbound.ReleaseOnce | src/zmqtt/_internal/protocol.py:682-706 | a PUBREL that follows its flight's accepted PUBREC keeps the discipline of one PUBREL per flight |
| Outbound.OperationOpened | src/zmqtt/_internal/protocol.py:352-381 | a fresh identifier recorded in any one of the four maps keeps them disjoint and equal to the identifiers in use |
| Outbound.Session.constructor | src/zmqtt/_internal/protocol.py:196-217 | a connection starts with nothing outstanding and with the QoS and retain limits of its CONNACK |
| Outbound.Session.Publish | src/zmqtt/_internal/protocol.py:336-381 | which error is raised when; otherwise the least free identifier owns a new flight, which stays if the send fails, and the packet is sent with it |
| Outbound.Session.HandlePubAck | src/zmqtt/_internal/protocol.py:672-680 | ends exactly the QoS 1 flight of the identifier, frees it and settles its future alone with that packet; an unknown identifier is an error that changes nothing |
| Outbound.Session.HandlePubRec | src/zmqtt/_internal/protocol.py:682-706 | PUBREL is sent at most once per flight and only for a PUBREC below 0x80 in the first state; a negative PUBREC ends the flight and fails its future alone |
| Outbound.Session.HandlePubComp | src/zmqtt/_internal/protocol.py:708-716 | ends exactly the QoS 2 flight of the identifier, frees it and settles its future alone; an unknown identifier is an error that changes nothing |
| Outbound.Session.BeginSubscribe | src/zmqtt/_internal/protocol.py:533-556 | SUBSCRIBE goes out under the least free identifier; which error is raised when, a failed send exactly when the connection lives, an identifier is free and the send fails; an error leaves no record, no identifier and no packet, and earlier futures as they were |
| Outbound.Session.EndSubscribe | src/zmqtt/_internal/protocol.py:557-560 | the `finally` block frees the identifier and nothing else |
| Outbound.Session.HandleSubAck | src/zmqtt/_internal/protocol.py:718-723 | settles the future of the pending SUBSCRIBE; unknown identifiers and a second SUBACK are errors |
| Outbound.Session.BeginUnsubscribe | src/zmqtt/_internal/protocol.py:562-576 | UNSUBSCRIBE goes out under the least free identifier, with the same errors, which leave as little behind |
| Outbound.Session.EndUnsubscribe | src/zmqtt/_internal/protocol.py:577-579 | the `finally` block frees the identifier and nothing else |
| Outbound.Session.HandleUnsubAck | src/zmqtt/_internal/protocol.py:725-732 | settles the future of the pending UNSUBSCRIBE, with the same errors |
| Outbound.Session.CancelWaiting | src/zmqtt/_internal/protocol.py:352-381 | a cancelled caller settles its own future only; its flight and identifier stay until the acknowledgement |
| Outbound.Session.ConnectionLost | src/zmqtt/_internal/protocol.py:302-322 | every future awaited by an operation on record fails unless it has its outcome, every other future stays as it is, and nothing can start afterwards |
| Guards.SortedDistinctIsRight | src/zmqtt/_internal/protocol.py:93-93 | the acquisition order is strictly ascending and has exactly the given filters |
| Guards.MutualExclusion | src/zmqtt/_internal/protocol.py:99-104 | two tasks never hold the same filter |
| Guards.NoDeadlock | src/zmqtt/_internal/protocol.py:91-110 | whenever tasks wait, the next lock of one of them is free or held by a task in its body |
| Guards.EmptyWhenUnused | src/zmqtt/_internal/protocol.py:105-110 | no guard is left when no task is inside |
| Guards.EveryRun | src/zmqtt/_internal/protocol.py:84-110 | all of this in every state of every interleaving, also when tasks are cancelled while they wait |
| Guards.SubscriptionGuards.Enter | src/zmqtt/_internal/protocol.py:91-98 | every guard of the task exists and counts it as one more user |
| Guards.SubscriptionGuards.Acquire | src/zmqtt/_internal/protocol.py:99-102 | exactly the next lock becomes the task's |
| Guards.SubscriptionGuards.Exit | src/zmqtt/_internal/protocol.py:104-110 | the task's locks are free, its references are gone, and exactly the unused guards are forgotten |
| Ownership.BrokerHoldsWhatIsNeeded | src/zmqtt/_internal/protocol.py:416-531 | over all interleavings, when a filter's guard is free the broker holds it exactly when a local entry or a response observer needs it |
| Ownership.BeginAgrees | src/zmqtt/_internal/protocol.py:416-531 | after the packets an operation sends, the broker's answer for each of its filters fits the new local state |
| Ownership.Connection.Subscribe | src/zmqtt/_internal/protocol.py:416-449 | filters without an entry get one with the given acknowledgement mode, identifier and stripped filter, other entries stay; one SUBSCRIBE for all the filters goes out |
| Ownership.Connection.Unsubscribe | src/zmqtt/_internal/protocol.py:480-498 | the entries go; UNSUBSCRIBE goes out for exactly the filters without an observer, then SUBSCRIBE for exactly the observed ones, each only if there are any |
| Ownership.Connection.AddResponseObserver | src/zmqtt/_internal/protocol.py:505-518 | the observer is recorded; SUBSCRIBE goes out if and only if the topic had neither an observer nor an entry |
| Ownership.Connection.RemoveResponseObserver | src/zmqtt/_internal/protocol.py:525-531 | the observer goes; UNSUBSCRIBE goes out if and only if the topic had an observer and has no entry |
| Ownership.Connection.Acknowledge | src/zmqtt/_internal/protocol.py:486-498 | the packet that was to follow is sent, or the operation is over |
| Dispatcher.PermitsAndRefcounts | src/zmqtt/_internal/request_response.py:99-213 | in every run, free permits, pending waiters and unregistrations under way add up to the capacity, and each topic's reference count is its number of pending keys |
| Dispatcher.QuietIsEmpty | src/zmqtt/_internal/request_response.py:159-197 | in every run, once nobody waits and no unregistration is under way, no topic is left and every permit is free |
| Dispatcher.RoutingIsExclusive | src/zmqtt/_internal/request_response.py:131-157 | in every run, a topic somebody waits on has its observer on this connection once its readiness task has succeeded, a waiter has at most one undelivered claim of this connection, and results carry the waiter's own key |
| Dispatcher.ReleasedWhenUnneeded | src/zmqtt/_internal/request_response.py:159-197 | whatever step asks for the removal of an observer, nobody waits on its topic any more, and the removal is asked of the current connection |
| Dispatcher.SettlesOnce | src/zmqtt/_internal/request_response.py:150-157 | a settled future never changes, in any run |
| Dispatcher.ResultIsClaimed | src/zmqtt/_internal/request_response.py:131-157 | a result comes from delivering a claim made for this waiter on the current connection |
| Dispatcher.ClaimReachesExactly | src/zmqtt/_internal/request_response.py:150-157 | delivering a claim gives its waiter the message if and only if the guard of `complete` holds, and touches nobody else |
| Dispatcher.StepTidy | src/zmqtt/_internal/request_response.py:84-213 | from a state with no observer left behind, a step leaves one behind if and only if it forgets a topic whose observer is in place without asking for its removal, lets a readiness task succeed that nobody answers for, or gives up a removal before it has acted |
| Dispatcher.TidyExactly | src/zmqtt/_internal/request_response.py:84-213 | throughout a run no observer is left behind if and only if no step of it is such a step |
| Dispatcher.NoObserverLeft | src/zmqtt/_internal/request_response.py:84-213 | once nobody waits, no unregistration is under way and no SUBSCRIBE awaits its answer, an observer remains on the connection if and only if one was left behind, and none does after a run without such a step, whatever became of its readiness tasks |
| Dispatcher.CancelledTwiceLeavesObserver | src/zmqtt/_internal/request_response.py:119-197 | a run in which a registration is cancelled, and cancelled again in the wait of its own `unregister`; SUBACK comes afterwards and the observer stays with nobody waiting |
| Dispatcher.RejectionLeavesNothing | src/zmqtt/_internal/protocol.py:505-518 | a run in which the broker rejects the response topic: the registration fails, and neither observer, topic nor permit is left behind |
| Dispatcher.RegisteredIsObserved | src/zmqtt/_internal/request_response.py:99-122 | registering takes one permit, and the waiter awaits the readiness task its topic has on this connection |
| Dispatcher.RequestDispatcher.Create | src/zmqtt/_internal/request_response.py:70-78 | refused exactly for a capacity of zero or less |
| Dispatcher.RequestDispatcher.BeginRegister | src/zmqtt/_internal/request_response.py:99-122 | registers the waiter and its interest, or gives the permit straight back for a key in use or without a connection |
| Dispatcher.RequestDispatcher.BeginUnregister | src/zmqtt/_internal/request_response.py:159-184 | removes the waiter only if it is the registered one, and suspends only for the last waiter of a topic whose readiness task is under way, or for the removal of its observer |
| Dispatcher.RequestDispatcher.ResumeReady | src/zmqtt/_internal/request_response.py:181-197 | forgets the interest exactly if it is unused and current, and then asks for the observer's removal exactly if the readiness task was seen to succeed and a connection is bound; otherwise the permit goes back; no observer is left behind if a forgotten topic was seen ready on a bound connection |
| Dispatcher.RequestDispatcher.StartReadiness | src/zmqtt/_internal/protocol.py:499-511 | with the guard of its topic, a readiness task puts the observer in place, and is over at once exactly if it was there or an application has subscribed |
| Dispatcher.RequestDispatcher.EndReadiness | src/zmqtt/_internal/protocol.py:512-518 | the observer is in place after the answer to SUBSCRIBE if and only if it was granted |
| Dispatcher.RequestDispatcher.ReturnRequest | src/zmqtt/_internal/request_response.py:119-123 | registration returns only once its readiness task has succeeded, and changes nothing else |
| Dispatcher.RequestDispatcher.ActOnRemoval | src/zmqtt/_internal/protocol.py:520-527 | with the guard of its topic, a removal takes the observer out and leaves no other behind |
| Dispatcher.RequestDispatcher.ResumeRemoval | src/zmqtt/_internal/request_response.py:191-197 | the permit goes back, whatever became of the removal |
| Dispatcher.RequestDispatcher.CloseRequest | src/zmqtt/_internal/request_response.py:29-38 | unregisters on the first call and does nothing on later ones |
| Dispatcher.RequestDispatcher.Restore | src/zmqtt/_internal/request_response.py:93-97 | a topic somebody waits on has a readiness task on this connection, started once, and then exactly that task is new; nothing is left behind by it |
| Dispatcher.RequestDispatcher.Reserve | src/zmqtt/_internal/request_response.py:131-148 | a claim exactly when an unclaimed, undone waiter has the message's key |
| Dispatcher.RequestDispatcher.Deliver | src/zmqtt/_internal/request_response.py:150-157 | the waiter gets the message only on the claim's connection, if registered and undone |
| Dispatcher.RequestDispatcher.BindProtocol | src/zmqtt/_internal/request_response.py:84-91 | all registered waiters are unclaimed and all live topics need their observer again |
| Dispatcher.RequestDispatcher.CancelAll | src/zmqtt/_internal/request_response.py:199-213 | every waiter fails or keeps its outcome, and one permit comes back for each |
| DispatcherLaws.RegisterExactly | src/zmqtt/_internal/request_response.py:99-129 | the permit, the record, the count of the topic and its readiness task, each with its new value; a key in use or a missing connection changes nothing |
| DispatcherLaws.UnregisterExactly | src/zmqtt/_internal/request_response.py:159-184 | the waiter is out and settled, its topic counts one less, and what is left to do depends on that count and on how far readiness has come |
| DispatcherLaws.UnregisteredOnce | src/zmqtt/_internal/request_response.py:159-184 | unregistering again, or closing again, does nothing |
| DispatcherLaws.CloseExactly | src/zmqtt/_internal/request_response.py:29-38 | the first close marks a registered waiter closed and unregisters it |
| DispatcherLaws.BindExactly | src/zmqtt/_internal/request_response.py:84-91 | exactly the registered waiters may be claimed again, and exactly the topics on record have to be made ready again |
| DispatcherLaws.CancelExactly | src/zmqtt/_internal/request_response.py:199-213 | nothing is registered any more, exactly the registered waiters without an outcome fail, and each gives its permit back |
| DispatcherLaws.ClaimExactly | src/zmqtt/_internal/request_response.py:131-148 | a message is claimed if and only if it carries the key of a registered waiter neither claimed nor settled; the claim and its mark are all that changes |
| DispatcherLaws.DeliverExactly | src/zmqtt/_internal/request_response.py:150-157 | a delivered claim settles its own waiter with its own message under the guard of `complete`, and changes no more |
| DispatcherLaws.ResultsAnswer | src/zmqtt/_internal/request_response.py:131-157 | in every run a result has the topic and the correlation data its waiter asked for |
| DispatcherLaws.StartExactly | src/zmqtt/_internal/protocol.py:499-511 | with the guard a readiness task is over at once if the observer is there or an application has subscribed, else it subscribes |
| DispatcherLaws.EndExactly | src/zmqtt/_internal/protocol.py:512-518 | the answer to its SUBSCRIBE ends the task and decides whether its observer stays |
| DispatcherLaws.RemovalExactly | src/zmqtt/_internal/protocol.py:520-527 | a removal with the guard takes out the one observer of its topic and connection |
| Replay.NothingLost | src/zmqtt/_internal/inbound.py:128-255 | in every run without exception, every buffered message is held, was handed on or was dropped, exactly once |
| Replay.EveryRun | src/zmqtt/_internal/inbound.py:128-255 | throughout a run count, topics and identifiers agree with what is held and a positive limit is kept, if and only if every clearing finds no message in the hands of a pass |
| Replay.ClearAgrees | src/zmqtt/_internal/inbound.py:182-188 | clearing keeps the agreement if and only if no open pass has messages in its hands |
| Replay.ClearDuringPass | src/zmqtt/_internal/inbound.py:182-255 | a run in which it does not: the count ends at minus one and the topic is missing |
| Replay.DeliveryOrderExactly | src/zmqtt/_internal/inbound.py:217-237 | a delivery keeps arrival order if and only if it goes to a request or no unmatched message of its pass has its route |
| Replay.OrderedExactly | src/zmqtt/_internal/inbound.py:133-237 | with the counters right, throughout a run what has left and what is held together keep arrival order, route by route, if and only if no delivery overtakes; what has left is then in arrival order |
| Replay.ReleasedOrderedExactly | src/zmqtt/_internal/inbound.py:133-237 | with the counters right, what has left a buffer is in arrival order, route by route, if and only if nothing that has left was overtaken before |
| Replay.ReleasedInArrivalOrder | src/zmqtt/_internal/inbound.py:133-237 | they do while blocked routes stay blocked in a pass |
| Replay.RoomMidPassReorders | src/zmqtt/_internal/inbound.py:210-237 | a run in which a queue gets room while the PUBACK of another message is sent, and the order is lost |
| Replay.PassingPartitions | src/zmqtt/_internal/inbound.py:210-237 | a pass keeps the messages nobody can take, in order, and hands on the others |
| Replay.PersistentReplayBuffered.Accept | src/zmqtt/_internal/inbound.py:128-155 | which messages pass, are duplicates, overflow or are buffered, and how each changes the buffer |
| Replay.PersistentReplayBuffered.DeliverPending | src/zmqtt/_internal/inbound.py:210-237 | the nested loops over swapped queues keep and hand on what a single pass over the queue does, also when a delivery raises |
| Replay.PersistentReplayBuffered.DiscardOne | src/zmqtt/_internal/inbound.py:247-255 | one message less in each counter; a topic not on record is the KeyError raised once the count is lowered |
| Replay.PersistentReplayBuffered.Drain | src/zmqtt/_internal/inbound.py:157-163 | what one pass keeps stays and what it hands on has left, in order; the buffer stays exactly while something is held |
| Replay.PersistentReplayBuffered.Expire | src/zmqtt/_internal/inbound.py:165-177 | exactly what the last pass kept is dropped; if the pass raises nothing is |
| ReplayLaws.AcceptExactly | src/zmqtt/_internal/inbound.py:128-155 | a request, or a subscription none of whose messages wait, takes the message at once; any other is a duplicate, one too many, or goes to the end of the queue and is counted |
| ReplayLaws.TurnExactly | src/zmqtt/_internal/inbound.py:217-231 | a turn takes the first message of the pass, back behind the unmatched ones or out for delivery |
| ReplayLaws.DeliveredExactly | src/zmqtt/_internal/inbound.py:229-233 | a delivery that returns lowers count, topic and identifiers by its own message and leaves the pass open |
| ReplayLaws.PassEndExactly | src/zmqtt/_internal/inbound.py:234-237 | however a pass ends, what it did not hand on stands before what came meanwhile, the message whose delivery raised too |
| ReplayLaws.ClearExactly | src/zmqtt/_internal/inbound.py:182-188 | clearing empties the queue and every counter, and nothing else |
| ReplayLaws.PassingExactly | src/zmqtt/_internal/inbound.py:210-237 | up to the first delivery that raises, a pass hands on exactly the messages with a free recipient and keeps the others in order; from there on it keeps all |
| Inbound.EveryRun | src/zmqtt/_internal/inbound.py:262-545 | in every run each event was justified when it happened, QoS 2 identifiers are disjoint, held and dropped messages have no history, and the quota holds |
| Inbound.ExactlyOnce | src/zmqtt/_internal/inbound.py:340-545 | in every run, a message reaches the application at most once, at QoS 2 within its exchange; a new exchange begins after the PUBCOMP of the last on its identifier; by its PUBCOMP a message was delivered, had no recipient, met one that was gone, or waits for room |
| Inbound.AcknowledgedExactly | src/zmqtt/_internal/inbound.py:413-545 | in every run, PUBACK has been sent exactly for QoS 1 messages delivered or unclaimed, by hand exactly after ack(), and PUBREC exactly for accepted exchanges, by hand exactly after ack(); each was due when sent, PUBACK once; what is held, dropped or refused has neither |
| Routing.SentWhereSelected | src/zmqtt/_internal/inbound.py:353-545 | in every run, a message taken or drained for nobody is dropped as unclaimed, one for a request is handed over, one for an attached subscription is put on its queue or waits for room there, at QoS 2 with automatic acknowledgement after PUBREL; it is refused if and only if its subscription was detached, and waits for ack() if and only if the subscription acknowledges by hand |
| Routing.SentOnlyWhereSelected | src/zmqtt/_internal/inbound.py:353-545 | in every run, a message is refused, unclaimed, handed over, enqueued, lost or left to ack() only if a step selected that kind of recipient for it, and one turned away leaves no trace |
| InboundLaws.OnRecordUntilDone | src/zmqtt/_internal/inbound.py:448-498 | in every run an accepted exchange is on record until its PUBCOMP, where PUBREL or ack() finds it, and a QoS 1 message left to the application keeps its callback |
| Inbound.EveryPubRelAnswered | src/zmqtt/_internal/inbound.py:340-351 | in every run there are as many PUBCOMPs as PUBRELs, and no exchange is left open but those on record |
| Inbound.NoMessageLost | src/zmqtt/_internal/inbound.py:327-498 | in every run, each message received is on record, has a history, or was turned away; while connected, one turned away repeats the identifier of an earlier one that was taken in |
| Inbound.UnfinishedIsCounted | src/zmqtt/_internal/inbound.py:500-518 | with a broker that reuses no unfinished identifier, every identifier held, awaiting ack() or awaiting PUBREL is counted |
| InboundLaws.UnitsGivenBack | src/zmqtt/_internal/inbound.py:500-518 | in every run, whatever the broker does, a unit is held only for a message received under its identifier and not ended by its own PUBACK or PUBCOMP |
| InboundLaws.DuplicateExactly | src/zmqtt/_internal/inbound.py:413-465 | a PUBLISH past Receive Maximum ends the connection; a repeated QoS 2 one is answered with PUBREC for the exchange on record, or ignored while ack() is awaited; one whose identifier is held is ignored |
| InboundLaws.SelectsExactly | src/zmqtt/_internal/inbound.py:327-465 | a recipient is selected for a PUBLISH if and only if it ends no connection, repeats no exchange and has no held identifier |
| InboundLaws.TakenInExactly | src/zmqtt/_internal/inbound.py:392-465 | any other one is counted at QoS 1 and 2, and held, refused as one too many, or handed on as the replay layer says |
| Inbound.StepCoversExactly | src/zmqtt/_internal/inbound.py:500-518 | a PUBACK or PUBCOMP leaves every unfinished identifier counted if and only if no other unfinished message has the identifier; every other step does |
| Inbound.CountedThroughoutExactly | src/zmqtt/_internal/inbound.py:500-518 | every unfinished identifier stays counted throughout a run if and only if every flow that ends in it ends alone |
| Inbound.ReuseLosesCount | src/zmqtt/_internal/inbound.py:513-518 | a QoS 1 PUBLISH under an identifier awaiting PUBREL takes its unit away |
| Inbound.StepQuota | src/zmqtt/_internal/inbound.py:500-518 | while connected, at most Receive Maximum identifiers are unacknowledged after every handler |
| Inbound.InboundPublishFlow.HandlePublish | src/zmqtt/_internal/inbound.py:327-338 | quota, duplicate checks and routing for the three QoS levels |
| Inbound.InboundPublishFlow.HandlePubRel | src/zmqtt/_internal/inbound.py:340-351 | PUBCOMP always, 0x92 for an unknown exchange, and delivery of an undelivered one unless its recipient is gone, with each field and each packet stated |
| Inbound.InboundPublishFlow.HoldReceiveQuota | src/zmqtt/_internal/inbound.py:500-511 | the identifier is counted once, and the connection closes exactly when the limit is passed |
| Inbound.InboundPublishFlow.DeliverTo | src/zmqtt/_internal/inbound.py:520-545 | hand over, report nobody, refuse a detached entry, or wait for the queue |
| Inbound.InboundPublishFlow.DeliverQoS1Publish | src/zmqtt/_internal/inbound.py:425-446 | automatic acknowledgement after delivery, or a callback for the application; over runs, `Routing.SentWhereSelected` says where the message goes |
| Inbound.InboundPublishFlow.AcceptQoS2Publish | src/zmqtt/_internal/inbound.py:467-498 | an exchange with PUBREC at once, or one that waits for the application |
| Inbound.InboundPublishFlow.ResumePut | src/zmqtt/_internal/inbound.py:538-545 | the message is on its queue; PUBACK follows unless the entry was detached meanwhile |
| Inbound.InboundPublishFlow.Ack | src/zmqtt/_internal/types/message.py:33-42 | the first ack() sends PUBACK or PUBREC, and only if a callback is attached; the exchange then awaits PUBREL |
| Inbound.InboundPublishFlow.DeliverReplay | src/zmqtt/_internal/inbound.py:400-411 | a held message leaves the buffer and takes its QoS path |
| Inbound.InboundPublishFlow.EndDrain | src/zmqtt/_internal/inbound.py:312-317 | the buffer stays exactly while something is held |
| Inbound.InboundPublishFlow.Expire | src/zmqtt/_internal/inbound.py:319-325 | all that is held is dropped without acknowledgement, and replay ends |
| Inbound.InboundPublishFlow.Clear | src/zmqtt/_internal/inbound.py:308-310 | the connection is closed, and all that is held is dropped but what a pass has in its hands |
| Session.NeverDuplicate | src/zmqtt/_internal/inbound.py:128-155 | what the flow takes in is never a duplicate to the replay buffer |
| Session.WaitsExactly | src/zmqtt/_internal/inbound.py:128-155 | on a resumed session a message waits if and only if no request claims it, nobody subscribes or an earlier message on its topic waits, and the buffer is not full; in a full one it ends the connection |
| Session.HeldIsBuffered | src/zmqtt/_internal/inbound.py:262-325 | in every run of flow and buffer, the buffer holds exactly the messages the flow holds and the one whose acknowledgement is being sent, in arrival order, answers for exactly their identifiers, counts and bounds them, and stays while it holds any |
| Session.ReuseLostExactly | src/zmqtt/_internal/inbound.py:413-465 | a PUBLISH under an identifier whose last PUBACK or PUBCOMP has been sent is dropped if and only if the message that had the identifier is still in the hands of the drain; it then takes a unit of the quota and does nothing more |
| Session.TakenInExactly | src/zmqtt/_internal/inbound.py:210-255 | over a run with a broker that reuses identifiers only so, and a connection that stays up, every message is taken in if and only if no PUBLISH comes under the identifier of a message in the hands of the drain |
| Session.ReuseInHandLoses | src/zmqtt/_internal/inbound.py:229-233 | a run in which the broker uses the identifier again while PUBACK is sent: the second message is dropped, no acknowledgement follows, and it keeps its unit of the quota |
| Requests.RequestChosenExactly | src/zmqtt/_internal/inbound.py:353-364 | a message goes to a request if and only if it is claimable when its recipient is selected, and at QoS 0 and 1 answers it at once |
| Requests.PubRelReachesExactly | src/zmqtt/_internal/inbound.py:340-351 | PUBREL for a claimed message: PUBCOMP always, and the waiter gets the message if and only if the claim still passes the guard of `complete` |
| Requests.AnsweredExactly | src/zmqtt/_internal/request_response.py:131-157 | in every run of flow and dispatcher, messages handed to requests and waiters with a result correspond one to one, each under the waiter's own key |
| Requests.ClaimedExactly | src/zmqtt/_internal/inbound.py:340-545 | in every run, a claimed message awaits PUBREL, was handed on or found its claim stale, exactly one of these, and at QoS 0 and 1 was handed on |
| Requests.LateReleaseReachesNobody | src/zmqtt/_internal/inbound.py:340-351 | a run in which the requester gives up between PUBREC and PUBREL: PUBCOMP is sent and nobody has the message |

## Left out

- Transports, TLS, sockets, the asyncio event loop, logging, error texts and reason-name tables: the wire is a byte sequence or a trace of packets.
- `client.py`: the public API, option validation and the reconnect loop; a new session state and a new flow are made per connection, so all claims are per connection.
- Ownership: a connection already found dead, on which unsubscribing and adding an observer raise and removing one sends nothing; connections here are alive.
- Timers: keepalive ping, CONNACK timeout and replay sleep; expiry is a step that may happen at any time.
- UTF-8 validity: a decoded string is its bytes, so the decoding error for invalid UTF-8 is not modelled.
- Reader.PacketBuffer.Feed: one iteration at a time may be suspended here; with several, feeding is refused until all have ended.
- `SessionState.clear`: nothing calls it.
- Outbound.Session.Publish: the wait for the acknowledgement and the rejection of a negative PUBACK in the caller are not modelled, since they change no session state.
- Partly rejected SUBSCRIBE packets, detached entries, their restoring after a reconnect, and cancellation between SUBSCRIBE and SUBACK: the broker's filter set is then not determined by this code, and `Ownership.BrokerHoldsWhatIsNeeded` is about runs without them.
- Fairness of asyncio locks: a free lock may be taken by any waiting task, which includes the order asyncio uses; the same holds for semaphore permits, whose hand-over to a waiting task counts as one step.
- Cancellation inside a packet send and inside a replay delivery of the inbound flow: a failed send ends the run.
- Inbound.InboundPublishFlow.DeliverTo: when an entry is detached while `put` waits, the source removes the oldest queue item, which may be another message; the model records the waiting message as withdrawn and withholds the PUBACK.
- Inbound.InboundPublishFlow.HandlePublish: which recipient is selected and whether the replay layer takes a message are parameters of the method; `Session` and `Requests` determine the latter and the choice of a request, `Subscriptions` the choice of a subscription.
- Inbound.InboundPublishFlow.Clear: a pass suspended when the connection ends goes on with the messages in its hands; the flow is not followed beyond that point.
- Replay.PersistentReplayBuffered.DeliverPending: the method is one uninterrupted pass; passes interleaved with arrivals, clearing and changes of queues are the runs of `Replay.Step`.
- Session: a send that fails while a held message is handed on is not followed, since it ends the connection.
- Dispatcher: application subscriptions also take the guard of a response topic; here a readiness task or a removal may wait for it as long as it likes, and whether an application has subscribed is a parameter of the step.
- A QoS 1 or 2 PUBLISH without a packet identifier: the flow raises ValueError for it, but the decoder never produces one.
- QoS 2 deduplication across connections: the code does not attempt it.
- Dispatcher: a waiter of the semaphore that is cancelled between the hand-over of its permit and its resumption is not modelled.
