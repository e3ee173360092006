# Wirefox transport, modelled and verified in Dafny

Wirefox is a message transport over UDP. An application queues packets; the
library cuts long ones into segments, packs several packets into one datagram
under a congestion budget, acknowledges, resends, drops duplicates, puts
segments back together, and hands messages out through unordered, ordered or
sequenced channels. This project models that path from the byte buffer up to
two connected peers on a bad network, and the handshake that precedes it.

## How the project is laid out

| file | module | part of the library |
|---|---|---|
| `Types.dfy` | `Types` | machine words and configuration constants |
| `Serial.dfy` | `Serial` | 32-bit serial-number comparison |
| `Wire.dfy` | `Wire` | byte layout of every value, as functions on bytes |
| `WireFormat.dfy` | `WireFormat` | where every field stands on the wire |
| `BinaryStream.dfy` | `Streams` | the growing buffer with a bit-level head, as a class over an array |
| `PacketHeader.dfy`, `DatagramHeader.dfy`, `Datagram.dfy` | `PacketHeaders`, `DatagramHeaders`, `Datagrams` | headers and whole datagrams |
| `Segmentation.dfy`, `ReassemblyBuffer.dfy` | `Segmentation`, `Reassembly` | cutting messages up and putting them together |
| `ChannelBuffer.dfy` | `Channels` | ordered and sequenced channels |
| `CongestionControl.dfy` | `Congestion` | bytes in flight, histories, acknowledgement lists, round-trip times, window |
| `ReceiptTracker.dfy` | `Receipts` | delivery receipts |
| `DatagramBuilder.dfy`, `RemotePeer.dfy`, `PacketQueue.dfy` | `Builders`, `RemotePeers`, `Queues` | choosing and writing packets, acknowledgements, queueing and receiving |
| `Enqueueing.dfy`, `Answers.dfy` | `Enqueueing`, `Answers` | what queueing, acknowledgements, reports of missing datagrams and expiry do to a peer, said without their loops |
| `Protocol.dfy` | `Protocol` | two peers and a network that loses, repeats and reorders |
| `EndToEnd.dfy` | `EndToEnd` | from one application to the other |
| `OrderedDelivery.dfy` | `OrderedDelivery` | at most once, and in order on ordered and sequenced channels, over whole runs |
| `Reading.dfy` | `ReadingDatagrams` | what a peer makes of a datagram, once and again |
| `Resending.dfy` | `Resending` | which packet goes out again, what that leaves, and how often, over whole runs |
| `ReceiptRuns.dfy` | `ReceiptRuns` | receipts over whole runs |
| `FirstMessage.dfy`, `TooLongDatagram.dfy` | `FirstMessage`, `TooLongDatagram` | a run in which a message gets across and is acknowledged, and one in which a datagram is too long |
| `Handshake.dfy` | `Handshake` | the three-way handshake |

An object of the library is a class whose methods are proved against functions
on a value (`View()` gives the value), and statements about whole runs are
lemmas about those functions. Time is an input, in nanoseconds, and stands
still within one call. Sockets, threads and locks are not modelled: every
callback or worker tick is one atomic step.

## Main results

- **Nothing is lost and nothing is made up** (`Protocol.NothingLostNothingMadeUp`).
  Two peers exchange real datagram bytes over a network that may drop, repeat
  and reorder them. In every reachable state, both ways: a packet that must
  arrive is still queued or has been taken by the other side; only what was
  queued is taken, and unchanged; no acknowledgement and no positive receipt
  says more than is true.
- **A receipt means the message arrived** (`EndToEnd.ReceiptMeansHandedOn`).
  When the sender has been told that a message was delivered, the receiving
  application has been handed that very message, also when it travelled in
  segments. `EndToEnd.QueuedOrHandedOn` and `EndToEnd.OnlyQueuedHandedOn` are
  the loss and integrity halves.
- **Ordered channels keep the order of queueing** (`OrderedDelivery.ReleasedAsQueued`).
  What an ordered channel gives out is a prefix of the messages queued on it on
  the other side, and the longest one that what arrived allows, in every run
  that takes no packet number twice and never leaves 2^31 messages of the
  channel outstanding. The sender's numbering is part of the run. A sequenced
  channel gives out a rising selection of what was queued, and nothing twice
  (`OrderedDelivery.SequencedAsQueued`).
- **At most once within ten seconds** (`OrderedDelivery.HandedOnTenSecondsApart`).
  Two hand-ons of the same message, in segments or not, are at least ten
  seconds apart by the receiver's clock.
- **Every receipt asked for is given, once, and says what happened**
  (`ReceiptRuns.ReceiptsExactly`). In every run of an open side, a message in
  segments is open exactly as long as some of its packets have not been
  acknowledged, and gets its one receipt, a positive one, with the last of them.
- **A packet due again is never passed over, and goes out at most six times**
  (`Resending.ResendIsBooked`, `Resending.ChoiceExactly`,
  `Resending.SentAtMostSixTimes`).
- **Answers do exactly what they say** (`Answers.AcksExactly`,
  `Answers.NacksExactly`, `ReadingDatagrams.AnswersAreHeard`): one pass over
  sentbox and outbox describes what the nested searches do for a whole list,
  and a datagram read again does nothing (`ReadingDatagrams.ReadTwice`).
- **Reassembly inverts segmentation** for every arrival order, with repetitions
  and other messages in between (`Reassembly.ReassemblyInverts`), exactly when
  every segment finds its offset (`Reassembly.RunsExactly`).
- **Parsing inverts building** for values, headers and whole datagrams
  (`Wire.RoundTrip`, `Streams.Echo`, `Datagrams.DecodeInverts`,
  `RemotePeers.BuiltDecodes`).
- **Handshake agreement and termination** (`Handshake.Agreement`), with every
  part repeated once per attempt (`Handshake.CopiesAreAttempts`) and lost parts
  made good (`Handshake.LostPartsAreMadeGood`).

## Where the code falls short of what one would expect

Each of these is kept as the code has it, with the exact condition proved and
an input or a run that shows it.

- An unreliable packet chosen before another one shifts the outbox under the
  chosen places, so a datagram can carry one packet and be booked for another
  (`source/DatagramBuilder.cpp:150-156`). It does what was meant exactly when
  everything written behind an unreliable packet lies in front of it in the
  outbox (`RemotePeers.HonestExactly`; `Builders.WrongPacketSent` shows the
  failure). As long as the failure has not left an unreliable packet queued
  after sending it (`Builders.UnreliableMayStay`), that means that no chosen
  packet but the last is unreliable (`RemotePeers.HonestUntilOneStays`). Steps
  that send data are modelled under that condition in `Protocol`.
- A packet that is given up is reported past the tracker. One reported lost
  before is then reported twice, and a segment is reported under its own number
  (`Receipts.ReportedTwice`, `Receipts.SegmentReported`); `Receipts.GiveUpExactly`
  says exactly when receipts stay single.
- `SeekForce` only extends a stream when the capacity falls short, although its
  documentation speaks of the length. A segment offset strictly between the
  stored bytes and the capacity is missed, for instance segment 3 right after
  0 and 1 (`Reassembly.LandsExactly`, `Reassembly.ThirdAfterFirstFails`).
  Segments in order, or the last one first, always work
  (`Reassembly.InOrderWorks`, `Reassembly.LastFirstWorks`).
- A message of the greatest length that may be queued is refused when its last
  segment arrives (`Reassembly.LongestRefused`).
- The receiver drops the connection over a datagram whose payload and header
  together exceed the MTU, while the sender fills payloads up to the MTU
  (`Protocol.ClosesExactly`, and `Protocol.TooLongExactly` judged by the sender;
  `TooLongDatagram.SnugPairCloses` is a run that ends there).
- More than 256 acknowledgements do not survive one datagram
  (`Datagrams.AckgramSurvives`).
- A late datagram moves the next expected number backwards and upsets the
  acknowledgement accounts (`Congestion.AccountedExactly`,
  `Congestion.LateDatagramUpsets`).
- An ordered channel releases a number again when it arrives again
  (`Channels.InOrderExactly`, `Channels.RepeatedRun`). At the 32-bit wrap the
  packet everything waits for stays put exactly when a later one with a smaller
  wire number is stored (`Channels.StuckBehindWrap`, `Channels.StuckRun`).
- The client may count as connected while the server has given up
  (`Handshake.ClientMayBeAlone`).
- The end-of-stream test is exact only for reads no longer than the stream
  (`Wire.IsEofExact`).

## Model

| member | source | states |
|---|---|---|
| `Serial.RefinesOrder` | source/ChannelBuffer.cpp:17-25 | for unbounded counters less than 2^31 - 1 apart, the wrapped less, greater and greater-or-equal tests agree with integer order |
| `Serial.WrapMinus` | source/CongestionControl.cpp:14-22 | wrapped subtraction of wrapped counters is the wrapped difference of the counters |
| `Serial.AgreesWithRfc1982` | source/ChannelBuffer.cpp:17-25 | each test agrees with section 3.2 of RFC 1982 except at one distance, which is named |
| `Wire.IsEofExact` | include/wirefox/BinaryStream.h:151 | the unsigned end-of-stream test says what it should for reads no longer than the stream, and what it says otherwise |
| `Wire.ReadBackBit` | source/BinaryStream.cpp:277-298 | a bit written at any position is the bit read there, and what was written before it is still readable |
| `Wire.ReadBackVar` | source/BinaryStream.cpp:255-275 | a 7-bit encoded integer is read back for every 32-bit value |
| `Wire.ReadBackStr` | source/BinaryStream.cpp:300-307 | a length-prefixed string is read back |
| `Wire.ReadBack` | source/BinaryStream.cpp:206-307 | any value written behind any prefix is read back, and the reader ends where the writer ended |
| `Wire.RoundTrip` | source/BinaryStream.cpp:314-406 | every list of bits, integers, strings and blobs is read back from its bytes by its list of types |
| `WireFormat.NetworkOrder` | source/BinaryStream.cpp:236-253 | integers of two, four and eight bytes are worth their value read most significant byte first |
| `WireFormat.SevenBitGroups` | source/BinaryStream.cpp:255-275 | an encoded integer is worth its groups read least significant first, and all bytes but the last have their top bit set |
| `WireFormat.TopBitFirst` | source/BinaryStream.cpp:277-298 | bits fill a byte from its most significant end |
| `WireFormat.PacketHeaderFormat` | source/PacketHeader.cpp:15-41 | at which offset each field of a packet header stands and what its bytes are worth |
| `WireFormat.DatagramHeaderFormat` | source/DatagramHeader.cpp:15-50 | the same for a datagram header, with both lists behind their counts |
| `Streams.NextPowerOfTwo` | source/BinaryStream.cpp:16-25 | the result is a power of two, at least the request and less than twice it |
| `Streams.WriteAppends` | source/BinaryStream.cpp:206-298 | writing with the head at the end appends exactly the bytes of the value |
| `Streams.BinaryStream.constructor` | source/BinaryStream.cpp:29-39 | a new stream is empty, writable and has the next power of two as capacity |
| `Streams.BinaryStream.Wrap` | source/BinaryStream.cpp:57-61 | a read-only stream shows exactly the given bytes with the head at the front |
| `Streams.BinaryStream.Copy` | source/BinaryStream.cpp:41-56 | a writable stream of its own shows exactly the given bytes, with the next power of two as capacity |
| `Streams.BinaryStream.Reallocate` | source/BinaryStream.cpp:408-426 | what fits is copied and the capacity is a power of two; contents and head stay exactly when the length still fits |
| `Streams.BinaryStream.Ensure` | source/BinaryStream.cpp:124-132 | afterwards the requested room is there and nothing readable changed |
| `Streams.BinaryStream.Align` | source/BinaryStream.cpp:401-406 | the head moves to the next whole byte and the bytes stay |
| `Streams.BinaryStream.Seek` | source/BinaryStream.cpp:134-137 | the head is clamped to the length |
| `Streams.BinaryStream.SeekForce` | source/BinaryStream.cpp:139-146 | the stream is extended with zeroes only when the capacity falls short; the head lands on the target exactly when the target is not strictly between length and capacity |
| `Streams.BinaryStream.Skip` | source/BinaryStream.cpp:148-152 | the head moves exactly when the end-of-stream test allows it |
| `Streams.BinaryStream.WriteBytes` | source/BinaryStream.cpp:227-234 | bytes are overwritten or appended at the aligned head, and the capacity grows as needed |
| `Streams.BinaryStream.WriteZeroes` | source/BinaryStream.cpp:218-225 | as WriteBytes, with zeroes |
| `Streams.BinaryStream.WriteByte` | source/BinaryStream.cpp:206-212 | the stream holds the byte at the aligned head |
| `Streams.BinaryStream.WriteInt16` | source/BinaryStream.cpp:236-239 | two bytes, most significant first |
| `Streams.BinaryStream.WriteInt32` | source/BinaryStream.cpp:241-244 | four bytes, most significant first |
| `Streams.BinaryStream.WriteInt64` | source/BinaryStream.cpp:246-253 | eight bytes, most significant first |
| `Streams.BinaryStream.Write7BitEncodedInt` | source/BinaryStream.cpp:255-275 | the loop writes the groups of seven bits, least significant first |
| `Streams.BinaryStream.WriteBool` | source/BinaryStream.cpp:277-298 | one bit is set or left at the head, a fresh byte starting from zero |
| `Streams.BinaryStream.WriteString` | source/BinaryStream.cpp:300-307 | length, then bytes |
| `Streams.BinaryStream.ReadBytes` | source/BinaryStream.cpp:321-327 | the bytes at the aligned head, or nothing consumed past the end |
| `Streams.BinaryStream.ReadByte` | source/BinaryStream.cpp:314-319 | the byte at the aligned head |
| `Streams.BinaryStream.ReadUInt16` | source/BinaryStream.cpp:329-334 | the integer of the next two bytes |
| `Streams.BinaryStream.ReadUInt32` | source/BinaryStream.cpp:336-341 | the integer of the next four bytes |
| `Streams.BinaryStream.ReadUInt64` | source/BinaryStream.cpp:343-354 | the integer of the next eight bytes |
| `Streams.BinaryStream.ReadBool` | source/BinaryStream.cpp:356-369 | the bit at the head, which moves on by one bit |
| `Streams.BinaryStream.Read7BitEncodedInt` | source/BinaryStream.cpp:371-389 | the loop collects the groups up to the first without continuation bit |
| `Streams.BinaryStream.ReadString` | source/BinaryStream.cpp:391-399 | length, then that many bytes |
| `Streams.Echo` | source/BinaryStream.cpp:206-406 | writing any typed list to a growing stream and reading it through a fresh stream over the bytes returns the list, across alignment and reallocation |
| `PacketHeaders.ParseInverts` | source/PacketHeader.cpp:15-80 | parsing a serialized header recovers every field its flags mark present and stops behind it, absent fields keep what they had; it is refused exactly when length or offset is out of bounds |
| `PacketHeaders.CutHeaderRefused` | source/PacketHeader.cpp:43-80 | any beginning of a header, with nothing behind it, is refused |
| `PacketHeaders.LayoutSize` | source/PacketHeader.cpp:15-41 | the exact number of whole bytes a header takes, 11 to 27 by its flags and channel |
| `PacketHeaders.Serialize` | source/PacketHeader.cpp:15-41 | the stream is appended the header's layout |
| `PacketHeaders.Deserialize` | source/PacketHeader.cpp:43-80 | result, fields and head are those of the parser on bytes, error cases included |
| `DatagramHeaders.ParseInverts` | source/DatagramHeader.cpp:15-94 | parsing a serialized datagram header with at most 256 acks and nacks recovers it, and refuses it exactly when the announced payload is not there |
| `DatagramHeaders.TinyPayloadRefused` | source/DatagramHeader.cpp:79-91 | a payload of fewer than two bytes is refused, whatever length is announced |
| `DatagramHeaders.LayoutSize` | source/DatagramHeader.cpp:15-50 | the header is whole bytes, and 7 of them for a plain data datagram |
| `DatagramHeaders.Serialize` | source/DatagramHeader.cpp:15-50 | the stream is appended the header's layout, with all ids behind a capped count |
| `DatagramHeaders.Deserialize` | source/DatagramHeader.cpp:52-94 | result, fields and head are those of the parser on bytes, error cases included |
| `Datagrams.ParseMessagesInverts` | source/PacketQueue.cpp:351-382 | the receiving loop recovers every packet in order from concatenated packets and ends exactly at the last byte |
| `Datagrams.DecodeInverts` | source/PacketQueue.cpp:297-382 | a datagram that fits its header decodes to that header and its packets |
| `Datagrams.AckgramSurvives` | source/DatagramHeader.cpp:27-42 | an acknowledgement datagram survives exactly when neither list exceeds 256 |
| `Segmentation.SegmentCount` | source/PacketQueue.cpp:55-56 | the number of segments is the least that covers the bytes |
| `Segmentation.FromDatagramInverts` | source/Packet.cpp:91-117 | command and data are recovered from the serialized packet |
| `Segmentation.SegmentValid` | source/PacketQueue.cpp:90-108 | the header form chosen for a segment never truncates its length or offset, and a segment is marked as split exactly when there are several |
| `Reassembly.InsertHolds` | source/ReassemblyBuffer.cpp:34-57 | storing a segment whose offset is reached keeps every other segment in place and adds this one |
| `Reassembly.CompleteExactly` | source/ReassemblyBuffer.cpp:59-76 | a message counts as complete exactly when all its segments are there, and its bytes are then the original ones |
| `Reassembly.ReassemblyInverts` | source/PacketQueue.cpp:388-393 | for any arrivals, repeated and interleaved, a message is handed out exactly by the arrival of its last missing segment, and it is the one that was cut up |
| `Reassembly.BacklogTracks` | source/ReassemblyBuffer.cpp:34-76 | in every run each container holds exactly the segments that came since it was last handed out |
| `Reassembly.AllArrivedCompletes` | source/ReassemblyBuffer.cpp:59-76 | a container all of whose segments arrived was completed |
| `Reassembly.LandsExactly` | source/ReassemblyBuffer.cpp:43-46 | the offset of a segment is reached exactly when it is not strictly between the end of the highest stored segment and the next power of two |
| `Reassembly.PredecessorReaches` | source/ReassemblyBuffer.cpp:43-46 | a segment is placed whenever nothing has arrived yet, it is the first, or its predecessor or the last segment has arrived |
| `Reassembly.InOrderWorks` | source/ReassemblyBuffer.cpp:34-57 | a run in which each container's segments come in order meets no failing assertion, other containers and further rounds in between |
| `Reassembly.LastFirstWorks` | source/ReassemblyBuffer.cpp:34-57 | so does a run in which each container's last segment comes first |
| `Reassembly.ThirdAfterFirstFails` | source/ReassemblyBuffer.cpp:43-46 | segment 3 right after segments 0 and 1 misses its offset |
| `Reassembly.LongestRefused` | source/ReassemblyBuffer.cpp:35 | the last segment of a message of PACKET_MAX_LENGTH bytes is refused |
| `Reassembly.RunsExactly` | source/ReassemblyBuffer.cpp:34-57 | a run meets no failing assertion exactly when every arrival finds its place, judging by the order of arrival alone |
| `Reassembly.SplitPacket.Insert` | source/ReassemblyBuffer.cpp:43-56 | segment bytes are read from the stream straight into place, with the capacity and last index the functions say |
| `Reassembly.SplitPacket.Reassemble` | source/ReassemblyBuffer.cpp:65-75 | the packet exactly when complete, read from the front of the bytes |
| `Reassembly.ReassemblyBuffer.Insert` | source/ReassemblyBuffer.cpp:34-57 | the entry is found or created and the segment stored; no other entry changes |
| `Reassembly.ReassemblyBuffer.Reassemble` | source/ReassemblyBuffer.cpp:59-76 | the packet and an erased entry exactly when the entry is complete, no change otherwise |
| `Reassembly.ReassemblyBuffer.HandleSplitPacket` | source/PacketQueue.cpp:388-393 | insertion and reassembly in one, as the statements about whole runs use it |
| `Channels.ReleasesAwaited` | source/ChannelBuffer.cpp:51-72 | an ordered channel releases something exactly when the smallest stored number is the awaited one, and then that one |
| `Channels.OrderedIsInOrder` | source/ChannelBuffer.cpp:39-72 | whatever the arrival order, an ordered channel releases 0, 1, 2, ... and nothing else, across any number of wraps |
| `Channels.OrderedIsComplete` | source/ChannelBuffer.cpp:51-62 | up to the last number before the wrap the released packets are the longest gap-free prefix of what arrived |
| `Channels.InOrderExactly` | source/ChannelBuffer.cpp:39-49 | an arrival keeps the order exactly when its number was not released before |
| `Channels.OnceEachIsOnTime` | source/ChannelBuffer.cpp:39-72 | if every number arrives at most once and not too far ahead, no arrival comes after its release |
| `Channels.RepeatedRun` | source/ChannelBuffer.cpp:39-62 | a number that arrives again after its release is released again |
| `Channels.StuckBehindWrap` | source/ChannelBuffer.cpp:52-54 | a stored packet that is next in line stays unreleased exactly when a later one with a smaller wire number is stored |
| `Channels.StuckRun` | source/ChannelBuffer.cpp:52-54 | a run in which all numbers up to 2^32 arrived and the last two stay unreleased |
| `Channels.SequencedIsMaxima` | source/ChannelBuffer.cpp:39-62 | a sequenced channel delivers exactly the strict left-to-right maxima of the arrivals, across wraps |
| `Channels.ChannelBuffer.Enqueue` | source/ChannelBuffer.cpp:39-49 | the new state, old packets of a sequenced channel being dropped |
| `Channels.ChannelBuffer.Dequeue` | source/ChannelBuffer.cpp:51-62 | the packet released, if any, and the new state |
| `Channels.ChannelBuffer.GetNextOutgoing` | source/ChannelBuffer.cpp:74-76 | hands out consecutive numbers, wrapping |
| `Channels.ChannelBuffer.HandleIncomingPacket` | source/PacketQueue.cpp:395-410 | one arrival and the loop that releases all it makes eligible |
| `Congestion.StepBalances` | source/CongestionControl.cpp:132-157 | every operation keeps bytes in flight equal to the sum of the records, except sending bytes under a number already in flight |
| `Congestion.AlwaysBalanced` | source/CongestionControl.cpp:43-66 | over every run with fresh numbers, bytes in flight equal the sum of the records, so no subtraction underflows |
| `Congestion.AtMostOncePerTenSeconds` | source/CongestionControl.cpp:68-83 | two acceptances of the same packet or datagram are at least ten seconds apart, in every run with a monotone clock |
| `Congestion.AcksAreReceipts` | source/CongestionControl.cpp:111-116 | in every run each new data datagram is acknowledged exactly once and nothing else is |
| `Congestion.AccountedExactly` | source/CongestionControl.cpp:159-186 | a datagram keeps every number below the next expected one in exactly one of acked, nacked and ack-only, exactly when it is not late |
| `Congestion.LateDatagramUpsets` | source/CongestionControl.cpp:159-186 | numbers 1 and then 0 leave 0 both acknowledged and reported missing, and the accounts wrong |
| `Congestion.AlwaysAccounted` | source/CongestionControl.cpp:159-186 | over every run in sequence those three lists partition the numbers below the next expected one, across any number of drains |
| `Congestion.WindowAlwaysSound` | source/CongestionControlWindow.cpp:58-76 | in every run the window is at least MTU and the threshold at least twice that |
| `Congestion.BudgetsSound` | source/CongestionControlWindow.cpp:24-34 | in every run the two budgets together are positive and at most MTU |
| `Congestion.SendBudgetIsLargest` | source/CongestionControlWindow.cpp:24-34 | the resend budget is the bytes in flight or MTU, and new data gets all the room that window and datagram leave |
| `Congestion.AckGrowsWindow` | source/CongestionControlWindow.cpp:58-66 | an acknowledgement grows the window by exactly MTU in slow start; otherwise by an eighth of that and the quotient of MTU squared by the window, together strictly less |
| `Congestion.NakGroupStartsOver` | source/CongestionControlWindow.cpp:68-72 | a nack group always returns to slow start |
| `Congestion.AverageBetween` | source/CongestionControl.cpp:118-130 | the integer average lies between minimum and maximum |
| `Congestion.RttAlwaysSound` | source/CongestionControl.cpp:118-157 | in every run the history has at most 32 entries and the statistics are those of its entries, in order |
| `Congestion.TimeoutSound` | source/CongestionControlWindow.cpp:36-47 | in every run the resend delay never underflows, is at least 5 ms and does not shrink with the retry count |
| `Congestion.TimeoutCoversSamples` | source/CongestionControlWindow.cpp:36-47 | the resend delay exceeds every round trip on record, and grows in proportion to the attempts |
| `Congestion.TimeoutOfTwo` | source/CongestionControlWindow.cpp:36-47 | the exact delay on two samples, and before there are two |
| `Congestion.RecordsAreTrue` | source/CongestionControl.cpp:132-139 | in every run a record says what was sent under its number and when, and has been there since |
| `Congestion.HistoryIsMeasured` | source/CongestionControl.cpp:141-157 | in every run the history is the last 32 round trips measured, in order |
| `Congestion.UpdateExactly` | source/CongestionControl.cpp:34-86 | a due update drops exactly the records older than sixteen average round trips and the history older than ten seconds; one not due changes nothing |
| `Congestion.AcksDueExactly` | source/CongestionControlWindow.cpp:49-56 | in every run pending acknowledgements are due exactly when there are more than ten or the first has waited 10 ms |
| `Congestion.CongestionControlWindow.GetNextPacketID` | source/CongestionControl.cpp:88-90 | consecutive numbers, wrapping |
| `Congestion.CongestionControlWindow.GetNextDatagramID` | source/CongestionControl.cpp:92-94 | consecutive numbers, wrapping |
| `Congestion.CongestionControlWindow.MakeAckList` | source/CongestionControl.cpp:111-116 | hands out both lists and starts over |
| `Congestion.CongestionControlWindow.Update` | source/CongestionControl.cpp:34-86 | the loops drop exactly the expired records and histories, and their bytes |
| `Congestion.CongestionControlWindow.NotifySendingBytes` | source/CongestionControl.cpp:132-139 | the new record and total |
| `Congestion.CongestionControlWindow.RecalculateRTT` | source/CongestionControl.cpp:118-130 | the loop computes minimum, maximum and average of the history |
| `Congestion.CongestionControlWindow.NotifyReceivedAck` | source/CongestionControl.cpp:141-157 | the record leaves, its bytes and round-trip time are booked, the window grows |
| `Congestion.CongestionControlWindow.NotifyReceivedNakGroup` | source/CongestionControlWindow.cpp:68-72 | new window and threshold |
| `Congestion.CongestionControlWindow.NotifyReceivedDatagram` | source/CongestionControl.cpp:159-186 | new or duplicate; the loop lists every number skipped |
| `Congestion.CongestionControlWindow.NotifyReceivedPacket` | source/CongestionControl.cpp:188-194 | new or duplicate, and the history |
| `Receipts.AlwaysGood` | source/ReceiptTracker.cpp:22-73 | over every run, until the connection is given up, split groups stay non-empty, disjoint and free of containers, and every number asked for is open or has exactly one receipt |
| `Receipts.ContainerReceipt` | source/ReceiptTracker.cpp:26-46 | in every run, given up or not, a container has its positive receipt exactly when all its segments were acknowledged |
| `Receipts.GiveUpExactly` | source/DatagramBuilder.cpp:126-140 | giving up a packet keeps receipts single exactly when it asked for none or is still open; all requests are answered exactly when it was the only open one |
| `Receipts.ReportedTwice` | source/DatagramBuilder.cpp:129-130 | a packet reported lost and given up later has two receipts |
| `Receipts.SegmentReported` | source/DatagramBuilder.cpp:129-130 | a segment given up has a receipt nobody asked for |
| `Receipts.ReceiptTracker.Track` | source/ReceiptTracker.cpp:22-24 | the number is open |
| `Receipts.ReceiptTracker.RegisterSplitPacket` | source/ReceiptTracker.cpp:48-50 | the group is added unless the container has one; groups stay sound when the numbers are new |
| `Receipts.ReceiptTracker.Acknowledge` | source/ReceiptTracker.cpp:26-46 | the recursive sweep ends, does not disturb its own iteration and posts the receipts the function says |
| `Receipts.ReceiptTracker.Lose` | source/ReceiptTracker.cpp:61-66 | open numbers of a lost datagram get one negative receipt each |
| `Builders.GetQueuedPacket` | source/DatagramBuilder.cpp:26-42 | the first suitable packet, none before it being suitable |
| `Builders.AddNewPackets` | source/DatagramBuilder.cpp:68-107 | the repeated search from the front ends and equals one greedy pass; the chosen packets are pushed back |
| `Builders.GreedyFills` | source/DatagramBuilder.cpp:68-107 | the choice is new and due, fits the budget, and leaves out no packet that would still have fitted |
| `Builders.GreedyExactly` | source/DatagramBuilder.cpp:68-107 | a packet is chosen exactly when it is new, due and fits what those chosen before it leave |
| `Builders.RemovePacketFromOutbox` | source/RemotePeer.cpp:114-118 | without the first packet of that number |
| `Builders.WrittenAsChosen` | source/DatagramBuilder.cpp:148-156 | for any choice of places, the datagram carries the packets meant exactly when everything written behind an unreliable packet lies in front of it |
| `Builders.WrongPacketSent` | source/DatagramBuilder.cpp:148-156 | an outbox for which one packet goes out under another's name |
| `Builders.UnreliableMayStay` | source/DatagramBuilder.cpp:148-156 | an outbox in which that leaves an unreliable packet queued after sending |
| `Builders.OnlyLastExactly` | source/DatagramBuilder.cpp:148-156 | in queue order the condition says that none but the last is unreliable |
| `RemotePeers.ChosenFits` | source/DatagramBuilder.cpp:90-107 | new payload is within the send budget and the whole payload within MTU |
| `RemotePeers.ChosenInOrder` | source/DatagramBuilder.cpp:97-107 | no packet is chosen twice, at most the first is a resend, the others come in queue order |
| `RemotePeers.BuiltDecodes` | source/DatagramBuilder.cpp:112-160 | when no chosen packet but the last is unreliable, the datagram is the encoding of exactly the packets it is booked for |
| `RemotePeers.HonestExactly` | source/DatagramBuilder.cpp:84-160 | for every outbox with distinct numbers, the packets written are those booked exactly when everything written behind an unreliable packet lies in front of it |
| `RemotePeers.HonestUntilOneStays` | source/DatagramBuilder.cpp:84-160 | while every packet already sent is reliable, that means that no chosen packet but the last is unreliable |
| `RemotePeers.RemotePeer.AddResendPacket` | source/DatagramBuilder.cpp:51-58 | the first packet due again, pushed back by its timeout |
| `RemotePeers.RemotePeer.CountAttempts` | source/DatagramBuilder.cpp:124-146 | every attempt is counted, numbers and total length collected; stops exactly at the first packet that had its last attempt |
| `RemotePeers.RemotePeer.GiveUp` | source/DatagramBuilder.cpp:126-140 | the packet gets its negative receipt if it asked for one, and queues and tracker are cleared |
| `RemotePeers.RemotePeer.WriteOut` | source/DatagramBuilder.cpp:150-156 | what ends up in the stream and in the outbox when places move while packets are taken out |
| `RemotePeers.RemotePeer.MakeDatagram` | source/DatagramBuilder.cpp:84-161 | nothing, giving up with its receipt and cleared state, or the datagram and the new state |
| `RemotePeers.RemotePeer.MakeAckgram` | source/DatagramBuilder.cpp:163-186 | the datagram with the pending lists, which start over |
| `RemotePeers.RemotePeer.GetNextDatagram` | source/RemotePeer.cpp:91-101 | acknowledgements first, data otherwise |
| `RemotePeers.RemotePeer.HandleAcknowledgements` | source/RemotePeer.cpp:38-62 | for every id: packets of the datagram leave the outbox and get receipts, the datagram leaves the sentbox, congestion is told |
| `RemotePeers.RemotePeer.HandleNonAcknowledgements` | source/RemotePeer.cpp:64-89 | for every id: packets of the datagram are due at once, the datagram leaves the sentbox; congestion is told once |
| `RemotePeers.RemotePeer.Prune` | source/ReceiptTracker.cpp:52-73 | expired datagrams leave the sentbox and their open packets get negative receipts |
| `Resending.ResendGoesFirst` | source/DatagramBuilder.cpp:51-58 | while anything is in flight the first packet due again is chosen first, and apart from it only new packets are |
| `Resending.ChoiceExactly` | source/DatagramBuilder.cpp:84-107 | the whole choice: that packet, then new ones first come, first served within the send budget |
| `Resending.ResendIsBooked` | source/DatagramBuilder.cpp:84-160 | for any packet due again, the datagram made stands for it or an earlier one due again; it is made unless a chosen packet had its last attempt |
| `Resending.GivesUpExactly` | source/DatagramBuilder.cpp:124-146 | gives up exactly when a chosen packet has been sent six times; the first such packet is reported if asked, and nothing stays queued, sent or open |
| `Resending.SendingCounts` | source/DatagramBuilder.cpp:84-160 | one pass over the outbox: booked reliable packets have one more attempt and are put off by the timeout, booked unreliable ones leave, others stay |
| `Resending.SentIsInFlight` | source/PacketQueue.cpp:248-253 | a datagram sent is in flight from then on, with all its bytes |
| `Resending.SentAtMostSixTimes` | source/DatagramBuilder.cpp:124-146 | over every run no packet goes out in more than six datagrams, and a queued one is counted as often as it went out |
| `Answers.AckExactly` | source/RemotePeer.cpp:38-62 | the first datagram of that number leaves, its packets leave the outbox, and exactly they and the containers they complete get positive receipts |
| `Answers.AcksExactly` | source/RemotePeer.cpp:38-62 | the same for a whole list, in one pass over sentbox and outbox |
| `Answers.AcksLand` | source/RemotePeer.cpp:38-62 | nothing listed is in flight any more, everything else still is |
| `Answers.NacksExactly` | source/RemotePeer.cpp:64-89 | datagrams listed leave, exactly their packets are due at once, and the window starts over once |
| `Answers.LostExactly` | source/ReceiptTracker.cpp:61-66 | the open numbers among those lost leave the tracker and get one negative receipt each, nothing else changes |
| `Answers.PrunedExactly` | source/ReceiptTracker.cpp:52-73 | exactly the datagrams whose time is up leave, and their open packets are reported lost |
| `Answers.WaitsForAnswer` | source/DatagramBuilder.cpp:112-175 | a data datagram waits five seconds for its answer, an acknowledgement datagram one |
| `Enqueueing.EnqueuedExactly` | source/PacketQueue.cpp:41-121 | the packets queued, read back, say the message in stretches of 1200 bytes and are marked as options and segmentation demand; the receipt is asked for, for all of them |
| `Queues.EnqueueOutgoing` | source/PacketQueue.cpp:41-121 | the loop queues one serialized packet per segment under the next numbers, wrapping, with the channel's next sequence number, and asks for the receipt; nothing on a closing connection |
| `Queues.SerializePacket` | source/PacketQueue.cpp:102-104 | header, then body |
| `Queues.ToStream` | source/Packet.cpp:91-102 | command byte, then data |
| `Queues.OnReadFinished` | source/PacketQueue.cpp:289-386 | tells offline datagrams, drops the connection, ignores, or handles a datagram: acknowledgements, then every packet not seen before |
| `Queues.ReadPackets` | source/PacketQueue.cpp:351-382 | the parsing loop ends and takes exactly the packets of the parser that were not seen before |
| `ReadingDatagrams.AckgramExactly` | source/DatagramBuilder.cpp:163-186 | both lists go out in full under the next number and none are pending afterwards |
| `ReadingDatagrams.AnswersAreHeard` | source/PacketQueue.cpp:345-349 | reading an acknowledgement datagram does what its lists say, acknowledgements first |
| `ReadingDatagrams.ReadTwice` | source/PacketQueue.cpp:337-343 | whatever the bytes: closing changes nothing else, and a datagram read again has no effect |
| `ReadingDatagrams.StrangeDatagrams` | source/PacketQueue.cpp:295-320 | offline datagrams pass by, malformed and too long ones close the connection |
| `ReadingDatagrams.CutOffCloses` | source/PacketQueue.cpp:297-302 | a data datagram cut off within its payload closes the connection |
| `ReceiptRuns.EnqueueSteps` | source/PacketQueue.cpp:111-116 | queueing a message is one step of the tracker: asked for, with the group of its packets |
| `ReceiptRuns.ReceiptsExactly` | source/ReceiptTracker.cpp:22-73 | over every run of an open side: one receipt per message asked about or still open; one in segments is open exactly while packets are unacknowledged, which its group holds, and then gets a positive one |
| `Protocol.EnqueueKeeps` | source/PacketQueue.cpp:41-121 | queueing a message keeps the invariant of the two sides |
| `Protocol.SendKeeps` | source/DatagramBuilder.cpp:84-161 | so does sending a data datagram |
| `Protocol.AckKeeps` | source/DatagramBuilder.cpp:163-186 | so does sending acknowledgements |
| `Protocol.ReceiveData` | source/PacketQueue.cpp:289-386 | so does receiving any data datagram ever sent, once or again, early or late |
| `Protocol.ReceiveAckgram` | source/PacketQueue.cpp:345-349 | so does receiving any acknowledgement datagram ever sent |
| `Protocol.UpdateKeeps` | source/PacketQueue.cpp:183-187 | so does the periodic update |
| `Protocol.StepKeeps` | source/PacketQueue.cpp:172-207 | every possible step keeps the invariant |
| `Protocol.RunKeeps` | source/PacketQueue.cpp:172-207 | the invariant holds after every run, whatever the moves of the two sides and the network |
| `Protocol.AckRemovesOnlyTaken` | source/RemotePeer.cpp:38-62 | an acknowledgement takes out no packet the other side has not taken |
| `Protocol.NackRemovesNone` | source/RemotePeer.cpp:64-89 | a nack takes out no packet and changes nothing but when packets are due |
| `Protocol.DataDecodes` | source/PacketQueue.cpp:297-382 | a data datagram decodes to its number, length and the packets it stands for |
| `Protocol.ParsedWithinBounds` | source/PacketQueue.cpp:353-355 | the assertions of the parsing loop hold of every packet of a genuine datagram |
| `Protocol.ClosesExactly` | source/PacketQueue.cpp:306-313 | a genuine datagram makes the receiver drop the connection exactly when it is longer than MTU |
| `Protocol.TooLongExactly` | source/DatagramBuilder.cpp:84-160 | the next datagram makes any receiver drop the connection exactly when the chosen packets take more than MTU - 7 bytes |
| `Protocol.DatagramCanBeMade` | source/CongestionControlWindow.cpp:24-47 | in every state of the invariant, hence of every run, the budgets do not underflow and resends are put off by a positive time |
| `Protocol.NothingLostNothingMadeUp` | source/RemotePeer.cpp:38-89 | over every run, both ways: reliable packets are queued or taken, only what was queued is taken and unchanged, acknowledgements and positive receipts are true |
| `EndToEnd.SmoothExactly` | source/ReassemblyBuffer.cpp:34-57 | reassembly meets no failing assertion exactly when every segment taken finds its offset |
| `EndToEnd.HandedOnAsQueued` | source/PacketQueue.cpp:357-393 | a packet taken leads to the message it was made from exactly when it completes it, and to nothing otherwise |
| `EndToEnd.OnlyQueuedHandedOn` | source/PacketQueue.cpp:357-416 | over every run, whatever an application is handed was queued on the other side |
| `EndToEnd.QueuedOrHandedOn` | source/RemotePeer.cpp:38-89 | over every run, a reliable message has a packet queued or was handed to the other application |
| `EndToEnd.ReceiptMeansHandedOn` | source/ReceiptTracker.cpp:26-46 | over every run, a positive receipt means the other application was handed that message |
| `OrderedDelivery.HandedTwice` | source/PacketQueue.cpp:357-393 | between two hand-ons of a message one of its packets was taken again |
| `OrderedDelivery.RunDated` | source/CongestionControl.cpp:68-83 | over every run with a monotone receiver clock, a packet number is taken again only after ten seconds |
| `OrderedDelivery.HandedOnTenSecondsApart` | source/PacketQueue.cpp:357-393 | over every such run, two hand-ons of the same message are at least ten seconds apart |
| `OrderedDelivery.ArrivalIsQueued` | source/PacketQueue.cpp:66-67 | what reaches a buffered channel under a number is the message queued on it under that number |
| `OrderedDelivery.NumbersDiffer` | source/PacketQueue.cpp:357-410 | if no packet number is taken twice, no sequence number reaches the channel twice |
| `OrderedDelivery.ReleasedAsQueued` | source/PacketQueue.cpp:395-410 | over every run that takes no packet number twice and keeps fewer than 2^31 messages of the channel outstanding, an ordered channel gives out a prefix of the messages queued on it, in queue order, and the longest one |
| `OrderedDelivery.SequencedAsQueued` | source/PacketQueue.cpp:395-410 | over every run with fewer than 2^31 - 1 messages on the channel, a sequenced channel gives out messages queued on it, at rising places of the queue: those newer than all before them |
| `OrderedDelivery.NoRepeatsAtFirst` | source/CongestionControl.cpp:68-83 | within ten seconds of the first packet no packet number is taken twice |
| `FirstMessage.FirstMessageArrives` | source/PacketQueue.cpp:41-386 | from the start, queueing, sending, receiving and acknowledging any message in one piece is possible; exactly its bytes are taken, the outbox is empty and the positive receipt posted |
| `TooLongDatagram.SnugPairCloses` | source/DatagramBuilder.cpp:84-160 | from the start, any two messages in one piece whose packets take 1294 to 1300 bytes go out in one datagram over which the receiver closes the connection |
| `Handshake.StepKeeps` | source/HandshakerThreeWay.cpp:37-154 | every part received, again or late, and every timer keeps the two sides in step |
| `Handshake.Agreement` | source/HandshakerThreeWay.cpp:96-138 | in every run: server connected implies client connected; connected implies same version and encryption setting; no part goes out more than four times; a side whose timer ran out nine times is done |
| `Handshake.TimerExactly` | source/Handshaker.cpp:82-105 | a timer sends exactly one more copy of the last part and comes again two seconds later; after the fourth copy it gives up; otherwise nothing happens |
| `Handshake.CopiesAreAttempts` | source/Handshaker.cpp:82-105 | in every run a side that waits has sent one copy of its part per attempt, one to four |
| `Handshake.EndIsFinal` | source/HandshakerThreeWay.cpp:38 | in every run how a side's handshake ended does not change any more |
| `Handshake.UnwelcomeParts` | source/HandshakerThreeWay.cpp:37-95 | which parts end the handshake and for which reason, and that one not awaited changes nothing |
| `Handshake.RefusalIsMutual` | source/HandshakerThreeWay.cpp:168-172 | whoever refuses says why, and the other side ends for the same reason |
| `Handshake.LostPartsAreMadeGood` | source/Handshaker.cpp:100-104 | a run in which the first request and the first answer are lost and both sides end connected |
| `Handshake.RankFalls` | source/Handshaker.cpp:82-105 | a timer that runs out while waiting brings the end nearer, and no message puts it off |
| `Handshake.ClientMayBeAlone` | source/HandshakerThreeWay.cpp:126-136 | a run in which the client is connected and the server gives up |
| `Handshake.AckConnects` | source/HandshakerThreeWay.cpp:115-119 | once the client is connected, the part that connects the waiting server is the acknowledgement and no other |
| `Handshake.HandshakerThreeWay.Begin` | source/HandshakerThreeWay.cpp:23-35 | the request is sent and the server's answer awaited |
| `Handshake.HandshakerThreeWay.Handle` | source/HandshakerThreeWay.cpp:37-154 | stage, result and reply for every message and stage, refusals included |
| `Handshake.HandshakerThreeWay.ReplyWithError` | source/HandshakerThreeWay.cpp:168-172 | the error goes out and the attempt is over |
| `Handshake.HandshakerThreeWay.Reply` | source/Handshaker.cpp:42-53 | the part is sent and kept, the timer and, for a new part, the count start over |
| `Handshake.HandshakerThreeWay.Complete` | source/Handshaker.cpp:55-80 | result set, last part forgotten |
| `Handshake.HandshakerThreeWay.Update` | source/Handshaker.cpp:82-105 | sends again or gives up after the fourth attempt |

## Left out

- Sockets, threads, locks and the clock: each callback or tick is one step, and time is an input.
- Encryption: datagrams are not encrypted, and the handshake of encrypted connections stops at its first authentication message.
- Malformed input: the network of `Protocol` delivers only bytes that were sent; a packet length that reaches past the datagram ends the parsing loop in the model.
- Eventual delivery: in-flight records expire and the resend budget follows them, so resending is not guaranteed to happen.
- Whether nacks are deserved under reordering: the code reports a number as missing before it can know.
- Connection slots, pings, advertisements, remote calls, statistics, bindings, packet priority and the out-of-band slot, where all packets share number 0: they would add only simple members.
- Streams.BinaryStream.SeekForce: stated for a byte-aligned head, which is how the library uses it.
- Streams.BinaryStream.ReadBytes: a read past the end returns zeroes, where the library leaves the target as it was.
- Streams.BinaryStream.ReadUInt16: past the end the value is zero, where the library's is undefined.
- Streams.BinaryStream.ReadUInt32: past the end the value is zero, where the library's is undefined.
- Streams.BinaryStream.ReadUInt64: past the end the value is zero, where the library's is undefined.
- Streams.NextPowerOfTwo: doubling replaces the bit trick, which does not cover sizes from 2^32 up.
- Queues.ReadPackets: a length that reaches past the datagram ends the loop, where the library reads on; the head is aligned before a packet is skipped, which differs from the library only for datagrams shorter than seven bytes.
- Receipts.ReceiptTracker.RegisterSplitPacket: keeps the tracker sound only for numbers not used in another group, which holds until packet numbers wrap around.
- Unsplit system commands: the library deals with them itself, past every channel. `OrderedDelivery` keeps them off the channels; `EndToEnd` speaks of handing on in either case.
- Reassembly.ReassemblyBuffer.Insert: the entries of the table are values, so aliasing between entries is not modelled; a single entry is modelled in place by `SplitPacket`.
- Protocol.NothingLostNothingMadeUp: covers runs with fewer than 2^32 packets and datagrams each way, data datagrams in which no packet but the last is unreliable (in every state of the invariant the exact condition), and at most 256 acknowledgements of each kind per datagram; each of these limits is one of the code, listed above. The clocks of the two sides are unrelated.
- EndToEnd.ReceiptMeansHandedOn: speaks of messages shorter than PACKET_MAX_LENGTH and receivers whose segments all found their offset, the exact conditions under which reassembly works; so do the statements beside it and those of `OrderedDelivery`.
- Handshake.HandshakerThreeWay.Complete: the notification that reaches the user is not part of this model.
- Handshake.HandshakerThreeWay.Handle: handshake parts are values, so their byte layout and truncated parts are not modelled; results that only other parts of the library report are one value, `REJECTED`.
