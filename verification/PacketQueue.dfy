/** Queueing a message for sending, and taking received datagrams apart. */
module Queues {
  import opened Types
  import opened Serial
  import opened Wire
  import opened Streams
  import PH = PacketHeaders
  import DH = DatagramHeaders
  import opened Datagrams
  import opened Segmentation
  import opened Builders
  import CB = Channels
  import CC = Congestion
  import RT = Receipts
  import opened RemotePeers

  predicate IsReliable(options: byte) { options % 2 == 1 }

  predicate WantsReceipt(options: byte) { options / 2 % 2 == 1 }

  // --- Queueing ---

  /** Number of the i-th packet: a message in one piece uses its own number, segments get further ones. */
  function NumberOf(container: u32, n: nat, i: nat): u32 {
    if n == 1 then container else Wrap(container as int + 1 + i)
  }

  /** The i-th packet of a message; segments are always reliable. */
  function Queued(packet: Packet, labels: Labels, i: nat, now: int): Outgoing
    requires |packet.data| < PACKET_MAX_LENGTH && i < SegmentCount(ToDatagram(packet))
  {
    var n := SegmentCount(ToDatagram(packet));
    var id := NumberOf(labels.container, n, i);
    Outgoing(id, PacketBlob(Segment(packet, labels, id, i)),
             IsReliable(labels.options) || n > 1, WantsReceipt(labels.options), now, 0)
  }

  function QueuedUpTo(packet: Packet, labels: Labels, k: nat, now: int): (r: Outbox)
    requires |packet.data| < PACKET_MAX_LENGTH && k <= SegmentCount(ToDatagram(packet))
    ensures |r| == k
  {
    seq(k, i requires 0 <= i < k => Queued(packet, labels, i, now))
  }

  function Numbers(container: u32, n: nat, k: nat): set<u32>
  {
    set i | 0 <= i < k :: NumberOf(container, n, i)
  }

  function Enqueued(p: Peer, packet: Packet, labels: Labels, now: int): Peer
    requires |packet.data| < PACKET_MAX_LENGTH
  {
    var n := SegmentCount(ToDatagram(packet));
    var c := labels.container;
    var tracked := if WantsReceipt(labels.options) then RT.Tracked(p.receipts, c) else p.receipts;
    p.(outbox := p.outbox + QueuedUpTo(packet, labels, n, now),
       congestion := p.congestion.(nextPacket := Wrap(c as int + 1 + if n > 1 then n else 0)),
       receipts := if WantsReceipt(labels.options) && n > 1 then RT.Registered(tracked, c, Numbers(c, n, n)) else tracked)
  }

  /** The bytes of one packet: header, then its part of the message. */
  method SerializePacket(header: PH.PacketHeader, body: Bytes) returns (blob: Bytes)
    ensures blob == PacketBlob(Message(header, body))
  {
    hide BinaryStream.Written, BinaryStream.Appending, PutAll, PH.Layout;
    var stream := new BinaryStream(DEFAULT_CAPACITY);
    PH.Serialize(header, stream);
    AppendBody(stream, body);
    blob := Contents(stream);
    PutAllConcat(EMPTY, PH.Layout(header), [Blob(body)]);
  }

  method AppendBody(stream: BinaryStream, body: Bytes)
    requires stream.Appending()
    modifies stream, stream.buffer
    ensures stream.Appending() && stream.Written() == PutAll(old(stream.Written()), [Blob(body)])
  {
    PutOne(stream.Written(), Blob(body), []);
    stream.WriteBytes(body);
  }

  method ToStream(packet: Packet) returns (full: Bytes)
    ensures full == ToDatagram(packet)
  {
    hide BinaryStream.Written, BinaryStream.Appending, WriteAt, NextPowerOfTwo;
    var stream := new BinaryStream(|packet.data| + 1);
    stream.WriteByte(packet.command);
    if |packet.data| > 0 {
      stream.WriteBytes(packet.data);
    }
    full := Contents(stream);
  }

  /** The numbers known to the receipt tracker have all been handed out. */
  ghost predicate Issued(r: RT.ReceiptTracker, next: nat)
    reads r
  {
    && (forall c :: c in r.containers ==> c < next)
    && (forall c, k :: c in r.splits && k in r.splits[c] ==> k < next)
  }

  /**
    Cuts the message up, numbers and serializes its packets, and asks for a
    receipt. Nothing is queued on a connection that is being closed.
   */
  method EnqueueOutgoing(remote: RemotePeer, packet: Packet, options: byte, channel: byte, buffer: CB.ChannelBuffer?<Packet>,
                         disconnecting: bool, now: nat)
    returns (container: u32)
    requires remote.Valid() && |packet.data| < PACKET_MAX_LENGTH
    modifies remote`outbox, remote.congestion`nextPacket
    modifies remote.receipt`tracker, remote.receipt`splits, remote.receipt`containers
    modifies if buffer == null then {} else {buffer}
    ensures buffer != null ==> buffer.State() == old(buffer.State())
    ensures buffer != null ==> buffer.outgoing == if disconnecting then old(buffer.outgoing) else Wrap(old(buffer.outgoing) + 1)
    ensures disconnecting ==> container == 0 && remote.View() == old(remote.View()) && remote.Valid()
    ensures !disconnecting ==> container == old(remote.congestion.nextPacket)
    ensures !disconnecting ==> remote.View() == Enqueued(old(remote.View()), packet,
      Labels(options, channel, if buffer == null then 0 else old(buffer.outgoing), container), now)
    ensures old(NumbersLeft(remote, packet)) ==> remote.Valid() && (!disconnecting ==> Issued(remote.receipt, remote.congestion.nextPacket))
  {
    hide Enqueued, NumbersLeft, Issued, RT.ReceiptTracker.Valid;
    if disconnecting { return 0; }
    var sequence := NextOnChannel(buffer);
    container := QueueMessage(remote, packet, options, channel, sequence, now);
  }

  method QueueMessage(remote: RemotePeer, packet: Packet, options: byte, channel: byte, sequence: u32, now: nat)
    returns (container: u32)
    requires remote.Valid() && |packet.data| < PACKET_MAX_LENGTH
    modifies remote`outbox, remote.congestion`nextPacket
    modifies remote.receipt`tracker, remote.receipt`splits, remote.receipt`containers
    ensures container == old(remote.congestion.nextPacket)
    ensures remote.View() == Enqueued(old(remote.View()), packet, Labels(options, channel, sequence, container), now)
    ensures old(NumbersLeft(remote, packet)) ==> remote.Valid() && Issued(remote.receipt, remote.congestion.nextPacket)
  {
    hide QueuedUpTo, Numbers, RT.Registered, RT.ReceiptTracker.Valid, Issued, RT.ReceiptTracker.Unused, ToDatagram, Below;
    var full := ToStream(packet);
    var segments := (|full| - 1) / CHUNK_SIZE + 1;
    container := remote.congestion.GetNextPacketID();
    var labels := Labels(options, channel, sequence, container);
    var ids := QueueSegments(remote, packet, labels, now);
    if old(NumbersLeft(remote, packet)) {
      NewGroup(remote.receipt, container, segments);
    }
    if WantsReceipt(options) {
      RequestReceipt(remote.receipt, container, segments > 1, ids, remote.congestion.nextPacket);
    }
  }

  ghost predicate Below(ids: set<u32>, next: nat) {
    forall k :: k in ids ==> k < next
  }

  /** Numbers not handed out yet are new to the tracker. */
  lemma NewGroup(receipt: RT.ReceiptTracker, container: u32, n: nat)
    requires Issued(receipt, container) && 0 < n && container + n < 0xFFFF_FFFF
    ensures n > 1 ==> receipt.Unused(container, Numbers(container, n, n))
    ensures n > 1 ==> Below(Numbers(container, n, n), Wrap(container as int + 1 + n))
    ensures container < Wrap(container as int + 1 + (if n > 1 then n else 0))
    ensures Issued(receipt, Wrap(container as int + 1 + (if n > 1 then n else 0)))
  {
    hide Numbers;
    if n > 1 {
      NumbersFresh(container, n);
    }
  }

  /** The tracker knows only numbers handed out, and there are numbers left for the message. */
  ghost predicate NumbersLeft(remote: RemotePeer, packet: Packet)
    reads remote, remote.congestion, remote.receipt
  {
    && Issued(remote.receipt, remote.congestion.nextPacket)
    && remote.congestion.nextPacket + SegmentCount(ToDatagram(packet)) < 0xFFFF_FFFF
  }

  /** A channel without a buffer does not number its messages. */
  method NextOnChannel(buffer: CB.ChannelBuffer?<Packet>) returns (sequence: u32)
    modifies if buffer == null then {} else {buffer}
    ensures sequence == if buffer == null then 0 else old(buffer.outgoing)
    ensures buffer != null ==> buffer.State() == old(buffer.State()) && buffer.outgoing == Wrap(sequence + 1)
  {
    sequence := 0;
    if buffer != null {
      sequence := buffer.GetNextOutgoing();
    }
  }

  method RequestReceipt(receipt: RT.ReceiptTracker, container: u32, split: bool, segments: set<u32>, ghost next: u32)
    modifies receipt`tracker, receipt`splits, receipt`containers
    ensures receipt.View() == var r := RT.Tracked(old(receipt.View()), container);
      if split then RT.Registered(r, container, segments) else r
    ensures old(receipt.Valid() && (split ==> receipt.Unused(container, segments))) ==> receipt.Valid()
    ensures old(Issued(receipt, next)) && container < next && (split ==> Below(segments, next)) ==> Issued(receipt, next)
  {
    receipt.Track(container);
    if split {
      receipt.RegisterSplitPacket(container, segments);
    }
  }

  lemma NumbersFresh(container: u32, n: nat)
    requires n > 1 && container + n < 0xFFFF_FFFF
    ensures Numbers(container, n, n) != {}
    ensures forall k :: k in Numbers(container, n, n) ==> container < k <= container + n
  {
    assert NumberOf(container, n, 0) in Numbers(container, n, n);
    forall i | 0 <= i < n ensures NumberOf(container, n, i) == container as int + 1 + i {
      NextNumber(container, n, i);
    }
  }

  method QueueSegments(remote: RemotePeer, packet: Packet, labels: Labels, now: nat) returns (ids: set<u32>)
    requires |packet.data| < PACKET_MAX_LENGTH
    requires remote.congestion.nextPacket == Wrap(labels.container as int + 1)
    modifies remote`outbox, remote.congestion`nextPacket
    ensures var n := SegmentCount(ToDatagram(packet));
      && remote.outbox == old(remote.outbox) + QueuedUpTo(packet, labels, n, now)
      && remote.congestion.nextPacket == Wrap(labels.container as int + 1 + (if n > 1 then n else 0))
      && (n > 1 ==> ids == Numbers(labels.container, n, n))
  {
    hide Queued, PacketBlob, Wrap;
    var full := ToDatagram(packet);
    var segments := SegmentCount(full);
    ids := {};
    for i := 0 to segments
      invariant remote.outbox == old(remote.outbox) + QueuedUpTo(packet, labels, i, now)
      invariant remote.congestion.nextPacket == Wrap(labels.container as int + 1 + (if segments > 1 then i else 0))
      invariant segments > 1 ==> ids == Numbers(labels.container, segments, i)
    {
      var id := labels.container;
      if segments > 1 {
        id := remote.congestion.GetNextPacketID();
        NumberAfter(labels.container, segments, i);
        ids := ids + {id};
      }
      var meta := QueueOne(packet, labels, id, i, now);
      assert QueuedUpTo(packet, labels, i + 1, now) == QueuedUpTo(packet, labels, i, now) + [meta];
      remote.outbox := remote.outbox + [meta];
    }
  }

  method QueueOne(packet: Packet, labels: Labels, id: u32, i: nat, now: nat) returns (meta: Outgoing)
    requires |packet.data| < PACKET_MAX_LENGTH && i < SegmentCount(ToDatagram(packet))
    requires id == NumberOf(labels.container, SegmentCount(ToDatagram(packet)), i)
    ensures meta == Queued(packet, labels, i, now)
  {
    hide PacketBlob;
    var full := ToDatagram(packet);
    var segments := SegmentCount(full);
    var count := if |full| - i * CHUNK_SIZE <= CHUNK_SIZE then |full| - i * CHUNK_SIZE else CHUNK_SIZE;
    var header := PH.PacketHeader(i < segments - 1, |packet.data| >= 0xFFFF, id, labels.options, labels.channel,
                                  labels.sequence, count, i * CHUNK_SIZE, labels.container, i);
    var body := full[header.offset..header.offset + count];
    assert Message(header, body) == Segment(packet, labels, id, i);
    var blob := SerializePacket(header, body);
    meta := Outgoing(id, blob, IsReliable(labels.options) || segments > 1, WantsReceipt(labels.options), now, 0);
  }

  lemma NextNumber(container: u32, n: nat, i: nat)
    requires n > 1 && i < n && container + n < 0xFFFF_FFFF
    ensures NumberOf(container, n, i) == container as int + 1 + i
    ensures Numbers(container, n, i + 1) == Numbers(container, n, i) + {NumberOf(container, n, i)}
  {
  }

  /** The same across the end of the number range. */
  lemma NumberAfter(container: u32, n: nat, i: nat)
    requires n > 1 && i < n
    ensures NumberOf(container, n, i) == Wrap(container as int + 1 + i)
    ensures Wrap(NumberOf(container, n, i) as int + 1) == Wrap(container as int + 1 + (i + 1))
    ensures Numbers(container, n, i + 1) == Numbers(container, n, i) + {NumberOf(container, n, i)}
  {
  }

  // --- Receiving ---

  /** The packets of a datagram that have not been seen before, in order. */
  function Taken(cc: CC.State, ms: seq<Message>, now: nat): (r: (CC.State, seq<Message>))
    ensures r.0.window == cc.window
    decreases |ms|
  {
    if ms == [] then (cc, [])
    else if ms[0].header.id in cc.packetHistory then Taken(cc, ms[1..], now)
    else
      var (cc', rest) := Taken(CC.ReceivedPacket(cc, ms[0].header.id, now), ms[1..], now);
      (cc', [ms[0]] + rest)
  }

  datatype Reading = Reading(closed: bool, peer: Peer, taken: seq<Message>)

  /** What a connected peer makes of the bytes of a datagram. */
  ghost function Read(p: Peer, f: Bytes, now: nat): (r: Reading)
    requires p.congestion.window > 0
    ensures r.peer.congestion.window > 0
  {
    match Decode(f)
    case Malformed => Reading(true, p, [])
    case Received(h, start, ms) =>
      if h.data && h.dataLength + start > MTU then Reading(true, p, [])
      else if !h.link || h.id in p.congestion.datagramHistory then Reading(false, p, [])
      else Opened(p, h, ms, now)
  }

  /** A new datagram: note it, handle its acknowledgements, then its packets. */
  ghost function Opened(p: Peer, h: DH.DatagramHeader, ms: seq<Message>, now: nat): (r: Reading)
    requires p.congestion.window > 0
    ensures r.peer.congestion.window > 0 && !r.closed
  {
    var p1 := Answered(p.(congestion := CC.ReceivedDatagram(p.congestion, h.id, !h.data, now)), h, now);
    var (cc, taken) := Taken(p1.congestion, ms, now);
    Reading(false, p1.(congestion := cc), taken)
  }

  ghost function Answered(p: Peer, h: DH.DatagramHeader, now: nat): (p': Peer)
    requires p.congestion.window > 0
    ensures p'.congestion.window > 0
  {
    var p1 := if h.acks != [] then Acks(p, h.acks, now) else p;
    if h.nacks != [] then Nacks(p1, h.nacks, now) else p1
  }

  /** A datagram sent outside any connection, which the peer deals with elsewhere. */
  ghost predicate Offline(f: Bytes) {
    var d := Decode(f);
    d.Received? && !d.header.link && !(d.header.data && d.header.dataLength + d.start > MTU)
  }

  /**
    Handles one received datagram; `closed` means the connection has to be
    dropped, `offline` that the datagram belongs to no connection. Before the
    handshake is over (`connected`) nothing else is accepted.
   */
  method OnReadFinished(remote: RemotePeer, connected: bool, buffer: Bytes, now: nat)
    returns (closed: bool, offline: bool, taken: seq<Message>)
    requires remote.Valid()
    modifies remote, remote.congestion
    modifies remote.receipt`tracker, remote.receipt`splits, remote.receipt`posted
    ensures remote.Valid()
    ensures offline <==> Offline(buffer)
    ensures Reading(closed, remote.View(), taken)
      == if connected || offline then Read(old(remote.View()), buffer, now) else Reading(true, old(remote.View()), [])
  {
    hide DH.Parse, ParseMessages, Opened, RT.ReceiptTracker.Valid, CC.CongestionControlWindow.View;
    closed, offline, taken := false, false, [];
    var stream := new BinaryStream.Wrap(buffer);
    var ok, header := DH.Deserialize(stream);
    if !ok {
      closed := true;
    } else if header.data && header.dataLength + stream.position > MTU {
      closed := true;
    } else if !header.link {
      offline := true;
    } else if !connected {
      closed := true;
    } else {
      taken := HandleDatagram(remote, header, stream, now);
    }
  }

  method HandleDatagram(remote: RemotePeer, header: DH.DatagramHeader, stream: BinaryStream, now: nat)
    returns (taken: seq<Message>)
    requires remote.Valid() && stream.Valid()
    modifies remote, remote.congestion, stream`position, stream`subBytePosition
    modifies remote.receipt`tracker, remote.receipt`splits, remote.receipt`posted
    ensures remote.Valid()
    ensures Reading(false, remote.View(), taken)
      == var p, ms := old(remote.View()), ParseMessages(old(stream.View().bytes), old(stream.View().Head()), PH.BLANK).0;
         if header.id in p.congestion.datagramHistory then Reading(false, p, []) else Opened(p, header, ms, now)
  {
    hide ParseMessages, Acks, Nacks, Taken, CC.ReceivedDatagram, RT.ReceiptTracker.Valid;
    taken := [];
    var isNew := remote.congestion.NotifyReceivedDatagram(header.id, !header.data, now);
    if isNew {
      if header.acks != [] {
        remote.HandleAcknowledgements(header.acks, now);
      }
      if header.nacks != [] {
        remote.HandleNonAcknowledgements(header.nacks, now);
      }
      taken := ReadPackets(remote.congestion, stream, now);
    } else {
      DuplicateIgnored(old(remote.congestion.View()), header.id, !header.data, now);
    }
  }

  lemma DuplicateIgnored(cc: CC.State, id: u32, isAck: bool, now: nat)
    requires id in cc.datagramHistory
    ensures CC.ReceivedDatagram(cc, id, isAck, now) == cc
  {
  }

  /** Parses packets until the bytes run out, skipping those seen before. */
  method ReadPackets(congestion: CC.CongestionControlWindow, stream: BinaryStream, now: nat) returns (taken: seq<Message>)
    requires stream.Valid()
    modifies congestion`packetHistory, stream`position, stream`subBytePosition
    ensures (congestion.View(), taken)
      == Taken(old(congestion.View()), ParseMessages(old(stream.View().bytes), old(stream.View().Head()), PH.BLANK).0, now)
  {
    hide PH.Parse, GetBytes, Taken, ParseMessages, CC.CongestionControlWindow.View;
    taken := [];
    var header := PH.BLANK;
    ghost var f := stream.View().bytes;
    ghost var goal := Taken(congestion.View(), ParseMessages(f, stream.View().Head(), PH.BLANK).0, now);
    var more := true;
    assert taken + goal.1 == goal.1;
    while more
      invariant stream.Valid() && stream.View().bytes == f
      invariant if more
        then After(taken, Taken(congestion.View(), ParseMessages(f, stream.View().Head(), header).0, now)) == goal
        else (congestion.View(), taken) == goal
      decreases more, |f| - stream.position
    {
      ghost var cc, r, prior, done := congestion.View(), stream.View().Head(), header, taken;
      var got;
      more, header, got := ReadPacket(congestion, stream, header, now);
      if got.Some? {
        taken := taken + [got.value];
      }
      OnePacket(cc, f, r, prior, done, now);
    }
  }

  ghost function After(taken: seq<Message>, rest: (CC.State, seq<Message>)): (CC.State, seq<Message>) {
    (rest.0, taken + rest.1)
  }

  /** One round of the parsing loop. */
  predicate Continues(f: Bytes, r: Reader, prior: PH.PacketHeader)
    requires r.Valid()
  {
    var (ok, h, r1) := PH.Parse(f, r, prior);
    ok && r1.Align() + h.length <= |f| && r.pos < r1.pos
  }

  lemma OnePacket(cc: CC.State, f: Bytes, r: Reader, prior: PH.PacketHeader, taken: seq<Message>, now: nat)
    requires r.Valid()
    ensures var whole := After(taken, Taken(cc, ParseMessages(f, r, prior).0, now));
      if !Continues(f, r, prior) then whole == (cc, taken)
      else
        var (_, h, r1) := PH.Parse(f, r, prior);
        var end := r1.Align() + h.length;
        var m := Message(h, f[r1.Align()..end]);
        whole == After(if h.id in cc.packetHistory then taken else taken + [m],
                       Taken(CC.ReceivedPacket(cc, h.id, now), ParseMessages(f, Reader(end, 0), h).0, now))
  {
    hide PH.Parse;
    var (ok, h, r1) := PH.Parse(f, r, prior);
    if Continues(f, r, prior) {
      var end := r1.Align() + h.length;
      var m := Message(h, f[r1.Align()..end]);
      var ms := ParseMessages(f, Reader(end, 0), h).0;
      assert ([m] + ms)[1..] == ms;
      var rest := Taken(CC.ReceivedPacket(cc, h.id, now), ms, now).1;
      assert taken + [m] + rest == taken + ([m] + rest);
    } else {
      assert taken + [] == taken;
    }
  }

  method ReadPacket(congestion: CC.CongestionControlWindow, stream: BinaryStream, prior: PH.PacketHeader, now: nat)
    returns (more: bool, header: PH.PacketHeader, got: Option<Message>)
    requires stream.Valid()
    modifies congestion`packetHistory, stream`position, stream`subBytePosition
    ensures stream.Valid() && stream.View().bytes == old(stream.View().bytes)
    ensures more == Continues(old(stream.View().bytes), old(stream.View().Head()), prior)
    ensures !more ==> got == None && congestion.View() == old(congestion.View())
    ensures more ==>
      var f := old(stream.View().bytes);
      var (_, h, r1) := PH.Parse(f, old(stream.View().Head()), prior);
      && header == h && old(stream.position) < stream.position && stream.View().Head() == Reader(r1.Align() + h.length, 0)
      && congestion.View() == CC.ReceivedPacket(old(congestion.View()), h.id, now)
      && got == if h.id in old(congestion.View()).packetHistory then None
                else Some(Message(h, f[r1.Align()..r1.Align() + h.length]))
  {
    hide PH.Parse;
    var before := stream.position;
    more, header := PH.Deserialize(stream, prior);
    got := None;
    if more {
      var start := if stream.subBytePosition > 0 then stream.position + 1 else stream.position;
      more := start + header.length <= stream.length && before < stream.position;
      if more {
        var isNew := congestion.NotifyReceivedPacket(header.id, now);
        if isNew {
          var body := stream.ReadBytes(header.length);
          got := Some(Message(header, body));
        } else {
          stream.Align();
          var ok := stream.Skip(header.length);
        }
      }
    }
  }
}
