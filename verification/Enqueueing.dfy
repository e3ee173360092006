/** What queueing a message leaves in a peer, said by reading the queued packets back. */
module Enqueueing {
  import opened Types
  import opened Serial
  import opened Wire
  import PH = PacketHeaders
  import RT = Receipts
  import opened Datagrams
  import opened Segmentation
  import opened Builders
  import opened RemotePeers
  import opened Queues

  /** The i-th stretch of 1200 bytes. */
  function Stretch(full: Bytes, i: nat): Bytes {
    if 1200 * (i + 1) <= |full| then full[1200 * i..1200 * (i + 1)] else if 1200 * i <= |full| then full[1200 * i..] else []
  }

  /** A packet header that marks the i-th of n parts of a message. */
  ghost predicate Marks(h: PH.PacketHeader, id: u32, labels: Labels, n: nat, i: nat) {
    && h.id == id && h.options == labels.options && h.channel == labels.channel
    && (h.channel != 0 ==> h.sequence == labels.sequence)
    && (n > 1 ==> h.container == labels.container && h.index == i)
    && (h.segment <==> i < n - 1) && h.offset == 1200 * i
  }

  /** What a receiver reads from a queued packet: its part of the message, marked as that part. */
  ghost predicate Says(blob: Bytes, id: u32, labels: Labels, full: Bytes, n: nat, i: nat) {
    var r := PH.Parse(blob, Reader(0, 0), PH.BLANK);
    r.0 && Marks(r.1, id, labels, n, i) && r.2.pos <= |blob| && r.2.sub == 0 && blob[r.2.pos..] == Stretch(full, i)
  }

  lemma SegmentMarks(p: Packet, labels: Labels, id: u32, i: nat)
    requires |p.data| < PACKET_MAX_LENGTH && i < SegmentCount(ToDatagram(p))
    ensures var m := Segment(p, labels, id, i);
      Marks(PH.Seen(m.header, PH.BLANK), id, labels, SegmentCount(ToDatagram(p)), i) && m.body == Stretch(ToDatagram(p), i)
  {
    hide ToDatagram;
    SegmentValid(p, labels, id, i);
    assert Offset(i) == 1200 * i;
  }

  lemma SegmentSays(p: Packet, labels: Labels, id: u32, i: nat)
    requires |p.data| < PACKET_MAX_LENGTH && i < SegmentCount(ToDatagram(p))
    ensures Says(PacketBlob(Segment(p, labels, id, i)), id, labels, ToDatagram(p), SegmentCount(ToDatagram(p)), i)
  {
    hide PacketBlob, PH.Parse, Segment, Marks, Stretch, PH.Seen;
    var m := Segment(p, labels, id, i);
    SegmentValid(p, labels, id, i);
    SegmentMarks(p, labels, id, i);
    var blob := PacketBlob(m);
    BlobSized(m);
    assert [] + blob == blob;
    ParseOne(blob, [], m, PH.BLANK);
    var r := PH.Parse(blob, Reader(0, 0), PH.BLANK);
    assert blob[r.2.pos..] == blob[r.2.pos..r.2.pos + |m.body|];
  }

  lemma BlobSized(m: Message)
    requires m.Valid()
    ensures Sized(PacketBlob(m))
  {
    hide Put, PutAll;
    PutAllConcat(EMPTY, PH.Layout(m.header), [Blob(m.body)]);
    PutBlob(PutAll(EMPTY, PH.Layout(m.header)), m.body);
    HeaderSize(m.header);
  }

  /** One of the packets of a message: new, due at once, and marked as its options and segmentation say. */
  ghost predicate QueuedAs(x: Outgoing, packet: Packet, labels: Labels, n: nat, i: nat, now: int) {
    && x.id == (if n == 1 then labels.container else Wrap(labels.container as int + 1 + i))
    && x.sendNext == now && x.sendCount == 0
    && (x.reliable <==> labels.options % 2 == 1 || n > 1) && (x.receipt <==> labels.options / 2 % 2 == 1)
    && Says(x.blob, x.id, labels, [packet.command] + packet.data, n, i)
  }

  /** As many packets as the bytes of the message need at 1200 each. */
  ghost predicate AllQueued(news: Outbox, packet: Packet, labels: Labels, now: int) {
    && news != [] && (|news| - 1) * 1200 < |packet.data| + 1 <= |news| * 1200
    && forall i :: 0 <= i < |news| ==> QueuedAs(news[i], packet, labels, |news|, i, now)
  }

  function NumbersIn(news: Outbox): set<u32> {
    set i | 0 <= i < |news| :: news[i].id
  }

  lemma QueuedOne(packet: Packet, labels: Labels, i: nat, now: nat)
    requires |packet.data| < PACKET_MAX_LENGTH && i < SegmentCount(ToDatagram(packet))
    ensures QueuedAs(Queued(packet, labels, i, now), packet, labels, SegmentCount(ToDatagram(packet)), i, now)
  {
    hide Says, PacketBlob, Segment, SegmentCount;
    var n := SegmentCount(ToDatagram(packet));
    SegmentSays(packet, labels, NumberOf(labels.container, n, i), i);
  }

  lemma NewPackets(packet: Packet, labels: Labels, now: nat)
    requires |packet.data| < PACKET_MAX_LENGTH
    ensures var n := SegmentCount(ToDatagram(packet));
      var news := QueuedUpTo(packet, labels, n, now);
      AllQueued(news, packet, labels, now) && NumbersIn(news) == Numbers(labels.container, n, n)
  {
    var n := SegmentCount(ToDatagram(packet));
    var news := QueuedUpTo(packet, labels, n, now);
    hide QueuedAs, Segment, PacketBlob, NumberOf;
    forall i | 0 <= i < n ensures QueuedAs(news[i], packet, labels, n, i, now) && news[i].id == NumberOf(labels.container, n, i) {
      QueuedOne(packet, labels, i, now);
    }
    assert |ToDatagram(packet)| == |packet.data| + 1;
    assert AllQueued(news, packet, labels, now);
    forall id | id in Numbers(labels.container, n, n) ensures id in NumbersIn(news) {
      var i :| 0 <= i < n && id == NumberOf(labels.container, n, i);
      assert news[i].id == id;
    }
  }

  /** A receipt, if asked for, is open, and follows all the packets of a message in segments. */
  ghost predicate ReceiptAsked(r: RT.State, r': RT.State, labels: Labels, news: Outbox) {
    var c, asked := labels.container, labels.options / 2 % 2 == 1;
    && r'.posted == r.posted && r'.tracker == r.tracker + (if asked then {c} else {})
    && r'.splits == if asked && |news| > 1 && c !in r.splits then r.splits[c := NumbersIn(news)] else r.splits
  }

  /**
    A message queued: its packets stand behind the others and say the message,
    the next number moves past theirs, and its receipt is asked for.
   */
  lemma EnqueuedExactly(p: Peer, packet: Packet, labels: Labels, now: nat)
    requires |packet.data| < PACKET_MAX_LENGTH
    ensures var q := Enqueued(p, packet, labels, now);
      && p.outbox <= q.outbox
      && var news := q.outbox[|p.outbox|..];
      && AllQueued(news, packet, labels, now) && ReceiptAsked(p.receipts, q.receipts, labels, news)
      && q.sentbox == p.sentbox
      && q.congestion == p.congestion.(nextPacket := Wrap(labels.container as int + 1 + if |news| > 1 then |news| else 0))
  {
    NewPackets(packet, labels, now);
    hide QueuedUpTo, AllQueued, NumbersIn, Numbers, SegmentCount;
    var q, n := Enqueued(p, packet, labels, now), SegmentCount(ToDatagram(packet));
    var news := QueuedUpTo(packet, labels, n, now);
    assert q.outbox[|p.outbox|..] == news;
  }
}
