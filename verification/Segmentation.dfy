/** Cutting messages into segments, and the packet headers that go with them. */
module Segmentation {
  import opened Types
  import PH = PacketHeaders
  import opened Datagrams

  /** A message of the application: a command byte and its data. */
  datatype Packet = Packet(command: byte, data: Bytes)

  function ToDatagram(p: Packet): (b: Bytes)
    ensures |b| == |p.data| + 1
  {
    [p.command] + p.data
  }

  function FromDatagram(b: Bytes): Packet
    requires b != []
  {
    Packet(b[0], b[1..])
  }

  lemma FromDatagramInverts(p: Packet)
    ensures FromDatagram(ToDatagram(p)) == p
  {
  }

  /** How many segments the serialized message takes. */
  function SegmentCount(full: Bytes): (n: nat)
    requires full != []
    ensures 1 <= n && (n - 1) * CHUNK_SIZE < |full| <= n * CHUNK_SIZE
  {
    (|full| - 1) / CHUNK_SIZE + 1
  }

  function Offset(i: nat): nat { i * CHUNK_SIZE }

  function End(full: Bytes, i: nat): nat {
    if (i + 1) * CHUNK_SIZE <= |full| then (i + 1) * CHUNK_SIZE else |full|
  }

  function SegmentBody(full: Bytes, i: nat): (b: Bytes)
    requires full != [] && i < SegmentCount(full)
    ensures 1 <= |b| <= CHUNK_SIZE && |b| == End(full, i) - Offset(i)
  {
    full[Offset(i)..End(full, i)]
  }

  /** What the sender knows about a message besides its contents. */
  datatype Labels = Labels(options: byte, channel: byte, sequence: u32, container: u32)

  function SegmentHeader(p: Packet, labels: Labels, id: u32, i: nat): PH.PacketHeader
    requires |p.data| < PACKET_MAX_LENGTH && i < SegmentCount(ToDatagram(p))
  {
    var full := ToDatagram(p);
    PH.PacketHeader(
      i < SegmentCount(full) - 1,
      |p.data| >= 0xFFFF,
      id, labels.options, labels.channel, labels.sequence,
      |SegmentBody(full, i)|, Offset(i), labels.container, i)
  }

  function Segment(p: Packet, labels: Labels, id: u32, i: nat): Message
    requires |p.data| < PACKET_MAX_LENGTH && i < SegmentCount(ToDatagram(p))
  {
    Message(SegmentHeader(p, labels, id, i), SegmentBody(ToDatagram(p), i))
  }

  /** The header form chosen by the jumbo flag never cuts off a length or an offset. */
  lemma SegmentValid(p: Packet, labels: Labels, id: u32, i: nat)
    requires |p.data| < PACKET_MAX_LENGTH && i < SegmentCount(ToDatagram(p))
    ensures Segment(p, labels, id, i).Valid()
    ensures Segment(p, labels, id, i).header.Split() <==> SegmentCount(ToDatagram(p)) > 1
  {
  }
}
