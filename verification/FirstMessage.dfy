/** A message that gets across and is acknowledged: what the statements about all runs speak of does happen. */
module FirstMessage {
  import opened Types
  import opened Wire
  import PH = PacketHeaders
  import opened Datagrams
  import opened Segmentation
  import CC = Congestion
  import RT = Receipts
  import opened Builders
  import opened RemotePeers
  import opened Queues
  import opened Protocol

  lemma OneMove(start: Setting, moves: seq<Move>, m: Move)
    requires Run(start, moves).Some? && CanMove(Run(start, moves).value, m)
    ensures Run(start, moves + [m]) == Some(Moved(Run(start, moves).value, m))
  {
    hide CanMove, Moved;
    assert (moves + [m])[..|moves|] == moves;
  }

  /** A setting in which both clocks start at 0. */
  ghost function Zero(buffered: set<byte>): Setting { Setting(0, 0, buffered) }

  /** The first message of a connection: in one piece, reliable and with a receipt. */
  ghost predicate First(o: Order) {
    |o.packet.data| < CHUNK_SIZE && o.labels.container == 0 && o.labels.options == 3
  }

  ghost function Start(o: Order, buffered: set<byte>): Half
    requires First(o)
  {
    Queueing(Protocol.Fresh(0, buffered), o, 0)
  }

  lemma FirstQueued(o: Order, buffered: set<byte>)
    requires First(o)
    ensures Fits(o) && Segments(o) == 1
    ensures var h := Start(o, buffered);
      && h.peer == Peer([Queued(o.packet, o.labels, 0, 0)], [], CC.Initial(0).(nextPacket := 1), RT.START.(tracker := {0}))
      && h.messages == map[0 := Segment(o.packet, o.labels, 0, 0)] && h.reliable == {0} && h.open
  {
    hide Segment, PacketBlob;
    assert NumberOf(0, 1, 0) == 0;
    assert QueuedUpTo(o.packet, o.labels, 1, 0) == [Queued(o.packet, o.labels, 0, 0)];
    assert MessagesOf(o) == map[0 := Segment(o.packet, o.labels, 0, 0)];
    assert Numbering(o) == {0};
  }

  lemma FirstSize(o: Order)
    requires First(o)
    ensures 0 < |Queued(o.packet, o.labels, 0, 0).blob| <= CHUNK_SIZE + 27
    ensures Segment(o.packet, o.labels, 0, 0).Valid()
  {
    hide PutAll, Put;
    var m := Segment(o.packet, o.labels, 0, 0);
    SegmentValid(o.packet, o.labels, 0, 0);
    PutAllConcat(EMPTY, PH.Layout(m.header), [Blob(m.body)]);
    HeaderSize(m.header);
    PH.LayoutSize(EMPTY, m.header);
    PutBlob(PutAll(EMPTY, PH.Layout(m.header)), m.body);
    assert NumberOf(0, 1, 0) == 0;
  }

  lemma FirstChosen(o: Order, buffered: set<byte>)
    requires First(o)
    ensures var p := Start(o, buffered).peer;
      && p.congestion.bytesInFlight == 0 && Chosen(p, 0) == [0] && Payload(p.outbox, [0]) <= CHUNK_SIZE + 27
      && OnlyLastUnreliable(p.outbox, [0]) && !Exhausted(p.outbox, [0])
  {
    FirstQueued(o, buffered);
    FirstSize(o);
    var p := Start(o, buffered).peer;
    hide Start, PacketBlob, Segment;
    var rest: seq<nat> := Greedy(p.outbox, 1, MTU - |p.outbox[0].blob|, 0);
    assert rest == [];
    assert Greedy(p.outbox, 0, MTU, 0) == [0] + rest;
    var sel: seq<nat> := [0];
    assert sel[1..] == [];
  }

  /** The sender once the message is on its way under datagram number 0. */
  ghost predicate OnItsWay(h: Half, o: Order)
    requires First(o)
  {
    && h.open && 0 in h.log && h.log[0].Data?
    && var d := h.log[0].sent;
    && d.id == 0 && d.packets == [0] && |d.blob| <= MTU && Carries(d, true, h.messages)
    && 0 in h.messages && h.messages[0] == Segment(o.packet, o.labels, 0, 0)
    && h.peer.sentbox == [d] && |h.peer.outbox| == 1 && h.peer.outbox[0].id == 0
    && h.peer.congestion.window > 0 && h.peer.congestion.datagramHistory == map[]
    && h.peer.receipts == RT.START.(tracker := {0})
  }

  lemma FirstLabelled(o: Order, buffered: set<byte>)
    requires First(o)
    ensures var h := Start(o, buffered); Labelled(h.peer.outbox, h.messages, h.reliable)
  {
    hide PacketBlob, Start;
    FirstQueued(o, buffered);
    FirstSize(o);
    var h := Start(o, buffered);
    SegmentNumber(o.packet, o.labels, 0, 0);
    assert LabelledOne(h.peer.outbox[0], h.messages, h.reliable);
  }

  lemma FirstBuilt(o: Order, buffered: set<byte>)
    requires First(o)
    ensures Start(o, buffered).peer.congestion.bytesInFlight >= 0
    ensures var h := Start(o, buffered);
      var next := NextDatagram(h.peer, true, 0);
      && next.0.Built?
      && var d := next.0.datagram;
      && d.id == 0 && d.packets == [0] && |d.blob| <= MTU && Carries(d, true, h.messages)
      && next.1 == Shipped(h.peer, next.1.outbox, d)
      && |next.1.outbox| == 1 && next.1.outbox[0].id == 0
  {
    FirstLabelled(o, buffered);
    FirstQueued(o, buffered);
    FirstChosen(o, buffered);
    var h := Start(o, buffered);
    hide Start, Labelled, Chosen, Exhausted, OnlyLastUnreliable, NextDatagram, Carries, Queued, Segment, CC.Initial, Written;
    BuiltDecodes(h.peer, true, 0, h.messages, h.reliable);
    var d := NextDatagram(h.peer, true, 0).0.datagram;
    assert d.packets == [0];
    FirstStays(h.peer.outbox, h.peer.congestion);
    PayloadIsConcat(h.peer.outbox, [0]);
    PickedBlobs(h.peer.outbox, [0], h.messages, h.reliable);
    CarriedSize(d, h.messages);
  }

  /** A reliable packet stays in the outbox when it is sent. */
  lemma FirstStays(outbox: Outbox, cc: CC.State)
    requires |outbox| == 1 && outbox[0].reliable
    ensures var written := Written(Scheduled(outbox, [0], cc, 0), [0]);
      written.Some? && |written.value.1| == 1 && written.value.1[0].id == outbox[0].id
  {
    hide Written;
    WrittenOutbox(Scheduled(outbox, [0], cc, 0), [0]);
  }

  lemma FirstSent(o: Order, buffered: set<byte>)
    requires First(o)
    ensures Start(o, buffered).peer.congestion.bytesInFlight >= 0 && OnItsWay(Sending(Start(o, buffered), 0), o)
  {
    FirstQueued(o, buffered);
    FirstBuilt(o, buffered);
    hide Start, NextDatagram, Carries, Segment;
    var h := Start(o, buffered);
    var d, p := NextDatagram(h.peer, true, 0).0.datagram, NextDatagram(h.peer, true, 0).1;
    assert Sending(h, 0) == Posting(h, d, p, 0);
    assert [] + [d] == [d];
  }

  /** The receiver once it has taken the message and owes an acknowledgement. */
  ghost predicate HasTaken(h: Half, o: Order) {
    && |h.received| == 1 && h.received[0].body == ToDatagram(o.packet) && !h.received[0].header.Split()
    && h.open && h.log == map[] && h.peer.congestion.nextDatagram == 0
    && h.peer.congestion.acks == [0] && h.peer.congestion.nacks == []
  }

  lemma FirstReceived(sender: Half, o: Order, buffered: set<byte>)
    requires First(o) && OnItsWay(sender, o)
    ensures HasTaken(Receiving(Protocol.Fresh(0, buffered), sender.log[0], 0), o)
  {
    var d, messages := sender.log[0].sent, sender.messages;
    DataDecodes(d, messages);
    CarriedSize(d, messages);
    var ms := Lookup(messages, d.packets);
    var m := Segment(o.packet, o.labels, 0, 0);
    assert ms == [m];
    var seen := SeenAll(ms, PH.BLANK);
    SeenAllSame(ms, PH.BLANK);
    hide Decode, SeenAll, Concat, Blobs, Lookup, Carries;
    var cc := CC.ReceivedDatagram(CC.Initial(0), 0, false, 0);
    assert cc.packetHistory == map[];
    assert cc.acks == [0];
    assert seen == [seen[0]];
    TakesAll(cc, seen[0]);
    hide Taken;
    assert Read(Protocol.Fresh(0, buffered).peer, d.blob, 0).taken == seen;
    assert [] + seen == seen;
    assert ToDatagram(o.packet)[0..|o.packet.data| + 1] == ToDatagram(o.packet);
  }

  lemma TakesAll(cc: CC.State, m: Message)
    requires cc.packetHistory == map[]
    ensures Taken(cc, [m], 0).1 == [m]
    ensures Taken(cc, [m], 0).0 == cc.(packetHistory := map[m.header.id := 0])
  {
    var ms := [m];
    assert ms[1..] == [];
    assert [m] + [] == [m];
  }

  lemma FirstAcknowledged(receiver: Half, o: Order)
    requires HasTaken(receiver, o)
    ensures var h := Acking(receiver, 0);
      && h.received == receiver.received && 0 in h.log
      && h.log[0] == Ackgram(Encode(AckHeader(0, [0], []), []), [0], [])
  {
    hide Encode;
  }

  /** The acknowledgement takes the message out of the outbox and posts its receipt. */
  lemma FirstReceipt(sender: Half, o: Order)
    requires First(o) && OnItsWay(sender, o)
    ensures var h := Receiving(sender, Ackgram(Encode(AckHeader(0, [0], []), []), [0], []), 0);
      h.open && h.peer.outbox == [] && h.peer.receipts == RT.State({}, map[], [RT.Receipt(0, true)])
  {
    AckDecodes(0, [0], []);
    hide Decode, Encode, Carries, Segment, CC.Acked;
    var p := sender.peer.(congestion := CC.ReceivedDatagram(sender.peer.congestion, 0, true, 0));
    OneAck(p);
    assert Answered(p, AckHeader(0, [0], []), 0) == Acks(p, [0], 0);
  }

  lemma OneAck(p: Peer)
    requires p.congestion.window > 0 && |p.sentbox| == 1 && p.sentbox[0].id == 0 && p.sentbox[0].packets == [0]
    requires |p.outbox| == 1 && p.outbox[0].id == 0 && p.receipts == RT.START.(tracker := {0})
    ensures var q := Acks(p, [0], 0);
      q.outbox == [] && q.receipts == RT.State({}, map[], [RT.Receipt(0, true)])
  {
    hide CC.Acked;
    var ids: seq<u32> := [0];
    assert ids[..0] == [] && ids[0] == 0;
    assert Acks(p, ids, 0) == Ack(p, 0, 0);
    assert IndexOf(p.sentbox, 0) == 0;
    var none: seq<u32> := [];
    assert RemotePeers.Delivered(p, none) == p;
    assert RT.Without(map[], 0) == map[];
    assert RT.Acknowledged(p.receipts, 0) == RT.State({}, map[], [RT.Receipt(0, true)]);
  }

  /**
    Queue, send, receive, acknowledge: from the start, a message in one piece
    gets across, and its sender is told so.
   */
  lemma FirstMessageArrives(packet: Packet, channel: byte, buffered: set<byte>) returns (moves: seq<Move>)
    requires |packet.data| < CHUNK_SIZE
    ensures Run(Zero(buffered), moves).Some?
    ensures var w := Run(Zero(buffered), moves).value;
      && |w.right.received| == 1 && w.right.received[0].body == ToDatagram(packet) && !w.right.received[0].header.Split()
      && w.left.peer.outbox == [] && w.left.peer.receipts.posted == [RT.Receipt(0, true)]
  {
    var o := Order(packet, Labels(3, channel, 0, 0));
    moves := UpToReceived(o, buffered);
    hide Run, Sending, Start;
    FirstSent(o, buffered);
    var start, sender := Zero(buffered), Sending(Start(o, buffered), 0);
    FirstReceived(sender, o, buffered);
    hide Receiving;
    var receiver := Receiving(Protocol.Fresh(0, buffered), sender.log[0], 0);
    FirstAcknowledged(receiver, o);
    FirstReceipt(sender, o);
    hide Acking, Carries, Segment;
    moves := AckMove(start, sender, receiver, o, moves);
    moves := ReceiveMove(start, World(sender, Acking(receiver, 0)), true, moves);
  }

  lemma UpToReceived(o: Order, buffered: set<byte>) returns (moves: seq<Move>)
    requires First(o) && o.labels.sequence == 0
    ensures Start(o, buffered).peer.congestion.bytesInFlight >= 0 && 0 in Sending(Start(o, buffered), 0).log
    ensures var sender := Sending(Start(o, buffered), 0);
      Run(Zero(buffered), moves) == Some(World(sender, Receiving(Protocol.Fresh(0, buffered), sender.log[0], 0)))
  {
    hide Run, Sending, Start, Receiving;
    FirstSent(o, buffered);
    hide Segment, Carries;
    moves := QueueMove(o, buffered);
    moves := SendMove(o, buffered, moves);
    moves := ReceiveMove(Zero(buffered), World(Sending(Start(o, buffered), 0), Protocol.Fresh(0, buffered)), false, moves);
  }

  lemma QueueMove(o: Order, buffered: set<byte>) returns (moves: seq<Move>)
    requires First(o) && o.labels.sequence == 0
    ensures Run(Zero(buffered), moves) == Some(World(Start(o, buffered), Protocol.Fresh(0, buffered)))
  {
    var m := Move(true, Enqueue(o.packet, 3, o.labels.channel), 0);
    var w := World(Protocol.Fresh(0, buffered), Protocol.Fresh(0, buffered));
    assert Run(Zero(buffered), []) == Some(w);
    assert OrderOf(w.left, m.event) == o;
    OneMove(Zero(buffered), [], m);
    moves := [] + [m];
  }

  lemma SendMove(o: Order, buffered: set<byte>, before: seq<Move>) returns (moves: seq<Move>)
    requires First(o) && Run(Zero(buffered), before) == Some(World(Start(o, buffered), Protocol.Fresh(0, buffered)))
    ensures Start(o, buffered).peer.congestion.bytesInFlight >= 0
    ensures Run(Zero(buffered), moves) == Some(World(Sending(Start(o, buffered), 0), Protocol.Fresh(0, buffered)))
  {
    FirstChosen(o, buffered);
    FirstQueued(o, buffered);
    hide Run, Start, Sending, Chosen, OnlyLastUnreliable;
    var m := Move(true, Send, 0);
    OneMove(Zero(buffered), before, m);
    moves := before + [m];
  }

  /** The network delivers datagram 0 of one side to the other. */
  lemma ReceiveMove(start: Setting, w: World, left: bool, before: seq<Move>) returns (moves: seq<Move>)
    requires Run(start, before) == Some(w)
    requires var me, other := if left then w.left else w.right, if left then w.right else w.left;
      me.open && me.peer.congestion.window > 0 && 0 in other.log
    ensures Run(start, moves)
      == Some(if left then World(Receiving(w.left, w.right.log[0], 0), w.right) else World(w.left, Receiving(w.right, w.left.log[0], 0)))
  {
    hide Run, Receiving;
    var m := Move(left, Receive(0), 0);
    OneMove(start, before, m);
    moves := before + [m];
  }

  lemma AckMove(start: Setting, sender: Half, receiver: Half, o: Order, before: seq<Move>) returns (moves: seq<Move>)
    requires HasTaken(receiver, o) && Run(start, before) == Some(World(sender, receiver))
    ensures Run(start, moves) == Some(World(sender, Acking(receiver, 0)))
  {
    hide Run, Acking;
    var m := Move(false, SendAcks, 0);
    OneMove(start, before, m);
    moves := before + [m];
  }
}
