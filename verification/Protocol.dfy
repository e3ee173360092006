/**
  Two connected peers and a network that loses, repeats and reorders datagrams.
  What one side sent is remembered, so that it can be compared with what the
  other side got.
 */
module Protocol {
  import opened Types
  import opened Serial
  import opened Wire
  import PH = PacketHeaders
  import DH = DatagramHeaders
  import opened Datagrams
  import opened Segmentation
  import opened Builders
  import CC = Congestion
  import RT = Receipts
  import opened RemotePeers
  import opened Queues

  /** A datagram handed to the network. */
  datatype Gram =
    | Data(sent: Sent)
    | Ackgram(blob: Bytes, acks: seq<u32>, nacks: seq<u32>)

  function BytesOf(g: Gram): Bytes {
    match g
    case Data(sent) => sent.blob
    case Ackgram(blob, _, _) => blob
  }

  /** A message as the application queued it. */
  datatype Order = Order(packet: Packet, labels: Labels)

  /** One side: its state, and the history of what it queued, sent and took. */
  datatype Half = Half(
    peer: Peer,
    open: bool,
    orders: map<u32, Order>,       // by container number
    messages: map<u32, Message>,   // packets queued, by number
    reliable: set<u32>,            // those of them that must arrive
    log: map<u32, Gram>,           // datagrams sent, by number
    accepted: set<u32>,            // numbers of packets taken from the other side
    received: seq<Message>,        // these packets in the order taken
    times: seq<nat>,               // and when each was taken
    buffered: set<byte>,           // ordered and sequenced channels
    queues: map<byte, seq<Packet>>)  // what was queued on each of them

  /** A connection at its start; channel 0 is never buffered. */
  function Fresh(now: nat, buffered: set<byte>): Half {
    Half(Peer([], [], CC.Initial(now), RT.START), true, map[], map[], {}, map[], {}, [], [], buffered - {0}, map[])
  }

  function QueueOf(queues: map<byte, seq<Packet>>, ch: byte): seq<Packet> {
    if ch in queues then queues[ch] else []
  }

  // --- Steps of one side ---

  datatype Event =
    | Enqueue(packet: Packet, options: byte, channel: byte)
    | Send
    | SendAcks
    | Receive(id: u32)     // the network delivers what the other side sent under this number
    | Update

  /** What a step needs; the numbers handed out must not have wrapped around. */
  ghost predicate Enabled(me: Half, other: Half, e: Event, now: nat) {
    && me.open
    && match e
       case Enqueue(packet, _, _) =>
         && |packet.data| < PACKET_MAX_LENGTH
         && me.peer.congestion.nextPacket + SegmentCount(ToDatagram(packet)) < 0xFFFF_FFFF
       case Send =>
         && me.peer.congestion.nextDatagram < 0xFFFF_FFFF && me.peer.congestion.bytesInFlight >= 0
         && OnlyLastUnreliable(me.peer.outbox, Chosen(me.peer, now))
       case SendAcks =>
         && me.peer.congestion.nextDatagram < 0xFFFF_FFFF
         && |me.peer.congestion.acks| <= DH.MAX_IDS && |me.peer.congestion.nacks| <= DH.MAX_IDS
         && (me.peer.congestion.acks != [] || me.peer.congestion.nacks != [])
       case Receive(id) => id in other.log && me.peer.congestion.window > 0
       case Update => me.peer.congestion.window > 0
  }

  function OrderOf(me: Half, e: Event): Order
    requires e.Enqueue?
  {
    Order(e.packet, Labels(e.options, e.channel, NextSequence(me, e.channel), me.peer.congestion.nextPacket))
  }

  /** A buffered channel counts its messages; others have no numbers. */
  function NextSequence(me: Half, ch: byte): u32 {
    if ch in me.buffered then Wrap(|QueueOf(me.queues, ch)|) else 0
  }

  function Segments(o: Order): nat { SegmentCount(ToDatagram(o.packet)) }

  ghost function Numbering(o: Order): set<u32> {
    Numbers(o.labels.container, Segments(o), Segments(o))
  }

  /** The packets made from a message, by number. */
  ghost function MessagesOf(o: Order): map<u32, Message>
    requires Fits(o)
  {
    map i | 0 <= i < Segments(o) :: NumberOf(o.labels.container, Segments(o), i)
      := Segment(o.packet, o.labels, NumberOf(o.labels.container, Segments(o), i), i)
  }

  ghost predicate Fits(o: Order) {
    |o.packet.data| < PACKET_MAX_LENGTH && o.labels.container + Segments(o) < 0xFFFF_FFFF
  }

  ghost function Queueing(me: Half, o: Order, now: nat): Half
    requires Fits(o)
  {
    me.(peer := Enqueued(me.peer, o.packet, o.labels, now),
        orders := me.orders[o.labels.container := o],
        messages := me.messages + MessagesOf(o),
        reliable := if IsReliable(o.labels.options) || Segments(o) > 1 then me.reliable + Numbering(o) else me.reliable,
        queues := Joined(me.buffered, me.queues, o))
  }

  function Joined(buffered: set<byte>, queues: map<byte, seq<Packet>>, o: Order): map<byte, seq<Packet>> {
    var ch := o.labels.channel;
    if ch in buffered then queues[ch := QueueOf(queues, ch) + [o.packet]] else queues
  }

  ghost function Acking(me: Half, now: nat): Half {
    var (ackgram, p) := NextAckgram(me.peer, now);
    me.(peer := p.(congestion := CC.Sending(p.congestion, ackgram.id, |ackgram.blob|, now)),
        log := me.log[ackgram.id := Ackgram(ackgram.blob, me.peer.congestion.acks, me.peer.congestion.nacks)])
  }

  ghost function Receiving(me: Half, g: Gram, now: nat): Half
    requires me.peer.congestion.window > 0
  {
    var r := Read(me.peer, BytesOf(g), now);
    me.(peer := r.peer, open := !r.closed,
        accepted := me.accepted + NumbersOf(r.taken), received := me.received + r.taken,
        times := me.times + Stamps(r.taken, now))
  }

  function Stamps(ms: seq<Message>, now: nat): seq<nat> {
    seq(|ms|, _ => now)
  }

  ghost function Updating(me: Half, now: nat): Half {
    me.(peer := Pruned(me.peer.(congestion := CC.Updated(me.peer.congestion, now)), now))
  }

  ghost function Step(me: Half, other: Half, e: Event, now: nat): Half
    requires Enabled(me, other, e, now)
  {
    match e
    case Enqueue(_, _, _) => Queueing(me, OrderOf(me, e), now)
    case Send => Sending(me, now)
    case SendAcks => Acking(me, now)
    case Receive(id) => Receiving(me, other.log[id], now)
    case Update => Updating(me, now)
  }

  /** Giving up closes this side; what was queued then is kept for the record. */
  ghost function Sending(me: Half, now: nat): Half
    requires me.peer.congestion.bytesInFlight >= 0
  {
    var next := NextDatagram(me.peer, true, now);
    if next.0.Idle? then me
    else if next.0.Built? then Posting(me, next.0.datagram, next.1, now)
    else me.(open := false, peer := me.peer.(receipts := next.1.receipts))
  }

  ghost function Posting(me: Half, d: Sent, p: Peer, now: nat): Half {
    me.(peer := p.(congestion := CC.Sending(p.congestion, d.id, |d.blob|, now)), log := me.log[d.id := Data(d)])
  }

  ghost function NumbersOf(ms: seq<Message>): set<u32> {
    set i | 0 <= i < |ms| :: ms[i].header.id
  }

  // --- What every step keeps, on one side ---

  ghost predicate Numbered(h: Half) {
    && (forall id :: id in h.messages ==> id < h.peer.congestion.nextPacket)
    && (forall c :: c in h.orders ==> c < h.peer.congestion.nextPacket)
    && h.reliable <= h.messages.Keys
    && (forall id :: id in h.log ==> id < h.peer.congestion.nextDatagram)
    && (forall id :: id in h.peer.congestion.outgoing ==> id < h.peer.congestion.nextDatagram)
  }

  ghost predicate Steady(cc: CC.State) {
    cc.window > 0 && CC.Balanced(cc) && CC.RttSound(cc)
  }

  ghost predicate Queue(outbox: Outbox, messages: map<u32, Message>, reliable: set<u32>) {
    Distinct(outbox) && Labelled(outbox, messages, reliable)
  }

  /** Every datagram sent says what it stands for. */
  ghost predicate Logged(log: map<u32, Gram>, messages: map<u32, Message>) {
    forall id :: id in log ==> LoggedOne(id, log[id], messages)
  }

  ghost predicate LoggedOne(id: u32, g: Gram, messages: map<u32, Message>) {
    match g
    case Data(d) => d.id == id && Carries(d, true, messages)
    case Ackgram(blob, acks, nacks) =>
      && |acks| <= DH.MAX_IDS && |nacks| <= DH.MAX_IDS && (acks != [] || nacks != [])
      && blob == Encode(AckHeader(id, acks, nacks), [])
  }

  ghost predicate Boxed(box: seq<Sent>, log: map<u32, Gram>) {
    forall i :: 0 <= i < |box| && box[i].packets != [] ==> box[i].id in log && log[box[i].id] == Data(box[i])
  }

  /** Every packet is a segment of a queued message, and every segment of it was queued. */
  ghost predicate Made(orders: map<u32, Order>, messages: map<u32, Message>) {
    && (forall c :: c in orders ==> Whole(c, orders[c], messages))
    && (forall id :: id in messages ==> Part(id, messages[id], orders))
  }

  ghost predicate Whole(c: u32, o: Order, messages: map<u32, Message>) {
    && o.labels.container == c && |o.packet.data| < PACKET_MAX_LENGTH && c + Segments(o) < 0xFFFF_FFFF
    && (Segments(o) > 1 ==> c !in messages)
    && forall i :: 0 <= i < Segments(o) ==> Piece(o, i, messages)
  }

  ghost predicate Piece(o: Order, i: nat, messages: map<u32, Message>)
    requires |o.packet.data| < PACKET_MAX_LENGTH && i < Segments(o)
  {
    var id := NumberOf(o.labels.container, Segments(o), i);
    id in messages && messages[id] == Segment(o.packet, o.labels, id, i)
  }

  ghost predicate Part(id: u32, m: Message, orders: map<u32, Order>) {
    && m.header.container in orders
    && var o := orders[m.header.container];
    && |o.packet.data| < PACKET_MAX_LENGTH && m.header.index < Segments(o)
    && m == Segment(o.packet, o.labels, id, m.header.index)
    && id == NumberOf(m.header.container, Segments(o), m.header.index)
  }

  /** Messages of a buffered channel are numbered by their place in its queue. */
  ghost predicate Filed(orders: map<u32, Order>, buffered: set<byte>, queues: map<byte, seq<Packet>>, next: nat) {
    && 0 !in buffered
    && (forall ch :: ch in queues ==> |queues[ch]| <= next)
    && (forall c :: c in orders && orders[c].labels.channel in buffered ==> FiledOne(orders[c].labels, orders[c].packet, queues))
    && (forall c, d :: c in orders && d in orders && SamePlace(orders[c].labels, orders[d].labels, buffered) ==> c == d)
  }

  ghost predicate FiledOne(l: Labels, p: Packet, queues: map<byte, seq<Packet>>) {
    l.channel in queues && l.sequence < |queues[l.channel]| && queues[l.channel][l.sequence] == p
  }

  ghost predicate SamePlace(l: Labels, k: Labels, buffered: set<byte>) {
    l.channel in buffered && l.channel == k.channel && l.sequence == k.sequence
  }

  ghost predicate Sound(h: Half) {
    && Numbered(h) && Steady(h.peer.congestion) && Queue(h.peer.outbox, h.messages, h.reliable)
    && Logged(h.log, h.messages) && Boxed(h.peer.sentbox, h.log) && Made(h.orders, h.messages)
    && Filed(h.orders, h.buffered, h.queues, h.peer.congestion.nextPacket)
  }

  // --- What every step keeps, from a sender to a receiver ---

  /** The datagram carried packets, and all of them were taken. */
  ghost predicate Arrived(log: map<u32, Gram>, id: u32, accepted: set<u32>) {
    && id in log && log[id].Data?
    && forall i :: 0 <= i < |log[id].sent.packets| ==> log[id].sent.packets[i] in accepted
  }

  /** No acknowledgement, pending or under way, says more than is true. */
  ghost predicate AcksTrue(log: map<u32, Gram>, acks: seq<u32>, answers: map<u32, Gram>, accepted: set<u32>) {
    && AllArrived(log, acks, accepted)
    && forall k :: k in answers && answers[k].Ackgram? ==> AllArrived(log, answers[k].acks, accepted)
  }

  ghost predicate AllArrived(log: map<u32, Gram>, acks: seq<u32>, accepted: set<u32>) {
    forall i :: 0 <= i < |acks| ==> Arrived(log, acks[i], accepted)
  }

  ghost predicate Has(outbox: Outbox, id: u32) {
    exists i :: 0 <= i < |outbox| && outbox[i].id == id
  }

  /** A packet that must arrive is still queued, or has arrived. */
  ghost predicate NoLoss(outbox: Outbox, reliable: set<u32>, accepted: set<u32>) {
    forall id :: id in reliable ==> Has(outbox, id) || id in accepted
  }

  /** Only what was queued is ever taken, and unchanged. */
  ghost predicate TakenFrom(messages: map<u32, Message>, received: seq<Message>, accepted: set<u32>,
                            history: map<u32, nat>)
  {
    && (forall i :: 0 <= i < |received| ==> Same(received[i], messages))
    && accepted == NumbersOf(received)
    && history.Keys <= accepted
  }

  /** The packet says what its original says; fields its header leaves out do not count. */
  ghost predicate Same(m: Message, messages: map<u32, Message>) {
    && m.header.id in messages
    && m.header == PH.Seen(messages[m.header.id].header, m.header) && m.body == messages[m.header.id].body
  }

  /** A message counts as delivered when all its packets were taken. */
  ghost predicate Delivered(orders: map<u32, Order>, c: u32, accepted: set<u32>) {
    c in orders && Numbering(orders[c]) <= accepted
  }

  /** A positive receipt is only ever given for a message that was delivered. */
  ghost predicate ReceiptsTrue(r: RT.State, orders: map<u32, Order>, accepted: set<u32>) {
    && r.tracker <= orders.Keys
    && (forall c :: c in r.splits ==> c in orders && Numbering(orders[c]) - r.splits[c] <= accepted)
    && (forall i :: 0 <= i < |r.posted| && r.posted[i].acked ==> Delivered(orders, r.posted[i].id, accepted))
  }

  ghost predicate Pair(s: Half, r: Half) {
    && AcksTrue(s.log, r.peer.congestion.acks, r.log, r.accepted)
    && NoLoss(s.peer.outbox, s.reliable, r.accepted)
    && TakenFrom(s.messages, r.received, r.accepted, r.peer.congestion.packetHistory)
    && ReceiptsTrue(s.peer.receipts, s.orders, r.accepted)
  }

  ghost predicate Inv(a: Half, b: Half) {
    Sound(a) && Sound(b) && Pair(a, b) && Pair(b, a)
  }

  // --- Queueing a message ---

  /** The i-th number, without wrap-around. */
  function Place(o: Order, i: nat): nat {
    o.labels.container + if Segments(o) > 1 then 1 + i else 0
  }

  /** The first number not used up by the message. */
  function Next(o: Order): nat {
    o.labels.container + 1 + if Segments(o) > 1 then Segments(o) else 0
  }

  lemma PlaceIsNumber(o: Order, i: nat)
    requires Fits(o) && i < Segments(o)
    ensures NumberOf(o.labels.container, Segments(o), i) == Place(o, i)
    ensures Place(o, i) < Next(o) < 0x1_0000_0000
  {
    if Segments(o) > 1 {
      NextNumber(o.labels.container, Segments(o), i);
    }
  }

  lemma MessagesOfAre(o: Order)
    requires Fits(o)
    ensures MessagesOf(o).Keys == Numbering(o)
    ensures forall id :: id in Numbering(o) ==> o.labels.container <= id < Next(o)
    ensures Segments(o) > 1 ==> o.labels.container !in Numbering(o)
    ensures forall i :: 0 <= i < Segments(o) ==>
      var id := NumberOf(o.labels.container, Segments(o), i);
      id in Numbering(o) && id in MessagesOf(o) && MessagesOf(o)[id] == Segment(o.packet, o.labels, id, i)
  {
    hide Segment, NumberOf;
    forall i | 0 <= i < Segments(o)
      ensures NumberOf(o.labels.container, Segments(o), i) == Place(o, i)
      ensures Place(o, i) < Next(o)
    {
      PlaceIsNumber(o, i);
    }
  }

  lemma EnqueueQueue(h: Half, o: Order, now: nat)
    requires Fits(o) && o.labels.container == h.peer.congestion.nextPacket
    requires Numbered(h) && Queue(h.peer.outbox, h.messages, h.reliable)
    ensures var messages := h.messages + MessagesOf(o);
      var reliable := if IsReliable(o.labels.options) || Segments(o) > 1 then h.reliable + Numbering(o) else h.reliable;
      Queue(h.peer.outbox + QueuedUpTo(o.packet, o.labels, Segments(o), now), messages, reliable)
  {
    hide MessagesOf, Numbering, Segment, PacketBlob, NumberOf, CC.Balanced;
    var messages := h.messages + MessagesOf(o);
    var reliable := if IsReliable(o.labels.options) || Segments(o) > 1 then h.reliable + Numbering(o) else h.reliable;
    var old', new' := h.peer.outbox, QueuedUpTo(o.packet, o.labels, Segments(o), now);
    var outbox := old' + new';
    MessagesOfAre(o);
    forall i | 0 <= i < |outbox|
      ensures LabelledOne(outbox[i], messages, reliable)
      ensures i < |old'| ==> outbox[i].id < o.labels.container
      ensures i >= |old'| ==> outbox[i].id == Place(o, i - |old'|)
    {
      if i < |old'| {
        assert LabelledOne(old'[i], h.messages, h.reliable);
      } else {
        PlaceIsNumber(o, i - |old'|);
        SegmentValid(o.packet, o.labels, outbox[i].id, i - |old'|);
        SegmentNumber(o.packet, o.labels, outbox[i].id, i - |old'|);
      }
    }
  }

  lemma SegmentNumber(p: Packet, labels: Labels, id: u32, i: nat)
    requires |p.data| < PACKET_MAX_LENGTH && i < SegmentCount(ToDatagram(p))
    ensures Segment(p, labels, id, i).header.id == id
  {
  }

  /** More messages change nothing about those already there. */
  ghost predicate Extends(m: map<u32, Message>, m': map<u32, Message>) {
    forall id :: id in m ==> id in m' && m'[id] == m[id]
  }

  lemma LoggedMore(log: map<u32, Gram>, m: map<u32, Message>, m': map<u32, Message>)
    requires Logged(log, m) && Extends(m, m')
    ensures Logged(log, m')
  {
    hide Encode, Carries;
    forall id | id in log ensures LoggedOne(id, log[id], m') {
      assert LoggedOne(id, log[id], m);
      if log[id].Data? {
        CarriesMore(log[id].sent, m, m');
      }
    }
  }

  lemma CarriesMore(d: Sent, m: map<u32, Message>, m': map<u32, Message>)
    requires Carries(d, true, m) && Extends(m, m')
    ensures Carries(d, true, m')
  {
    hide Encode;
    assert Lookup(m, d.packets) == Lookup(m', d.packets);
  }

  lemma MadeMore(h: Half, o: Order)
    requires Fits(o) && o.labels.container == h.peer.congestion.nextPacket && Numbered(h) && Made(h.orders, h.messages)
    ensures Made(h.orders[o.labels.container := o], h.messages + MessagesOf(o))
    ensures Extends(h.messages, h.messages + MessagesOf(o))
  {
    hide MessagesOf, Numbering, Segment, NumberOf;
    MessagesOfAre(o);
    var c := o.labels.container;
    var orders, messages := h.orders[c := o], h.messages + MessagesOf(o);
    forall d | d in orders ensures Whole(d, orders[d], messages) {
      if d != c {
        assert Whole(d, h.orders[d], h.messages);
        forall i | 0 <= i < Segments(orders[d]) ensures Piece(orders[d], i, messages) {
          assert Piece(h.orders[d], i, h.messages);
        }
      }
    }
    forall id | id in messages ensures Part(id, messages[id], orders) {
      if id in h.messages {
        assert Part(id, h.messages[id], h.orders);
        assert id !in MessagesOf(o);
      } else {
        NewPart(o, id);
      }
    }
  }

  lemma NewPart(o: Order, id: u32)
    requires Fits(o) && id in MessagesOf(o)
    ensures Part(id, MessagesOf(o)[id], map[o.labels.container := o])
  {
    var i :| 0 <= i < Segments(o) && id == NumberOf(o.labels.container, Segments(o), i);
    MessagesOfAre(o);
  }

  lemma EnqueueNoLoss(h: Half, o: Order, now: nat, accepted: set<u32>)
    requires Fits(o) && NoLoss(h.peer.outbox, h.reliable, accepted)
    ensures NoLoss(h.peer.outbox + QueuedUpTo(o.packet, o.labels, Segments(o), now), h.reliable + Numbering(o), accepted)
  {
    hide Segment, PacketBlob, NumberOf;
    var news := QueuedUpTo(o.packet, o.labels, Segments(o), now);
    var outbox := h.peer.outbox + news;
    forall id | id in h.reliable + Numbering(o) ensures Has(outbox, id) || id in accepted {
      if id in Numbering(o) {
        var i :| 0 <= i < Segments(o) && id == NumberOf(o.labels.container, Segments(o), i);
        assert outbox[|h.peer.outbox| + i] == news[i];
      } else if id !in accepted {
        var i :| 0 <= i < |h.peer.outbox| && h.peer.outbox[i].id == id;
        assert outbox[i].id == id;
      }
    }
  }

  lemma NoLossLess(outbox: Outbox, reliable: set<u32>, reliable': set<u32>, accepted: set<u32>)
    requires NoLoss(outbox, reliable', accepted) && reliable <= reliable'
    ensures NoLoss(outbox, reliable, accepted)
  {
  }

  lemma EnqueueReceipts(r: RT.State, orders: map<u32, Order>, o: Order, accepted: set<u32>)
    requires ReceiptsTrue(r, orders, accepted) && o.labels.container !in orders
    ensures var c := o.labels.container;
      var tracked := RT.Tracked(r, c);
      && ReceiptsTrue(r, orders[c := o], accepted)
      && ReceiptsTrue(tracked, orders[c := o], accepted)
      && ReceiptsTrue(RT.Registered(tracked, c, Numbering(o)), orders[c := o], accepted)
  {
    hide Numbering;
    forall i | 0 <= i < |r.posted| && r.posted[i].acked
      ensures Delivered(orders[o.labels.container := o], r.posted[i].id, accepted)
    {
      assert Delivered(orders, r.posted[i].id, accepted);
    }
  }

  lemma TakenFromMore(m: map<u32, Message>, m': map<u32, Message>, received: seq<Message>, accepted: set<u32>, history: map<u32, nat>)
    requires TakenFrom(m, received, accepted, history) && Extends(m, m')
    ensures TakenFrom(m', received, accepted, history)
  {
    hide NumbersOf, PH.Seen;
    forall i | 0 <= i < |received| ensures Same(received[i], m') {
      assert Same(received[i], m);
    }
  }

  lemma EnqueueKeeps(me: Half, other: Half, o: Order, now: nat)
    requires Inv(me, other) && Fits(o) && o.labels.container == me.peer.congestion.nextPacket
    requires o.labels.sequence == NextSequence(me, o.labels.channel)
    ensures Inv(Queueing(me, o, now), other)
  {
    hide NumberOf, Queue, Logged, Boxed, Made, Filed, NoLoss, Extends;
    var me' := Queueing(me, o, now);
    EnqueueSound(me, o, now);
    hide Numbering, MessagesOf, QueuedUpTo, NumberOf, Queue, Logged, Boxed, Made, Filed, AcksTrue, TakenFrom, NoLoss, ReceiptsTrue;
    EnqueueNoLoss(me, o, now, other.accepted);
    NoLossLess(me'.peer.outbox, me'.reliable, me.reliable + Numbering(o), other.accepted);
    EnqueueReceipts(me.peer.receipts, me.orders, o, other.accepted);
    TakenFromMore(me.messages, me'.messages, other.received, other.accepted, other.peer.congestion.packetHistory);
  }

  lemma EnqueueSound(me: Half, o: Order, now: nat)
    requires Sound(me) && Fits(o) && o.labels.container == me.peer.congestion.nextPacket
    requires o.labels.sequence == NextSequence(me, o.labels.channel)
    ensures Sound(Queueing(me, o, now)) && Extends(me.messages, Queueing(me, o, now).messages)
  {
    hide Numbering, MessagesOf, QueuedUpTo, NumberOf, Queue, Logged, Boxed, Made, Filed;
    EnqueueQueue(me, o, now);
    MadeMore(me, o);
    LoggedMore(me.log, me.messages, me.messages + MessagesOf(o));
    MessagesOfAre(o);
    PlaceIsNumber(o, 0);
    EnqueueFiled(me, o);
    FiledLater(Queueing(me, o, now).orders, me.buffered, Queueing(me, o, now).queues, me.peer.congestion.nextPacket + 1,
               Queueing(me, o, now).peer.congestion.nextPacket);
  }

  lemma EnqueueFiled(me: Half, o: Order)
    requires Filed(me.orders, me.buffered, me.queues, me.peer.congestion.nextPacket)
    requires o.labels.sequence == NextSequence(me, o.labels.channel) && me.peer.congestion.nextPacket < 0xFFFF_FFFF
    requires o.labels.container !in me.orders
    ensures Filed(me.orders[o.labels.container := o], me.buffered, Joined(me.buffered, me.queues, o),
                  me.peer.congestion.nextPacket + 1)
  {
    var orders, queues := me.orders[o.labels.container := o], Joined(me.buffered, me.queues, o);
    assert Wrap(|QueueOf(me.queues, o.labels.channel)|) == |QueueOf(me.queues, o.labels.channel)|;
    forall c | c in orders && orders[c].labels.channel in me.buffered ensures FiledOne(orders[c].labels, orders[c].packet, queues) {
      if c != o.labels.container {
        assert FiledOne(me.orders[c].labels, me.orders[c].packet, me.queues);
      }
    }
    forall c, d | c in orders && d in orders && SamePlace(orders[c].labels, orders[d].labels, me.buffered) ensures c == d {
      if c != o.labels.container {
        assert FiledOne(me.orders[c].labels, me.orders[c].packet, me.queues);
      }
      if d != o.labels.container {
        assert FiledOne(me.orders[d].labels, me.orders[d].packet, me.queues);
      }
    }
  }

  lemma FiledLater(orders: map<u32, Order>, buffered: set<byte>, queues: map<byte, seq<Packet>>, next: nat, later: nat)
    requires Filed(orders, buffered, queues, next) && next <= later
    ensures Filed(orders, buffered, queues, later)
  {
    hide FiledOne, SamePlace;
  }

  // --- Sending a datagram ---

  lemma ScheduledStays(outbox: Outbox, sel: seq<nat>, cc: CC.State, now: int, messages: map<u32, Message>, reliable: set<u32>)
    requires Queue(outbox, messages, reliable)
    ensures var scheduled := Scheduled(outbox, sel, cc, now);
      && Distinct(scheduled)
      && (forall i :: 0 <= i < |outbox| ==> scheduled[i].id == outbox[i].id)
      && (forall i :: 0 <= i < |outbox| && (i !in sel || outbox[i].reliable) ==> LabelledOne(scheduled[i], messages, reliable))
  {
    hide CC.RetransmissionTimeout, PacketBlob;
    var scheduled := Scheduled(outbox, sel, cc, now);
    forall i | 0 <= i < |outbox| && (i !in sel || outbox[i].reliable) ensures LabelledOne(scheduled[i], messages, reliable) {
      assert LabelledOne(outbox[i], messages, reliable);
    }
  }

  ghost predicate Retains(outbox: Outbox, outbox': Outbox, reliable: set<u32>) {
    forall id :: id in reliable && Has(outbox, id) ==> Has(outbox', id)
  }

  /** Writing a datagram takes at most one packet out of the outbox, and not one that must arrive. */
  lemma SentOutbox(p: Peer, sel: seq<nat>, now: nat, messages: map<u32, Message>, reliable: set<u32>)
    requires Queue(p.outbox, messages, reliable)
    requires sel != [] && InOrder(p.outbox, sel) && OnlyLastUnreliable(p.outbox, sel)
    ensures var written := Written(Scheduled(p.outbox, sel, p.congestion, now), sel);
      && written.Some?
      && Queue(written.value.1, messages, reliable) && Retains(p.outbox, written.value.1, reliable)
  {
    hide LabelledOne, Retains;
    var scheduled := Scheduled(p.outbox, sel, p.congestion, now);
    var k := sel[|sel| - 1];
    ScheduledStays(p.outbox, sel, p.congestion, now, messages, reliable);
    assert scheduled[k].reliable == p.outbox[k].reliable;
    assert OnlyLastUnreliable(scheduled, sel);
    WrittenOutbox(scheduled, sel);
    hide Scheduled, Written, Queue;
    if p.outbox[k].reliable {
      AllStay(p.outbox, scheduled, sel, messages, reliable);
    } else {
      RemovedAt(scheduled, k);
      OthersLabelled(p.outbox, scheduled, sel, messages, reliable);
      LastLeaves(p.outbox, scheduled, k, messages, reliable);
    }
  }

  lemma AllStay(outbox: Outbox, scheduled: Outbox, sel: seq<nat>, messages: map<u32, Message>, reliable: set<u32>)
    requires sel != [] && Within(outbox, sel) && OnlyLastUnreliable(outbox, sel) && |scheduled| == |outbox|
    requires outbox[sel[|sel| - 1]].reliable && Labelled(outbox, messages, reliable)
    requires Distinct(scheduled) && forall i :: 0 <= i < |outbox| ==> scheduled[i].id == outbox[i].id
    requires forall i :: 0 <= i < |outbox| && (i !in sel || outbox[i].reliable) ==> LabelledOne(scheduled[i], messages, reliable)
    ensures Queue(scheduled, messages, reliable) && Retains(outbox, scheduled, reliable)
  {
    hide LabelledOne;
    SameNumbers(outbox, scheduled);
    OthersLabelled(outbox, scheduled, sel, messages, reliable);
  }

  lemma SameNumbers(outbox: Outbox, outbox': Outbox)
    requires |outbox| == |outbox'| && forall i :: 0 <= i < |outbox| ==> outbox'[i].id == outbox[i].id
    ensures forall id :: Has(outbox, id) ==> Has(outbox', id)
  {
    forall id | Has(outbox, id) ensures Has(outbox', id) {
      var i :| 0 <= i < |outbox| && outbox[i].id == id;
      assert outbox'[i].id == id;
    }
  }

  /** Taking out the k-th packet leaves the others, in order. */
  lemma Erased(outbox: Outbox, k: nat, left: Outbox)
    requires Distinct(outbox) && k < |outbox| && left == outbox[..k] + outbox[k + 1..]
    ensures Distinct(left) && |left| == |outbox| - 1
    ensures forall j :: 0 <= j < |left| ==> left[j] == outbox[if j < k then j else j + 1]
    ensures forall id :: Has(outbox, id) && id != outbox[k].id ==> Has(left, id)
  {
    forall j | 0 <= j < |left| ensures left[j] == outbox[if j < k then j else j + 1] {
    }
    forall id | Has(outbox, id) && id != outbox[k].id ensures Has(left, id) {
      var i :| 0 <= i < |outbox| && outbox[i].id == id;
      var j := if i < k then i else i - 1;
      assert left[j] == outbox[i];
    }
  }

  lemma LastLeaves(outbox: Outbox, scheduled: Outbox, k: nat, messages: map<u32, Message>, reliable: set<u32>)
    requires k < |outbox| == |scheduled| && outbox[k].id !in reliable
    requires Distinct(scheduled) && forall i :: 0 <= i < |outbox| ==> scheduled[i].id == outbox[i].id
    requires forall i :: 0 <= i < |outbox| && i != k ==> LabelledOne(scheduled[i], messages, reliable)
    ensures var left := scheduled[..k] + scheduled[k + 1..];
      Queue(left, messages, reliable) && Retains(outbox, left, reliable)
  {
    hide LabelledOne, Distinct, Has;
    Erased(scheduled, k, scheduled[..k] + scheduled[k + 1..]);
    SameNumbers(outbox, scheduled);
  }

  lemma OthersLabelled(outbox: Outbox, scheduled: Outbox, sel: seq<nat>, messages: map<u32, Message>, reliable: set<u32>)
    requires sel != [] && Within(outbox, sel) && OnlyLastUnreliable(outbox, sel) && |scheduled| == |outbox|
    requires Labelled(outbox, messages, reliable)
    requires forall i :: 0 <= i < |outbox| && (i !in sel || outbox[i].reliable) ==> LabelledOne(scheduled[i], messages, reliable)
    ensures var k := sel[|sel| - 1];
      && (!outbox[k].reliable ==> outbox[k].id !in reliable)
      && forall i :: 0 <= i < |outbox| && i != k ==> LabelledOne(scheduled[i], messages, reliable)
  {
    var k := sel[|sel| - 1];
    assert LabelledOne(outbox[k], messages, reliable);
    hide LabelledOne;
    forall i | 0 <= i < |outbox| && i != k ensures LabelledOne(scheduled[i], messages, reliable) {
      if i in sel {
        var a :| 0 <= a < |sel| && sel[a] == i;
        assert a < |sel| - 1;
      }
    }
  }

  /** More datagrams, and more packets taken, keep acknowledgements true. */
  lemma AcksTrueMore(log: map<u32, Gram>, log': map<u32, Gram>, acks: seq<u32>, answers: map<u32, Gram>,
                     accepted: set<u32>, accepted': set<u32>)
    requires AcksTrue(log, acks, answers, accepted)
    requires accepted <= accepted' && forall id :: id in log ==> id in log' && log'[id] == log[id]
    ensures AcksTrue(log', acks, answers, accepted')
  {
    AllArrivedMore(log, log', acks, accepted, accepted');
    forall k | k in answers && answers[k].Ackgram? ensures AllArrived(log', answers[k].acks, accepted') {
      AllArrivedMore(log, log', answers[k].acks, accepted, accepted');
    }
  }

  lemma AllArrivedMore(log: map<u32, Gram>, log': map<u32, Gram>, acks: seq<u32>, accepted: set<u32>, accepted': set<u32>)
    requires AllArrived(log, acks, accepted)
    requires accepted <= accepted' && forall id :: id in log ==> id in log' && log'[id] == log[id]
    ensures AllArrived(log', acks, accepted')
  {
    forall i | 0 <= i < |acks| ensures Arrived(log', acks[i], accepted') {
      assert Arrived(log, acks[i], accepted);
    }
  }

  lemma LogMore(me: Half, id: u32, g: Gram, box: seq<Sent>)
    requires id !in me.log && Logged(me.log, me.messages) && LoggedOne(id, g, me.messages) && Boxed(me.peer.sentbox, me.log)
    requires forall i :: 0 <= i < |box| ==> box[i] in me.peer.sentbox || box[i].packets == [] || (box[i].id == id && g == Data(box[i]))
    ensures Logged(me.log[id := g], me.messages) && Boxed(box, me.log[id := g])
  {
    hide LoggedOne;
  }

  lemma SendingSteady(cc: CC.State, id: u32, bytes: nat, now: nat)
    requires Steady(cc) && id !in cc.outgoing
    ensures Steady(CC.Sending(cc, id, bytes, now))
  {
    CC.StepBalances(cc, now, CC.Send(id, bytes));
  }

  lemma SteadyFrame(cc: CC.State, cc': CC.State)
    requires Steady(cc) && cc'.window > 0 && cc'.bytesInFlight == cc.bytesInFlight && cc'.outgoing == cc.outgoing
    requires cc'.rtt == cc.rtt && cc'.rttHistory == cc.rttHistory
    ensures Steady(cc')
  {
  }

  lemma GivenUpTrue(r: RT.State, id: u32, wanted: bool, orders: map<u32, Order>, accepted: set<u32>)
    requires ReceiptsTrue(r, orders, accepted)
    ensures ReceiptsTrue(RT.GivenUp(r, id, wanted), orders, accepted)
  {
    hide Numbering;
  }

  lemma Closing(me: Half, other: Half, r: RT.State)
    requires Inv(me, other) && ReceiptsTrue(r, me.orders, other.accepted)
    ensures Inv(me.(open := false, peer := me.peer.(receipts := r)), other)
  {
    hide Steady, Queue, Logged, Boxed, Made, Filed, AcksTrue, NoLoss, TakenFrom, ReceiptsTrue;
  }

  lemma SendKeeps(me: Half, other: Half, now: nat)
    requires Inv(me, other) && Enabled(me, other, Send, now)
    ensures Inv(Sending(me, now), other)
  {
    hide Inv, Posting, NextDatagram, ReceiptsTrue;
    if NextDatagram(me.peer, true, now).0.Built? {
      BuiltIsGood(me, other, now);
      hide GoodSend;
      SendOne(me, other, NextDatagram(me.peer, true, now).0.datagram, NextDatagram(me.peer, true, now).1, now);
    } else {
      NotBuilt(me, other, now);
      Closing(me, other, NextDatagram(me.peer, true, now).1.receipts);
    }
  }

  lemma NotBuilt(me: Half, other: Half, now: nat)
    requires Inv(me, other) && me.peer.congestion.bytesInFlight >= 0 && !NextDatagram(me.peer, true, now).0.Built?
    ensures ReceiptsTrue(NextDatagram(me.peer, true, now).1.receipts, me.orders, other.accepted)
  {
    hide Sound, ReceiptsTrue, Chosen, Emitted, Overdue, Scheduled, RT.GivenUp;
    var sel := Chosen(me.peer, now);
    if Exhausted(me.peer.outbox, sel) {
      var p := me.peer.outbox[Overdue(me.peer.outbox, sel)];
      GivenUpTrue(me.peer.receipts, p.id, p.receipt, me.orders, other.accepted);
    }
  }

  lemma BuiltIsGood(me: Half, other: Half, now: nat)
    requires Inv(me, other) && Enabled(me, other, Send, now) && NextDatagram(me.peer, true, now).0.Built?
    ensures GoodSend(me, NextDatagram(me.peer, true, now).0.datagram, NextDatagram(me.peer, true, now).1)
  {
    hide GoodSend, Queue, Numbered, Logged, Boxed, Made, Filed, Pair, Steady, Emitted, Chosen, Exhausted;
    BuiltGood(me, now);
  }

  /** A new data datagram that says what it stands for, and an outbox that has lost nothing that must arrive. */
  ghost predicate GoodSend(me: Half, d: Sent, p: Peer) {
    && d.id == me.peer.congestion.nextDatagram < 0xFFFF_FFFF
    && Carries(d, true, me.messages)
    && p == Shipped(me.peer, p.outbox, d)
    && Queue(p.outbox, me.messages, me.reliable) && Retains(me.peer.outbox, p.outbox, me.reliable)
  }

  lemma BuiltGood(me: Half, now: nat)
    requires Queue(me.peer.outbox, me.messages, me.reliable)
    requires me.peer.congestion.nextDatagram < 0xFFFF_FFFF && me.peer.congestion.bytesInFlight >= 0
    requires OnlyLastUnreliable(me.peer.outbox, Chosen(me.peer, now))
    requires Chosen(me.peer, now) != [] && !Exhausted(me.peer.outbox, Chosen(me.peer, now))
    ensures NextDatagram(me.peer, true, now).0.Built?
    ensures GoodSend(me, NextDatagram(me.peer, true, now).0.datagram, NextDatagram(me.peer, true, now).1)
  {
    var sel := Chosen(me.peer, now);
    hide Chosen, NextDatagram, Exhausted, Written, Scheduled, Carries, InOrder, OnlyLastUnreliable, Retains;
    hide Labelled, Distinct, Ids, Picked, Within, CC.ResendBudget, CC.SendBudget;
    BuiltDecodes(me.peer, true, now, me.messages, me.reliable);
    ChosenInOrder(me.peer, now);
    SentOutbox(me.peer, sel, now, me.messages, me.reliable);
  }

  lemma SendOne(me: Half, other: Half, d: Sent, p: Peer, now: nat)
    requires Inv(me, other) && GoodSend(me, d, p)
    ensures Inv(Posting(me, d, p, now), other)
  {
    hide Carries, Queue, Made, Filed, TakenFrom, ReceiptsTrue, Has, Logged, Boxed, AcksTrue;
    assert LoggedOne(d.id, Data(d), me.messages);
    LogMore(me, d.id, Data(d), p.sentbox);
    SteadyFrame(me.peer.congestion, p.congestion);
    SendingSteady(p.congestion, d.id, |d.blob|, now);
    hide Steady;
    AcksTrueMore(me.log, me.log[d.id := Data(d)], other.peer.congestion.acks, other.log, other.accepted, other.accepted);
    AnswersFrame(other.log, me.peer.congestion.acks, me.log, d.id, Data(d), me.accepted);
  }

  /** A datagram without acknowledgements adds none. */
  lemma AnswersFrame(log: map<u32, Gram>, acks: seq<u32>, answers: map<u32, Gram>, id: u32, g: Gram, accepted: set<u32>)
    requires AcksTrue(log, acks, answers, accepted) && (g.Ackgram? ==> g.acks == acks)
    ensures AcksTrue(log, acks, answers[id := g], accepted)
  {
    hide AllArrived;
  }

  lemma AckKeeps(me: Half, other: Half, now: nat)
    requires Inv(me, other) && Enabled(me, other, SendAcks, now)
    ensures Inv(Acking(me, now), other)
  {
    var (ackgram, p) := NextAckgram(me.peer, now);
    var cc := me.peer.congestion;
    var g := Ackgram(ackgram.blob, cc.acks, cc.nacks);
    hide Queue, Made, Filed, TakenFrom, ReceiptsTrue, NoLoss, Logged, Boxed, AcksTrue, Encode;
    assert LoggedOne(ackgram.id, g, me.messages);
    LogMore(me, ackgram.id, g, p.sentbox);
    SteadyFrame(cc, p.congestion);
    SendingSteady(p.congestion, ackgram.id, |ackgram.blob|, now);
    hide Steady;
    AcksTrueMore(me.log, me.log[ackgram.id := g], other.peer.congestion.acks, other.log, other.accepted, other.accepted);
    AnswersFrame(other.log, cc.acks, me.log, ackgram.id, g, me.accepted);
    NoPending(other.log, cc.acks, me.log[ackgram.id := g], me.accepted);
  }

  lemma NoPending(log: map<u32, Gram>, acks: seq<u32>, answers: map<u32, Gram>, accepted: set<u32>)
    requires AcksTrue(log, acks, answers, accepted)
    ensures AcksTrue(log, [], answers, accepted)
  {
  }

  // --- Handling acknowledgements ---

  /** The part of one side that acknowledgements change, relative to what the other side has taken. */
  ghost predicate Consistent(p: Peer, h: Half, accepted: set<u32>) {
    && Queue(p.outbox, h.messages, h.reliable) && Boxed(p.sentbox, h.log)
    && NoLoss(p.outbox, h.reliable, accepted) && ReceiptsTrue(p.receipts, h.orders, accepted)
  }

  lemma RemovedKeeps(outbox: Outbox, id: u32, messages: map<u32, Message>, reliable: set<u32>, accepted: set<u32>)
    requires Queue(outbox, messages, reliable) && NoLoss(outbox, reliable, accepted) && id in accepted
    ensures Queue(Removed(outbox, id), messages, reliable) && NoLoss(Removed(outbox, id), reliable, accepted)
  {
    if k :| 0 <= k < |outbox| && outbox[k].id == id {
      RemovedAt(outbox, k);
      hide LabelledOne, Distinct, Has, Removed;
      Erased(outbox, k, Removed(outbox, id));
    } else {
      RemovedFirst(outbox, id, |outbox|);
    }
  }

  lemma AcknowledgedKeeps(r: RT.State, h: Half, id: u32, accepted: set<u32>)
    requires ReceiptsTrue(r, h.orders, accepted) && Made(h.orders, h.messages) && id in accepted && id in h.messages
    ensures ReceiptsTrue(RT.Acknowledged(r, id), h.orders, accepted)
  {
    hide Numbering;
    var s1 := r.(splits := RT.Without(r.splits, id));
    assert ReceiptsTrue(s1, h.orders, accepted);
    var s2 := s1;
    var f := RT.Finished(r.splits, id);
    if f.Some? {
      PostedTrue(s1, h.orders, f.value, accepted);
      s2 := RT.Posted(s1, f.value, true);
    }
    if id in h.orders {
      OnlyPart(h, id);
      PostedTrue(s2, h.orders, id, accepted);
    }
  }

  lemma PostedTrue(r: RT.State, orders: map<u32, Order>, c: u32, accepted: set<u32>)
    requires ReceiptsTrue(r, orders, accepted) && Delivered(orders, c, accepted)
    ensures ReceiptsTrue(RT.Posted(r, c, true), orders, accepted)
  {
    hide Numbering;
  }

  /** A message whose own number was used for a packet is that one packet. */
  lemma OnlyPart(h: Half, id: u32)
    requires Made(h.orders, h.messages) && id in h.messages && id in h.orders
    ensures Numbering(h.orders[id]) == {id}
  {
    assert Whole(id, h.orders[id], h.messages);
    var o := h.orders[id];
    assert NumberOf(id, 1, 0) == id;
  }

  lemma {:induction false} DeliveredKeeps(p: Peer, h: Half, ids: seq<u32>, accepted: set<u32>)
    requires Consistent(p, h, accepted) && Made(h.orders, h.messages)
    requires forall i :: 0 <= i < |ids| ==> ids[i] in accepted && ids[i] in h.messages
    ensures Consistent(RemotePeers.Delivered(p, ids), h, accepted)
    decreases |ids|
  {
    hide Queue, Made, Filed, NoLoss, ReceiptsTrue, Boxed, Removed, RT.Acknowledged;
    if ids != [] {
      var n := |ids| - 1;
      DeliveredKeeps(p, h, ids[..n], accepted);
      var q := RemotePeers.Delivered(p, ids[..n]);
      RemovedKeeps(q.outbox, ids[n], h.messages, h.reliable, accepted);
      AcknowledgedKeeps(q.receipts, h, ids[n], accepted);
    }
  }

  /** What neither acknowledgements nor the clock change about numbering and the other side's packets. */
  ghost predicate Framed(cc: CC.State, cc': CC.State) {
    && cc'.nextPacket == cc.nextPacket && cc'.nextDatagram == cc.nextDatagram && cc'.acks == cc.acks
    && cc'.packetHistory.Keys <= cc.packetHistory.Keys && cc'.outgoing.Keys <= cc.outgoing.Keys
    && Steady(cc')
  }

  lemma FramedAcked(cc: CC.State, id: u32, now: nat)
    requires Steady(cc)
    ensures Framed(cc, CC.Acked(cc, id, now))
  {
    CC.StepBalances(cc, now, CC.Ack(id));
    hide CC.Balanced, CC.Statistics, CC.Sampled;
  }

  lemma FramedNacks(cc: CC.State)
    requires Steady(cc)
    ensures Framed(cc, CC.NakGroup(cc))
  {
  }

  lemma FramedUpdate(cc: CC.State, now: nat)
    requires Steady(cc)
    ensures Framed(cc, CC.Updated(cc, now))
  {
    CC.StepBalances(cc, now, CC.Event.Update);
    hide CC.Balanced, CC.Total;
  }

  /** Datagrams may leave the sentbox at any time. */
  lemma BoxedLess(box: seq<Sent>, box': seq<Sent>, log: map<u32, Gram>)
    requires Boxed(box, log) && forall i :: 0 <= i < |box'| ==> box'[i] in box
    ensures Boxed(box', log)
  {
  }

  lemma WithoutLess(box: seq<Sent>, k: nat, log: map<u32, Gram>)
    requires Boxed(box, log) && k < |box|
    ensures Boxed(Without(box, k), log)
  {
    BoxedLess(box, Without(box, k), log);
  }

  lemma AckKeepsConsistent(p: Peer, h: Half, id: u32, now: nat, accepted: set<u32>)
    requires Consistent(p, h, accepted) && Made(h.orders, h.messages) && Logged(h.log, h.messages)
    requires Steady(p.congestion) && Arrived(h.log, id, accepted)
    ensures Consistent(Ack(p, id, now), h, accepted) && Framed(p.congestion, Ack(p, id, now).congestion)
  {
    FramedAcked(p.congestion, id, now);
    var k := IndexOf(p.sentbox, id);
    if k < |p.sentbox| {
      var ids := p.sentbox[k].packets;
      assert ids != [] ==> h.log[id] == Data(p.sentbox[k]);
      PacketsKnown(h, id);
      WithoutLess(p.sentbox, k, h.log);
      hide Queue, Made, Filed, NoLoss, ReceiptsTrue, CC.Acked, IndexOf, Framed, Without, Boxed, Logged;
      DeliveredKeeps(p, h, ids, accepted);
    }
  }

  lemma PacketsKnown(h: Half, id: u32)
    requires Logged(h.log, h.messages) && id in h.log && h.log[id].Data?
    ensures forall i :: 0 <= i < |h.log[id].sent.packets| ==> h.log[id].sent.packets[i] in h.messages
  {
    assert LoggedOne(id, h.log[id], h.messages);
  }

  lemma {:induction false} AcksKeepConsistent(p: Peer, h: Half, ids: seq<u32>, now: nat, accepted: set<u32>)
    requires Consistent(p, h, accepted) && Made(h.orders, h.messages) && Logged(h.log, h.messages)
    requires Steady(p.congestion) && AllArrived(h.log, ids, accepted)
    ensures Consistent(Acks(p, ids, now), h, accepted) && Framed(p.congestion, Acks(p, ids, now).congestion)
    decreases |ids|
  {
    hide Consistent, Made, Filed, Logged, Ack, CC.Balanced, Arrived;
    if ids != [] {
      var n := |ids| - 1;
      AcksKeepConsistent(p, h, ids[..n], now, accepted);
      AckKeepsConsistent(Acks(p, ids[..n], now), h, ids[n], now, accepted);
    }
  }

  lemma {:induction false} RemovedOnly(outbox: Outbox, id: u32, p: Outgoing)
    requires p in outbox && p.id != id
    ensures p in Removed(outbox, id)
    decreases |outbox|
  {
    if outbox[0].id == id {
      assert p in outbox[1..];
    } else if p != outbox[0] {
      RemovedOnly(outbox[1..], id, p);
    }
  }

  lemma {:induction false} DeliveredOnly(p: Peer, ids: seq<u32>, x: Outgoing)
    requires x in p.outbox && x.id !in ids
    ensures x in RemotePeers.Delivered(p, ids).outbox
    decreases |ids|
  {
    if ids != [] {
      var n := |ids| - 1;
      DeliveredOnly(p, ids[..n], x);
      RemovedOnly(RemotePeers.Delivered(p, ids[..n]).outbox, ids[n], x);
    }
  }

  /** An acknowledgement takes out no packet the other side has not taken. */
  lemma AckRemovesOnlyTaken(p: Peer, h: Half, id: u32, now: nat, accepted: set<u32>, x: Outgoing)
    requires Boxed(p.sentbox, h.log) && Arrived(h.log, id, accepted) && p.congestion.window > 0
    requires x in p.outbox && x.id !in accepted
    ensures x in Ack(p, id, now).outbox
  {
    var k := IndexOf(p.sentbox, id);
    if k < |p.sentbox| {
      var d := p.sentbox[k];
      assert d.packets != [] ==> h.log[id] == Data(d);
      DeliveredOnly(p, d.packets, x);
    }
  }

  lemma {:induction false} HurriedSame(outbox: Outbox, id: u32, now: int)
    ensures forall i :: 0 <= i < |outbox| ==>
      Hurried(outbox, id, now)[i] == outbox[i].(sendNext := Hurried(outbox, id, now)[i].sendNext)
  {
    if outbox != [] && outbox[0].id != id {
      HurriedSame(outbox[1..], id, now);
    }
  }

  lemma {:induction false} HurriedAllSame(outbox: Outbox, ids: seq<u32>, now: int)
    ensures forall i :: 0 <= i < |outbox| ==>
      HurriedAll(outbox, ids, now)[i] == outbox[i].(sendNext := HurriedAll(outbox, ids, now)[i].sendNext)
    decreases |ids|
  {
    if ids != [] {
      HurriedAllSame(outbox, ids[..|ids| - 1], now);
      HurriedSame(HurriedAll(outbox, ids[..|ids| - 1], now), ids[|ids| - 1], now);
    }
  }

  /** Sending something sooner takes nothing out of the outbox. */
  lemma HurriedKeeps(outbox: Outbox, ids: seq<u32>, now: int, h: Half, accepted: set<u32>)
    requires Queue(outbox, h.messages, h.reliable) && NoLoss(outbox, h.reliable, accepted)
    ensures Queue(HurriedAll(outbox, ids, now), h.messages, h.reliable)
    ensures NoLoss(HurriedAll(outbox, ids, now), h.reliable, accepted)
  {
    HurriedAllSame(outbox, ids, now);
    var outbox' := HurriedAll(outbox, ids, now);
    hide HurriedAll, PacketBlob;
    SameNumbers(outbox, outbox');
    forall i | 0 <= i < |outbox'| ensures LabelledOne(outbox'[i], h.messages, h.reliable) {
      assert LabelledOne(outbox[i], h.messages, h.reliable);
    }
  }

  /** A nack group takes out no packet at all. */
  lemma {:induction false} NackRemovesNone(p: Peer, ids: seq<u32>, now: nat)
    ensures |NackEach(p, ids, now).outbox| == |p.outbox|
    ensures forall i :: 0 <= i < |p.outbox| ==>
      NackEach(p, ids, now).outbox[i] == p.outbox[i].(sendNext := NackEach(p, ids, now).outbox[i].sendNext)
    decreases |ids|
  {
    hide HurriedAll, IndexOf;
    if ids != [] {
      var n := |ids| - 1;
      NackRemovesNone(p, ids[..n], now);
      var q := NackEach(p, ids[..n], now);
      var k := IndexOf(q.sentbox, ids[n]);
      if k < |q.sentbox| {
        HurriedAllSame(q.outbox, q.sentbox[k].packets, now);
      }
    }
  }

  lemma {:induction false} NackEachKeeps(p: Peer, h: Half, ids: seq<u32>, now: nat, accepted: set<u32>)
    requires Consistent(p, h, accepted)
    ensures Consistent(NackEach(p, ids, now), h, accepted) && NackEach(p, ids, now).congestion == p.congestion
    decreases |ids|
  {
    hide Queue, NoLoss, ReceiptsTrue, Boxed, HurriedAll, Without, IndexOf;
    if ids != [] {
      var n := |ids| - 1;
      NackEachKeeps(p, h, ids[..n], now, accepted);
      var q := NackEach(p, ids[..n], now);
      var k := IndexOf(q.sentbox, ids[n]);
      if k < |q.sentbox| {
        WithoutLess(q.sentbox, k, h.log);
        HurriedKeeps(q.outbox, q.sentbox[k].packets, now, h, accepted);
      }
    }
  }

  // --- The clock ---

  lemma {:induction false} KeptLess(box: seq<Sent>, now: nat)
    ensures forall i :: 0 <= i < |Kept(box, now)| ==> Kept(box, now)[i] in box
    decreases |box|
  {
    if box != [] {
      KeptLess(box[..|box| - 1], now);
    }
  }

  lemma {:induction false} LostTrue(r: RT.State, ids: seq<u32>, orders: map<u32, Order>, accepted: set<u32>)
    requires ReceiptsTrue(r, orders, accepted)
    ensures ReceiptsTrue(RT.Lost(r, ids), orders, accepted)
    decreases |ids|
  {
    hide Numbering;
    if ids != [] {
      LostTrue(r, ids[..|ids| - 1], orders, accepted);
    }
  }

  lemma {:induction false} LostReceiptsTrue(r: RT.State, box: seq<Sent>, now: nat, orders: map<u32, Order>, accepted: set<u32>)
    requires ReceiptsTrue(r, orders, accepted)
    ensures ReceiptsTrue(LostReceipts(r, box, now), orders, accepted)
    decreases |box|
  {
    hide ReceiptsTrue, RT.Lost;
    if box != [] {
      var n := |box| - 1;
      LostReceiptsTrue(r, box[..n], now, orders, accepted);
      LostTrue(LostReceipts(r, box[..n], now), box[n].packets, orders, accepted);
    }
  }

  lemma HistoryLess(m: map<u32, Message>, received: seq<Message>, accepted: set<u32>, history: map<u32, nat>, history': map<u32, nat>)
    requires TakenFrom(m, received, accepted, history) && history'.Keys <= history.Keys
    ensures TakenFrom(m, received, accepted, history')
  {
    hide Same, NumbersOf;
  }

  /** A side whose state changed in ways that keep it consistent, without taking or sending anything. */
  lemma PeerChanged(me: Half, other: Half, p: Peer, open: bool)
    requires Inv(me, other) && Consistent(p, me, other.accepted) && Framed(me.peer.congestion, p.congestion)
    ensures Inv(me.(peer := p, open := open), other)
  {
    hide Queue, Logged, Boxed, Made, Filed, AcksTrue, NoLoss, TakenFrom, ReceiptsTrue, Steady;
    HistoryLess(other.messages, me.received, me.accepted, me.peer.congestion.packetHistory, p.congestion.packetHistory);
  }

  lemma UpdateKeeps(me: Half, other: Half, now: nat)
    requires Inv(me, other)
    ensures Inv(Updating(me, now), other)
  {
    FramedUpdate(me.peer.congestion, now);
    KeptLess(me.peer.sentbox, now);
    BoxedLess(me.peer.sentbox, Kept(me.peer.sentbox, now), me.log);
    LostReceiptsTrue(me.peer.receipts, me.peer.sentbox, now, me.orders, other.accepted);
    hide Queue, Logged, Boxed, Made, Filed, AcksTrue, NoLoss, TakenFrom, ReceiptsTrue, Numbered, Kept, LostReceipts, CC.Updated, Framed;
    PeerChanged(me, other, Updating(me, now).peer, me.open);
  }

  // --- Receiving ---

  lemma {:induction false} SeenAllSame(ms: seq<Message>, prior: PH.PacketHeader)
    ensures var seen := SeenAll(ms, prior);
      && |seen| == |ms|
      && forall i :: 0 <= i < |ms| ==>
           && seen[i].header.id == ms[i].header.id && seen[i].body == ms[i].body
           && seen[i].header == PH.Seen(ms[i].header, seen[i].header)
    decreases |ms|
  {
    if ms != [] {
      SeenAllSame(ms[1..], PH.Seen(ms[0].header, prior));
    }
  }

  /** Every packet of the datagram counts as seen afterwards; those handed on are among them. */
  lemma {:induction false} TakenIs(cc: CC.State, ms: seq<Message>, now: nat)
    ensures var r := Taken(cc, ms, now);
      && r.0 == cc.(packetHistory := r.0.packetHistory)
      && r.0.packetHistory.Keys == cc.packetHistory.Keys + NumbersOf(r.1)
      && (forall i :: 0 <= i < |ms| ==> ms[i].header.id in r.0.packetHistory)
      && (forall i :: 0 <= i < |r.1| ==> r.1[i] in ms)
    decreases |ms|
  {
    if ms != [] {
      var m, rest := ms[0], ms[1..];
      if m.header.id in cc.packetHistory {
        TakenIs(cc, rest, now);
      } else {
        var cc' := CC.ReceivedPacket(cc, m.header.id, now);
        TakenIs(cc', rest, now);
        NumbersOfMore([m], Taken(cc', rest, now).1);
        NumbersOfOne(m);
        hide NumbersOf;
      }
    }
  }

  lemma NumbersOfOne(m: Message)
    ensures NumbersOf([m]) == {m.header.id} && NumbersOf([]) == {}
  {
    assert [m][0] == m;
  }

  lemma NumbersOfMore(a: seq<Message>, b: seq<Message>)
    ensures NumbersOf(a + b) == NumbersOf(a) + NumbersOf(b)
  {
    forall id | id in NumbersOf(a) + NumbersOf(b) ensures id in NumbersOf(a + b) {
      if id in NumbersOf(a) {
        var i :| 0 <= i < |a| && a[i].header.id == id;
        assert (a + b)[i] == a[i];
      } else {
        var i :| 0 <= i < |b| && b[i].header.id == id;
        assert (a + b)[|a| + i] == b[i];
      }
    }
  }

  lemma DataDecodes(d: Sent, messages: map<u32, Message>)
    requires Carries(d, true, messages)
    ensures var ms := Lookup(messages, d.packets);
      Decode(d.blob) == Received(DataHeader(d.id, true, |Concat(Blobs(ms))|), 7, SeenAll(ms, PH.BLANK))
  {
    hide Encode, Decode, Concat, Blobs, SeenAll, PutAll, DH.Layout;
    var ms := Lookup(messages, d.packets);
    var h := DataHeader(d.id, true, |Concat(Blobs(ms))|);
    DecodeInverts(h, ms);
    DH.LayoutSize(h);
  }

  /** The assertions of the parsing loop hold of every packet of a genuine datagram. */
  lemma ParsedWithinBounds(d: Sent, messages: map<u32, Message>, i: nat)
    requires Carries(d, true, messages) && i < |d.packets|
    ensures var ms := Lookup(messages, d.packets);
      ms[i].header.offset < PACKET_MAX_LENGTH && ms[i].header.length < |Concat(Blobs(ms))|
  {
    hide Encode, PacketBlob;
    var ms := Lookup(messages, d.packets);
    BlobFits(ms, i);
    LongerThanBody(ms[i]);
  }

  lemma LongerThanBody(m: Message)
    requires m.Valid()
    ensures |m.body| < |PacketBlob(m)|
  {
    hide Put, PutAll;
    PutAllConcat(EMPTY, PH.Layout(m.header), [Blob(m.body)]);
    HeaderSize(m.header);
    PH.LayoutSize(EMPTY, m.header);
    PutBlob(PutAll(EMPTY, PH.Layout(m.header)), m.body);
  }

  lemma {:induction false} BlobFits(ms: seq<Message>, i: nat)
    requires i < |ms|
    ensures |PacketBlob(ms[i])| <= |Concat(Blobs(ms))|
    decreases |ms|
  {
    hide PacketBlob;
    assert Blobs(ms)[0] == PacketBlob(ms[0]) && Blobs(ms)[1..] == Blobs(ms[1..]);
    if i > 0 {
      BlobFits(ms[1..], i - 1);
    }
  }

  lemma AckDecodes(id: u32, acks: seq<u32>, nacks: seq<u32>)
    requires |acks| <= DH.MAX_IDS && |nacks| <= DH.MAX_IDS && (acks != [] || nacks != [])
    ensures var r := Decode(Encode(AckHeader(id, acks, nacks), []));
      r.Received? && r.header == AckHeader(id, acks, nacks) && r.messages == []
  {
    assert Concat(Blobs([])) == [];
    hide Encode, Decode, Concat, Blobs;
    DecodeInverts(AckHeader(id, acks, nacks), []);
  }

  /** More packets taken: nothing that was true of those taken before changes. */
  lemma NoLossMore(outbox: Outbox, reliable: set<u32>, accepted: set<u32>, accepted': set<u32>)
    requires NoLoss(outbox, reliable, accepted) && accepted <= accepted'
    ensures NoLoss(outbox, reliable, accepted')
  {
    hide Has;
  }

  lemma ReceiptsTrueMore(r: RT.State, orders: map<u32, Order>, accepted: set<u32>, accepted': set<u32>)
    requires ReceiptsTrue(r, orders, accepted) && accepted <= accepted'
    ensures ReceiptsTrue(r, orders, accepted')
  {
    hide Numbering;
    forall i | 0 <= i < |r.posted| && r.posted[i].acked ensures Delivered(orders, r.posted[i].id, accepted') {
      assert Delivered(orders, r.posted[i].id, accepted);
    }
  }

  lemma AckAdded(log: map<u32, Gram>, acks: seq<u32>, answers: map<u32, Gram>, accepted: set<u32>, id: u32)
    requires AcksTrue(log, acks, answers, accepted) && Arrived(log, id, accepted)
    ensures AcksTrue(log, acks + [id], answers, accepted)
  {
    hide Arrived;
  }

  lemma TakenFromTaken(m: map<u32, Message>, received: seq<Message>, accepted: set<u32>, cc: CC.State, ms: seq<Message>, now: nat)
    requires TakenFrom(m, received, accepted, cc.packetHistory)
    requires forall i :: 0 <= i < |ms| ==> Same(ms[i], m)
    ensures var r := Taken(cc, ms, now);
      TakenFrom(m, received + r.1, accepted + NumbersOf(r.1), r.0.packetHistory)
  {
    hide Same, NumbersOf, Taken;
    TakenIs(cc, ms, now);
    NumbersOfMore(received, Taken(cc, ms, now).1);
  }

  /** The messages of a logged datagram, as the receiving loop sees them. */
  lemma SeenAreSame(h: Half, d: Sent)
    requires Made(h.orders, h.messages) && Carries(d, true, h.messages)
    ensures var seen := SeenAll(Lookup(h.messages, d.packets), PH.BLANK);
      && |seen| == |d.packets|
      && forall i :: 0 <= i < |seen| ==> seen[i].header.id == d.packets[i] && Same(seen[i], h.messages)
  {
    hide Carries, SeenAll, Segment, PH.Seen, NumberOf, Whole;
    assert forall i :: 0 <= i < |d.packets| ==> d.packets[i] in h.messages by { CarriesKnown(d, h.messages); }
    var ms := Lookup(h.messages, d.packets);
    SeenAllSame(ms, PH.BLANK);
    forall i | 0 <= i < |ms| ensures ms[i].header.id == d.packets[i] {
      var m := ms[i];
      assert Part(d.packets[i], m, h.orders);
      var o := h.orders[m.header.container];
      SegmentNumber(o.packet, o.labels, d.packets[i], m.header.index);
    }
  }

  lemma CarriesKnown(d: Sent, messages: map<u32, Message>)
    requires Carries(d, true, messages)
    ensures forall i :: 0 <= i < |d.packets| ==> d.packets[i] in messages
  {
  }

  /** The datagram is noted for acknowledgement, and no counter moves. */
  ghost predicate Noted(cc: CC.State, cc': CC.State, id: u32) {
    && cc'.nextPacket == cc.nextPacket && cc'.nextDatagram == cc.nextDatagram && cc'.outgoing == cc.outgoing
    && cc'.acks == cc.acks + [id] && Steady(cc')
  }

  lemma TakenNoted(cc: CC.State, id: u32, ms: seq<Message>, now: nat)
    requires Steady(cc) && id !in cc.datagramHistory
    ensures var cc' := CC.ReceivedDatagram(cc, id, false, now);
      cc'.packetHistory == cc.packetHistory && Noted(cc, Taken(cc', ms, now).0, id)
  {
    var cc' := CC.ReceivedDatagram(cc, id, false, now);
    TakenIs(cc', ms, now);
    hide Taken;
    SteadyFrame(cc, Taken(cc', ms, now).0);
  }

  lemma AllTaken(log: map<u32, Gram>, id: u32, cc: CC.State, ms: seq<Message>, now: nat, accepted: set<u32>)
    requires id in log && log[id].Data? && |ms| == |log[id].sent.packets| && cc.packetHistory.Keys <= accepted
    requires forall i :: 0 <= i < |ms| ==> ms[i].header.id == log[id].sent.packets[i]
    ensures Arrived(log, id, accepted + NumbersOf(Taken(cc, ms, now).1))
  {
    TakenIs(cc, ms, now);
  }

  /** Taking the new packets of a datagram. */
  lemma TakePackets(me: Half, other: Half, id: u32, ms: seq<Message>, now: nat)
    requires Inv(me, other) && id in other.log && other.log[id].Data? && id !in me.peer.congestion.datagramHistory
    requires |ms| == |other.log[id].sent.packets|
    requires forall i :: 0 <= i < |ms| ==> ms[i].header.id == other.log[id].sent.packets[i] && Same(ms[i], other.messages)
    ensures Inv(Took(me, id, ms, now), other)
  {
    hide Taken, NumbersOf, Same, Arrived, Queue, Logged, Boxed, Made, Filed, AcksTrue, NoLoss, ReceiptsTrue, Steady, Noted;
    hide CC.ReceivedDatagram, Numbered;
    var cc := CC.ReceivedDatagram(me.peer.congestion, id, false, now);
    TakenNoted(me.peer.congestion, id, ms, now);
    AllTaken(other.log, id, cc, ms, now, me.accepted);
    TakenFromTaken(other.messages, me.received, me.accepted, cc, ms, now);
    hide TakenFrom;
    TookKeeps(me, other, id, Taken(cc, ms, now).0, Taken(cc, ms, now).1, now);
  }

  lemma TookKeeps(me: Half, other: Half, id: u32, cc: CC.State, taken: seq<Message>, now: nat)
    requires Inv(me, other) && Noted(me.peer.congestion, cc, id)
    requires Arrived(other.log, id, me.accepted + NumbersOf(taken))
    requires TakenFrom(other.messages, me.received + taken, me.accepted + NumbersOf(taken), cc.packetHistory)
    ensures Inv(me.(peer := me.peer.(congestion := cc), open := true,
                    accepted := me.accepted + NumbersOf(taken), received := me.received + taken,
                    times := me.times + Stamps(taken, now)), other)
  {
    hide NumbersOf, Arrived, Queue, Logged, Boxed, Made, Filed, AcksTrue, NoLoss, TakenFrom, ReceiptsTrue, Steady;
    var accepted := me.accepted + NumbersOf(taken);
    AcksTrueMore(other.log, other.log, me.peer.congestion.acks, me.log, me.accepted, accepted);
    AckAdded(other.log, me.peer.congestion.acks, me.log, accepted, id);
    NoLossMore(other.peer.outbox, other.reliable, me.accepted, accepted);
    ReceiptsTrueMore(other.peer.receipts, other.orders, me.accepted, accepted);
  }

  ghost function Took(me: Half, id: u32, ms: seq<Message>, now: nat): Half {
    var r := Taken(CC.ReceivedDatagram(me.peer.congestion, id, false, now), ms, now);
    me.(peer := me.peer.(congestion := r.0), open := true,
        accepted := me.accepted + NumbersOf(r.1), received := me.received + r.1, times := me.times + Stamps(r.1, now))
  }

  lemma ReceiveNothing(me: Half, other: Half, open: bool, now: nat)
    requires Inv(me, other)
    ensures Inv(me.(peer := me.peer, open := open, accepted := me.accepted + NumbersOf([]), received := me.received + [],
                    times := me.times + Stamps([], now)), other)
  {
    hide Steady, Queue, Logged, Boxed, Made, Filed, AcksTrue, NoLoss, TakenFrom, ReceiptsTrue;
    assert NumbersOf([]) == {};
    assert me.accepted + {} == me.accepted && me.received + [] == me.received && me.times + Stamps([], now) == me.times;
  }

  lemma ReceiveData(me: Half, other: Half, id: u32, now: nat)
    requires Inv(me, other) && id in other.log && other.log[id].Data?
    ensures Inv(Receiving(me, other.log[id], now), other)
  {
    hide Numbered, Queue, Boxed, Made, Filed, AcksTrue, NoLoss, TakenFrom, ReceiptsTrue;
    var d := other.log[id].sent;
    assert LoggedOne(id, other.log[id], other.messages);
    DataDecodes(d, other.messages);
    SeenAreSame(other, d);
    var seen := SeenAll(Lookup(other.messages, d.packets), PH.BLANK);
    hide Decode, SeenAll, Taken, Inv, Same, Logged, LoggedOne, Carries, Concat, Blobs, CC.ReceivedDatagram, Lookup;
    var r := Read(me.peer, d.blob, now);
    if r.closed || id in me.peer.congestion.datagramHistory {
      ReceiveNothing(me, other, !r.closed, now);
    } else {
      TakePackets(me, other, id, seen, now);
    }
  }

  lemma ReceiveAckgram(me: Half, other: Half, id: u32, now: nat)
    requires Inv(me, other) && id in other.log && other.log[id].Ackgram?
    ensures Inv(Receiving(me, other.log[id], now), other)
  {
    hide Numbered, Queue, Boxed, Made, Filed, NoLoss, TakenFrom, ReceiptsTrue;
    var g := other.log[id];
    assert LoggedOne(id, g, other.messages);
    AckDecodes(id, g.acks, g.nacks);
    assert AllArrived(me.log, g.acks, other.accepted);
    hide Decode, Encode, LoggedOne, AllArrived, CC.ReceivedDatagram, Answered;
    hide Logged, Boxed, Made, Filed, AcksTrue, NoLoss, TakenFrom, ReceiptsTrue, Queue, Numbered, Steady;
    if id in me.peer.congestion.datagramHistory {
      ReceiveNothing(me, other, true, now);
    } else {
      HeardAnswer(me, other, id, g, now);
    }
  }

  /** Acknowledgements that tell the truth leave everything in order. */
  lemma HeardAnswer(me: Half, other: Half, id: u32, g: Gram, now: nat)
    requires Inv(me, other) && g.Ackgram? && AllArrived(me.log, g.acks, other.accepted)
    ensures var p := me.peer.(congestion := CC.ReceivedDatagram(me.peer.congestion, id, true, now));
      Inv(me.(peer := Answered(p, AckHeader(id, g.acks, g.nacks), now), open := true,
              accepted := me.accepted + NumbersOf([]), received := me.received + [],
              times := me.times + Stamps([], now)), other)
  {
    var p := me.peer.(congestion := CC.ReceivedDatagram(me.peer.congestion, id, true, now));
    SteadyFrame(me.peer.congestion, p.congestion);
    hide Queue, Logged, Boxed, Made, Filed, AcksTrue, NoLoss, TakenFrom, ReceiptsTrue, AllArrived, CC.Balanced;
    assert Framed(me.peer.congestion, p.congestion);
    var p' := Answered(p, AckHeader(id, g.acks, g.nacks), now);
    AnsweredKeeps(p, me, g.acks, g.nacks, id, now, other.accepted);
    hide Answered, CC.ReceivedDatagram, Numbered;
    PeerChanged(me, other, p', true);
    ReceiveNothing(me.(peer := p', open := true), other, true, now);
  }

  lemma AnsweredKeeps(p: Peer, h: Half, acks: seq<u32>, nacks: seq<u32>, id: u32, now: nat, accepted: set<u32>)
    requires Consistent(p, h, accepted) && Made(h.orders, h.messages) && Logged(h.log, h.messages)
    requires Steady(p.congestion) && AllArrived(h.log, acks, accepted)
    ensures var p' := Answered(p, AckHeader(id, acks, nacks), now);
      Consistent(p', h, accepted) && Framed(p.congestion, p'.congestion)
  {
    AcksKeepConsistent(p, h, acks, now, accepted);
    var q := Acks(p, acks, now);
    NackEachKeeps(q, h, nacks, now, accepted);
    FramedNacks(q.congestion);
  }

  /** The receiver drops the connection over a genuine datagram exactly when its header does not fit the MTU as well. */
  lemma ClosesExactly(p: Peer, id: u32, g: Gram, messages: map<u32, Message>, now: nat)
    requires p.congestion.window > 0 && LoggedOne(id, g, messages)
    ensures Read(p, BytesOf(g), now).closed <==> g.Data? && |g.sent.blob| > MTU
  {
    hide Decode, Opened, Encode, Concat, Blobs, SeenAll, Lookup;
    if g.Data? {
      DataDecodes(g.sent, messages);
      CarriedSize(g.sent, messages);
    } else {
      AckDecodes(id, g.acks, g.nacks);
    }
  }

  /** The same judged before the datagram is made: the receiver drops it exactly when the chosen packets leave no room for its header. */
  lemma TooLongExactly(me: Half, other: Half, now: nat, p: Peer, later: nat)
    requires Inv(me, other) && Enabled(me, other, Send, now) && p.congestion.window > 0
    requires NextDatagram(me.peer, true, now).0.Built?
    ensures Read(p, NextDatagram(me.peer, true, now).0.datagram.blob, later).closed
      <==> Payload(me.peer.outbox, Chosen(me.peer, now)) > MTU - 7
  {
    var d := NextDatagram(me.peer, true, now).0.datagram;
    hide Numbered, Boxed, Logged, Made, Filed, Pair, Steady, Chosen, Emitted, Exhausted, Read, Payload, Carries, Labelled;
    BuiltDecodes(me.peer, true, now, me.messages, me.reliable);
    hide NextDatagram;
    var sel := Chosen(me.peer, now);
    assert LoggedOne(d.id, Data(d), me.messages);
    ClosesExactly(p, d.id, Data(d), me.messages, later);
    PayloadIsConcat(me.peer.outbox, sel);
    PickedBlobs(me.peer.outbox, sel, me.messages, me.reliable);
    CarriedSize(d, me.messages);
  }

  lemma CarriedSize(d: Sent, messages: map<u32, Message>)
    requires Carries(d, true, messages)
    ensures |d.blob| == |Concat(Blobs(Lookup(messages, d.packets)))| + 7
  {
    hide PutAll, DH.Layout, Concat, Blobs;
    DH.LayoutSize(DataHeader(d.id, true, |Concat(Blobs(Lookup(messages, d.packets)))|));
  }

  /** In every state of the invariant the next datagram can be made: nothing underflows, and chosen packets are put off. */
  lemma DatagramCanBeMade(h: Half, retries: nat)
    requires Sound(h)
    ensures h.peer.congestion.bytesInFlight >= 0 && CC.RetransmissionTimeout(h.peer.congestion, retries) > 0
  {
    hide Queue, Logged, Boxed, Made, Filed, CC.RetransmissionTimeout, CC.RttSound;
    CC.TimeoutOfSound(h.peer.congestion, retries);
  }

  // --- Every run ---

  /** Every step that can happen keeps the invariant of the pair. */
  lemma StepKeeps(me: Half, other: Half, e: Event, now: nat)
    requires Inv(me, other) && Enabled(me, other, e, now)
    ensures Inv(Step(me, other, e, now), other)
  {
    hide Inv, Queueing, Acking, Receiving, Updating, Sending;
    match e
    case Enqueue(_, _, _) => EnqueueKeeps(me, other, OrderOf(me, e), now);
    case Send => SendKeeps(me, other, now);
    case SendAcks => AckKeeps(me, other, now);
    case Receive(id) =>
      if other.log[id].Data? {
        ReceiveData(me, other, id, now);
      } else {
        ReceiveAckgram(me, other, id, now);
      }
    case Update => UpdateKeeps(me, other, now);
  }

  datatype World = World(left: Half, right: Half)

  /** The clocks at the start, and the channels both sides agreed to buffer. */
  datatype Setting = Setting(left: nat, right: nat, buffered: set<byte>)

  /** A step of one side at some time; clocks need not agree. */
  datatype Move = Move(left: bool, event: Event, now: nat)

  ghost predicate CanMove(w: World, m: Move) {
    if m.left then Enabled(w.left, w.right, m.event, m.now) else Enabled(w.right, w.left, m.event, m.now)
  }

  ghost function Moved(w: World, m: Move): World
    requires CanMove(w, m)
  {
    if m.left then w.(left := Step(w.left, w.right, m.event, m.now))
    else w.(right := Step(w.right, w.left, m.event, m.now))
  }

  /** The two sides after any number of moves, none if one of them was not possible. */
  ghost function Run(start: Setting, moves: seq<Move>): Option<World> {
    if moves == [] then Some(World(Fresh(start.left, start.buffered), Fresh(start.right, start.buffered)))
    else
      var before, m := Run(start, moves[..|moves| - 1]), moves[|moves| - 1];
      if before.Some? && CanMove(before.value, m) then Some(Moved(before.value, m)) else None
  }

  lemma InvAtFirst(start: Setting)
    ensures Inv(Fresh(start.left, start.buffered), Fresh(start.right, start.buffered))
  {
  }

  lemma InvSwap(a: Half, b: Half)
    requires Inv(a, b)
    ensures Inv(b, a)
  {
    hide Sound, Pair;
  }

  lemma {:induction false} RunKeeps(start: Setting, moves: seq<Move>)
    requires Run(start, moves).Some?
    ensures var w := Run(start, moves).value; Inv(w.left, w.right)
    decreases |moves|
  {
    hide Inv, Enabled, Step;
    if moves == [] {
      InvAtFirst(start);
    } else {
      var n := |moves| - 1;
      RunKeeps(start, moves[..n]);
      var w, m := Run(start, moves[..n]).value, moves[n];
      if m.left {
        StepKeeps(w.left, w.right, m.event, m.now);
      } else {
        InvSwap(w.left, w.right);
        StepKeeps(w.right, w.left, m.event, m.now);
        InvSwap(Step(w.right, w.left, m.event, m.now), w.left);
      }
    }
  }

  /** The two sides, in either role, are together in a state that some run leads to. */
  ghost predicate Reachable(s: Half, r: Half) {
    exists start, moves :: ReachedBy(start, moves, s, r)
  }

  ghost predicate ReachedBy(start: Setting, moves: seq<Move>, s: Half, r: Half) {
    Run(start, moves) in {Some(World(s, r)), Some(World(r, s))}
  }

  lemma ReachableInv(s: Half, r: Half)
    requires Reachable(s, r)
    ensures Inv(s, r)
  {
    var start, moves :| ReachedBy(start, moves, s, r);
    RunKeeps(start, moves);
    hide Run, Inv;
    var w := Run(start, moves).value;
    InvSwap(w.left, w.right);
  }

  /**
    Over every run, in both directions: packets that must arrive are queued
    until the other side has taken them; only what was queued is taken, and
    unchanged; acknowledgements and positive receipts tell the truth.
   */
  lemma NothingLostNothingMadeUp(s: Half, r: Half)
    requires Reachable(s, r)
    ensures forall id :: id in s.reliable ==> Has(s.peer.outbox, id) || id in r.accepted
    ensures forall i :: 0 <= i < |r.received| ==> Same(r.received[i], s.messages)
    ensures r.accepted == NumbersOf(r.received)
    ensures forall k :: k in r.log && r.log[k].Ackgram? ==> AllArrived(s.log, r.log[k].acks, r.accepted)
    ensures forall c :: RT.Receipt(c, true) in s.peer.receipts.posted ==> Delivered(s.orders, c, r.accepted)
  {
    hide Reachable, Has, Same, NumbersOf, AllArrived, Numbering, Sound;
    ReachableInv(s, r);
    forall c | RT.Receipt(c, true) in s.peer.receipts.posted ensures Delivered(s.orders, c, r.accepted) {
      var posted := s.peer.receipts.posted;
      var i :| 0 <= i < |posted| && posted[i] == RT.Receipt(c, true);
      assert Delivered(s.orders, posted[i].id, r.accepted);
    }
  }
}
