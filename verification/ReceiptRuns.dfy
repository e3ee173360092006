/** Receipts over whole runs of two peers: what the tracker says is what was asked, acknowledged and lost. */
module ReceiptRuns {
  import opened Types
  import CC = Congestion
  import RT = Receipts
  import DH = DatagramHeaders
  import opened Datagrams
  import opened Builders
  import opened RemotePeers
  import opened Queues
  import opened Protocol
  import opened Answers
  import opened ReadingDatagrams
  import opened OrderedDelivery

  // --- The tracker of a side, with what has been queued and acknowledged ---

  ghost function Split(orders: map<u32, Order>): set<u32> {
    set c | c in orders && Segments(orders[c]) > 1
  }

  ghost function Asked(orders: map<u32, Order>): set<u32> {
    set c | c in orders && WantsReceipt(orders[c].labels.options)
  }

  ghost function Groups(orders: map<u32, Order>): map<u32, set<u32>> {
    map c | c in orders && WantsReceipt(orders[c].labels.options) && Segments(orders[c]) > 1 :: Numbering(orders[c])
  }

  ghost function TrackerOf(h: Half, receipts: RT.State, acked: set<u32>): RT.World {
    RT.World(receipts, h.orders.Keys + h.messages.Keys, Split(h.orders), Asked(h.orders), Groups(h.orders), acked, false)
  }

  /** Numbers acknowledged are closed, and a positive receipt for a packet that travels whole is for one acknowledged. */
  ghost predicate Honest(w: RT.World) {
    && w.s.tracker !! w.acked
    && forall c :: RT.Receipt(c, true) in w.s.posted && c !in w.containers ==> c in w.acked
  }

  ghost predicate InOrder(w: RT.World) {
    RT.Good(w) && Honest(w)
  }

  // --- Queueing ---

  lemma OrdersMore(orders: map<u32, Order>, o: Order)
    requires o.labels.container !in orders
    ensures var c, more := o.labels.container, orders[o.labels.container := o];
      && Split(more) == Split(orders) + (if Segments(o) > 1 then {c} else {})
      && Asked(more) == Asked(orders) + (if WantsReceipt(o.labels.options) then {c} else {})
      && Groups(more) == (if WantsReceipt(o.labels.options) && Segments(o) > 1 then Groups(orders)[c := Numbering(o)] else Groups(orders))
  {
    hide Numbering, Segments, WantsReceipt;
    var c, more := o.labels.container, orders[o.labels.container := o];
    assert Groups(more) == if WantsReceipt(o.labels.options) && Segments(o) > 1 then Groups(orders)[c := Numbering(o)] else Groups(orders);
  }

  lemma NumbersMore(o: Order)
    ensures Numbering(o) != {} && (Segments(o) == 1 ==> Numbering(o) == {o.labels.container})
  {
    assert NumberOf(o.labels.container, Segments(o), 0) in Numbering(o);
    if Segments(o) == 1 {
      assert NumberOf(o.labels.container, 1, 0) == o.labels.container;
    }
  }

  /** A message that is queued, as the tracker sees it. */
  ghost function Request(o: Order): RT.Event {
    RT.Enqueue(o.labels.container, if Segments(o) > 1 then Numbering(o) else {}, WantsReceipt(o.labels.options))
  }

  lemma NumbersTaken(me: Half, o: Order, now: nat)
    requires Fits(o)
    ensures var h := Queueing(me, o, now);
      && h.orders == me.orders[o.labels.container := o]
      && h.messages.Keys == me.messages.Keys + Numbering(o)
  {
    MessagesOfAre(o);
    hide MessagesOf, Numbering, Enqueued;
  }

  lemma RequestNoted(me: Half, o: Order, now: nat)
    requires Fits(o)
    ensures var r := if WantsReceipt(o.labels.options) then RT.Tracked(me.peer.receipts, o.labels.container) else me.peer.receipts;
      Queueing(me, o, now).peer.receipts
        == if WantsReceipt(o.labels.options) && Segments(o) > 1 then RT.Registered(r, o.labels.container, Numbering(o)) else r
  {
    hide MessagesOf, QueuedUpTo, RT.Registered, Numbers, WantsReceipt;
  }

  /** Queueing a message is one step of the tracker. */
  lemma EnqueueSteps(me: Half, o: Order, now: nat, acked: set<u32>)
    requires Fits(o) && o.labels.container !in me.orders
    ensures var h := Queueing(me, o, now);
      TrackerOf(h, h.peer.receipts, acked) == RT.Step(TrackerOf(me, me.peer.receipts, acked), Request(o))
  {
    hide Numbering, Split, Asked, Groups, RT.Registered, WantsReceipt, Queueing, Segments, Fits, RT.Tracked;
    NumbersTaken(me, o, now);
    RequestNoted(me, o, now);
    OrdersMore(me.orders, o);
    NumbersMore(o);
    var h, c := Queueing(me, o, now), o.labels.container;
    assert h.orders.Keys == me.orders.Keys + {c};
    assert h.orders.Keys + h.messages.Keys == me.orders.Keys + me.messages.Keys + {c} + Numbering(o);
    assert Segments(o) >= 1 by { AtLeastOne(o); }
  }

  lemma AtLeastOne(o: Order)
    ensures Segments(o) >= 1
  {
  }

  lemma EnqueueInOrder(me: Half, o: Order, now: nat, acked: set<u32>)
    requires Fits(o) && o.labels.container == me.peer.congestion.nextPacket && Numbered(me)
    requires InOrder(TrackerOf(me, me.peer.receipts, acked)) && acked <= me.messages.Keys
    ensures var h := Queueing(me, o, now); InOrder(TrackerOf(h, h.peer.receipts, acked)) && acked <= h.messages.Keys
  {
    var w := TrackerOf(me, me.peer.receipts, acked);
    assert o.labels.container !in me.orders && o.labels.container !in acked;
    hide Numbering, Queueing, RT.Good, Fits, Numbered, RT.Allowed, Honest, Split, Asked, Groups, RT.Step, Segments, WantsReceipt;
    RequestAllowed(me, o, acked);
    NumbersTaken(me, o, now);
    EnqueueSteps(me, o, now, acked);
    RT.EnqueueGood(w, Request(o));
    RequestHonest(w, Request(o));
  }

  lemma RequestHonest(w: RT.World, e: RT.Event)
    requires Honest(w) && e.Enqueue? && e.container !in w.acked
    ensures Honest(RT.Step(w, e))
  {
  }

  lemma RequestAllowed(me: Half, o: Order, acked: set<u32>)
    requires Fits(o) && o.labels.container == me.peer.congestion.nextPacket && Numbered(me)
    ensures RT.Allowed(TrackerOf(me, me.peer.receipts, acked), Request(o))
  {
    MessagesOfAre(o);
    hide MessagesOf, Numbering, Split, Asked, Groups, WantsReceipt;
  }

  // --- Acknowledgements ---

  lemma NotAContainer(h: Half, id: u32)
    requires Made(h.orders, h.messages) && id in h.messages
    ensures id !in Split(h.orders)
  {
    if id in h.orders {
      assert Whole(id, h.orders[id], h.messages);
    }
  }

  lemma NumberInOrder(h: Half, r: RT.State, acked: set<u32>, id: u32)
    requires Made(h.orders, h.messages) && id in h.messages && InOrder(TrackerOf(h, r, acked))
    ensures InOrder(TrackerOf(h, RT.Acknowledged(r, id), acked + {id}))
  {
    NotAContainer(h, id);
    hide Made, Split, Asked, Groups, RT.Acknowledged;
    var w := TrackerOf(h, r, acked);
    RT.AckGood(w, id);
    AckHonest(w, id);
  }

  lemma AckHonest(w: RT.World, id: u32)
    requires RT.Good(w) && Honest(w)
    ensures Honest(RT.Step(w, RT.Ack(id)))
  {
    AcknowledgedReported(w.s, id);
    hide RT.Acknowledged, GroupsLose, Apart, RT.OneEach, RT.NoneLost;
    var r := RT.Acknowledged(w.s, id);
    forall c | RT.Receipt(c, true) in r.posted && c !in w.containers ensures c in w.acked + {id} {
      if RT.Receipt(c, true) !in w.s.posted {
        assert r.posted == w.s.posted + r.posted[|w.s.posted|..];
        assert c in w.s.tracker && c !in r.tracker;
      }
    }
  }

  lemma {:induction false} DeliveredInOrder(h: Half, p: Peer, acked: set<u32>, ids: seq<u32>)
    requires Made(h.orders, h.messages) && Listed(ids) <= h.messages.Keys && InOrder(TrackerOf(h, p.receipts, acked))
    ensures InOrder(TrackerOf(h, RemotePeers.Delivered(p, ids).receipts, acked + Listed(ids)))
    decreases |ids|
  {
    if ids == [] {
      assert acked + Listed(ids) == acked;
    } else {
      var n := |ids| - 1;
      assert Listed(ids) == Listed(ids[..n]) + {ids[n]};
      assert acked + Listed(ids) == acked + Listed(ids[..n]) + {ids[n]};
      hide Made, InOrder, TrackerOf, Listed, RT.Acknowledged, Removed;
      DeliveredInOrder(h, p, acked, ids[..n]);
      NumberInOrder(h, RemotePeers.Delivered(p, ids[..n]).receipts, acked + Listed(ids[..n]), ids[n]);
    }
  }

  /** The packets a datagram stands for were queued. */
  lemma BookedKnown(h: Half, box: seq<Sent>, k: nat)
    requires Boxed(box, h.log) && Logged(h.log, h.messages) && k < |box|
    ensures Listed(box[k].packets) <= h.messages.Keys
  {
    var ids := box[k].packets;
    if ids != [] {
      PacketsKnown(h, box[k].id);
    }
  }

  /** The tracker after some acknowledgements, given which numbers these cover. */
  ghost predicate Follows(h: Half, p: Peer, acked: set<u32>) {
    && InOrder(TrackerOf(h, p.receipts, acked)) && acked <= h.messages.Keys
    && Boxed(p.sentbox, h.log) && p.congestion.window > 0
  }

  lemma AckFollows(h: Half, p: Peer, acked: set<u32>, id: u32, now: nat)
    requires Made(h.orders, h.messages) && Logged(h.log, h.messages) && Follows(h, p, acked)
    ensures var k := IndexOf(p.sentbox, id);
      && Follows(h, Ack(p, id, now), acked + if k < |p.sentbox| then Listed(p.sentbox[k].packets) else {})
      && Ack(p, id, now).sentbox == if k < |p.sentbox| then Without(p.sentbox, k) else p.sentbox
  {
    hide Made, Logged, InOrder, TrackerOf, Listed, RemotePeers.Delivered, CC.Acked;
    var k := IndexOf(p.sentbox, id);
    if k < |p.sentbox| {
      BookedKnown(h, p.sentbox, k);
      DeliveredInOrder(h, p, acked, p.sentbox[k].packets);
      WithoutLess(p.sentbox, k, h.log);
    } else {
      assert acked + {} == acked;
    }
  }

  lemma OneMoreFollows(h: Half, q: Peer, left': seq<Sent>, acked: set<u32>, gone: set<u32>, gone': set<u32>, id: u32, now: nat)
    requires Made(h.orders, h.messages) && Logged(h.log, h.messages) && Follows(h, q, acked + gone)
    requires OneMore(q.sentbox, left', gone, gone', id)
    ensures Follows(h, Ack(q, id, now), acked + gone') && Ack(q, id, now).sentbox == left'
  {
    hide Made, Logged, Follows, Ack, Listed, IndexOf;
    AckFollows(h, q, acked + gone, id, now);
    var k := IndexOf(q.sentbox, id);
    assert acked + gone' == acked + gone + if k < |q.sentbox| then Listed(q.sentbox[k].packets) else {};
  }

  lemma FollowsWindow(h: Half, p: Peer, acked: set<u32>)
    requires Follows(h, p, acked)
    ensures p.congestion.window > 0
  {
  }

  lemma {:induction false} AcksFollow(h: Half, p: Peer, acked: set<u32>, ids: seq<u32>, now: nat)
    requires Made(h.orders, h.messages) && Logged(h.log, h.messages) && Follows(h, p, acked)
    ensures p.congestion.window > 0
    ensures Follows(h, Acks(p, ids, now), acked + Books(Struck(p.sentbox, multiset(ids))))
    ensures Acks(p, ids, now).sentbox == Left(p.sentbox, multiset(ids))
    decreases |ids|
  {
    hide Made, Logged, Follows, Ack, OneMore, Struck, Left, Books;
    FollowsWindow(h, p, acked);
    if ids == [] {
      NoStrike(p.sentbox);
      NothingBooked(p.sentbox);
      assert acked + {} == acked;
    } else {
      var n := |ids| - 1;
      AcksFollow(h, p, acked, ids[..n], now);
      ListedLast(ids);
      OneMoreStrike(p.sentbox, multiset(ids[..n]), ids[n]);
      OneMoreFollows(h, Acks(p, ids[..n], now), Left(p.sentbox, multiset(ids)), acked,
                     Books(Struck(p.sentbox, multiset(ids[..n]))), Books(Struck(p.sentbox, multiset(ids))), ids[n], now);
    }
  }

  lemma {:induction false} NacksKeepReceipts(p: Peer, ids: seq<u32>, now: nat)
    ensures NackEach(p, ids, now).receipts == p.receipts
    decreases |ids|
  {
    if ids != [] {
      NacksKeepReceipts(p, ids[..|ids| - 1], now);
    }
  }

  // --- Losses ---

  lemma LostInOrder(h: Half, r: RT.State, acked: set<u32>, ids: seq<u32>)
    requires Made(h.orders, h.messages) && Listed(ids) <= h.messages.Keys && InOrder(TrackerOf(h, r, acked))
    ensures InOrder(TrackerOf(h, RT.Lost(r, ids), acked))
  {
    hide Made, Split, Asked, Groups;
    forall id | id in ids ensures id in h.messages && id !in Split(h.orders) {
      var i :| 0 <= i < |ids| && ids[i] == id;
      assert id in Listed(ids);
      NotAContainer(h, id);
    }
    var w := TrackerOf(h, r, acked);
    RT.LoseGood(w, ids);
    LoseHonest(w, ids);
  }

  lemma LoseHonest(w: RT.World, ids: seq<u32>)
    requires Honest(w)
    ensures Honest(RT.Step(w, RT.Lose(ids)))
  {
    LostExactly(w.s, ids);
    var r := RT.Lost(w.s, ids);
    hide RT.Lost;
    assert r.posted == w.s.posted + r.posted[|w.s.posted|..];
  }

  lemma {:induction false} ExpiryInOrder(h: Half, r: RT.State, acked: set<u32>, box: seq<Sent>, now: nat)
    requires Made(h.orders, h.messages) && Logged(h.log, h.messages) && Boxed(box, h.log) && InOrder(TrackerOf(h, r, acked))
    ensures InOrder(TrackerOf(h, LostReceipts(r, box, now), acked))
    decreases |box|
  {
    if box != [] {
      var n := |box| - 1;
      assert Boxed(box[..n], h.log);
      hide Made, Logged, InOrder, TrackerOf, RT.Lost, Listed;
      ExpiryInOrder(h, r, acked, box[..n], now);
      BookedKnown(h, box, n);
      LostInOrder(h, LostReceipts(r, box[..n], now), acked, box[n].packets);
    }
  }

  // --- Receiving ---

  lemma ReadDataKeepsReceipts(p: Peer, d: Sent, messages: map<u32, Message>, now: nat)
    requires p.congestion.window > 0 && Carries(d, true, messages)
    ensures Read(p, d.blob, now).peer.receipts == p.receipts
  {
    hide Decode, Encode, SeenAll, Concat, Blobs, Lookup, Opened, Carries;
    DataDecodes(d, messages);
    var r := Decode(d.blob);
    OpenedKeepsReceipts(p, r.header, r.messages, now);
  }

  lemma OpenedKeepsReceipts(p: Peer, h: DH.DatagramHeader, ms: seq<Message>, now: nat)
    requires p.congestion.window > 0 && h.acks == [] && h.nacks == []
    ensures Opened(p, h, ms, now).peer.receipts == p.receipts
  {
    hide Taken, CC.ReceivedDatagram;
  }

  /** What one side hears acknowledged in one step: the packets of its datagrams the acknowledgement list strikes off. */
  ghost function Heard(me: Half, other: Half, e: Event): set<u32> {
    if e.Receive? && e.id in other.log && other.log[e.id].Ackgram? && e.id !in me.peer.congestion.datagramHistory
    then Books(Struck(me.peer.sentbox, multiset(other.log[e.id].acks)))
    else {}
  }

  /** The tracker of a side is in order, given everything it has heard acknowledged. */
  ghost predicate Clear(h: Half, acked: set<u32>) {
    InOrder(TrackerOf(h, h.peer.receipts, acked)) && acked <= h.messages.Keys
  }

  /** Only messages, orders and receipts matter. */
  lemma ClearFrame(h: Half, h': Half, acked: set<u32>)
    requires h'.orders == h.orders && h'.messages == h.messages && InOrder(TrackerOf(h, h'.peer.receipts, acked)) && acked <= h.messages.Keys
    ensures Clear(h', acked)
  {
  }

  lemma AnsweredClear(h: Half, p: Peer, acked: set<u32>, id: u32, acks: seq<u32>, nacks: seq<u32>, now: nat)
    requires Made(h.orders, h.messages) && Logged(h.log, h.messages) && Follows(h, p, acked)
    ensures p.congestion.window > 0
    ensures var gone := Books(Struck(p.sentbox, multiset(acks)));
      InOrder(TrackerOf(h, Answered(p, AckHeader(id, acks, nacks), now).receipts, acked + gone)) && acked + gone <= h.messages.Keys
  {
    hide Made, Logged, InOrder, TrackerOf, Acks, NackEach, Struck, Books;
    AcksFollow(h, p, acked, acks, now);
    if acks == [] {
      NoStrike(p.sentbox);
      assert acked + Books(Struck(p.sentbox, multiset([]))) == acked by { NothingBooked(p.sentbox); }
    }
    NacksKeepReceipts(if acks != [] then Acks(p, acks, now) else p, nacks, now);
  }

  lemma NothingBooked(box: seq<Sent>)
    ensures Books(Struck(box, multiset([]))) == {}
  {
    NoStrike(box);
  }

  lemma FollowsAtFirst(me: Half, other: Half, id: u32, now: nat, acked: set<u32>)
    requires Inv(me, other) && Clear(me, acked)
    ensures me.peer.congestion.window > 0 && Made(me.orders, me.messages) && Logged(me.log, me.messages)
    ensures Follows(me, me.peer.(congestion := CC.ReceivedDatagram(me.peer.congestion, id, true, now)), acked)
  {
    hide Made, Filed, Pair, Queue, Numbered, Logged, Boxed, InOrder, TrackerOf, CC.Balanced, CC.RttSound;
  }

  lemma NewAckgramClear(me: Half, other: Half, id: u32, acks: seq<u32>, nacks: seq<u32>, now: nat, acked: set<u32>)
    requires Inv(me, other) && Clear(me, acked) && id !in me.peer.congestion.datagramHistory
    requires |acks| <= DH.MAX_IDS && |nacks| <= DH.MAX_IDS && (acks != [] || nacks != [])
    ensures me.peer.congestion.window > 0
    ensures Clear(Receiving(me, Ackgram(Encode(AckHeader(id, acks, nacks), []), acks, nacks), now),
                  acked + Books(Struck(me.peer.sentbox, multiset(acks))))
  {
    hide Inv, Clear, Encode, Read, Answered, Follows, Struck, Books, Made, Logged, InOrder, TrackerOf, CC.ReceivedDatagram;
    FollowsAtFirst(me, other, id, now, acked);
    ReadAckgram(me.peer, id, acks, nacks, now);
    AnsweredClear(me, me.peer.(congestion := CC.ReceivedDatagram(me.peer.congestion, id, true, now)), acked, id, acks, nacks, now);
    ClearFrame(me, Receiving(me, Ackgram(Encode(AckHeader(id, acks, nacks), []), acks, nacks), now),
               acked + Books(Struck(me.peer.sentbox, multiset(acks))));
  }

  lemma ReadOldAckgram(p: Peer, id: u32, acks: seq<u32>, nacks: seq<u32>, now: nat)
    requires p.congestion.window > 0 && id in p.congestion.datagramHistory
    requires |acks| <= DH.MAX_IDS && |nacks| <= DH.MAX_IDS && (acks != [] || nacks != [])
    ensures Read(p, Encode(AckHeader(id, acks, nacks), []), now) == Reading(false, p, [])
  {
    AckDecodes(id, acks, nacks);
    hide Decode, Encode;
  }

  lemma AckgramKnown(me: Half, other: Half, id: u32)
    requires Inv(me, other) && id in other.log && other.log[id].Ackgram?
    ensures me.peer.congestion.window > 0
    ensures var g := other.log[id];
      && |g.acks| <= DH.MAX_IDS && |g.nacks| <= DH.MAX_IDS && (g.acks != [] || g.nacks != [])
      && g == Ackgram(Encode(AckHeader(id, g.acks, g.nacks), []), g.acks, g.nacks)
  {
    hide Made, Filed, Pair, Queue, Numbered, Boxed, CC.Balanced, CC.RttSound, Encode;
    assert LoggedOne(id, other.log[id], other.messages);
  }

  lemma OldAckgramClear(me: Half, id: u32, acks: seq<u32>, nacks: seq<u32>, now: nat, acked: set<u32>)
    requires Clear(me, acked) && id in me.peer.congestion.datagramHistory && me.peer.congestion.window > 0
    requires |acks| <= DH.MAX_IDS && |nacks| <= DH.MAX_IDS && (acks != [] || nacks != [])
    ensures Clear(Receiving(me, Ackgram(Encode(AckHeader(id, acks, nacks), []), acks, nacks), now), acked)
  {
    hide Encode, Read, InOrder, TrackerOf;
    ReadOldAckgram(me.peer, id, acks, nacks, now);
    ClearFrame(me, Receiving(me, Ackgram(Encode(AckHeader(id, acks, nacks), []), acks, nacks), now), acked);
  }

  lemma AckgramClear(me: Half, other: Half, id: u32, now: nat, acked: set<u32>)
    requires Inv(me, other) && id in other.log && other.log[id].Ackgram? && Clear(me, acked)
    ensures me.peer.congestion.window > 0
    ensures Clear(Receiving(me, other.log[id], now), acked + Heard(me, other, Receive(id)))
  {
    hide Inv, Encode, Receiving, Clear, Struck, Books;
    var g := other.log[id];
    AckgramKnown(me, other, id);
    if id in me.peer.congestion.datagramHistory {
      OldAckgramClear(me, id, g.acks, g.nacks, now, acked);
      assert acked + {} == acked;
    } else {
      NewAckgramClear(me, other, id, g.acks, g.nacks, now, acked);
    }
  }

  lemma DataClear(me: Half, other: Half, id: u32, now: nat, acked: set<u32>)
    requires Inv(me, other) && id in other.log && other.log[id].Data? && Clear(me, acked)
    ensures me.peer.congestion.window > 0
    ensures Clear(Receiving(me, other.log[id], now), acked)
  {
    DataKnown(me, other, id);
    hide Inv, Read, InOrder, TrackerOf, Carries;
    ReadDataKeepsReceipts(me.peer, other.log[id].sent, other.messages, now);
    ClearFrame(me, Receiving(me, other.log[id], now), acked);
  }

  lemma DataKnown(me: Half, other: Half, id: u32)
    requires Inv(me, other) && id in other.log && other.log[id].Data?
    ensures me.peer.congestion.window > 0 && Carries(other.log[id].sent, true, other.messages)
  {
    hide Made, Filed, Pair, Queue, Numbered, Boxed, CC.Balanced, CC.RttSound, Encode, Carries;
    assert LoggedOne(id, other.log[id], other.messages);
  }

  // --- The other steps ---

  lemma SendClear(me: Half, now: nat, acked: set<u32>)
    requires Clear(me, acked) && me.peer.congestion.bytesInFlight >= 0
    ensures Sending(me, now).open ==> Clear(Sending(me, now), acked)
  {
    hide Chosen, Exhausted, Overdue, Emitted, Scheduled, Written, Ids, Picked, Payload, InOrder, TrackerOf;
    if Sending(me, now).open {
      ClearFrame(me, Sending(me, now), acked);
    }
  }

  lemma UpdateClear(me: Half, other: Half, now: nat, acked: set<u32>)
    requires Inv(me, other) && Clear(me, acked)
    ensures Clear(Updating(me, now), acked)
  {
    hide Filed, Pair, Queue, Numbered, Steady, Made, Logged, Boxed, InOrder, TrackerOf, CC.Updated, Kept, LostReceipts;
    ExpiryInOrder(me, me.peer.receipts, acked, me.peer.sentbox, now);
    ClearFrame(me, Updating(me, now), acked);
  }

  lemma StepClear(me: Half, other: Half, e: Event, now: nat, acked: set<u32>)
    requires Inv(me, other) && Enabled(me, other, e, now) && Clear(me, acked)
    ensures Step(me, other, e, now).open ==> Clear(Step(me, other, e, now), acked + Heard(me, other, e))
  {
    hide Inv, Clear, Queueing, Sending, Receiving, Updating, OnlyLastUnreliable, Chosen, Struck, Books;
    assert acked + {} == acked;
    match e
    case Enqueue(_, _, _) => EnqueueClear(me, other, OrderOf(me, e), now, acked);
    case Send => SendClear(me, now, acked);
    case SendAcks => AckingClear(me, now, acked);
    case Receive(id) =>
      if other.log[id].Data? {
        DataClear(me, other, id, now, acked);
      } else {
        AckgramClear(me, other, id, now, acked);
      }
    case Update => UpdateClear(me, other, now, acked);
  }

  lemma EnqueueClear(me: Half, other: Half, o: Order, now: nat, acked: set<u32>)
    requires Inv(me, other) && Clear(me, acked) && Fits(o) && o.labels.container == me.peer.congestion.nextPacket
    ensures Clear(Queueing(me, o, now), acked)
  {
    hide Filed, Pair, Queue, Steady, Made, Logged, Boxed, InOrder, TrackerOf, Queueing, Numbered, Fits;
    EnqueueInOrder(me, o, now, acked);
  }

  lemma AckingClear(me: Half, now: nat, acked: set<u32>)
    requires Clear(me, acked)
    ensures Clear(Acking(me, now), acked)
  {
    hide InOrder, TrackerOf, Encode;
    ClearFrame(me, Acking(me, now), acked);
  }

  // --- Every run ---

  /** Everything one side has heard acknowledged in a run. */
  ghost function Acked(start: Setting, moves: seq<Move>, right: bool): set<u32>
    requires Run(start, moves).Some?
  {
    if moves == [] then {}
    else
      var before, m := moves[..|moves| - 1], moves[|moves| - 1];
      var w := Run(start, before).value;
      Acked(start, before, right) + if m.left != right then Heard(SideOf(w, right), SideOf(w, !right), m.event) else {}
  }

  lemma {:induction false} RunClear(start: Setting, moves: seq<Move>, right: bool)
    requires Run(start, moves).Some? && SideOf(Run(start, moves).value, right).open
    ensures Clear(SideOf(Run(start, moves).value, right), Acked(start, moves, right))
    decreases |moves|
  {
    hide Clear, Enabled, Step, Inv, Heard;
    if moves == [] {
      ClearAtFirst(if right then start.right else start.left, start.buffered);
    } else {
      var n := |moves| - 1;
      var w, m := Run(start, moves[..n]).value, moves[n];
      RunKeeps(start, moves[..n]);
      InvSwap(w.left, w.right);
      if m.left != right {
        OpenBefore(SideOf(w, right), SideOf(w, !right), m.event, m.now);
        RunClear(start, moves[..n], right);
        StepClear(SideOf(w, right), SideOf(w, !right), m.event, m.now, Acked(start, moves[..n], right));
      } else {
        RunClear(start, moves[..n], right);
        assert Acked(start, moves[..n], right) + {} == Acked(start, moves[..n], right);
      }
    }
  }

  lemma OpenBefore(me: Half, other: Half, e: Event, now: nat)
    requires Enabled(me, other, e, now)
    ensures me.open
  {
  }

  lemma ClearAtFirst(now: nat, buffered: set<byte>)
    ensures Clear(Protocol.Fresh(now, buffered), {})
  {
  }

  /**
    Over every run, as long as a side is open. A message asked about has
    exactly one receipt, or is still open. One sent in segments is open as
    long as some of its numbers have not been acknowledged, which are the ones
    its group holds, and gets its receipt, a positive one, with the last of
    them. One sent whole is no longer open once acknowledged, and its receipt
    is positive only then. Nothing else gets a receipt.
   */
  lemma ReceiptsExactly(start: Setting, moves: seq<Move>, right: bool, c: u32)
    requires Run(start, moves).Some? && SideOf(Run(start, moves).value, right).open
    ensures var h, acked := SideOf(Run(start, moves).value, right), Acked(start, moves, right);
      ReceiptOf(h.orders, h.peer.receipts, c, acked)
  {
    RunClear(start, moves, right);
    hide Run, Acked;
    var h, acked := SideOf(Run(start, moves).value, right), Acked(start, moves, right);
    ReceiptFollows(h, acked, c);
  }

  ghost predicate ReceiptOf(orders: map<u32, Order>, r: RT.State, c: u32, acked: set<u32>) {
    if c in orders && WantsReceipt(orders[c].labels.options) then
      && RT.Times(r.posted, c) == (if c in r.tracker then 0 else 1)
      && (Segments(orders[c]) > 1 ==> SplitReceipt(Numbering(orders[c]), r, c, acked))
      && (Segments(orders[c]) == 1 ==> (c in acked ==> c !in r.tracker) && (RT.Receipt(c, true) in r.posted ==> c in acked))
    else c !in r.tracker && RT.Times(r.posted, c) == 0
  }

  ghost predicate SplitReceipt(numbers: set<u32>, r: RT.State, c: u32, acked: set<u32>) {
    && (c in r.tracker <==> !(numbers <= acked))
    && (c in r.splits <==> c in r.tracker) && (c in r.splits ==> r.splits[c] == numbers - acked)
    && (RT.Receipt(c, true) in r.posted <==> numbers <= acked) && RT.Receipt(c, false) !in r.posted
  }

  lemma ReceiptFollows(h: Half, acked: set<u32>, c: u32)
    requires Clear(h, acked)
    ensures ReceiptOf(h.orders, h.peer.receipts, c, acked)
  {
    hide Numbering, Segments, WantsReceipt, RT.Sound, RT.Times;
    var w := TrackerOf(h, h.peer.receipts, acked);
    if c in h.orders && WantsReceipt(h.orders[c].labels.options) {
      if Segments(h.orders[c]) > 1 {
        assert c in w.groups && w.groups[c] == Numbering(h.orders[c]) && c in w.containers;
        assert RT.Follows(w, c);
        RT.TimesPositive(w.s.posted, c);
      } else {
        assert c !in w.containers;
      }
    }
  }
}
