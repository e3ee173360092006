/** Two messages that together leave no room for the datagram's header: the receiver drops the connection. */
module TooLongDatagram {
  import opened Types
  import opened Wire
  import PH = PacketHeaders
  import opened Datagrams
  import opened Segmentation
  import CC = Congestion
  import opened Builders
  import opened RemotePeers
  import opened Queues
  import opened Protocol
  import opened FirstMessage

  /** A serialized packet of an unsplit message on channel 0. */
  function SizeOf(p: Packet): nat { |p.data| + 12 }

  /** Both in one piece, and together within the MTU, but not with the seven bytes of the header. */
  ghost predicate Snug(a: Packet, b: Packet) {
    |a.data| < CHUNK_SIZE && |b.data| < CHUNK_SIZE && MTU - 7 < SizeOf(a) + SizeOf(b) <= MTU
  }

  ghost function OrderFor(p: Packet, n: u32): Order { Order(p, Labels(1, 0, 0, n)) }

  ghost function OneQueued(a: Packet, buffered: set<byte>): Half
    requires |a.data| < CHUNK_SIZE
  {
    Queueing(Protocol.Fresh(0, buffered), OrderFor(a, 0), 0)
  }

  ghost function BothQueued(a: Packet, b: Packet, buffered: set<byte>): Half
    requires Snug(a, b)
  {
    Queueing(OneQueued(a, buffered), OrderFor(b, 1), 0)
  }

  lemma InOnePiece(p: Packet, n: u32)
    requires |p.data| < CHUNK_SIZE && n < 2
    ensures Fits(OrderFor(p, n)) && Segments(OrderFor(p, n)) == 1
    ensures QueuedUpTo(p, OrderFor(p, n).labels, 1, 0) == [Queued(p, OrderFor(p, n).labels, 0, 0)]
    ensures var q := Queued(p, OrderFor(p, n).labels, 0, 0);
      |q.blob| == SizeOf(p) && q.reliable && q.sendNext == 0 && q.sendCount == 0
  {
    hide PutAll, Put;
    var labels := OrderFor(p, n).labels;
    var m := Segment(p, labels, NumberOf(n, 1, 0), 0);
    PutAllConcat(EMPTY, PH.Layout(m.header), [Blob(m.body)]);
    HeaderSize(m.header);
    PutBlob(PutAll(EMPTY, PH.Layout(m.header)), m.body);
  }

  lemma BothInOutbox(a: Packet, b: Packet, buffered: set<byte>)
    requires Snug(a, b)
    ensures var p := BothQueued(a, b, buffered).peer;
      && p.congestion == CC.Initial(0).(nextPacket := 2)
      && p.outbox == [Queued(a, OrderFor(a, 0).labels, 0, 0), Queued(b, OrderFor(b, 1).labels, 0, 0)]
  {
    hide Queued, QueuedUpTo, MessagesOf, Numbering;
    InOnePiece(a, 0);
    InOnePiece(b, 1);
  }

  lemma BothChosen(a: Packet, b: Packet, buffered: set<byte>)
    requires Snug(a, b)
    ensures var p := BothQueued(a, b, buffered).peer;
      && p.congestion.bytesInFlight == 0 && Chosen(p, 0) == [0, 1] && Payload(p.outbox, [0, 1]) == SizeOf(a) + SizeOf(b)
      && OnlyLastUnreliable(p.outbox, [0, 1]) && !Exhausted(p.outbox, [0, 1])
  {
    BothInOutbox(a, b, buffered);
    InOnePiece(a, 0);
    InOnePiece(b, 1);
    hide BothQueued, Queued, Chosen, Payload, OnlyLastUnreliable, Exhausted;
    TwoChosen(BothQueued(a, b, buffered).peer);
  }

  lemma TwoChosen(p: Peer)
    requires p.congestion == CC.Initial(0).(nextPacket := 2) && |p.outbox| == 2
    requires forall i :: 0 <= i < 2 ==> p.outbox[i].reliable && p.outbox[i].sendNext == 0 && p.outbox[i].sendCount == 0
    requires 0 < |p.outbox[0].blob| && 0 < |p.outbox[1].blob| && |p.outbox[0].blob| + |p.outbox[1].blob| <= MTU
    ensures p.congestion.bytesInFlight == 0 && Chosen(p, 0) == [0, 1]
    ensures Payload(p.outbox, [0, 1]) == |p.outbox[0].blob| + |p.outbox[1].blob|
    ensures OnlyLastUnreliable(p.outbox, [0, 1]) && !Exhausted(p.outbox, [0, 1])
  {
    TwoFit(p.outbox);
    TwoWeigh(p.outbox);
    hide Greedy, Payload;
    assert New(p, 0) == [0, 1];
    assert Again(p, 0) + [0, 1] == [0, 1];
  }

  lemma TwoWeigh(outbox: Outbox)
    requires |outbox| == 2
    ensures Payload(outbox, [0, 1]) == |outbox[0].blob| + |outbox[1].blob|
  {
    var both, last: seq<nat> := [0, 1], [1];
    var none: seq<nat> := [];
    assert both[1..] == last && last[1..] == none;
    assert Payload(outbox, none) == 0;
    assert Payload(outbox, last) == |outbox[1].blob|;
  }

  lemma TwoFit(outbox: Outbox)
    requires |outbox| == 2 && forall i :: 0 <= i < 2 ==> outbox[i].sendNext == 0 && outbox[i].sendCount == 0
    requires 0 < |outbox[0].blob| && 0 < |outbox[1].blob| && |outbox[0].blob| + |outbox[1].blob| <= MTU
    ensures Greedy(outbox, 0, MTU, 0) == [0, 1]
  {
    var m, n := |outbox[0].blob|, |outbox[1].blob|;
    var none: seq<nat> := Greedy(outbox, 2, MTU - m - n, 0);
    assert none == [];
    var last: seq<nat> := Greedy(outbox, 1, MTU - m, 0);
    assert last == [1] + none == [1];
  }

  /** Queue both, send, receive: the receiver closes the connection over a datagram its peer made. */
  lemma SnugPairCloses(a: Packet, b: Packet, buffered: set<byte>) returns (moves: seq<Move>)
    requires Snug(a, b)
    ensures Run(Zero(buffered), moves).Some?
    ensures var w := Run(Zero(buffered), moves).value;
      !w.right.open && w.right.received == [] && 0 in w.left.log && w.left.log[0].Data? && |w.left.log[0].sent.blob| > MTU
  {
    hide Run, BothQueued, Inv, Enabled, Sending, Receiving, Chosen, Exhausted, Payload;
    moves := QueueBoth(a, b, buffered);
    var start, left, right := Zero(buffered), BothQueued(a, b, buffered), Protocol.Fresh(0, buffered);
    RunKeeps(start, moves);
    BothChosen(a, b, buffered);
    BothCanGo(a, b, buffered);
    moves := MoveSend(start, left, right, moves);
    SnugSent(left, right, 0);
    moves := ReceiveMove(start, World(Sending(left, 0), right), false, moves);
  }

  lemma BothCanGo(a: Packet, b: Packet, buffered: set<byte>)
    requires Snug(a, b)
    ensures var left := BothQueued(a, b, buffered);
      left.peer.congestion.nextDatagram == 0 && Enabled(left, Protocol.Fresh(0, buffered), Send, 0)
  {
    BothChosen(a, b, buffered);
    BothInOutbox(a, b, buffered);
    hide Chosen, OnlyLastUnreliable, Exhausted, Queued, QueuedUpTo, MessagesOf, Numbering;
  }

  lemma MoveSend(start: Setting, left: Half, right: Half, before: seq<Move>) returns (moves: seq<Move>)
    requires Run(start, before) == Some(World(left, right)) && Enabled(left, right, Send, 0)
    ensures Run(start, moves) == Some(World(Sending(left, 0), right))
  {
    hide Run, Sending;
    OneMove(start, before, Move(true, Send, 0));
    moves := before + [Move(true, Send, 0)];
  }

  lemma QueueBoth(a: Packet, b: Packet, buffered: set<byte>) returns (moves: seq<Move>)
    requires Snug(a, b)
    ensures Run(Zero(buffered), moves) == Some(World(BothQueued(a, b, buffered), Protocol.Fresh(0, buffered)))
  {
    InOnePiece(a, 0);
    InOnePiece(b, 1);
    hide Queued, QueuedUpTo, MessagesOf, Numbering;
    var start, blank := Zero(buffered), Protocol.Fresh(0, buffered);
    var m1, m2 := Move(true, Enqueue(a, 1, 0), 0), Move(true, Enqueue(b, 1, 0), 0);
    assert Run(start, []) == Some(World(blank, blank));
    assert OrderOf(blank, m1.event) == OrderFor(a, 0);
    hide Run;
    OneMove(start, [], m1);
    assert OrderOf(OneQueued(a, buffered), m2.event) == OrderFor(b, 1);
    OneMove(start, [] + [m1], m2);
    moves := [] + [m1] + [m2];
  }

  /** What is sent when the chosen packets leave no room for the header, and what any receiver makes of it. */
  lemma SnugSent(left: Half, right: Half, now: nat)
    requires Inv(left, right) && Enabled(left, right, Send, now) && right.peer.congestion.window > 0
    requires left.peer.congestion.nextDatagram == 0
    requires var sel := Chosen(left.peer, now);
      sel != [] && !Exhausted(left.peer.outbox, sel) && Payload(left.peer.outbox, sel) > MTU - 7
    ensures var sent := Sending(left, now);
      && 0 in sent.log && sent.log[0].Data? && |sent.log[0].sent.blob| > MTU
      && !Receiving(right, sent.log[0], now).open && Receiving(right, sent.log[0], now).received == right.received
  {
    hide Inv, Enabled, NextDatagram, LoggedOne, Chosen, Exhausted, Payload, Read;
    assert left.peer.congestion.bytesInFlight >= 0 by { SendNeeds(left, right, now); }
    SnugBuilt(left, right, now);
    var d := NextDatagram(left.peer, true, now).0.datagram;
    ClosesExactly(right.peer, 0, Data(d), left.messages, now);
    ClosedTakesNothing(right.peer, d.blob, now);
    assert right.received + [] == right.received;
  }

  lemma SendNeeds(left: Half, right: Half, now: nat)
    requires Enabled(left, right, Send, now)
    ensures left.peer.congestion.bytesInFlight >= 0
  {
  }

  lemma SnugBuilt(left: Half, right: Half, now: nat)
    requires Inv(left, right) && Enabled(left, right, Send, now) && right.peer.congestion.window > 0
    requires left.peer.congestion.nextDatagram == 0
    requires var sel := Chosen(left.peer, now);
      sel != [] && !Exhausted(left.peer.outbox, sel) && Payload(left.peer.outbox, sel) > MTU - 7
    ensures var built := NextDatagram(left.peer, true, now).0;
      built.Built? && built.datagram.id == 0 && LoggedOne(0, Data(built.datagram), left.messages) && |built.datagram.blob| > MTU
  {
    hide Numbered, Boxed, Logged, Made, Filed, Pair, Steady, Chosen, Exhausted, Payload, Labelled, OnlyLastUnreliable, Carries, NextDatagram;
    hide Read;
    BuiltDecodes(left.peer, true, now, left.messages, left.reliable);
    TooLongExactly(left, right, now, right.peer, now);
    var d := NextDatagram(left.peer, true, now).0.datagram;
    assert LoggedOne(0, Data(d), left.messages);
    ClosesExactly(right.peer, 0, Data(d), left.messages, now);
  }

  lemma ClosedTakesNothing(p: Peer, f: Bytes, now: nat)
    requires p.congestion.window > 0 && Read(p, f, now).closed
    ensures Read(p, f, now).taken == []
  {
    hide Decode, Opened;
  }
}
