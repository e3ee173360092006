/** From the application on one side to the application on the other. */
module EndToEnd {
  import opened Types
  import opened Datagrams
  import opened Segmentation
  import RA = Reassembly
  import RT = Receipts
  import opened Queues
  import opened Protocol

  /** The packets that have to be reassembled, in the order they were taken. */
  function Pieces(received: seq<Message>): seq<Message> {
    if received == [] then []
    else
      var m := received[|received| - 1];
      Pieces(received[..|received| - 1]) + if m.header.Split() then [m] else []
  }

  /** Reassembly has not run into one of its assertions. */
  ghost predicate Smooth(received: seq<Message>) {
    RA.Run(Pieces(received)).Some?
  }

  /** What is handed on when the packet arrives: itself, or the message it completes. */
  ghost function Output(before: seq<Message>, m: Message): Option<Packet>
    requires m.body != [] && Smooth(before + [m])
  {
    if !m.header.Split() then Some(FromDatagram(m.body))
    else
      PiecesSnoc(before, m);
      RA.HandleSplit(RA.Run(Pieces(before)).value, m).1
  }

  lemma PiecesSnoc(before: seq<Message>, m: Message)
    requires Smooth(before + [m])
    ensures Pieces(before + [m]) == Pieces(before) + if m.header.Split() then [m] else []
    ensures Smooth(before)
    ensures m.header.Split() ==> RA.Accepts(RA.Run(Pieces(before)).value, m)
  {
    var all := before + [m];
    assert all[..|all| - 1] == before;
    var pieces := Pieces(all);
    if m.header.Split() {
      assert pieces[..|pieces| - 1] == Pieces(before);
    } else {
      assert Pieces(before) + [] == Pieces(before);
    }
  }

  function PacketsOf(orders: map<u32, Order>): map<u32, Packet> {
    map c | c in orders :: orders[c].packet
  }

  ghost function ContainerOf(s: Half, m: Message): u32
    requires m.header.id in s.messages
  {
    s.messages[m.header.id].header.container
  }

  /** One byte short of the longest message that may be queued, so that reassembly accepts it. */
  ghost predicate Modest(orders: map<u32, Order>) {
    forall c :: c in orders ==> |orders[c].packet.data| + 1 < PACKET_MAX_LENGTH
  }

  /** A packet as the receiver sees it is a segment of the queued message, or all of it. */
  lemma PieceOfOrder(s: Half, m: Message)
    requires Made(s.orders, s.messages) && Modest(s.orders) && Same(m, s.messages)
    ensures var c := ContainerOf(s, m);
      && c in s.orders && m.body != []
      && (m.header.Split() <==> Segments(s.orders[c]) > 1)
      && (m.header.Split() ==> m.header.container == c && RA.GenuineOne(m, PacketsOf(s.orders)))
      && (!m.header.Split() ==> m.body == ToDatagram(s.orders[c].packet))
  {
    hide Whole, Segment, NumberOf;
    var id := m.header.id;
    var q := s.messages[id];
    assert Part(id, q, s.orders);
    var o := s.orders[q.header.container];
    SegmentFacts(o, id, q.header.index);
    assert Whole(q.header.container, o, s.messages);
  }

  lemma SegmentFacts(o: Order, id: u32, i: nat)
    requires |o.packet.data| < PACKET_MAX_LENGTH && i < Segments(o)
    ensures var m := Segment(o.packet, o.labels, id, i);
      && RA.IsSegment(m, ToDatagram(o.packet), i)
      && (m.header.Split() <==> Segments(o) > 1)
      && (Segments(o) == 1 ==> m.body == ToDatagram(o.packet))
      && m.body != []
  {
  }

  ghost predicate AllSame(received: seq<Message>, messages: map<u32, Message>) {
    forall i :: 0 <= i < |received| ==> Same(received[i], messages)
  }

  lemma {:induction false} PiecesGenuine(s: Half, received: seq<Message>)
    requires Made(s.orders, s.messages) && Modest(s.orders) && AllSame(received, s.messages)
    ensures RA.Genuine(Pieces(received), PacketsOf(s.orders))
    decreases |received|
  {
    hide Made, Same, RA.GenuineOne;
    if received != [] {
      var n := |received| - 1;
      PiecesGenuine(s, received[..n]);
      PieceOfOrder(s, received[n]);
    }
  }

  lemma {:induction false} SmoothPrefix(received: seq<Message>, n: nat)
    requires Smooth(received) && n <= |received|
    ensures Smooth(received[..n])
    decreases |received|
  {
    if n == |received| {
      assert received[..n] == received;
    } else {
      var k := |received| - 1;
      assert received[..k] + [received[k]] == received;
      PiecesSnoc(received[..k], received[k]);
      SmoothPrefix(received[..k], n);
      assert received[..k][..n] == received[..n];
    }
  }

  /** Reassembly runs smoothly exactly when every segment finds its offset, judging by the order of arrival alone. */
  lemma SmoothExactly(s: Half, received: seq<Message>)
    requires Made(s.orders, s.messages) && Modest(s.orders) && AllSame(received, s.messages)
    ensures RA.Genuine(Pieces(received), PacketsOf(s.orders))
    ensures Smooth(received) <==> RA.Landing(Pieces(received), PacketsOf(s.orders))
  {
    hide Made, AllSame, Pieces, RA.Run;
    PiecesGenuine(s, received);
    RA.RunsExactly(Pieces(received), PacketsOf(s.orders));
  }

  /** What the i-th packet taken leads to. */
  ghost function Handed(received: seq<Message>, i: nat): Option<Packet>
    requires Smooth(received) && i < |received| && received[i].body != []
  {
    SmoothPrefix(received, i + 1);
    assert received[..i + 1] == received[..i] + [received[i]];
    Output(received[..i], received[i])
  }

  /** The packet is the last missing segment of its message, or the whole of it. */
  ghost predicate Completes(s: Half, received: seq<Message>, i: nat)
    requires Made(s.orders, s.messages) && Modest(s.orders) && AllSame(received, s.messages) && i < |received|
  {
    var m := received[i];
    m.header.Split() ==>
      (PiecesGenuine(s, received[..i]); PieceOfOrder(s, m);
       RA.Pending(Pieces(received[..i]), PacketsOf(s.orders), ContainerOf(s, m)) + {m.header.index}
         == RA.All(PacketsOf(s.orders), ContainerOf(s, m)))
  }

  /** The application is handed exactly what was queued, when its last packet arrives and at no other time. */
  lemma HandedOnAsQueued(s: Half, received: seq<Message>, i: nat)
    requires Made(s.orders, s.messages) && Modest(s.orders) && AllSame(received, s.messages)
    requires Smooth(received) && i < |received|
    ensures received[i].body != [] && ContainerOf(s, received[i]) in s.orders
    ensures Handed(received, i)
      == if Completes(s, received, i) then Some(s.orders[ContainerOf(s, received[i])].packet) else None
  {
    var m := received[i];
    assert m.header.id in s.messages;
    hide Made, Modest, Same, RA.HandleSplit, RA.Accepts, RA.Run, RA.Pending, RA.GenuineOne, RA.All, Pieces;
    PieceOfOrder(s, m);
    PiecesGenuine(s, received[..i]);
    SmoothPrefix(received, i + 1);
    assert received[..i + 1] == received[..i] + [m];
    PiecesSnoc(received[..i], m);
    if m.header.Split() {
      RA.ReassemblyInverts(Pieces(received[..i]), PacketsOf(s.orders), m);
    } else {
      FromDatagramInverts(s.orders[ContainerOf(s, m)].packet);
    }
  }

  // --- Delivered messages were handed on ---

  /** Where in the list of packets a piece came from. */
  lemma {:induction false} PieceCameFrom(received: seq<Message>, j: nat) returns (i: nat)
    requires j < |Pieces(received)|
    ensures i < |received| && received[i] == Pieces(received)[j] && received[i].header.Split()
    ensures Pieces(received[..i]) == Pieces(received)[..j]
    decreases |received|
  {
    var n := |received| - 1;
    var before := Pieces(received[..n]);
    if j < |before| {
      i := PieceCameFrom(received[..n], j);
      assert received[..n][..i] == received[..i];
      assert before[..j] == Pieces(received)[..j];
    } else {
      i := n;
      assert Pieces(received)[..j] == before;
    }
  }

  lemma {:induction false} PieceIsThere(received: seq<Message>, i: nat)
    requires i < |received| && received[i].header.Split()
    ensures received[i] in Pieces(received)
    decreases |received|
  {
    var n := |received| - 1;
    if i < n {
      PieceIsThere(received[..n], i);
    }
  }

  /** The packet with the k-th number of a message is its k-th segment. */
  lemma NumberToSegment(s: Half, c: u32, k: nat, m: Message)
    requires Made(s.orders, s.messages) && Modest(s.orders) && Same(m, s.messages)
    requires c in s.orders && k < Segments(s.orders[c])
    requires m.header.id == NumberOf(c, Segments(s.orders[c]), k)
    ensures ContainerOf(s, m) == c && s.messages[m.header.id].header.index == k
    ensures m.header.Split() ==> m.header.index == k
  {
    hide Part, NumberOf;
    assert Whole(c, s.orders[c], s.messages);
    assert Piece(s.orders[c], k, s.messages);
    SegmentLabels(s.orders[c], m.header.id, k);
    hide Segment;
  }

  lemma SegmentLabels(o: Order, id: u32, i: nat)
    requires |o.packet.data| < PACKET_MAX_LENGTH && i < Segments(o)
    ensures var h := Segment(o.packet, o.labels, id, i).header;
      h.container == o.labels.container && h.index == i
  {
  }

  lemma WhereTaken(received: seq<Message>, id: u32) returns (i: nat)
    requires id in NumbersOf(received)
    ensures i < |received| && received[i].header.id == id
  {
    i :| i < |received| && received[i].header.id == id;
  }

  /** Every segment of a delivered message is among the pieces. */
  lemma AllPiecesThere(s: Half, received: seq<Message>, c: u32)
    requires Made(s.orders, s.messages) && Modest(s.orders) && AllSame(received, s.messages)
    requires Delivered(s.orders, c, NumbersOf(received)) && Segments(s.orders[c]) > 1
    ensures forall k: u32 :: k < Segments(s.orders[c]) ==> k in RA.Arrived(Pieces(received), c)
  {
    hide Made, Same, NumbersOf, Pieces;
    var n := Segments(s.orders[c]);
    var pieces := Pieces(received);
    forall k: u32 | k < n ensures k in RA.Arrived(pieces, c) {
      assert Numbering(s.orders[c]) == Numbers(c, n, n) by { ContainerLabel(s, c); }
      var id := NumberOf(c, n, k);
      assert id in Numbers(c, n, n);
      var i := WhereTaken(received, id);
      NumberToSegment(s, c, k, received[i]);
      PieceOfOrder(s, received[i]);
      PieceIsThere(received, i);
      var j :| 0 <= j < |pieces| && pieces[j] == received[i];
      assert pieces[j].header.container == c && pieces[j].header.index == k;
    }
  }

  lemma ContainerLabel(s: Half, c: u32)
    requires Made(s.orders, s.messages) && c in s.orders
    ensures s.orders[c].labels.container == c
  {
    assert Whole(c, s.orders[c], s.messages);
  }

  ghost predicate WasHanded(received: seq<Message>, p: Packet)
    requires Smooth(received)
  {
    exists i :: 0 <= i < |received| && HandedAt(received, i, p)
  }

  ghost predicate HandedAt(received: seq<Message>, i: nat, p: Packet)
    requires Smooth(received) && i < |received|
  {
    received[i].body != [] && Handed(received, i) == Some(p)
  }

  lemma SingleWasHanded(s: Half, received: seq<Message>, c: u32)
    requires Made(s.orders, s.messages) && Modest(s.orders) && AllSame(received, s.messages) && Smooth(received)
    requires Delivered(s.orders, c, NumbersOf(received)) && Segments(s.orders[c]) == 1
    ensures WasHanded(received, s.orders[c].packet)
  {
    hide Made, Same, NumbersOf, Pieces, Handed, Smooth;
    ContainerLabel(s, c);
    assert NumberOf(c, 1, 0) in Numbering(s.orders[c]);
    var i := WhereTaken(received, NumberOf(c, 1, 0));
    NumberToSegment(s, c, 0, received[i]);
    PieceOfOrder(s, received[i]);
    HandedOnAsQueued(s, received, i);
    assert HandedAt(received, i, s.orders[c].packet);
  }

  lemma SplitWasHanded(s: Half, received: seq<Message>, c: u32)
    requires Made(s.orders, s.messages) && Modest(s.orders) && AllSame(received, s.messages) && Smooth(received)
    requires Delivered(s.orders, c, NumbersOf(received)) && Segments(s.orders[c]) > 1
    ensures WasHanded(received, s.orders[c].packet)
  {
    hide Made, Same, NumbersOf, Pieces, Handed, Smooth, RA.Pending, RA.Arrived;
    var pieces, packets := Pieces(received), PacketsOf(s.orders);
    PiecesGenuine(s, received);
    AllPiecesThere(s, received, c);
    RA.AllArrivedCompletes(pieces, packets, c);
    var j :| 0 <= j < |pieces| && RA.Completing(pieces, packets, c, j);
    var i := PieceCameFrom(received, j);
    PieceOfOrder(s, received[i]);
    HandedOnAsQueued(s, received, i);
    assert HandedAt(received, i, s.orders[c].packet);
  }

  /**
    Over every run: when one side has been told that a message was delivered,
    the application on the other side has been handed that very message.
   */
  lemma ReceiptMeansHandedOn(s: Half, r: Half, c: u32)
    requires Reachable(s, r) && Modest(s.orders) && Smooth(r.received)
    requires RT.Receipt(c, true) in s.peer.receipts.posted
    ensures c in s.orders && WasHanded(r.received, s.orders[c].packet)
  {
    hide Reachable, WasHanded, Smooth, Delivered, Modest;
    ReachableInv(s, r);
    DeliveredReceipt(s, r, c);
    hide Inv;
    if Segments(s.orders[c]) > 1 {
      SplitWasHanded(s, r.received, c);
    } else {
      SingleWasHanded(s, r.received, c);
    }
  }

  lemma DeliveredReceipt(s: Half, r: Half, c: u32)
    requires Sound(s) && Pair(s, r) && RT.Receipt(c, true) in s.peer.receipts.posted
    ensures c in s.orders && Delivered(s.orders, c, NumbersOf(r.received))
    ensures Made(s.orders, s.messages) && AllSame(r.received, s.messages)
  {
    hide Numbered, Queue, Logged, Boxed, Made, AcksTrue, NoLoss, Numbering, NumbersOf, Same;
    var posted := s.peer.receipts.posted;
    var i :| 0 <= i < |posted| && posted[i] == RT.Receipt(c, true);
    assert Delivered(s.orders, posted[i].id, r.accepted);
  }

  /** Over every run: whatever the other application is handed was queued, byte for byte. */
  lemma OnlyQueuedHandedOn(s: Half, r: Half, i: nat)
    requires Reachable(s, r) && Modest(s.orders) && Smooth(r.received) && i < |r.received|
    ensures r.received[i].body != []
    ensures Handed(r.received, i).Some? ==>
      exists c :: c in s.orders && s.orders[c].packet == Handed(r.received, i).value
  {
    hide Reachable, Modest, Smooth, Made, AllSame, Completes, Handed;
    ReachableInv(s, r);
    AllSameOf(s, r);
    hide Inv;
    HandedOnAsQueued(s, r.received, i);
  }

  /**
    Over every run: a reliable message still has a packet queued, or the other
    application has been handed it.
   */
  lemma QueuedOrHandedOn(s: Half, r: Half, c: u32)
    requires Reachable(s, r) && Modest(s.orders) && Smooth(r.received)
    requires c in s.orders && Numbering(s.orders[c]) <= s.reliable
    ensures
      || WasHanded(r.received, s.orders[c].packet)
      || exists id :: id in Numbering(s.orders[c]) && Has(s.peer.outbox, id)
  {
    hide Reachable, WasHanded, Smooth, Delivered, Has, Numbering, Modest;
    ReachableInv(s, r);
    StillQueued(s, r, c);
    hide Inv;
    if Delivered(s.orders, c, NumbersOf(r.received)) {
      if Segments(s.orders[c]) > 1 {
        SplitWasHanded(s, r.received, c);
      } else {
        SingleWasHanded(s, r.received, c);
      }
    }
  }

  lemma StillQueued(s: Half, r: Half, c: u32)
    requires Sound(s) && Pair(s, r) && c in s.orders && Numbering(s.orders[c]) <= s.reliable
    ensures
      || Delivered(s.orders, c, NumbersOf(r.received))
      || exists id :: id in Numbering(s.orders[c]) && Has(s.peer.outbox, id)
    ensures Made(s.orders, s.messages) && AllSame(r.received, s.messages)
  {
    hide Numbered, Queue, Logged, Boxed, Made, AcksTrue, ReceiptsTrue, Numbering, NumbersOf, Same, Has;
    if id :| id in Numbering(s.orders[c]) && id !in r.accepted {
      assert Has(s.peer.outbox, id);
    }
  }

  lemma AllSameOf(s: Half, r: Half)
    requires Sound(s) && Pair(s, r)
    ensures Made(s.orders, s.messages) && AllSame(r.received, s.messages)
  {
    hide Made, Same;
  }
}
