/** At most once within ten seconds, and in order on ordered and sequenced channels. */
module OrderedDelivery {
  import opened Types
  import opened Serial
  import opened Datagrams
  import opened Segmentation
  import CB = Channels
  import DH = DatagramHeaders
  import CC = Congestion
  import RP = RemotePeers
  import RA = Reassembly
  import opened Queues
  import opened Protocol
  import opened EndToEnd
  import ReadingDatagrams

  // --- A message handed on twice had a packet taken twice ---

  lemma {:induction false} PiecesPrefix(received: seq<Message>, a: nat, b: nat)
    requires a <= b <= |received|
    ensures Pieces(received[..a]) <= Pieces(received[..b])
    decreases b
  {
    if a < b {
      PiecesPrefix(received, a, b - 1);
      assert received[..b][..b - 1] == received[..b - 1];
    }
  }

  /** A message and the packet that completed it. */
  ghost predicate HandsOn(s: Half, received: seq<Message>, i: nat, c: u32)
    requires Made(s.orders, s.messages) && Modest(s.orders) && AllSame(received, s.messages) && i < |received|
  {
    Completes(s, received, i) && ContainerOf(s, received[i]) == c
  }

  lemma SameSegment(s: Half, m: Message, k: Message)
    requires Made(s.orders, s.messages) && Modest(s.orders) && Same(m, s.messages) && Same(k, s.messages)
    requires ContainerOf(s, m) == ContainerOf(s, k)
    requires m.header.Split() <==> k.header.Split()
    requires m.header.Split() ==> m.header.index == k.header.index
    ensures m.header.id == k.header.id
  {
    hide Whole, Segment;
    var a, b := s.messages[m.header.id], s.messages[k.header.id];
    assert Part(m.header.id, a, s.orders) && Part(k.header.id, b, s.orders);
    PieceOfOrder(s, m);
    PieceOfOrder(s, k);
  }

  /** Between two hand-ons of a message, one of its packets was taken again. */
  lemma HandedTwice(s: Half, received: seq<Message>, p: nat, q: nat, c: u32) returns (l: nat)
    requires Made(s.orders, s.messages) && Modest(s.orders) && AllSame(received, s.messages)
    requires p < q < |received| && HandsOn(s, received, p, c) && HandsOn(s, received, q, c)
    ensures p < l <= q && received[l].header.id == received[p].header.id
  {
    PieceOfOrder(s, received[p]);
    PieceOfOrder(s, received[q]);
    if !received[p].header.Split() || received[p].header.index == received[q].header.index {
      l := q;
      SameSegment(s, received[p], received[q]);
    } else {
      l := SegmentAgain(s, received, p, q, c);
    }
  }

  lemma SegmentAgain(s: Half, received: seq<Message>, p: nat, q: nat, c: u32) returns (l: nat)
    requires Made(s.orders, s.messages) && Modest(s.orders) && AllSame(received, s.messages)
    requires p < q < |received| && HandsOn(s, received, p, c) && HandsOn(s, received, q, c)
    requires received[p].header.Split() && received[q].header.Split() && received[p].header.index != received[q].header.index
    ensures p < l <= q && received[l].header.id == received[p].header.id
  {
    hide Made, Modest, Same, Pieces, RA.Pending, RA.All;
    var pieces, packets := Pieces(received[..q]), PacketsOf(s.orders);
    PieceOfOrder(s, received[p]);
    PieceOfOrder(s, received[q]);
    PiecesGenuine(s, received[..q]);
    var i := CompletedBefore(s, received, p, q, c);
    assert received[p].header.index in RA.All(packets, c) by { RA.IndexInAll(received[p], packets); }
    var j := RA.PendingIsRecent(pieces, packets, c, i, received[p].header.index);
    l := PieceCameFrom(received[..q], j);
    assert received[..q][..l] == received[..l];
    if l <= p {
      PiecesPrefix(received, l, p);
    }
    PieceOfOrder(s, received[l]);
    SameSegment(s, received[l], received[p]);
  }

  /** The place of the completing packet among the pieces. */
  lemma CompletedBefore(s: Half, received: seq<Message>, p: nat, q: nat, c: u32) returns (i: nat)
    requires Made(s.orders, s.messages) && Modest(s.orders) && AllSame(received, s.messages)
    requires p < q < |received| && HandsOn(s, received, p, c) && received[p].header.Split()
    ensures i == |Pieces(received[..p])| < |Pieces(received[..q])|
    ensures RA.Genuine(Pieces(received[..q]), PacketsOf(s.orders))
    ensures RA.Completing(Pieces(received[..q]), PacketsOf(s.orders), c, i)
  {
    hide Made, Modest, Same, RA.Pending, RA.All, RA.GenuineOne;
    i := |Pieces(received[..p])|;
    PieceOfOrder(s, received[p]);
    PiecesGenuine(s, received[..q]);
    PiecesPrefix(received, p, p + 1);
    PiecesPrefix(received, p + 1, q);
    assert received[..p + 1][..p] == received[..p];
    hide Pieces;
    var pieces := Pieces(received[..q]);
    assert pieces[i] == received[p];
    assert pieces[..i] == Pieces(received[..p]);
  }

  // --- At most once within ten seconds ---

  /** When each packet was taken, in a run in which this side's clock does not go back. */
  ghost predicate Dated(h: Half, clock: nat) {
    && |h.times| == |h.received|
    && (forall i :: 0 <= i < |h.times| ==> h.times[i] <= clock)
    && (forall i, j :: 0 <= i <= j < |h.times| ==> h.times[i] <= h.times[j])
    && (forall i :: 0 <= i < |h.received| ==> Remembers(h.peer.congestion.packetHistory, h.received[i].header.id, h.times[i], clock))
    && (forall i, j :: 0 <= i < j < |h.received| && h.received[i].header.id == h.received[j].header.id
          ==> h.times[j] >= h.times[i] + CC.HISTORY_EXPIRY)
  }

  /** A packet taken at that time is still in the history, or was taken ten seconds ago. */
  ghost predicate Remembers(history: map<u32, nat>, id: u32, time: nat, clock: nat) {
    (id in history && history[id] >= time) || clock >= time + CC.HISTORY_EXPIRY
  }

  lemma HistorySame(h: Half, h': Half, clock: nat, now: nat)
    requires Dated(h, clock) && clock <= now && h'.received == h.received && h'.times == h.times
    requires Forgets(h.peer.congestion.packetHistory, h'.peer.congestion.packetHistory, now)
    ensures Dated(h', now)
  {
    forall i | 0 <= i < |h.received|
      ensures Remembers(h'.peer.congestion.packetHistory, h.received[i].header.id, h.times[i], now)
    {
      assert Remembers(h.peer.congestion.packetHistory, h.received[i].header.id, h.times[i], clock);
    }
  }

  /** Everything taken is new, differs in number, and is in the history under today's date. */
  ghost predicate AddsNew(history: map<u32, nat>, taken: seq<Message>, history': map<u32, nat>, now: nat) {
    && (forall i :: 0 <= i < |taken| ==> taken[i].header.id !in history)
    && (forall i, j :: 0 <= i < j < |taken| ==> taken[i].header.id != taken[j].header.id)
    && (forall i :: 0 <= i < |taken| ==> taken[i].header.id in history' && history'[taken[i].header.id] == now)
    && (forall id :: id in history ==> id in history' && history'[id] == history[id])
  }

  lemma {:induction false} TakenIsNew(cc: CC.State, ms: seq<Message>, now: nat)
    ensures AddsNew(cc.packetHistory, Taken(cc, ms, now).1, Taken(cc, ms, now).0.packetHistory, now)
    decreases |ms|
  {
    if ms != [] {
      if ms[0].header.id in cc.packetHistory {
        TakenIsNew(cc, ms[1..], now);
      } else {
        TakenIsNew(CC.ReceivedPacket(cc, ms[0].header.id, now), ms[1..], now);
      }
    }
  }

  lemma DatedMore(h: Half, taken: seq<Message>, clock: nat, now: nat, h': Half)
    requires Dated(h, clock) && clock <= now
    requires h'.received == h.received + taken && h'.times == h.times + Stamps(taken, now)
    requires AddsNew(h.peer.congestion.packetHistory, taken, h'.peer.congestion.packetHistory, now)
    ensures Dated(h', now)
  {
    var n := |h.received|;
    var history := h'.peer.congestion.packetHistory;
    forall i | 0 <= i < |h'.received| ensures Remembers(history, h'.received[i].header.id, h'.times[i], now) {
      if i < n {
        assert Remembers(h.peer.congestion.packetHistory, h.received[i].header.id, h.times[i], clock);
      }
    }
    forall i, j | 0 <= i < j < |h'.received| && h'.received[i].header.id == h'.received[j].header.id
      ensures h'.times[j] >= h'.times[i] + CC.HISTORY_EXPIRY
    {
      if i < n <= j {
        assert Remembers(h.peer.congestion.packetHistory, h.received[i].header.id, h.times[i], clock);
        assert taken[j - n].header.id !in h.peer.congestion.packetHistory;
      }
    }
  }

  lemma {:induction false} AcksKeepHistory(p: RP.Peer, ids: seq<u32>, now: nat)
    requires p.congestion.window > 0
    ensures RP.Acks(p, ids, now).congestion.packetHistory == p.congestion.packetHistory
    decreases |ids|
  {
    hide CC.Statistics, CC.Sampled;
    if ids != [] {
      AcksKeepHistory(p, ids[..|ids| - 1], now);
    }
  }

  lemma AnsweredKeepsHistory(p: RP.Peer, h: DH.DatagramHeader, now: nat)
    requires p.congestion.window > 0
    ensures Answered(p, h, now).congestion.packetHistory == p.congestion.packetHistory
  {
    hide RP.Acks, RP.NackEach;
    AcksKeepHistory(p, h.acks, now);
    ReadingDatagrams.NacksKeepCongestion(if h.acks != [] then RP.Acks(p, h.acks, now) else p, h.nacks, now);
  }

  /** Reading changes the packet history only by what it takes. */
  lemma ReadTakes(p: RP.Peer, f: Bytes, now: nat)
    requires p.congestion.window > 0
    ensures AddsNew(p.congestion.packetHistory, Read(p, f, now).taken, Read(p, f, now).peer.congestion.packetHistory, now)
  {
    hide Decode, Opened;
    var d := Decode(f);
    if d.Received? {
      OpenedTakes(p, d.header, d.messages, now);
    }
  }

  lemma OpenedTakes(p: RP.Peer, h: DH.DatagramHeader, ms: seq<Message>, now: nat)
    requires p.congestion.window > 0
    ensures var r := Opened(p, h, ms, now);
      AddsNew(p.congestion.packetHistory, r.taken, r.peer.congestion.packetHistory, now)
  {
    hide Answered, Taken, AddsNew;
    var p1 := p.(congestion := CC.ReceivedDatagram(p.congestion, h.id, !h.data, now));
    assert p1.congestion.packetHistory == p.congestion.packetHistory;
    AnsweredKeepsHistory(p1, h, now);
    TakenIsNew(Answered(p1, h, now).congestion, ms, now);
  }

  lemma ReceiveDated(me: Half, g: Gram, clock: nat, now: nat)
    requires Dated(me, clock) && clock <= now && me.peer.congestion.window > 0
    ensures Dated(Receiving(me, g, now), now)
  {
    hide Read, AddsNew;
    ReadTakes(me.peer, BytesOf(g), now);
    DatedMore(me, Read(me.peer, BytesOf(g), now).taken, clock, now, Receiving(me, g, now));
  }

  lemma StepDated(me: Half, other: Half, e: Event, clock: nat, now: nat)
    requires Dated(me, clock) && clock <= now && Enabled(me, other, e, now)
    ensures Dated(Step(me, other, e, now), now)
  {
    if e.Receive? {
      ReceiveDated(me, other.log[e.id], clock, now);
    } else {
      OtherStepsKeepHistory(me, other, e, now);
      hide Step;
      HistorySame(me, Step(me, other, e, now), clock, now);
    }
  }

  /** What is not ten seconds old stays in the history. */
  ghost predicate Forgets(history: map<u32, nat>, history': map<u32, nat>, now: nat) {
    forall id :: id in history ==>
      now >= history[id] + CC.HISTORY_EXPIRY || (id in history' && history'[id] == history[id])
  }

  lemma OtherStepsKeepHistory(me: Half, other: Half, e: Event, now: nat)
    requires Enabled(me, other, e, now) && !e.Receive?
    ensures var h := Step(me, other, e, now);
      && h.received == me.received && h.times == me.times
      && Forgets(me.peer.congestion.packetHistory, h.peer.congestion.packetHistory, now)
  {
    hide RP.NextDatagram, CC.Total, CC.Live, RP.Kept, RP.LostReceipts, MessagesOf, Numbering, QueuedUpTo, SegmentCount;
    if e.Send? {
      SendKeepsHistory(me, now);
    }
  }

  lemma SendKeepsHistory(me: Half, now: nat)
    requires me.peer.congestion.bytesInFlight >= 0
    ensures RP.NextDatagram(me.peer, true, now).1.congestion.packetHistory == me.peer.congestion.packetHistory
  {
    hide RP.Emitted, RP.Scheduled, RP.Chosen, RP.Exhausted, RP.Overdue;
  }

  function SideOf(w: World, right: bool): Half { if right then w.right else w.left }

  /** The time of the last move of one side. */
  function Clock(start: Setting, moves: seq<Move>, right: bool): nat {
    if moves == [] then if right then start.right else start.left
    else
      var m := moves[|moves| - 1];
      if m.left != right then m.now else Clock(start, moves[..|moves| - 1], right)
  }

  ghost predicate NeverBack(start: Setting, moves: seq<Move>, right: bool) {
    moves != [] ==>
      var before, m := moves[..|moves| - 1], moves[|moves| - 1];
      NeverBack(start, before, right) && (m.left != right ==> Clock(start, before, right) <= m.now)
  }

  lemma {:induction false} RunDated(start: Setting, moves: seq<Move>, right: bool)
    requires Run(start, moves).Some? && NeverBack(start, moves, right)
    ensures Dated(SideOf(Run(start, moves).value, right), Clock(start, moves, right))
    decreases |moves|
  {
    hide Dated, Enabled, Step;
    if moves == [] {
      DatedAtFirst(start, right);
    } else {
      var n := |moves| - 1;
      RunDated(start, moves[..n], right);
      var w, m := Run(start, moves[..n]).value, moves[n];
      if m.left != right {
        StepDated(SideOf(w, right), SideOf(w, !right), m.event, Clock(start, moves[..n], right), m.now);
      }
    }
  }

  lemma DatedAtFirst(start: Setting, right: bool)
    ensures Dated(SideOf(World(Protocol.Fresh(start.left, start.buffered), Protocol.Fresh(start.right, start.buffered)), right),
                  Clock(start, [], right))
  {
  }

  /** The i-th packet taken hands on the message queued under container number c. */
  ghost predicate HandsOver(s: Half, r: Half, i: nat, c: u32) {
    && Made(s.orders, s.messages) && Modest(s.orders) && AllSame(r.received, s.messages) && Smooth(r.received)
    && i < |r.received| && r.received[i].body != []
    && Handed(r.received, i).Some? && ContainerOf(s, r.received[i]) == c
  }

  lemma HandsOverIsHandsOn(s: Half, r: Half, i: nat, c: u32)
    requires HandsOver(s, r, i, c)
    ensures HandsOn(s, r.received, i, c)
  {
    hide Made, Modest, AllSame, Smooth, Handed, Completes;
    HandedOnAsQueued(s, r.received, i);
  }

  /**
    Over every run in which the receiver's clock does not go back: the same
    message is handed on twice only if at least ten seconds lie between.
   */
  lemma HandedOnTenSecondsApart(start: Setting, moves: seq<Move>, right: bool, i: nat, j: nat, c: u32)
    requires Run(start, moves).Some? && NeverBack(start, moves, right) && i < j
    requires var w := Run(start, moves).value;
      HandsOver(SideOf(w, !right), SideOf(w, right), i, c) && HandsOver(SideOf(w, !right), SideOf(w, right), j, c)
    ensures var r := SideOf(Run(start, moves).value, right);
      |r.times| == |r.received| && r.times[j] >= r.times[i] + CC.HISTORY_EXPIRY
  {
    hide Run, NeverBack, HandsOn;
    var w := Run(start, moves).value;
    var s, r := SideOf(w, !right), SideOf(w, right);
    RunDated(start, moves, right);
    HandsOverIsHandsOn(s, r, i, c);
    HandsOverIsHandsOn(s, r, j, c);
    hide Made, Modest, AllSame, Smooth, Handed, ContainerOf;
    var l := HandedTwice(s, r.received, i, j, c);
  }

  // --- Ordered channels ---

  /** Commands below this one are the library's own; unsplit ones are dealt with before any channel. */
  const USER_PACKET: byte := 15

  ghost predicate ForChannel(m: Message, p: Packet, ch: byte) {
    m.header.channel == ch && (m.header.Split() || p.command >= USER_PACKET)
  }

  /** What reaches a channel, with the sequence numbers it came with. */
  ghost function ToChannel(received: seq<Message>, ch: byte): seq<CB.Arrival<Packet>> {
    if received == [] then []
    else ToChannel(received[..|received| - 1], ch) + LastToChannel(received, ch)
  }

  ghost function LastToChannel(received: seq<Message>, ch: byte): (r: seq<CB.Arrival<Packet>>)
    requires received != []
    ensures |r| <= 1
  {
    var n := |received| - 1;
    var m := received[n];
    if Smooth(received) && m.body != [] && Handed(received, n).Some? && ForChannel(m, Handed(received, n).value, ch)
    then [CB.Arrival(m.header.sequence, Handed(received, n).value)] else []
  }

  lemma {:induction false} ToChannelPrefix(received: seq<Message>, ch: byte, a: nat, b: nat)
    requires a <= b <= |received|
    ensures ToChannel(received[..a], ch) <= ToChannel(received[..b], ch)
    decreases b
  {
    hide LastToChannel;
    if a < b {
      ToChannelPrefix(received, ch, a, b - 1);
      assert received[..b][..b - 1] == received[..b - 1];
    }
  }

  /** The packet an arrival at the channel goes back to. */
  lemma {:induction false} ArrivalCameFrom(received: seq<Message>, ch: byte, i: nat) returns (p: nat)
    requires i < |ToChannel(received, ch)|
    ensures p < |received| && LastToChannel(received[..p + 1], ch) == [ToChannel(received, ch)[i]]
    ensures ToChannel(received[..p], ch) == ToChannel(received, ch)[..i]
    decreases |received|
  {
    hide LastToChannel;
    var n := |received| - 1;
    var before := ToChannel(received[..n], ch);
    if i < |before| {
      p := ArrivalCameFrom(received[..n], ch, i);
      assert received[..n][..p + 1] == received[..p + 1] && received[..n][..p] == received[..p];
      assert before[..i] == ToChannel(received, ch)[..i];
    } else {
      p := n;
      assert received[..n + 1] == received;
      assert ToChannel(received, ch)[..i] == before;
    }
  }

  lemma LabelsSeen(s: Half, m: Message)
    requires Made(s.orders, s.messages) && Modest(s.orders) && Same(m, s.messages) && m.header.channel != 0
    ensures var c := ContainerOf(s, m);
      c in s.orders && s.orders[c].labels.channel == m.header.channel && s.orders[c].labels.sequence == m.header.sequence
  {
    hide Whole, NumberOf;
    assert Part(m.header.id, s.messages[m.header.id], s.orders);
  }

  /** An arrival at a buffered channel is the queued message of that number. */
  lemma ArrivalIsQueued(s: Half, received: seq<Message>, ch: byte, p: nat)
    requires Made(s.orders, s.messages) && Modest(s.orders) && AllSame(received, s.messages)
    requires Filed(s.orders, s.buffered, s.queues, s.peer.congestion.nextPacket) && ch in s.buffered
    requires p < |received| && LastToChannel(received[..p + 1], ch) != []
    ensures var a := LastToChannel(received[..p + 1], ch)[0];
      var c := ContainerOf(s, received[p]);
      && HandsOn(s, received, p, c) && c in s.orders
      && s.orders[c].labels.channel == ch && s.orders[c].labels.sequence == a.number
      && a.number < |QueueOf(s.queues, ch)| && QueueOf(s.queues, ch)[a.number] == a.payload
  {
    var upTo := received[..p + 1];
    assert upTo[..p] == received[..p] && upTo[p] == received[p];
    hide Made, Modest, Same, Smooth, Handed, RA.Pending, RA.All, Pieces;
    HandedOnAsQueued(s, upTo, p);
    LabelsSeen(s, received[p]);
    var c := ContainerOf(s, received[p]);
    assert FiledOne(s.orders[c].labels, s.orders[c].packet, s.queues);
  }

  ghost predicate NoRepeats(received: seq<Message>) {
    forall i, j :: 0 <= i < j < |received| ==> received[i].header.id != received[j].header.id
  }

  /** If no packet number is taken twice, no sequence number reaches the channel twice. */
  lemma NumbersDiffer(s: Half, received: seq<Message>, ch: byte, i: nat, j: nat)
    requires Made(s.orders, s.messages) && Modest(s.orders) && AllSame(received, s.messages)
    requires Filed(s.orders, s.buffered, s.queues, s.peer.congestion.nextPacket) && ch in s.buffered
    requires NoRepeats(received) && i < j < |ToChannel(received, ch)|
    ensures ToChannel(received, ch)[i].number != ToChannel(received, ch)[j].number
  {
    hide Made, Modest, LastToChannel, HandsOn;
    var p := ArrivalCameFrom(received, ch, i);
    var q := ArrivalCameFrom(received, ch, j);
    if q <= p {
      ToChannelPrefix(received, ch, q, p);
    }
    hide ToChannel;
    ArrivalIsQueued(s, received, ch, p);
    ArrivalIsQueued(s, received, ch, q);
    var c, d := ContainerOf(s, received[p]), ContainerOf(s, received[q]);
    if ToChannel(received, ch)[i].number == ToChannel(received, ch)[j].number {
      assert SamePlace(s.orders[c].labels, s.orders[d].labels, s.buffered);
      var l := HandedTwice(s, received, p, q, c);
    }
  }

  /** What an ordered channel has given out. */
  ghost function Released(received: seq<Message>, ch: byte): seq<Packet> {
    CB.Run(CB.ORDERED, ToChannel(received, ch)).0
  }

  /** No message was 2^31 or more ahead of the channel when it arrived. */
  ghost predicate InReach(received: seq<Message>, ch: byte) {
    forall i :: 0 <= i < |ToChannel(received, ch)| ==> InReachAt(ToChannel(received, ch), i)
  }

  ghost predicate InReachAt(arrivals: seq<CB.Arrival<Packet>>, i: nat)
    requires i < |arrivals|
  {
    arrivals[i].number < |CB.Run(CB.ORDERED, arrivals[..i]).0| + CB.WINDOW
  }

  lemma {:induction false} ReleasedGrows(arrivals: seq<CB.Arrival<Packet>>, a: nat, b: nat)
    requires a <= b <= |arrivals|
    ensures |CB.Run(CB.ORDERED, arrivals[..a]).0| <= |CB.Run(CB.ORDERED, arrivals[..b]).0|
    decreases b
  {
    hide CB.Handled;
    if a < b {
      ReleasedGrows(arrivals, a, b - 1);
      assert arrivals[..b][..b - 1] == arrivals[..b - 1];
    }
  }

  lemma AllQueued(s: Half, received: seq<Message>, ch: byte, i: nat)
    requires Made(s.orders, s.messages) && Modest(s.orders) && AllSame(received, s.messages)
    requires Filed(s.orders, s.buffered, s.queues, s.peer.congestion.nextPacket) && ch in s.buffered
    requires i < |ToChannel(received, ch)|
    ensures var a := ToChannel(received, ch)[i];
      a.number < |QueueOf(s.queues, ch)| && QueueOf(s.queues, ch)[a.number] == a.payload
  {
    hide Made, Modest, AllSame, LastToChannel, HandsOn, Filed;
    var p := ArrivalCameFrom(received, ch, i);
    hide ToChannel;
    ArrivalIsQueued(s, received, ch, p);
  }

  /** What is taken now is in reach when little was outstanding before. */
  lemma StaysInReach(s: Half, received: seq<Message>, all: seq<Message>, ch: byte)
    requires Made(s.orders, s.messages) && Modest(s.orders) && received <= all && AllSame(all, s.messages)
    requires Filed(s.orders, s.buffered, s.queues, s.peer.congestion.nextPacket) && ch in s.buffered
    requires InReach(received, ch) && |QueueOf(s.queues, ch)| < |Released(received, ch)| + CB.WINDOW
    ensures InReach(all, ch)
  {
    hide Made, Modest, AllSame, Filed;
    ToChannelPrefix(all, ch, |received|, |all|);
    assert all[..|received|] == received && all[..|all|] == all;
    hide ToChannel, CB.Run, InReachAt;
    var before, arrivals := ToChannel(received, ch), ToChannel(all, ch);
    assert arrivals[..|before|] == before;
    forall i | 0 <= i < |arrivals| ensures InReachAt(arrivals, i) {
      if i < |before| {
        SameReach(arrivals, |before|, i);
      } else {
        AllQueued(s, all, ch, i);
        ReachedNow(arrivals, |before|, i, |QueueOf(s.queues, ch)|);
      }
    }
  }

  lemma SameReach(arrivals: seq<CB.Arrival<Packet>>, n: nat, i: nat)
    requires i < n <= |arrivals|
    ensures InReachAt(arrivals[..n], i) <==> InReachAt(arrivals, i)
  {
    hide CB.Run;
    assert arrivals[..n][..i] == arrivals[..i];
  }

  lemma ReachedNow(arrivals: seq<CB.Arrival<Packet>>, n: nat, i: nat, queued: nat)
    requires n <= i < |arrivals| && arrivals[i].number < queued
    requires queued < |CB.Run(CB.ORDERED, arrivals[..n]).0| + CB.WINDOW
    ensures InReachAt(arrivals, i)
  {
    hide CB.Run;
    ReleasedGrows(arrivals, n, i);
  }

  /** At every moment of the run fewer than 2^31 messages of the channel are queued but not given out. */
  ghost predicate FewOutstanding(start: Setting, moves: seq<Move>, right: bool, ch: byte) {
    && Run(start, moves).Some?
    && var w := Run(start, moves).value;
    && |QueueOf(SideOf(w, !right).queues, ch)| < |Released(SideOf(w, right).received, ch)| + CB.WINDOW
    && (moves != [] ==> FewOutstanding(start, moves[..|moves| - 1], right, ch))
  }

  lemma OrdersOnlyGrow(me: Half, other: Half, e: Event, now: nat)
    requires Numbered(me) && Enabled(me, other, e, now)
    ensures var h := Step(me, other, e, now);
      && h.buffered == me.buffered
      && (Modest(h.orders) ==> Modest(me.orders))
      && me.received <= h.received && (!e.Receive? ==> h.received == me.received)
  {
    hide RP.NextDatagram, Read, Numbering, MessagesOf, Enqueued, RP.NextAckgram, CC.Updated, RP.Pruned;
    var h := Step(me, other, e, now);
    if Modest(h.orders) {
      forall c | c in me.orders ensures |me.orders[c].packet.data| + 1 < PACKET_MAX_LENGTH {
        assert c in h.orders && h.orders[c] == me.orders[c];
      }
    }
  }

  /** What the invariant of the pair says about a sender and what was taken from it. */
  lemma FactsOf(start: Setting, moves: seq<Move>, right: bool)
    requires Run(start, moves).Some?
    ensures var s, r := SideOf(Run(start, moves).value, !right), SideOf(Run(start, moves).value, right);
      && Made(s.orders, s.messages) && AllSame(r.received, s.messages) && Numbered(s) && Numbered(r)
      && Filed(s.orders, s.buffered, s.queues, s.peer.congestion.nextPacket)
  {
    hide Run, Steady, Queue, Logged, Boxed, Made, Filed, Numbered, Pair;
    RunKeeps(start, moves);
    var s, r := SideOf(Run(start, moves).value, !right), SideOf(Run(start, moves).value, right);
    AllSameOf(s, r);
  }

  /** One move keeps what arrived in reach. */
  lemma MoveInReach(start: Setting, moves: seq<Move>, right: bool, ch: byte)
    requires moves != [] && Run(start, moves).Some?
    requires var w, w' := Run(start, moves[..|moves| - 1]).value, Run(start, moves).value;
      && Modest(SideOf(w', !right).orders) && ch in SideOf(w', !right).buffered
      && |QueueOf(SideOf(w, !right).queues, ch)| < |Released(SideOf(w, right).received, ch)| + CB.WINDOW
    ensures Run(start, moves[..|moves| - 1]).Some?
    ensures var w, w' := Run(start, moves[..|moves| - 1]).value, Run(start, moves).value;
      && Modest(SideOf(w, !right).orders) && ch in SideOf(w, !right).buffered
      && (InReach(SideOf(w, right).received, ch) ==> InReach(SideOf(w', right).received, ch))
  {
    hide Enabled, Step, Modest, InReach, Made, AllSame, Filed, Numbered, Released, QueueOf;
    var n := |moves| - 1;
    var w, m := Run(start, moves[..n]).value, moves[n];
    FactsOf(start, moves[..n], right);
    FactsOf(start, moves, right);
    hide Run;
    var s, r := SideOf(w, !right), SideOf(w, right);
    if m.left != right {
      OrdersOnlyGrow(r, s, m.event, m.now);
      if InReach(r.received, ch) {
        StaysInReach(s, r.received, SideOf(Run(start, moves).value, right).received, ch);
      }
    } else {
      OrdersOnlyGrow(s, r, m.event, m.now);
    }
  }

  lemma {:induction false} RunInReach(start: Setting, moves: seq<Move>, right: bool, ch: byte)
    requires FewOutstanding(start, moves, right, ch)
    requires var s := SideOf(Run(start, moves).value, !right); Modest(s.orders) && ch in s.buffered
    ensures InReach(SideOf(Run(start, moves).value, right).received, ch)
    decreases |moves|
  {
    hide Modest, Released, QueueOf, Enabled, Step;
    if moves != [] {
      hide InReach, Run;
      MoveInReach(start, moves, right, ch);
      RunInReach(start, moves[..|moves| - 1], right, ch);
    }
  }

  lemma {:induction false} ArrivedFrom(arrivals: seq<CB.Arrival<Packet>>, t: nat)
    requires t in CB.Arrived(arrivals)
    ensures CB.Arrival(t, CB.Arrived(arrivals)[t]) in arrivals
    decreases |arrivals|
  {
    if arrivals != [] {
      var n := |arrivals| - 1;
      if t in CB.Arrived(arrivals[..n]) {
        ArrivedFrom(arrivals[..n], t);
      }
    }
  }

  lemma {:induction false} ArrivedAll(arrivals: seq<CB.Arrival<Packet>>, i: nat)
    requires i < |arrivals|
    ensures arrivals[i].number in CB.Arrived(arrivals)
    decreases |arrivals|
  {
    if i < |arrivals| - 1 {
      ArrivedAll(arrivals[..|arrivals| - 1], i);
    }
  }

  /** Every arrival carries what was queued under its number. */
  ghost predicate FromQueue(arrivals: seq<CB.Arrival<Packet>>, queue: seq<Packet>) {
    forall i :: 0 <= i < |arrivals| ==> arrivals[i].number < |queue| && queue[arrivals[i].number] == arrivals[i].payload
  }

  lemma GivenOutFromQueue(arrivals: seq<CB.Arrival<Packet>>, queue: seq<Packet>, released: seq<Packet>, k: nat)
    requires FromQueue(arrivals, queue) && CB.InOrderFrom(CB.Arrived(arrivals), 0, released) && k < |released|
    ensures k < |queue| && queue[k] == released[k]
  {
    assert CB.Carries(CB.Arrived(arrivals), 0 + k, released[k]);
    ArrivedFrom(arrivals, k);
    var i :| 0 <= i < |arrivals| && arrivals[i] == CB.Arrival(k, released[k]);
  }

  /** An ordered channel that each number reaches at most once, and in reach, gives out the longest prefix it can. */
  lemma LongestPrefix(arrivals: seq<CB.Arrival<Packet>>, queue: seq<Packet>)
    requires FromQueue(arrivals, queue) && |queue| <= SPAN
    requires forall i, j :: 0 <= i < j < |arrivals| ==> arrivals[i].number != arrivals[j].number
    requires forall i :: 0 <= i < |arrivals| ==> InReachAt(arrivals, i)
    ensures var released := CB.Run(CB.ORDERED, arrivals).0;
      released <= queue && forall i :: 0 <= i < |arrivals| ==> arrivals[i].number != |released|
  {
    hide CB.Run, CB.Arrived, CB.OnTime;
    forall i | 0 <= i < |arrivals| ensures arrivals[i].number < |CB.Run(CB.ORDERED, arrivals[..i]).0| + CB.WINDOW {
      assert InReachAt(arrivals, i);
    }
    CB.OnceEachIsOnTime(arrivals);
    CB.OrderedIsComplete(arrivals);
    var released := CB.Run(CB.ORDERED, arrivals).0;
    forall k | 0 <= k < |released| ensures k < |queue| && queue[k] == released[k] {
      GivenOutFromQueue(arrivals, queue, released, k);
    }
    if released != [] {
      GivenOutFromQueue(arrivals, queue, released, |released| - 1);
    }
    forall i | 0 <= i < |arrivals| ensures arrivals[i].number != |released| {
      ArrivedAll(arrivals, i);
    }
  }

  /**
    Over every run: what an ordered channel gives out is a prefix of the
    messages queued on it, in the order they were queued, and the longest one
    that what arrived allows. The run must leave fewer than 2^31 of them
    outstanding at any moment and take no packet number twice.
   */
  lemma ReleasedAsQueued(start: Setting, moves: seq<Move>, right: bool, ch: byte)
    requires FewOutstanding(start, moves, right, ch)
    requires var w := Run(start, moves).value;
      && Modest(SideOf(w, !right).orders) && ch in SideOf(w, !right).buffered && NoRepeats(SideOf(w, right).received)
    ensures var s, r := SideOf(Run(start, moves).value, !right), SideOf(Run(start, moves).value, right);
      && Released(r.received, ch) <= QueueOf(s.queues, ch)
      && forall i :: 0 <= i < |ToChannel(r.received, ch)| ==> ToChannel(r.received, ch)[i].number != |Released(r.received, ch)|
  {
    hide Made, Modest, AllSame, Numbered, ToChannel, NoRepeats;
    RunInReach(start, moves, right, ch);
    FactsOf(start, moves, right);
    hide Run, FewOutstanding;
    var s, r := SideOf(Run(start, moves).value, !right), SideOf(Run(start, moves).value, right);
    var arrivals, queue := ToChannel(r.received, ch), QueueOf(s.queues, ch);
    assert |queue| <= SPAN;
    hide Filed;
    forall i | 0 <= i < |arrivals| ensures arrivals[i].number < |queue| && queue[arrivals[i].number] == arrivals[i].payload {
      AllQueued(s, r.received, ch, i);
    }
    forall i, j | 0 <= i < j < |arrivals| ensures arrivals[i].number != arrivals[j].number {
      NumbersDiffer(s, r.received, ch, i, j);
    }
    LongestPrefix(arrivals, queue);
  }

  /** Within ten seconds of the first packet no packet number is taken twice. */
  lemma NoRepeatsAtFirst(start: Setting, moves: seq<Move>, right: bool)
    requires Run(start, moves).Some? && NeverBack(start, moves, right)
    requires var r := SideOf(Run(start, moves).value, right);
      r.times != [] ==> Clock(start, moves, right) < r.times[0] + CC.HISTORY_EXPIRY
    ensures NoRepeats(SideOf(Run(start, moves).value, right).received)
  {
    hide Run, NeverBack;
    RunDated(start, moves, right);
  }

  // --- Sequenced channels ---

  /** The numbers that are greater than all before them. */
  ghost function Newest(arrivals: seq<CB.Arrival<Packet>>): seq<nat> {
    if arrivals == [] then []
    else
      var before, last := arrivals[..|arrivals| - 1], arrivals[|arrivals| - 1];
      Newest(before) + if last.number > CB.Latest(before) then [last.number] else []
  }

  ghost predicate Rising(places: seq<nat>) {
    forall i, j :: 0 <= i < j < |places| ==> places[i] < places[j]
  }

  /** The packets are those queued at these places. */
  ghost predicate TakenAt(given: seq<Packet>, queue: seq<Packet>, places: seq<nat>) {
    |given| == |places| && forall i :: 0 <= i < |places| ==> places[i] < |queue| && given[i] == queue[places[i]]
  }

  lemma {:induction false} NewestRise(arrivals: seq<CB.Arrival<Packet>>, queue: seq<Packet>)
    requires FromQueue(arrivals, queue)
    ensures Rising(Newest(arrivals)) && TakenAt(CB.Maxima(arrivals), queue, Newest(arrivals))
    ensures UpTo(Newest(arrivals), CB.Latest(arrivals))
    decreases |arrivals|
  {
    if arrivals != [] {
      var before, last := arrivals[..|arrivals| - 1], arrivals[|arrivals| - 1];
      NewestRise(before, queue);
      OneMorePlace(CB.Maxima(before), queue, Newest(before), CB.Latest(before), last);
      hide Rising, TakenAt, UpTo, FromQueue;
      assert Newest(before) + [] == Newest(before) && CB.Maxima(before) + [] == CB.Maxima(before);
    }
  }

  ghost predicate UpTo(places: seq<nat>, latest: int) {
    forall i :: 0 <= i < |places| ==> places[i] <= latest
  }

  lemma OneMorePlace(given: seq<Packet>, queue: seq<Packet>, places: seq<nat>, latest: int, a: CB.Arrival<Packet>)
    requires Rising(places) && TakenAt(given, queue, places) && UpTo(places, latest)
    requires a.number < |queue| && queue[a.number] == a.payload
    ensures a.number > latest
      ==> Rising(places + [a.number]) && TakenAt(given + [a.payload], queue, places + [a.number]) && UpTo(places + [a.number], a.number)
  {
  }

  lemma {:induction false} LatestBelow(arrivals: seq<CB.Arrival<Packet>>, queue: seq<Packet>)
    requires FromQueue(arrivals, queue)
    ensures -1 <= CB.Latest(arrivals) < |queue|
    decreases |arrivals|
  {
    if arrivals != [] {
      LatestBelow(arrivals[..|arrivals| - 1], queue);
    }
  }

  /**
    Over every run: what a sequenced channel gives out was queued on it, in the
    order of queueing, and nothing is given out twice, whatever the network
    repeats. The channel must have had fewer than 2^31 - 1 messages.
   */
  lemma SequencedAsQueued(start: Setting, moves: seq<Move>, right: bool, ch: byte)
    requires Run(start, moves).Some?
    requires var s := SideOf(Run(start, moves).value, !right);
      Modest(s.orders) && ch in s.buffered && |QueueOf(s.queues, ch)| < HALF_SPAN
    ensures var s, r := SideOf(Run(start, moves).value, !right), SideOf(Run(start, moves).value, right);
      var arrivals := ToChannel(r.received, ch);
      Rising(Newest(arrivals)) && TakenAt(CB.Run(CB.SEQUENCED, arrivals).0, QueueOf(s.queues, ch), Newest(arrivals))
  {
    hide Made, Modest, AllSame, Numbered, ToChannel, Filed;
    FactsOf(start, moves, right);
    hide Run;
    var s, r := SideOf(Run(start, moves).value, !right), SideOf(Run(start, moves).value, right);
    var arrivals, queue := ToChannel(r.received, ch), QueueOf(s.queues, ch);
    forall i | 0 <= i < |arrivals| ensures arrivals[i].number < |queue| && queue[arrivals[i].number] == arrivals[i].payload {
      AllQueued(s, r.received, ch, i);
    }
    hide CB.Run, CB.Maxima;
    AllClose(arrivals, queue);
    CB.SequencedIsMaxima(arrivals);
    NewestRise(arrivals, queue);
  }

  lemma AllClose(arrivals: seq<CB.Arrival<Packet>>, queue: seq<Packet>)
    requires FromQueue(arrivals, queue) && |queue| < HALF_SPAN
    ensures CB.Close(arrivals)
  {
    forall i | 0 <= i < |arrivals| ensures -HALF_SPAN < arrivals[i].number - (CB.Latest(arrivals[..i]) + 1) < HALF_SPAN {
      LatestBelow(arrivals[..i], queue);
    }
  }
}
