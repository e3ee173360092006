/** What one side keeps about a connection: queued packets, sent datagrams, congestion state, receipts. */
module RemotePeers {
  import opened Types
  import opened Wire
  import opened Serial
  import opened Streams
  import opened Datagrams
  import DH = DatagramHeaders
  import CC = Congestion
  import RT = Receipts
  import opened Builders

  const DATA_DISCARD: nat := 5 * SECOND
  const ACK_DISCARD: nat := 1 * SECOND

  /** A datagram handed to the socket, with the packets it stands for. */
  datatype Sent = Sent(id: u32, blob: Bytes, packets: seq<u32>, discard: nat)

  datatype Peer = Peer(outbox: Outbox, sentbox: seq<Sent>, congestion: CC.State, receipts: RT.State)

  // --- Building a datagram ---

  /** The first packet that is due for another attempt, if any. */
  function Resend(outbox: Outbox, i: nat, budget: nat, now: int): (sel: seq<nat>)
    requires i <= |outbox|
    ensures |sel| <= 1 && (forall a :: 0 <= a < |sel| ==> i <= sel[a] < |outbox| && Suitable(outbox[sel[a]], budget, true, now))
    ensures forall j :: i <= j < |outbox| && Suitable(outbox[j], budget, true, now) ==> sel != [] && sel[0] <= j
    decreases |outbox| - i
  {
    if i == |outbox| then [] else if Suitable(outbox[i], budget, true, now) then [i] else Resend(outbox, i + 1, budget, now)
  }

  function Again(p: Peer, now: int): (sel: seq<nat>)
    requires p.congestion.bytesInFlight >= 0
    ensures |sel| <= 1 && Within(p.outbox, sel)
    ensures sel != [] ==> Suitable(p.outbox[sel[0]], CC.ResendBudget(p.congestion), true, now)
  {
    var budget := CC.ResendBudget(p.congestion);
    if budget > 0 then Resend(p.outbox, 0, budget, now) else []
  }

  function New(p: Peer, now: int): (sel: seq<nat>)
    requires p.congestion.bytesInFlight >= 0
    ensures Within(p.outbox, sel)
    ensures forall a, b :: 0 <= a < b < |sel| ==> sel[a] < sel[b]
  {
    Greedy(p.outbox, 0, CC.SendBudget(p.congestion), now)
  }

  function Chosen(p: Peer, now: int): (sel: seq<nat>)
    requires p.congestion.bytesInFlight >= 0
    ensures Within(p.outbox, sel)
  {
    Again(p, now) + New(p, now)
  }

  /** The chosen packets count one more attempt and are pushed back by the retransmission timeout. */
  function Scheduled(outbox: Outbox, sel: seq<nat>, cc: CC.State, now: int): (r: Outbox)
    ensures |r| == |outbox|
  {
    seq(|outbox|, i requires 0 <= i < |outbox| => if i in sel then Attempted(outbox[i], cc, now) else outbox[i])
  }

  function Attempted(p: Outgoing, cc: CC.State, now: int): Outgoing {
    p.(sendNext := now + CC.RetransmissionTimeout(cc, p.sendCount), sendCount := p.sendCount + 1)
  }

  function Ids(ps: seq<Outgoing>): seq<u32> {
    seq(|ps|, i requires 0 <= i < |ps| => ps[i].id)
  }

  datatype Built =
    | Idle                 // nothing may or need be sent
    | TimedOut             // a packet was sent too often: the connection is given up
    | Dangling             // a chosen place in the outbox no longer exists
    | Built(datagram: Sent)

  predicate Exhausted(outbox: Outbox, sel: seq<nat>)
    requires Within(outbox, sel)
  {
    exists a :: 0 <= a < |sel| && outbox[sel[a]].sendCount >= SEND_RETRY_COUNT
  }

  /** The place of the first chosen packet that has had its last attempt. */
  function Overdue(outbox: Outbox, sel: seq<nat>): (k: nat)
    requires Within(outbox, sel) && Exhausted(outbox, sel)
    ensures k < |outbox| && outbox[k].sendCount >= SEND_RETRY_COUNT
  {
    if outbox[sel[0]].sendCount >= SEND_RETRY_COUNT then sel[0] else Overdue(outbox, sel[1..])
  }

  /** Giving up reports the packet past the tracker if it asked for that, and resets the connection. */
  function Abandoned(p: Peer, packet: Outgoing): Peer {
    p.(outbox := [], sentbox := [], receipts := RT.GivenUp(p.receipts, packet.id, packet.receipt))
  }

  function DataHeader(id: u32, link: bool, length: u16): DH.DatagramHeader {
    DH.DatagramHeader(true, link, id, [], [], length)
  }

  /** The datagram made of the chosen places, once their packets are scheduled again. */
  function Emitted(outbox: Outbox, id: u32, sel: seq<nat>, packets: seq<u32>, length: u16, link: bool, now: nat): Built {
    match Written(outbox, sel)
    case None => Dangling
    case Some((written, _)) =>
      Built(Sent(id, Encode(DataHeader(id, link, length), Concat(BlobsOf(written))), packets, now + DATA_DISCARD))
  }

  /** One datagram's worth of packets: the resend first, then new ones. */
  function NextDatagram(p: Peer, link: bool, now: nat): (r: (Built, Peer))
    requires p.congestion.bytesInFlight >= 0
  {
    ChosenFits(p, now);
    var sel := Chosen(p, now);
    if sel == [] then (Idle, p)
    else if Exhausted(p.outbox, sel) then (TimedOut, Abandoned(p, p.outbox[Overdue(p.outbox, sel)]))
    else
      var scheduled := Scheduled(p.outbox, sel, p.congestion, now);
      var id := p.congestion.nextDatagram;
      var built := Emitted(scheduled, id, sel, Ids(Picked(p.outbox, sel)), Payload(p.outbox, sel), link, now);
      if !built.Built? then (built, p)
      else (built, Shipped(p, Written(scheduled, sel).value.1, built.datagram))
  }

  /** The resend is within its budget, new data within the window, and all within the MTU. */
  lemma ChosenFits(p: Peer, now: int)
    requires p.congestion.bytesInFlight >= 0
    ensures Payload(p.outbox, New(p, now)) <= CC.SendBudget(p.congestion)
    ensures Payload(p.outbox, Chosen(p, now)) <= MTU
  {
    GreedyFills(p.outbox, 0, CC.SendBudget(p.congestion), now);
    hide Greedy, Resend;
    var first, rest, sel := Again(p, now), New(p, now), Chosen(p, now);
    hide Again, New;
    if first == [] {
      assert sel == rest;
    } else {
      assert sel[0] == first[0] && sel[1..] == rest;
    }
  }

  /** No packet is chosen twice; at most the first is a resend, and the others come in queue order. */
  ghost predicate InOrder(outbox: Outbox, sel: seq<nat>) {
    && Within(outbox, sel)
    && (forall a, b :: 0 <= a < b < |sel| ==> sel[a] != sel[b])
    && (forall a, b :: 0 <= a < b < |sel| && outbox[sel[a]].sendCount == 0 ==> sel[a] < sel[b])
    && (forall a :: 1 <= a < |sel| ==> outbox[sel[a]].sendCount == 0)
  }

  lemma ChosenInOrder(p: Peer, now: int)
    requires p.congestion.bytesInFlight >= 0
    ensures InOrder(p.outbox, Chosen(p, now))
  {
    GreedyFills(p.outbox, 0, CC.SendBudget(p.congestion), now);
    hide Greedy, Resend, Payload, InOrder;
    NewInOrder(p.outbox, New(p, now));
    var first, rest := Again(p, now), New(p, now);
    if first == [] {
      assert first + rest == rest;
    } else {
      assert first == [first[0]];
      BehindResend(p.outbox, first[0], rest);
    }
  }

  lemma NewInOrder(outbox: Outbox, rest: seq<nat>)
    requires Within(outbox, rest) && forall a, b :: 0 <= a < b < |rest| ==> rest[a] < rest[b]
    requires forall a :: 0 <= a < |rest| ==> outbox[rest[a]].sendCount == 0
    ensures InOrder(outbox, rest)
  {
  }

  lemma BehindResend(outbox: Outbox, r: nat, rest: seq<nat>)
    requires r < |outbox| && outbox[r].sendCount > 0 && Within(outbox, rest)
    requires forall a, b :: 0 <= a < b < |rest| ==> rest[a] < rest[b]
    requires forall a :: 0 <= a < |rest| ==> outbox[rest[a]].sendCount == 0
    ensures InOrder(outbox, [r] + rest)
  {
  }

  // --- What a data datagram says ---

  /** Every packet in the outbox is the queued form of the message with its number. */
  ghost predicate Labelled(outbox: Outbox, messages: map<u32, Message>, reliable: set<u32>) {
    forall i :: 0 <= i < |outbox| ==> LabelledOne(outbox[i], messages, reliable)
  }

  ghost predicate LabelledOne(p: Outgoing, messages: map<u32, Message>, reliable: set<u32>) {
    && p.id in messages && messages[p.id].Valid() && messages[p.id].header.id == p.id
    && p.blob == PacketBlob(messages[p.id])
    && (p.reliable <==> p.id in reliable)
    && (p.sendCount > 0 ==> p.reliable)
  }

  ghost function Lookup(messages: map<u32, Message>, ids: seq<u32>): (ms: seq<Message>)
    requires forall i :: 0 <= i < |ids| ==> ids[i] in messages
    ensures |ms| == |ids|
  {
    seq(|ids|, i requires 0 <= i < |ids| => messages[ids[i]])
  }

  lemma {:induction false} PayloadIsConcat(outbox: Outbox, sel: seq<nat>)
    requires Within(outbox, sel)
    ensures Payload(outbox, sel) == |Concat(BlobsOf(Picked(outbox, sel)))|
    decreases |sel|
  {
    if sel != [] {
      PayloadIsConcat(outbox, sel[1..]);
      assert BlobsOf(Picked(outbox, sel))[1..] == BlobsOf(Picked(outbox, sel[1..]));
    }
  }

  /** The outbox after writing is the scheduled one, less the last packet if that was unreliable. */
  lemma {:induction false} WrittenOutbox(outbox: Outbox, sel: seq<nat>)
    requires Within(outbox, sel) && OnlyLastUnreliable(outbox, sel) && sel != []
    ensures var last := outbox[sel[|sel| - 1]];
      Written(outbox, sel) == Some((Picked(outbox, sel), if last.reliable then outbox else Removed(outbox, last.id)))
    decreases |sel|
  {
    var rest := sel[1..];
    assert Picked(outbox, sel) == [outbox[sel[0]]] + Picked(outbox, rest);
    if |sel| > 1 {
      assert OnlyLastUnreliable(outbox, rest) by {
        forall a | 0 <= a < |rest| - 1 ensures outbox[rest[a]].reliable {
          assert rest[a] == sel[a + 1];
        }
      }
      WrittenOutbox(outbox, rest);
    }
  }

  lemma ScheduledBlobs(outbox: Outbox, sel: seq<nat>, cc: CC.State, now: int)
    requires Within(outbox, sel)
    ensures BlobsOf(Picked(Scheduled(outbox, sel, cc, now), sel)) == BlobsOf(Picked(outbox, sel))
  {
  }

  lemma PickedBlobs(outbox: Outbox, sel: seq<nat>, messages: map<u32, Message>, reliable: set<u32>)
    requires Within(outbox, sel) && Labelled(outbox, messages, reliable)
    ensures var ids := Ids(Picked(outbox, sel));
      && (forall i :: 0 <= i < |ids| ==> ids[i] in messages && messages[ids[i]].Valid())
      && BlobsOf(Picked(outbox, sel)) == Blobs(Lookup(messages, ids))
  {
    hide PacketBlob;
    var ids := Ids(Picked(outbox, sel));
    forall i | 0 <= i < |ids|
      ensures ids[i] in messages && messages[ids[i]].Valid()
      ensures Picked(outbox, sel)[i].blob == PacketBlob(messages[ids[i]])
    {
      assert LabelledOne(outbox[sel[i]], messages, reliable);
    }
  }

  function Shipped(p: Peer, outbox: Outbox, d: Sent): Peer {
    p.(outbox := outbox, sentbox := p.sentbox + [d], congestion := p.congestion.(nextDatagram := Wrap(d.id + 1)))
  }

  /** The datagram is the encoding of the messages it stands for. */
  ghost predicate Carries(d: Sent, link: bool, messages: map<u32, Message>) {
    && d.packets != []
    && (forall i :: 0 <= i < |d.packets| ==> d.packets[i] in messages && messages[d.packets[i]].Valid())
    && var payload := Concat(Blobs(Lookup(messages, d.packets)));
       |payload| <= MTU && d.blob == Encode(DataHeader(d.id, link, |payload|), payload)
  }

  /**
    When no chosen packet but the last is unreliable, the datagram is built,
    and whoever parses it finds exactly the messages it claims to stand for.
   */
  lemma BuiltDecodes(p: Peer, link: bool, now: nat, messages: map<u32, Message>, reliable: set<u32>)
    requires p.congestion.bytesInFlight >= 0 && Labelled(p.outbox, messages, reliable)
    requires Chosen(p, now) != [] && !Exhausted(p.outbox, Chosen(p, now))
    requires OnlyLastUnreliable(p.outbox, Chosen(p, now))
    ensures NextDatagram(p, link, now).0.Built?
    ensures var d := NextDatagram(p, link, now).0.datagram;
      d.id == p.congestion.nextDatagram && d.packets == Ids(Picked(p.outbox, Chosen(p, now))) && Carries(d, link, messages)
    ensures var written := Written(Scheduled(p.outbox, Chosen(p, now), p.congestion, now), Chosen(p, now));
      written.Some? && NextDatagram(p, link, now).1 == Shipped(p, written.value.1, NextDatagram(p, link, now).0.datagram)
  {
    hide Chosen, Encode, Concat, LabelledOne, Exhausted;
    var sel := Chosen(p, now);
    var outbox := Scheduled(p.outbox, sel, p.congestion, now);
    assert OnlyLastUnreliable(outbox, sel);
    WrittenOutbox(outbox, sel);
    hide Written, Scheduled, Removed;
    ScheduledBlobs(p.outbox, sel, p.congestion, now);
    PickedBlobs(p.outbox, sel, messages, reliable);
    PayloadIsConcat(p.outbox, sel);
    ChosenFits(p, now);
  }

  /**
    Whatever is in the outbox: the packets written into the datagram are those
    it is booked for exactly when everything written behind an unreliable
    packet lies in front of it in the outbox.
   */
  lemma HonestExactly(p: Peer, now: nat)
    requires p.congestion.bytesInFlight >= 0 && Distinct(p.outbox)
    ensures var sel := Chosen(p, now);
      AsMeant(Scheduled(p.outbox, sel, p.congestion, now), sel) <==> Undisturbed(p.outbox, sel)
  {
    var sel := Chosen(p, now);
    hide Chosen, AsMeant;
    ChosenInOrder(p, now);
    ScheduledSame(p, sel, now);
    hide Scheduled;
    WrittenAsChosen(Scheduled(p.outbox, sel, p.congestion, now), sel);
  }

  lemma ScheduledSame(p: Peer, sel: seq<nat>, now: nat)
    requires Within(p.outbox, sel) && Distinct(p.outbox)
    ensures var scheduled := Scheduled(p.outbox, sel, p.congestion, now);
      Distinct(scheduled) && (Undisturbed(scheduled, sel) <==> Undisturbed(p.outbox, sel))
  {
    hide CC.RetransmissionTimeout;
    var scheduled := Scheduled(p.outbox, sel, p.congestion, now);
    forall i | 0 <= i < |scheduled|
      ensures scheduled[i].reliable == p.outbox[i].reliable && scheduled[i].id == p.outbox[i].id
    {
    }
    hide Scheduled;
  }

  /** As long as no unreliable packet has been left queued after sending, that means: none but the last is unreliable. */
  lemma HonestUntilOneStays(p: Peer, now: nat)
    requires p.congestion.bytesInFlight >= 0 && Distinct(p.outbox)
    requires forall i :: 0 <= i < |p.outbox| && p.outbox[i].sendCount > 0 ==> p.outbox[i].reliable
    ensures var sel := Chosen(p, now);
      AsMeant(Scheduled(p.outbox, sel, p.congestion, now), sel) <==> OnlyLastUnreliable(p.outbox, sel)
  {
    HonestExactly(p, now);
    ChosenInOrder(p, now);
    hide Chosen, AsMeant, Scheduled;
    OnlyLastExactly(p.outbox, Chosen(p, now));
  }

  // --- Acknowledgements ---

  function AckHeader(id: u32, acks: seq<u32>, nacks: seq<u32>): DH.DatagramHeader {
    DH.DatagramHeader(false, true, id, acks, nacks, 0)
  }

  /** A datagram that carries the pending acknowledgement lists, which start over. */
  function NextAckgram(p: Peer, now: nat): (Sent, Peer) {
    var id := p.congestion.nextDatagram;
    var header := AckHeader(id, p.congestion.acks, p.congestion.nacks);
    var ackgram := Sent(id, Encode(header, []), [], now + ACK_DISCARD);
    (ackgram, p.(sentbox := p.sentbox + [ackgram],
                 congestion := CC.AcksTaken(p.congestion).(nextDatagram := Wrap(id + 1))))
  }

  /** Place of the datagram with that number in the sentbox; its length when it is not there. */
  function IndexOf(box: seq<Sent>, id: u32): (k: nat)
    ensures k <= |box| && (k < |box| ==> box[k].id == id)
    ensures forall j :: 0 <= j < k ==> box[j].id != id
  {
    if box == [] || box[0].id == id then 0 else 1 + IndexOf(box[1..], id)
  }

  function Without(box: seq<Sent>, k: nat): seq<Sent>
    requires k < |box|
  {
    box[..k] + box[k + 1..]
  }

  ghost function Delivered(p: Peer, ids: seq<u32>): (p': Peer)
    ensures p'.congestion == p.congestion && p'.sentbox == p.sentbox
  {
    if ids == [] then p
    else
      var q, id := Delivered(p, ids[..|ids| - 1]), ids[|ids| - 1];
      q.(outbox := Removed(q.outbox, id), receipts := RT.Acknowledged(q.receipts, id))
  }

  ghost function Ack(p: Peer, id: u32, now: nat): (p': Peer)
    requires p.congestion.window > 0
    ensures p'.congestion.window > 0
  {
    var k := IndexOf(p.sentbox, id);
    var q := if k < |p.sentbox| then Delivered(p, p.sentbox[k].packets).(sentbox := Without(p.sentbox, k)) else p;
    q.(congestion := CC.Acked(q.congestion, id, now))
  }

  ghost function Acks(p: Peer, ids: seq<u32>, now: nat): (p': Peer)
    requires p.congestion.window > 0
    ensures p'.congestion.window > 0
  {
    if ids == [] then p else Ack(Acks(p, ids[..|ids| - 1], now), ids[|ids| - 1], now)
  }

  // --- Missing datagrams ---

  /** The packet with that number is due at once. */
  function Hurried(outbox: Outbox, id: u32, now: int): (r: Outbox)
    ensures |r| == |outbox|
  {
    if outbox == [] then []
    else if outbox[0].id == id then [outbox[0].(sendNext := now)] + outbox[1..]
    else [outbox[0]] + Hurried(outbox[1..], id, now)
  }

  function HurriedAll(outbox: Outbox, ids: seq<u32>, now: int): (r: Outbox)
    ensures |r| == |outbox|
  {
    if ids == [] then outbox else Hurried(HurriedAll(outbox, ids[..|ids| - 1], now), ids[|ids| - 1], now)
  }

  function Nack(p: Peer, id: u32, now: nat): Peer {
    var k := IndexOf(p.sentbox, id);
    if k < |p.sentbox| then
      p.(outbox := HurriedAll(p.outbox, p.sentbox[k].packets, now), sentbox := Without(p.sentbox, k))
    else p
  }

  function NackEach(p: Peer, ids: seq<u32>, now: nat): Peer {
    if ids == [] then p else Nack(NackEach(p, ids[..|ids| - 1], now), ids[|ids| - 1], now)
  }

  function Nacks(p: Peer, ids: seq<u32>, now: nat): Peer {
    var q := NackEach(p, ids, now);
    q.(congestion := CC.NakGroup(q.congestion))
  }

  // --- Giving up on old datagrams ---

  function Kept(box: seq<Sent>, now: nat): seq<Sent> {
    if box == [] then []
    else
      var kept, d := Kept(box[..|box| - 1], now), box[|box| - 1];
      if now >= d.discard then kept else kept + [d]
  }

  function LostReceipts(r: RT.State, box: seq<Sent>, now: nat): RT.State {
    if box == [] then r
    else
      var lost, d := LostReceipts(r, box[..|box| - 1], now), box[|box| - 1];
      if now >= d.discard then RT.Lost(lost, d.packets) else lost
  }

  function Pruned(p: Peer, now: nat): Peer {
    p.(sentbox := Kept(p.sentbox, now), receipts := LostReceipts(p.receipts, p.sentbox, now))
  }

  // --- In place ---

  /** Like Scheduled, before the attempts are counted. */
  function Postponed(outbox: Outbox, sel: seq<nat>, cc: CC.State, now: int): (r: Outbox)
    ensures |r| == |outbox|
  {
    seq(|outbox|, i requires 0 <= i < |outbox| =>
      if i in sel then outbox[i].(sendNext := now + CC.RetransmissionTimeout(cc, outbox[i].sendCount)) else outbox[i])
  }

  lemma {:induction false} GreedyIgnoresResends(outbox: Outbox, outbox': Outbox, i: nat, budget: nat, now: int)
    requires |outbox| == |outbox'| && i <= |outbox|
    requires forall j :: 0 <= j < |outbox| ==> outbox'[j] == outbox[j] || (outbox'[j].sendCount > 0 && outbox[j].sendCount > 0)
    ensures Greedy(outbox, i, budget, now) == Greedy(outbox', i, budget, now)
    decreases |outbox| - i
  {
    if i < |outbox| && budget > 0 {
      var left := if Suitable(outbox[i], budget, false, now) then budget - |outbox[i].blob| else budget;
      GreedyIgnoresResends(outbox, outbox', i + 1, left, now);
    }
  }

  lemma GreedyAfterResend(outbox: Outbox, again: seq<nat>, cc: CC.State, budget: nat, now: int)
    requires Within(outbox, again) && forall a :: 0 <= a < |again| ==> outbox[again[a]].sendCount > 0
    ensures Greedy(Postponed(outbox, again, cc, now), 0, budget, now) == Greedy(outbox, 0, budget, now)
  {
    GreedyIgnoresResends(outbox, Postponed(outbox, again, cc, now), 0, budget, now);
  }

  lemma PostponedTwice(outbox: Outbox, again: seq<nat>, news: seq<nat>, cc: CC.State, now: int)
    requires Within(outbox, again) && forall a :: 0 <= a < |again| ==> outbox[again[a]].sendCount > 0
    requires Within(outbox, news) && forall a :: 0 <= a < |news| ==> outbox[news[a]].sendCount == 0
    ensures Delayed(Postponed(outbox, again, cc, now), news, now + CC.RetransmissionTimeout(cc, 0))
         == Postponed(outbox, again + news, cc, now)
  {
    hide CC.RetransmissionTimeout;
    var first := Postponed(outbox, again, cc, now);
    var due := now + CC.RetransmissionTimeout(cc, 0);
    forall i | 0 <= i < |outbox| ensures Delayed(first, news, due)[i] == Postponed(outbox, again + news, cc, now)[i] {
      assert i in again + news <==> i in again || i in news;
    }
  }

  lemma FirstIsResend(outbox: Outbox, k: nat, budget: nat, now: int)
    requires k <= |outbox| && (k < |outbox| ==> Suitable(outbox[k], budget, true, now))
    requires forall j :: 0 <= j < k ==> !Suitable(outbox[j], budget, true, now)
    ensures Resend(outbox, 0, budget, now) == if k < |outbox| then [k] else []
  {
    var sel := Resend(outbox, 0, budget, now);
    hide Resend;
    if sel != [] {
      assert sel == [sel[0]];
    }
  }

  method AppendBlob(stream: BinaryStream, blob: Bytes)
    requires stream.Appending() && stream.Written().sub == 0
    modifies stream, stream.buffer
    ensures stream.buffer == old(stream.buffer) || fresh(stream.buffer)
    ensures stream.Appending() && stream.Written() == Writer(old(stream.Written().bytes) + blob, 0)
  {
    stream.WriteBytes(blob);
  }

  class RemotePeer {
    var outbox: Outbox
    var sentbox: seq<Sent>
    const congestion: CC.CongestionControlWindow
    const receipt: RT.ReceiptTracker

    ghost predicate Valid()
      reads this, congestion, receipt
    {
      receipt.Valid() && congestion.window > 0
    }

    ghost function View(): Peer
      reads this, congestion, receipt
    {
      Peer(outbox, sentbox, congestion.View(), receipt.View())
    }

    constructor (now: nat)
      ensures Valid() && fresh(congestion) && fresh(receipt)
      ensures View() == Peer([], [], CC.Initial(now), RT.START)
    {
      outbox, sentbox := [], [];
      congestion := new CC.CongestionControlWindow(now);
      receipt := new RT.ReceiptTracker();
    }

    method AddResendPacket(now: nat) returns (sel: seq<nat>)
      requires congestion.bytesInFlight >= 0
      modifies this`outbox
      ensures sel == Again(old(View()), now)
      ensures outbox == Postponed(old(outbox), sel, congestion.View(), now)
    {
      var budget := CC.ResendBudget(congestion.View());
      sel := [];
      if budget > 0 {
        var k := GetQueuedPacket(outbox, budget, true, now);
        FirstIsResend(outbox, k, budget, now);
        if k < |outbox| {
          sel := [k];
          var timeout := CC.RetransmissionTimeout(congestion.View(), outbox[k].sendCount);
          outbox := outbox[k := outbox[k].(sendNext := now + timeout)];
        }
      }
      assert outbox == Postponed(old(outbox), sel, congestion.View(), now);
    }

    method Choose(now: nat) returns (sel: seq<nat>)
      requires congestion.bytesInFlight >= 0 && CC.RetransmissionTimeout(congestion.View(), 0) > 0
      modifies this`outbox
      ensures sel == Chosen(old(View()), now)
      ensures outbox == Postponed(old(outbox), sel, congestion.View(), now)
    {
      hide Greedy, Resend, Delayed, Postponed, CC.RetransmissionTimeout, CC.SendBudget, CC.ResendBudget;
      var again := AddResendPacket(now);
      hide Again;
      var due := now + CC.RetransmissionTimeout(congestion.View(), 0);
      var budget := CC.SendBudget(congestion.View());
      GreedyAfterResend(old(outbox), again, congestion.View(), budget, now);
      GreedyFills(old(outbox), 0, budget, now);
      var news, postponed := AddNewPackets(outbox, budget, now, due);
      PostponedTwice(old(outbox), again, news, congestion.View(), now);
      outbox := postponed;
      sel := again + news;
    }

    /** Counts the attempt; a packet that had its last one already ends the connection. */
    method CountAttempts(sel: seq<nat>) returns (timedOut: bool, late: nat, packets: seq<u32>, length: nat)
      requires Within(outbox, sel) && forall a, b :: 0 <= a < b < |sel| ==> sel[a] != sel[b]
      modifies this`outbox
      ensures timedOut == Exhausted(old(outbox), sel)
      ensures timedOut ==> late == Overdue(old(outbox), sel) && |outbox| == |old(outbox)|
      ensures timedOut ==> outbox[late].id == old(outbox)[late].id && outbox[late].receipt == old(outbox)[late].receipt
      ensures !timedOut ==> outbox == Counted(old(outbox), sel)
      ensures !timedOut ==> packets == Ids(Picked(old(outbox), sel)) && length == Payload(old(outbox), sel)
    {
      hide Counted, Exhausted, Overdue, Payload;
      packets, length, timedOut, late := [], 0, false, 0;
      CountedNone(outbox);
      assert sel[0..] == sel;
      for a := 0 to |sel|
        invariant outbox == Counted(old(outbox), sel[..a])
        invariant forall b :: a <= b < |sel| ==> outbox[sel[b]] == old(outbox)[sel[b]]
        invariant |packets| == a && forall b :: 0 <= b < a ==> packets[b] == old(outbox)[sel[b]].id
        invariant length + Payload(old(outbox), sel[a..]) == Payload(old(outbox), sel)
        invariant Exhausted(old(outbox), sel[a..]) <==> Exhausted(old(outbox), sel)
        invariant Exhausted(old(outbox), sel) ==> Overdue(old(outbox), sel[a..]) == Overdue(old(outbox), sel)
      {
        var p := outbox[sel[a]];
        OverdueBehind(old(outbox), sel[a..]);
        PayloadBehind(old(outbox), sel[a..]);
        CountedOneMore(old(outbox), sel[..a], sel[a]);
        assert sel[..a] + [sel[a]] == sel[..a + 1];
        assert sel[a..][1..] == sel[a + 1..];
        outbox := outbox[sel[a] := p.(sendCount := p.sendCount + 1)];
        if p.sendCount + 1 > SEND_RETRY_COUNT {
          timedOut, late := true, sel[a];
          return;
        }
        length := length + |p.blob|;
        packets := packets + [p.id];
      }
      NothingLeft(old(outbox));
      assert sel[..|sel|] == sel && sel[|sel|..] == [];
    }

    /** Appends the chosen packets to the stream and takes unreliable ones out of the outbox on the way. */
    method WriteOut(sel: seq<nat>, stream: BinaryStream) returns (ok: bool)
      requires stream.Appending() && stream.Written().sub == 0
      modifies this`outbox, stream, stream.buffer
      ensures ok == Written(old(outbox), sel).Some?
      ensures ok ==> outbox == Written(old(outbox), sel).value.1
      ensures ok ==> stream.Appending()
      ensures ok ==> stream.Written() == Extended(old(stream.Written()), Written(old(outbox), sel).value.0)
    {
      hide Removed, Concat, BlobsOf, BinaryStream.Written, BinaryStream.Appending;
      ghost var prefix := stream.Written().bytes;
      ghost var done: seq<Outgoing> := [];
      NoBlobs(prefix);
      assert sel[0..] == sel;
      AppendNothing(Written(outbox, sel));
      for a := 0 to |sel|
        invariant Appended(done, Written(outbox, sel[a..])) == Written(old(outbox), sel)
        invariant stream.Appending() && stream.Written() == Writer(prefix + Concat(BlobsOf(done)), 0)
        invariant fresh(stream.buffer) || stream.buffer == old(stream.buffer)
      {
        if sel[a] >= |outbox| {
          return false;
        }
        var p := outbox[sel[a]];
        AppendBlob(stream, p.blob);
        OneMoreBlob(prefix, done, p);
        AppendOne(outbox, sel, a, done);
        done := done + [p];
        if !p.reliable {
          outbox := RemovePacketFromOutbox(outbox, p.id);
        }
      }
      ok := true;
      assert sel[|sel|..] == [] && done + [] == done;
    }

    /** The next data datagram, if there is anything to send; the caller drops the connection when told so. */
    method MakeDatagram(link: bool, now: nat) returns (built: Built)
      requires Valid() && congestion.bytesInFlight >= 0 && CC.RetransmissionTimeout(congestion.View(), 0) > 0
      modifies this`outbox, this`sentbox, congestion`nextDatagram, receipt`tracker, receipt`splits, receipt`posted
      ensures Valid() && built == NextDatagram(old(View()), link, now).0
      ensures !built.Dangling? ==> View() == NextDatagram(old(View()), link, now).1
    {
      hide Written, Scheduled, Postponed, Counted, Chosen, CC.RetransmissionTimeout, Concat, BlobsOf, Encode, Ids, Picked;
      ghost var before := View();
      ChosenFits(before, now);
      ChosenInOrder(before, now);
      var sel := Choose(now);
      if sel == [] {
        NonePostponed(before.outbox, before.congestion, now);
        return Idle;
      }
      var timedOut, late, packets, length := CountAttempts(sel);
      CountedPostponed(before.outbox, sel, before.congestion, now);
      if timedOut {
        PostponedOverdue(before.outbox, sel, before.congestion, now);
        GiveUp(outbox[late]);
        return TimedOut;
      }
      PostponedPayload(before.outbox, sel, before.congestion, now);
      built := Emit(sel, packets, length, link, now);
    }

    /** Reports the packet lost, past the tracker, and drops everything about the connection. */
    method GiveUp(packet: Outgoing)
      requires Valid()
      modifies this`outbox, this`sentbox, receipt`tracker, receipt`splits, receipt`posted
      ensures Valid() && View() == Abandoned(old(View()), packet)
    {
      if packet.receipt {
        receipt.posted := receipt.posted + [RT.Receipt(packet.id, false)];
      }
      outbox, sentbox := [], [];
      receipt.tracker, receipt.splits := {}, map[];
    }

    method Emit(sel: seq<nat>, packets: seq<u32>, length: u16, link: bool, now: nat) returns (built: Built)
      requires length < 0xFFFF
      modifies this`outbox, this`sentbox, congestion`nextDatagram
      ensures built == Emitted(old(outbox), old(congestion.nextDatagram), sel, packets, length, link, now)
      ensures built.Built? ==>
        && outbox == Written(old(outbox), sel).value.1 && sentbox == old(sentbox) + [built.datagram]
        && congestion.nextDatagram == Wrap(old(congestion.nextDatagram) + 1)
    {
      hide Written, Concat, BlobsOf, BinaryStream.Written, BinaryStream.Appending, BinaryStream.Valid, BinaryStream.View;
      hide PutAll, DH.Layout;
      var id := congestion.GetNextDatagramID();
      var stream := new BinaryStream(DEFAULT_CAPACITY);
      WriteHeader(DataHeader(id, link, length), stream);
      var ok := WriteOut(sel, stream);
      if !ok {
        return Dangling;
      }
      var blob := Contents(stream);
      var datagram := Sent(id, blob, packets, now + DATA_DISCARD);
      sentbox := sentbox + [datagram];
      built := Built(datagram);
    }

    method MakeAckgram(now: nat) returns (ackgram: Sent)
      requires Valid()
      modifies this`sentbox, congestion`nextDatagram, congestion`acks, congestion`nacks
      ensures Valid() && (ackgram, View()) == NextAckgram(old(View()), now)
    {
      hide Encode;
      var acks, nacks := congestion.MakeAckList();
      var id := congestion.GetNextDatagramID();
      var blob := EncodeAcks(id, acks, nacks);
      ackgram := Sent(id, blob, [], now + ACK_DISCARD);
      sentbox := sentbox + [ackgram];
    }

    /** Acknowledgements go first, data otherwise. */
    method GetNextDatagram(link: bool, now: nat) returns (built: Built)
      requires Valid() && congestion.bytesInFlight >= 0 && CC.RetransmissionTimeout(congestion.View(), 0) > 0
      modifies this`outbox, this`sentbox, congestion`nextDatagram, congestion`acks, congestion`nacks
      modifies receipt`tracker, receipt`splits, receipt`posted
      ensures Valid()
      ensures CC.NeedsToSendAcks(old(congestion.View()), now) ==>
        (built, View()) == (Built(NextAckgram(old(View()), now).0), NextAckgram(old(View()), now).1)
      ensures !CC.NeedsToSendAcks(old(congestion.View()), now) ==> built == NextDatagram(old(View()), link, now).0
      ensures !CC.NeedsToSendAcks(old(congestion.View()), now) && !built.Dangling? ==>
        View() == NextDatagram(old(View()), link, now).1
    {
      hide NextAckgram, NextDatagram, CC.RetransmissionTimeout;
      if CC.NeedsToSendAcks(congestion.View(), now) {
        var ackgram := MakeAckgram(now);
        built := Built(ackgram);
      } else {
        built := MakeDatagram(link, now);
      }
    }

    method AcknowledgePackets(packets: seq<u32>)
      requires Valid()
      modifies this`outbox, receipt`tracker, receipt`splits, receipt`posted
      ensures Valid() && View() == Delivered(old(View()), packets)
    {
      for i := 0 to |packets|
        invariant Valid() && View() == Delivered(old(View()), packets[..i])
      {
        assert packets[..i + 1][..i] == packets[..i];
        receipt.Acknowledge(packets[i]);
        outbox := RemovePacketFromOutbox(outbox, packets[i]);
      }
      assert packets[..|packets|] == packets;
    }

    method FindSent(id: u32) returns (k: nat)
      ensures k == IndexOf(sentbox, id)
    {
      k := 0;
      assert sentbox[0..] == sentbox;
      while k < |sentbox| && sentbox[k].id != id
        invariant k <= |sentbox|
        invariant IndexOf(sentbox, id) == k + IndexOf(sentbox[k..], id)
      {
        assert sentbox[k..][1..] == sentbox[k + 1..];
        k := k + 1;
      }
    }

    method HandleAcknowledgements(acklist: seq<u32>, now: nat)
      requires Valid()
      modifies this`outbox, this`sentbox, receipt`tracker, receipt`splits, receipt`posted, congestion
      ensures Valid() && View() == Acks(old(View()), acklist, now)
    {
      hide Delivered, IndexOf, CC.Acked;
      for i := 0 to |acklist|
        invariant Valid() && View() == Acks(old(View()), acklist[..i], now)
      {
        assert acklist[..i + 1][..i] == acklist[..i];
        var k := FindSent(acklist[i]);
        if k < |sentbox| {
          AcknowledgePackets(sentbox[k].packets);
          sentbox := sentbox[..k] + sentbox[k + 1..];
        }
        congestion.NotifyReceivedAck(acklist[i], now);
      }
      assert acklist[..|acklist|] == acklist;
    }

    method HurryPackets(packets: seq<u32>, now: nat)
      modifies this`outbox
      ensures outbox == HurriedAll(old(outbox), packets, now)
    {
      for i := 0 to |packets|
        invariant outbox == HurriedAll(old(outbox), packets[..i], now)
      {
        assert packets[..i + 1][..i] == packets[..i];
        Hurry(packets[i], now);
      }
      assert packets[..|packets|] == packets;
    }

    method Hurry(id: u32, now: nat)
      modifies this`outbox
      ensures outbox == Hurried(old(outbox), id, now)
    {
      var k := FindPacket(outbox, id);
      HurriedFirst(outbox, id, k, now);
      if k < |outbox| {
        outbox := outbox[k := outbox[k].(sendNext := now)];
      }
    }

    method HandleNonAcknowledgements(naklist: seq<u32>, now: nat)
      requires Valid()
      modifies this`outbox, this`sentbox, congestion`window, congestion`threshold
      ensures Valid() && View() == Nacks(old(View()), naklist, now)
    {
      hide HurriedAll, IndexOf;
      for i := 0 to |naklist|
        invariant View() == NackEach(old(View()), naklist[..i], now)
      {
        assert naklist[..i + 1][..i] == naklist[..i];
        var k := FindSent(naklist[i]);
        if k < |sentbox| {
          HurryPackets(sentbox[k].packets, now);
          sentbox := sentbox[..k] + sentbox[k + 1..];
        }
      }
      assert naklist[..|naklist|] == naklist;
      congestion.NotifyReceivedNakGroup();
    }

    /** Drops datagrams nobody answered and reports their packets lost. */
    method Prune(now: nat)
      requires Valid()
      modifies this`sentbox, receipt`tracker, receipt`posted
      ensures Valid() && View() == Pruned(old(View()), now)
    {
      var kept: seq<Sent> := [];
      for i := 0 to |sentbox|
        invariant sentbox == old(sentbox) && kept == Kept(sentbox[..i], now)
        invariant receipt.View() == LostReceipts(old(receipt.View()), sentbox[..i], now) && receipt.Valid()
      {
        assert sentbox[..i + 1][..i] == sentbox[..i];
        if now >= sentbox[i].discard {
          receipt.Lose(sentbox[i].packets);
        } else {
          kept := kept + [sentbox[i]];
        }
      }
      assert sentbox[..|sentbox|] == sentbox;
      sentbox := kept;
    }
  }

  lemma {:induction false} HurriedFirst(outbox: Outbox, id: u32, k: nat, now: int)
    requires k <= |outbox| && (k < |outbox| ==> outbox[k].id == id)
    requires forall j :: 0 <= j < k ==> outbox[j].id != id
    ensures Hurried(outbox, id, now) == if k < |outbox| then outbox[k := outbox[k].(sendNext := now)] else outbox
    decreases k
  {
    if k > 0 {
      HurriedFirst(outbox[1..], id, k - 1, now);
    }
  }

  lemma NonePostponed(outbox: Outbox, cc: CC.State, now: int)
    ensures Postponed(outbox, [], cc, now) == outbox
  {
  }

  lemma PostponedPayload(outbox: Outbox, sel: seq<nat>, cc: CC.State, now: int)
    requires Within(outbox, sel)
    ensures Payload(Postponed(outbox, sel, cc, now), sel) == Payload(outbox, sel)
  {
    PayloadSame(outbox, Postponed(outbox, sel, cc, now), sel);
  }

  method WriteHeader(header: DH.DatagramHeader, stream: BinaryStream)
    requires stream.Appending() && stream.Written() == EMPTY
    requires |header.acks| <= DH.MAX_IDS && |header.nacks| <= DH.MAX_IDS && header.dataLength < 0xFFFF
    modifies stream, stream.buffer
    ensures stream.buffer == old(stream.buffer) || fresh(stream.buffer)
    ensures stream.Appending() && stream.Written() == Writer(PutAll(EMPTY, DH.Layout(header)).bytes, 0)
  {
    hide BinaryStream.Written, BinaryStream.Appending, PutAll, DH.Layout;
    DH.Serialize(header, stream);
    DH.LayoutSize(header);
  }

  method EncodeAcks(id: u32, acks: seq<u32>, nacks: seq<u32>) returns (blob: Bytes)
    ensures blob == Encode(AckHeader(id, acks, nacks), [])
  {
    hide BinaryStream.Written, BinaryStream.Appending, PutAll, DH.Layout;
    var stream := new BinaryStream(DEFAULT_CAPACITY);
    DH.Serialize(AckHeader(id, acks, nacks), stream);
    blob := Contents(stream);
    assert blob + [] == blob;
  }

  method Contents(stream: BinaryStream) returns (bytes: Bytes)
    requires stream.Appending()
    ensures bytes == stream.Written().bytes
  {
    bytes := stream.buffer[..stream.length];
  }

  ghost function Extended(w: Writer, ps: seq<Outgoing>): Writer {
    Writer(w.bytes + Concat(BlobsOf(ps)), 0)
  }

  ghost function Appended(done: seq<Outgoing>, rest: Option<(seq<Outgoing>, Outbox)>): Option<(seq<Outgoing>, Outbox)> {
    match rest
    case None => None
    case Some((ps, outbox)) => Some((done + ps, outbox))
  }

  lemma AppendNothing(rest: Option<(seq<Outgoing>, Outbox)>)
    ensures Appended([], rest) == rest
  {
    if rest.Some? {
      assert [] + rest.value.0 == rest.value.0;
    }
  }

  lemma AppendOne(outbox: Outbox, sel: seq<nat>, a: nat, done: seq<Outgoing>)
    requires a < |sel| && sel[a] < |outbox|
    ensures var p := outbox[sel[a]];
      var left := if p.reliable then outbox else Removed(outbox, p.id);
      Appended(done, Written(outbox, sel[a..])) == Appended(done + [p], Written(left, sel[a + 1..]))
  {
    hide Removed;
    var p := outbox[sel[a]];
    assert sel[a..][1..] == sel[a + 1..];
    var rest := Written(if p.reliable then outbox else Removed(outbox, p.id), sel[a + 1..]);
    if rest.Some? {
      assert done + [p] + rest.value.0 == done + ([p] + rest.value.0);
    }
  }

  lemma NoBlobs(prefix: Bytes)
    ensures prefix + Concat(BlobsOf([])) == prefix
  {
  }

  lemma OneMoreBlob(prefix: Bytes, done: seq<Outgoing>, p: Outgoing)
    ensures prefix + Concat(BlobsOf(done + [p])) == prefix + Concat(BlobsOf(done)) + p.blob
  {
    ConcatSnoc(BlobsOf(done), p.blob);
    assert BlobsOf(done + [p]) == BlobsOf(done) + [p.blob];
  }

  lemma {:induction false} ConcatSnoc(blobs: seq<Bytes>, b: Bytes)
    ensures Concat(blobs + [b]) == Concat(blobs) + b
    decreases |blobs|
  {
    if blobs != [] {
      ConcatSnoc(blobs[1..], b);
      assert (blobs + [b])[1..] == blobs[1..] + [b];
    }
  }

  function Counted(outbox: Outbox, sel: seq<nat>): (r: Outbox)
    ensures |r| == |outbox|
  {
    seq(|outbox|, i requires 0 <= i < |outbox| =>
      if i in sel then outbox[i].(sendCount := outbox[i].sendCount + 1) else outbox[i])
  }

  lemma CountedNone(outbox: Outbox)
    ensures Counted(outbox, []) == outbox
  {
  }

  lemma CountedOneMore(outbox: Outbox, sel: seq<nat>, k: nat)
    requires k < |outbox| && k !in sel
    ensures Counted(outbox, sel + [k]) == Counted(outbox, sel)[k := outbox[k].(sendCount := outbox[k].sendCount + 1)]
  {
    var more := Counted(outbox, sel)[k := outbox[k].(sendCount := outbox[k].sendCount + 1)];
    forall i | 0 <= i < |outbox| ensures Counted(outbox, sel + [k])[i] == more[i] {
      assert i in sel + [k] <==> i in sel || i == k;
    }
  }

  lemma NothingLeft(outbox: Outbox)
    ensures !Exhausted(outbox, []) && Payload(outbox, []) == 0
  {
  }

  lemma PayloadBehind(outbox: Outbox, sel: seq<nat>)
    requires sel != [] && Within(outbox, sel)
    ensures Payload(outbox, sel) == |outbox[sel[0]].blob| + Payload(outbox, sel[1..])
  {
  }

  lemma OverdueBehind(outbox: Outbox, sel: seq<nat>)
    requires sel != [] && Within(outbox, sel)
    ensures outbox[sel[0]].sendCount >= SEND_RETRY_COUNT ==> Exhausted(outbox, sel) && Overdue(outbox, sel) == sel[0]
    ensures outbox[sel[0]].sendCount < SEND_RETRY_COUNT ==> (Exhausted(outbox, sel) <==> Exhausted(outbox, sel[1..]))
    ensures outbox[sel[0]].sendCount < SEND_RETRY_COUNT && Exhausted(outbox, sel) ==>
      Overdue(outbox, sel) == Overdue(outbox, sel[1..])
  {
    var rest := sel[1..];
    if a :| 0 <= a < |rest| && outbox[rest[a]].sendCount >= SEND_RETRY_COUNT {
      assert sel[a + 1] == rest[a];
    }
    if a :| 0 <= a < |sel| && outbox[sel[a]].sendCount >= SEND_RETRY_COUNT && a > 0 {
      assert rest[a - 1] == sel[a];
    }
  }

  lemma {:induction false} SameOverdue(outbox: Outbox, outbox': Outbox, sel: seq<nat>)
    requires Within(outbox, sel) && |outbox'| == |outbox| && Exhausted(outbox, sel)
    requires forall i :: 0 <= i < |outbox| ==> outbox'[i].sendCount == outbox[i].sendCount
    ensures Exhausted(outbox', sel) && Overdue(outbox', sel) == Overdue(outbox, sel)
    decreases |sel|
  {
    assert sel != [];
    OverdueBehind(outbox, sel);
    OverdueBehind(outbox', sel);
    if outbox[sel[0]].sendCount < SEND_RETRY_COUNT {
      SameOverdue(outbox, outbox', sel[1..]);
    }
  }

  lemma PostponedOverdue(outbox: Outbox, sel: seq<nat>, cc: CC.State, now: int)
    requires Within(outbox, sel) && Exhausted(outbox, sel)
    ensures var postponed := Postponed(outbox, sel, cc, now);
      && Exhausted(postponed, sel) && Overdue(postponed, sel) == Overdue(outbox, sel)
      && var k := Overdue(outbox, sel);
      postponed[k].id == outbox[k].id && postponed[k].receipt == outbox[k].receipt
  {
    SameOverdue(outbox, Postponed(outbox, sel, cc, now), sel);
  }

  lemma CountedPostponed(outbox: Outbox, sel: seq<nat>, cc: CC.State, now: int)
    requires Within(outbox, sel)
    ensures Counted(Postponed(outbox, sel, cc, now), sel) == Scheduled(outbox, sel, cc, now)
    ensures Ids(Picked(Postponed(outbox, sel, cc, now), sel)) == Ids(Picked(outbox, sel))
    ensures Exhausted(Postponed(outbox, sel, cc, now), sel) == Exhausted(outbox, sel)
  {
  }

  lemma {:induction false} PayloadSame(outbox: Outbox, outbox': Outbox, sel: seq<nat>)
    requires Within(outbox, sel) && |outbox| == |outbox'|
    requires forall i :: 0 <= i < |outbox| ==> outbox[i].blob == outbox'[i].blob
    ensures Payload(outbox, sel) == Payload(outbox', sel)
    decreases |sel|
  {
    if sel != [] {
      PayloadSame(outbox, outbox', sel[1..]);
    }
  }
}
