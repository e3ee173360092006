/** When a queued packet goes out again, and how often. */
module Resending {
  import opened Types
  import CC = Congestion
  import RT = Receipts
  import DH = DatagramHeaders
  import opened Datagrams
  import opened Segmentation
  import opened Builders
  import opened RemotePeers
  import opened Queues
  import opened Protocol
  import opened Answers
  import opened OrderedDelivery

  // --- Which packet is sent again ---

  /** Sent before, due, and within both the bytes in flight and the MTU. */
  ghost predicate DueAgain(p: Peer, j: nat, now: int)
    requires j < |p.outbox|
  {
    var q := p.outbox[j];
    q.sendCount > 0 && now >= q.sendNext && |q.blob| <= p.congestion.bytesInFlight && |q.blob| <= MTU
  }

  /** The first place in the outbox with a packet due again; its length if there is none. */
  ghost predicate FirstDueAgain(p: Peer, k: nat, now: int) {
    && k <= |p.outbox| && (k < |p.outbox| ==> DueAgain(p, k, now))
    && forall j :: 0 <= j < k ==> !DueAgain(p, j, now)
  }

  lemma AgainIs(p: Peer, now: int, k: nat)
    requires p.congestion.bytesInFlight >= 0 && FirstDueAgain(p, k, now)
    ensures Again(p, now) == if p.congestion.bytesInFlight > 0 && k < |p.outbox| then [k] else []
  {
    hide Resend;
    var budget := CC.ResendBudget(p.congestion);
    assert forall j :: 0 <= j < |p.outbox| && budget > 0 ==> (Suitable(p.outbox[j], budget, true, now) <==> DueAgain(p, j, now));
    var sel := Again(p, now);
    assert sel != [] ==> sel == [sel[0]];
  }

  /**
    While anything is in flight, the first packet due again is chosen, and
    chosen first; apart from it only packets never sent are chosen.
   */
  lemma ResendGoesFirst(p: Peer, now: int, k: nat)
    requires p.congestion.bytesInFlight >= 0 && FirstDueAgain(p, k, now)
    ensures var sel := Chosen(p, now);
      && (p.congestion.bytesInFlight > 0 && k < |p.outbox| ==> sel != [] && sel[0] == k)
      && (p.congestion.bytesInFlight == 0 || k == |p.outbox| ==> forall a :: 0 <= a < |sel| ==> p.outbox[sel[a]].sendCount == 0)
      && (forall a :: 1 <= a < |sel| ==> p.outbox[sel[a]].sendCount == 0)
  {
    AgainIs(p, now, k);
    ChosenInOrder(p, now);
    GreedyFills(p.outbox, 0, CC.SendBudget(p.congestion), now);
    hide Greedy, Resend, Payload, Again, DueAgain;
    assert [] + New(p, now) == New(p, now);
  }

  /**
    The whole choice: the first packet due again, if anything is in flight,
    then new packets first come, first served, within the send budget.
   */
  lemma ChoiceExactly(p: Peer, now: int, k: nat) returns (news: seq<nat>)
    requires p.congestion.bytesInFlight >= 0 && FirstDueAgain(p, k, now)
    ensures Chosen(p, now) == (if p.congestion.bytesInFlight > 0 && k < |p.outbox| then [k] else []) + news
    ensures forall a, b :: 0 <= a < b < |news| ==> news[a] < news[b]
    ensures forall j :: 0 <= j < |p.outbox| ==> Served(p.outbox, news, CC.SendBudget(p.congestion), now, j)
  {
    AgainIs(p, now, k);
    news := New(p, now);
    forall j | 0 <= j < |p.outbox| ensures Served(p.outbox, news, CC.SendBudget(p.congestion), now, j) {
      GreedyExactly(p.outbox, 0, CC.SendBudget(p.congestion), now, j);
    }
  }

  lemma {:induction false} FindDueAgain(p: Peer, now: int, j: nat) returns (k: nat)
    requires j < |p.outbox| && DueAgain(p, j, now)
    ensures k <= j && FirstDueAgain(p, k, now)
    decreases j
  {
    k := j;
    if i :| 0 <= i < j && DueAgain(p, i, now) {
      k := FindDueAgain(p, now, i);
    }
  }

  /**
    A packet due again is never passed over in favour of new ones: the
    datagram made stands for it, or for one queued before it that is due again
    too. It is made unless one of the chosen packets had its last attempt.
   */
  lemma ResendIsBooked(p: Peer, link: bool, now: nat, j: nat) returns (k: nat)
    requires p.congestion.bytesInFlight > 0 && j < |p.outbox| && DueAgain(p, j, now)
    ensures k <= j && FirstDueAgain(p, k, now)
    ensures var built := NextDatagram(p, link, now).0;
      && !built.Idle?
      && (built.TimedOut? <==> Exhausted(p.outbox, Chosen(p, now)))
      && (built.Built? ==> built.datagram.packets != [] && built.datagram.packets[0] == p.outbox[k].id)
      && (Distinct(p.outbox) && Undisturbed(p.outbox, Chosen(p, now)) ==> built.Built? || built.TimedOut?)
  {
    k := FindDueAgain(p, now, j);
    ResendGoesFirst(p, now, k);
    MadeUnless(p, link, now);
    hide Chosen, Exhausted, NextDatagram, Distinct, Undisturbed, FirstDueAgain;
  }

  lemma EmittedIs(outbox: Outbox, id: u32, sel: seq<nat>, packets: seq<u32>, length: u16, link: bool, now: nat)
    ensures var built := Emitted(outbox, id, sel, packets, length, link, now);
      && (built.Built? <==> Written(outbox, sel).Some?) && !built.Idle? && !built.TimedOut?
      && (built.Built? ==> built.datagram.packets == packets)
  {
    hide Written, Encode, Concat, BlobsOf;
  }

  lemma MadeUnless(p: Peer, link: bool, now: nat)
    requires p.congestion.bytesInFlight >= 0 && Chosen(p, now) != []
    ensures var built := NextDatagram(p, link, now).0;
      && !built.Idle?
      && (built.TimedOut? <==> Exhausted(p.outbox, Chosen(p, now)))
      && (built.Built? ==> built.datagram.packets == Ids(Picked(p.outbox, Chosen(p, now))))
      && (Distinct(p.outbox) && Undisturbed(p.outbox, Chosen(p, now)) ==> built.Built? || built.TimedOut?)
  {
    var sel := Chosen(p, now);
    hide Chosen, Exhausted, Overdue, Scheduled, Written, Distinct, Undisturbed, Ids, Picked, Payload, Emitted;
    ChosenFits(p, now);
    var scheduled := Scheduled(p.outbox, sel, p.congestion, now);
    if Distinct(p.outbox) && Undisturbed(p.outbox, sel) {
      HonestExactly(p, now);
      assert AsMeant(scheduled, sel);
    }
    EmittedIs(scheduled, p.congestion.nextDatagram, sel, Ids(Picked(p.outbox, sel)), Payload(p.outbox, sel), link, now);
  }

  // --- Giving up ---

  /** The first chosen packet that has been sent six times. */
  ghost predicate FirstExhausted(outbox: Outbox, sel: seq<nat>, a: nat) {
    && a < |sel| && Within(outbox, sel) && outbox[sel[a]].sendCount >= 6
    && forall b :: 0 <= b < a ==> outbox[sel[b]].sendCount < 6
  }

  lemma {:induction false} OverdueIsFirst(outbox: Outbox, sel: seq<nat>) returns (a: nat)
    requires Within(outbox, sel) && Exhausted(outbox, sel)
    ensures FirstExhausted(outbox, sel, a) && Overdue(outbox, sel) == sel[a]
    decreases |sel|
  {
    if outbox[sel[0]].sendCount >= SEND_RETRY_COUNT {
      a := 0;
    } else {
      var b := OverdueIsFirst(outbox, sel[1..]);
      a := b + 1;
      assert forall c :: 1 <= c < a ==> outbox[sel[c]] == outbox[sel[1..][c - 1]];
    }
  }

  /**
    A seventh attempt ends the connection instead: the first packet it was
    due for is reported lost if someone asked, and nothing stays queued, sent
    or open.
   */
  lemma GivesUpExactly(p: Peer, link: bool, now: nat) returns (a: nat)
    requires p.congestion.bytesInFlight >= 0
    ensures NextDatagram(p, link, now).0.TimedOut?
      <==> exists b :: 0 <= b < |Chosen(p, now)| && p.outbox[Chosen(p, now)[b]].sendCount >= 6
    ensures NextDatagram(p, link, now).0.TimedOut? ==>
      && FirstExhausted(p.outbox, Chosen(p, now), a)
      && var x := p.outbox[Chosen(p, now)[a]];
      NextDatagram(p, link, now).1
        == Peer([], [], p.congestion, RT.State({}, map[], p.receipts.posted + if x.receipt then [RT.Receipt(x.id, false)] else []))
  {
    a := 0;
    var sel := Chosen(p, now);
    hide Chosen, Emitted, Overdue, Scheduled, Written, Ids, Picked, Payload;
    if sel != [] && Exhausted(p.outbox, sel) {
      a := OverdueIsFirst(p.outbox, sel);
      hide Exhausted;
      assert p.receipts.posted + [] == p.receipts.posted;
    }
  }

  // --- What sending leaves in the outbox ---

  /** One pass over the outbox after these packets went out: one more attempt for reliable ones, others leave. */
  function Attempts(outbox: Outbox, sent: set<u32>, cc: CC.State, now: int): Outbox {
    if outbox == [] then []
    else
      var p, rest := outbox[0], Attempts(outbox[1..], sent, cc, now);
      if p.id !in sent then [p] + rest
      else if p.reliable then
        [p.(sendCount := p.sendCount + 1, sendNext := now + CC.RetransmissionTimeout(cc, p.sendCount))] + rest
      else rest
  }

  /** The same for the reliable ones only, place by place. */
  function Marked(outbox: Outbox, sent: set<u32>, cc: CC.State, now: int): (r: Outbox)
    ensures |r| == |outbox|
  {
    seq(|outbox|, i requires 0 <= i < |outbox| => if outbox[i].id in sent then Attempted(outbox[i], cc, now) else outbox[i])
  }

  lemma {:induction false} AttemptsAre(outbox: Outbox, sent: set<u32>, gone: set<u32>, cc: CC.State, now: int)
    requires forall i :: 0 <= i < |outbox| ==> (outbox[i].id in gone <==> outbox[i].id in sent && !outbox[i].reliable)
    ensures Attempts(outbox, sent, cc, now) == Others(Marked(outbox, sent, cc, now), gone)
    decreases |outbox|
  {
    hide CC.RetransmissionTimeout;
    if outbox != [] {
      AttemptsAre(outbox[1..], sent, gone, cc, now);
      assert Marked(outbox, sent, cc, now)[1..] == Marked(outbox[1..], sent, cc, now);
    }
  }

  lemma ScheduledIsMarked(outbox: Outbox, sel: seq<nat>, cc: CC.State, now: int)
    requires Distinct(outbox) && Within(outbox, sel)
    ensures Scheduled(outbox, sel, cc, now) == Marked(outbox, Listed(Ids(Picked(outbox, sel))), cc, now)
  {
    hide CC.RetransmissionTimeout;
    var ids := Ids(Picked(outbox, sel));
    forall i | 0 <= i < |outbox| ensures i in sel <==> outbox[i].id in Listed(ids) {
      if i in sel {
        var a :| 0 <= a < |sel| && sel[a] == i;
        assert ids[a] == outbox[i].id;
      }
      if outbox[i].id in Listed(ids) {
        var a :| 0 <= a < |ids| && ids[a] == outbox[i].id;
        assert outbox[sel[a]].id == outbox[i].id;
      }
    }
  }

  /**
    A data datagram counts as one more attempt of every reliable packet in it,
    which is put off by the retransmission timeout; an unreliable one leaves
    the outbox; nothing else about the outbox changes.
   */
  lemma SendingCounts(p: Peer, link: bool, now: nat)
    requires p.congestion.bytesInFlight >= 0 && Distinct(p.outbox) && OnlyLastUnreliable(p.outbox, Chosen(p, now))
    requires NextDatagram(p, link, now).0.Built?
    ensures var next := NextDatagram(p, link, now);
      next.1.outbox == Attempts(p.outbox, Listed(next.0.datagram.packets), p.congestion, now)
  {
    var sel := Chosen(p, now);
    hide Chosen, Exhausted, Overdue, Scheduled, Written, Payload, Emitted, CC.RetransmissionTimeout, Attempts, Listed, Distinct, Marked;
    ChosenFits(p, now);
    var scheduled := Scheduled(p.outbox, sel, p.congestion, now);
    EmittedIs(scheduled, p.congestion.nextDatagram, sel, Ids(Picked(p.outbox, sel)), Payload(p.outbox, sel), link, now);
    ScheduledReliable(p.outbox, sel, p.congestion, now);
    WrittenOutbox(scheduled, sel);
    ScheduledIsMarked(p.outbox, sel, p.congestion, now);
    LastOnly(p.outbox, scheduled, sel, Listed(Ids(Picked(p.outbox, sel))), p.congestion, now);
  }

  lemma ScheduledReliable(outbox: Outbox, sel: seq<nat>, cc: CC.State, now: int)
    requires Within(outbox, sel) && OnlyLastUnreliable(outbox, sel)
    ensures Within(Scheduled(outbox, sel, cc, now), sel) && OnlyLastUnreliable(Scheduled(outbox, sel, cc, now), sel)
  {
    hide CC.RetransmissionTimeout;
  }

  lemma LastOnly(outbox: Outbox, scheduled: Outbox, sel: seq<nat>, sent: set<u32>, cc: CC.State, now: int)
    requires Distinct(outbox) && sel != [] && Within(outbox, sel) && OnlyLastUnreliable(outbox, sel)
    requires sent == Listed(Ids(Picked(outbox, sel))) && scheduled == Marked(outbox, sent, cc, now)
    ensures var last := scheduled[sel[|sel| - 1]];
      Attempts(outbox, sent, cc, now) == if last.reliable then scheduled else Removed(scheduled, last.id)
  {
    hide CC.RetransmissionTimeout, Attempts, Others, Removed;
    var k := sel[|sel| - 1];
    var gone := if outbox[k].reliable then {} else {outbox[k].id};
    OnlyThatOne(outbox, sel, sent, gone);
    AttemptsAre(outbox, sent, gone, cc, now);
    assert Distinct(scheduled);
    if outbox[k].reliable {
      OthersAll(scheduled, gone);
    } else {
      RemovedIsOthers(scheduled, outbox[k].id);
    }
  }

  lemma OnlyThatOne(outbox: Outbox, sel: seq<nat>, sent: set<u32>, gone: set<u32>)
    requires Distinct(outbox) && sel != [] && Within(outbox, sel) && OnlyLastUnreliable(outbox, sel)
    requires sent == Listed(Ids(Picked(outbox, sel)))
    requires var k := sel[|sel| - 1]; gone == if outbox[k].reliable then {} else {outbox[k].id}
    ensures forall i :: 0 <= i < |outbox| ==> (outbox[i].id in gone <==> outbox[i].id in sent && !outbox[i].reliable)
  {
    var ids := Ids(Picked(outbox, sel));
    assert ids[|sel| - 1] == outbox[sel[|sel| - 1]].id;
    forall i | 0 <= i < |outbox| && outbox[i].id in sent && !outbox[i].reliable ensures outbox[i].id in gone {
      var a :| 0 <= a < |ids| && ids[a] == outbox[i].id;
      assert outbox[sel[a]].id == outbox[i].id;
      assert sel[a] == i;
    }
  }

  /** A datagram handed to the network is in flight from then on, with all its bytes. */
  lemma SentIsInFlight(me: Half, now: nat)
    requires me.peer.congestion.bytesInFlight >= 0 && NextDatagram(me.peer, true, now).0.Built?
    requires me.peer.congestion.nextDatagram !in me.peer.congestion.outgoing
    ensures var d, cc := NextDatagram(me.peer, true, now).0.datagram, Sending(me, now).peer.congestion;
      && cc.bytesInFlight == me.peer.congestion.bytesInFlight + |d.blob|
      && cc.outgoing == me.peer.congestion.outgoing[d.id := CC.InFlight(|d.blob|, now)]
      && d.id in Sending(me, now).log && Sending(me, now).log[d.id] == Data(d)
  {
    hide Chosen, Exhausted, Overdue, Scheduled, Written, Ids, Picked, Payload, Encode, Concat, BlobsOf;
  }

  // --- How often a packet goes out, over every run ---

  /** The datagrams sent that stand for a packet. */
  ghost function Copies(log: map<u32, Gram>, id: u32): set<u32> {
    set k | k in log && log[k].Data? && id in log[k].sent.packets
  }

  /** A queued packet counts its copies, and no packet has more than six. */
  ghost predicate Tallied(outbox: Outbox, log: map<u32, Gram>) {
    && (forall i :: 0 <= i < |outbox| ==> |Copies(log, outbox[i].id)| == outbox[i].sendCount)
    && (forall id: u32 :: |Copies(log, id)| <= 6)
  }

  lemma NoCopies(h: Half, id: u32)
    requires Logged(h.log, h.messages) && id !in h.messages
    ensures Copies(h.log, id) == {}
  {
    forall k | k in h.log && h.log[k].Data? ensures id !in h.log[k].sent.packets {
      PacketsKnown(h, k);
    }
  }

  lemma EnqueueTallied(me: Half, o: Order, now: nat)
    requires Fits(o) && o.labels.container == me.peer.congestion.nextPacket
    requires Numbered(me) && Logged(me.log, me.messages) && Tallied(me.peer.outbox, me.log)
    ensures var h := Queueing(me, o, now); Tallied(h.peer.outbox, h.log)
  {
    hide MessagesOf, Numbering, Joined, Copies, PacketBlob, Segment, NumberOf, Logged;
    var old', h := me.peer.outbox, Queueing(me, o, now);
    var outbox := h.peer.outbox;
    forall i | 0 <= i < |outbox| ensures |Copies(me.log, outbox[i].id)| == outbox[i].sendCount {
      if i >= |old'| {
        PlaceIsNumber(o, i - |old'|);
        NoCopies(me, outbox[i].id);
      }
    }
  }

  lemma OneMoreCopy(log: map<u32, Gram>, d: Sent, id: u32)
    requires d.id !in log
    ensures |Copies(log[d.id := Data(d)], id)| == |Copies(log, id)| + if id in d.packets then 1 else 0
  {
    var more := Copies(log[d.id := Data(d)], id);
    if id in d.packets {
      assert more == Copies(log, id) + {d.id};
    } else {
      assert more == Copies(log, id);
    }
  }

  /** Where a packet still queued after sending comes from. */
  lemma {:induction false} AttemptsFrom(outbox: Outbox, sent: set<u32>, cc: CC.State, now: int, i: nat) returns (j: nat)
    requires i < |Attempts(outbox, sent, cc, now)|
    ensures j < |outbox|
    ensures var x, y := outbox[j], Attempts(outbox, sent, cc, now)[i];
      y.id == x.id && y.sendCount == x.sendCount + if x.id in sent then 1 else 0
    decreases |outbox|
  {
    hide CC.RetransmissionTimeout;
    var p, rest := outbox[0], Attempts(outbox[1..], sent, cc, now);
    if p.id in sent && !p.reliable {
      j := AttemptsFrom(outbox[1..], sent, cc, now, i);
      j := j + 1;
    } else if i == 0 {
      j := 0;
    } else {
      j := AttemptsFrom(outbox[1..], sent, cc, now, i - 1);
      j := j + 1;
    }
  }

  lemma SentTallied(outbox: Outbox, log: map<u32, Gram>, d: Sent, cc: CC.State, now: int)
    requires Tallied(outbox, log) && d.id !in log
    requires forall n :: n in d.packets ==> exists j :: 0 <= j < |outbox| && outbox[j].id == n && outbox[j].sendCount < 6
    ensures Tallied(Attempts(outbox, Listed(d.packets), cc, now), log[d.id := Data(d)])
  {
    hide Copies, Attempts;
    var outbox', log' := Attempts(outbox, Listed(d.packets), cc, now), log[d.id := Data(d)];
    forall i | 0 <= i < |outbox'| ensures |Copies(log', outbox'[i].id)| == outbox'[i].sendCount {
      var j := AttemptsFrom(outbox, Listed(d.packets), cc, now, i);
      OneMoreCopy(log, d, outbox'[i].id);
      assert outbox[j].id in Listed(d.packets) <==> outbox[j].id in d.packets;
    }
    forall id: u32 ensures |Copies(log', id)| <= 6 {
      OneMoreCopy(log, d, id);
      if id in d.packets {
        var j :| 0 <= j < |outbox| && outbox[j].id == id && outbox[j].sendCount < 6;
      }
    }
  }

  lemma BookedNotExhausted(p: Peer, link: bool, now: nat)
    requires p.congestion.bytesInFlight >= 0 && NextDatagram(p, link, now).0.Built?
    ensures forall n :: n in NextDatagram(p, link, now).0.datagram.packets ==>
      exists j :: 0 <= j < |p.outbox| && p.outbox[j].id == n && p.outbox[j].sendCount < 6
  {
    var sel := Chosen(p, now);
    hide Chosen, Scheduled, Written, Overdue, Payload, Emitted;
    MadeUnless(p, link, now);
    hide NextDatagram;
    var ids := Ids(Picked(p.outbox, sel));
    forall n | n in ids ensures exists j :: 0 <= j < |p.outbox| && p.outbox[j].id == n && p.outbox[j].sendCount < 6 {
      var a :| 0 <= a < |ids| && ids[a] == n;
      assert p.outbox[sel[a]].id == n;
    }
  }

  lemma SendTallied(me: Half, other: Half, now: nat)
    requires Inv(me, other) && Enabled(me, other, Send, now) && Tallied(me.peer.outbox, me.log)
    ensures var h := Sending(me, now); Tallied(h.peer.outbox, h.log)
  {
    hide Tallied, NextDatagram;
    if NextDatagram(me.peer, true, now).0.Built? {
      var d := NextDatagram(me.peer, true, now).0.datagram;
      BuiltIsGood(me, other, now);
      SendIsNew(me, other);
      hide Inv, Chosen, OnlyLastUnreliable, Carries;
      BookedNotExhausted(me.peer, true, now);
      SendingCounts(me.peer, true, now);
      SentTallied(me.peer.outbox, me.log, d, me.peer.congestion, now);
    }
  }

  lemma SendIsNew(me: Half, other: Half)
    requires Inv(me, other)
    ensures me.peer.congestion.nextDatagram !in me.log && Distinct(me.peer.outbox)
  {
    hide Pair, Labelled, Logged, Boxed, Made, Filed, Steady;
  }

  /** Packets keep their numbers and counts, whatever becomes of the others. */
  ghost predicate SubCounts(outbox: Outbox, outbox': Outbox) {
    forall i :: 0 <= i < |outbox'| ==> Found(outbox, outbox'[i])
  }

  ghost predicate Found(outbox: Outbox, y: Outgoing) {
    exists j :: 0 <= j < |outbox| && SameCount(outbox[j], y)
  }

  ghost predicate SameCount(x: Outgoing, y: Outgoing) {
    y.id == x.id && y.sendCount == x.sendCount
  }

  lemma SubTallied(outbox: Outbox, outbox': Outbox, log: map<u32, Gram>)
    requires Tallied(outbox, log) && SubCounts(outbox, outbox')
    ensures Tallied(outbox', log)
  {
    hide Copies;
    forall i | 0 <= i < |outbox'| ensures |Copies(log, outbox'[i].id)| == outbox'[i].sendCount {
      assert Found(outbox, outbox'[i]);
      var j :| 0 <= j < |outbox| && SameCount(outbox[j], outbox'[i]);
    }
  }

  lemma AnsweredCounts(p: Peer, h: DH.DatagramHeader, now: nat)
    requires p.congestion.window > 0 && Distinct(p.outbox)
    ensures SubCounts(p.outbox, Answered(p, h, now).outbox)
  {
    hide Distinct, Acks, NackEach, Left, Struck, Books, SubCounts;
    var p1 := if h.acks != [] then Acks(p, h.acks, now) else p;
    var gone := Books(Struck(p.sentbox, multiset(h.acks)));
    assert SubCounts(p.outbox, p1.outbox) && Distinct(p1.outbox) by {
      AcksExactly(p, h.acks, now);
      OthersCount(p.outbox, gone);
      SelfCounts(p.outbox);
    }
    NackEachExactly(p1, h.nacks, now);
    DueCounts(p.outbox, p1.outbox, NackEach(p1, h.nacks, now).outbox, Books(Struck(p1.sentbox, multiset(h.nacks))), now);
  }

  lemma SelfCounts(outbox: Outbox)
    ensures SubCounts(outbox, outbox)
  {
    forall i | 0 <= i < |outbox| ensures Found(outbox, outbox[i]) {
      assert SameCount(outbox[i], outbox[i]);
    }
  }

  lemma OthersCount(outbox: Outbox, gone: set<u32>)
    ensures SubCounts(outbox, Others(outbox, gone))
  {
    var left := Others(outbox, gone);
    hide Others;
    forall i | 0 <= i < |left| ensures Found(outbox, left[i]) {
      OthersAre(outbox, gone, left[i]);
      var j :| 0 <= j < |outbox| && outbox[j] == left[i];
      assert SameCount(outbox[j], left[i]);
    }
  }

  lemma DueCounts(a: Outbox, b: Outbox, c: Outbox, ids: set<u32>, now: int)
    requires SubCounts(a, b) && DueNow(b, c, ids, now)
    ensures SubCounts(a, c)
  {
    forall i | 0 <= i < |c| ensures Found(a, c[i]) {
      assert Found(a, b[i]);
      var j :| 0 <= j < |a| && SameCount(a[j], b[i]);
      assert SameCount(a[j], c[i]);
    }
  }

  lemma ReadCounts(p: Peer, f: Bytes, now: nat)
    requires p.congestion.window > 0 && Distinct(p.outbox)
    ensures SubCounts(p.outbox, Read(p, f, now).peer.outbox)
  {
    hide SubCounts, Decode, Answered, Taken;
    SelfCounts(p.outbox);
    var d := Decode(f);
    if d.Received? {
      AnsweredCounts(p.(congestion := CC.ReceivedDatagram(p.congestion, d.header.id, !d.header.data, now)), d.header, now);
    }
  }

  lemma StepTallied(me: Half, other: Half, e: Event, now: nat)
    requires Inv(me, other) && Enabled(me, other, e, now) && Tallied(me.peer.outbox, me.log)
    ensures var h := Step(me, other, e, now); Tallied(h.peer.outbox, h.log)
  {
    SendIsNew(me, other);
    hide Tallied, Distinct, Inv, Queueing, Sending, Read, OnlyLastUnreliable, Chosen, SubCounts;
    match e
    case Enqueue(_, _, _) => EnqueueKnown(me, other); EnqueueTallied(me, OrderOf(me, e), now);
    case Send => SendTallied(me, other, now);
    case SendAcks => AckingTallied(me, now);
    case Receive(id) =>
      ReadCounts(me.peer, BytesOf(other.log[id]), now);
      SubTallied(me.peer.outbox, Read(me.peer, BytesOf(other.log[id]), now).peer.outbox, me.log);
    case Update =>
  }

  lemma EnqueueKnown(me: Half, other: Half)
    requires Inv(me, other)
    ensures Numbered(me) && Logged(me.log, me.messages)
  {
    hide Pair, Labelled, Logged, Boxed, Made, Filed, Steady, Numbered;
  }

  lemma AckingTallied(me: Half, now: nat)
    requires Tallied(me.peer.outbox, me.log) && me.peer.congestion.nextDatagram !in me.log
    ensures var h := Acking(me, now); Tallied(h.peer.outbox, h.log)
  {
    var h := Acking(me, now);
    forall id: u32 ensures Copies(h.log, id) == Copies(me.log, id) {
    }
    hide Copies;
  }

  lemma {:induction false} RunTallied(start: Setting, moves: seq<Move>, right: bool)
    requires Run(start, moves).Some?
    ensures var h := SideOf(Run(start, moves).value, right); Tallied(h.peer.outbox, h.log)
    decreases |moves|
  {
    if moves != [] {
      hide Tallied, Enabled, Step, Inv;
      var n := |moves| - 1;
      var w, m := Run(start, moves[..n]).value, moves[n];
      RunTallied(start, moves[..n], right);
      if m.left != right {
        RunKeeps(start, moves[..n]);
        InvSwap(w.left, w.right);
        StepTallied(SideOf(w, right), SideOf(w, !right), m.event, m.now);
      }
    }
  }

  /**
    Over every run: no packet goes out in more than six datagrams, and one
    still queued has been counted exactly as often as it went out.
   */
  lemma SentAtMostSixTimes(start: Setting, moves: seq<Move>, right: bool, id: u32)
    requires Run(start, moves).Some?
    ensures var h := SideOf(Run(start, moves).value, right);
      && |Copies(h.log, id)| <= 6
      && forall i :: 0 <= i < |h.peer.outbox| && h.peer.outbox[i].id == id ==> h.peer.outbox[i].sendCount == |Copies(h.log, id)|
  {
    hide Run, Copies;
    RunTallied(start, moves, right);
  }
}
