/** What a peer makes of a datagram, said without the parsing and handling that does it. */
module ReadingDatagrams {
  import opened Types
  import opened Serial
  import opened Wire
  import CC = Congestion
  import DH = DatagramHeaders
  import opened Datagrams
  import opened Builders
  import opened RemotePeers
  import opened Queues
  import opened Protocol
  import opened Answers

  // --- Acknowledgements ---

  /** Both lists go out, in full, under the next number; none are pending afterwards, and nothing else changes. */
  lemma AckgramExactly(p: Peer, now: nat)
    requires |p.congestion.acks| <= DH.MAX_IDS && |p.congestion.nacks| <= DH.MAX_IDS
    requires p.congestion.acks != [] || p.congestion.nacks != []
    ensures var d, q := NextAckgram(p, now).0, NextAckgram(p, now).1;
      && d.id == p.congestion.nextDatagram && d.packets == []
      && Decode(d.blob).Received? && Decode(d.blob).messages == []
      && Decode(d.blob).header == DH.DatagramHeader(false, true, d.id, p.congestion.acks, p.congestion.nacks, 0)
      && q == p.(sentbox := p.sentbox + [d],
                 congestion := p.congestion.(acks := [], nacks := [], nextDatagram := Wrap(d.id + 1)))
  {
    hide Decode, Encode;
    AckDecodes(p.congestion.nextDatagram, p.congestion.acks, p.congestion.nacks);
  }

  lemma ReadAckgram(p: Peer, id: u32, acks: seq<u32>, nacks: seq<u32>, now: nat)
    requires p.congestion.window > 0 && id !in p.congestion.datagramHistory
    requires |acks| <= DH.MAX_IDS && |nacks| <= DH.MAX_IDS && (acks != [] || nacks != [])
    ensures var p1 := p.(congestion := CC.ReceivedDatagram(p.congestion, id, true, now));
      Read(p, Encode(AckHeader(id, acks, nacks), []), now) == Reading(false, Answered(p1, AckHeader(id, acks, nacks), now), [])
  {
    AckDecodes(id, acks, nacks);
    hide Decode, Encode, Answered, CC.ReceivedDatagram;
  }

  /**
    A datagram of acknowledgements that is new: what it acknowledges leaves
    sentbox and outbox and is reported, then what it reports missing leaves
    the sentbox and is due at once. The number is remembered, but not
    acknowledged in turn.
   */
  lemma AnswersAreHeard(p: Peer, id: u32, acks: seq<u32>, nacks: seq<u32>, now: nat)
    requires p.congestion.window > 0 && Distinct(p.outbox) && id !in p.congestion.datagramHistory
    requires |acks| <= DH.MAX_IDS && |nacks| <= DH.MAX_IDS && (acks != [] || nacks != [])
    ensures var r := Read(p, Encode(AckHeader(id, acks, nacks), []), now);
      var left := Left(p.sentbox, multiset(acks));
      var gone := Books(Struck(p.sentbox, multiset(acks)));
      && !r.closed && r.taken == []
      && r.peer.sentbox == Left(left, multiset(nacks))
      && DueNow(Others(p.outbox, gone), r.peer.outbox, Books(Struck(left, multiset(nacks))), now)
      && Reported(p.receipts, r.peer.receipts, gone)
  {
    hide Encode, Read, Left, Struck, Books, Reported, Others, DueNow, Distinct, Acks, NackEach, CC.ReceivedDatagram;
    ReadAckgram(p, id, acks, nacks, now);
    var p1 := p.(congestion := CC.ReceivedDatagram(p.congestion, id, true, now));
    assert p1.congestion.window > 0 by { ReceivedKeepsWindow(p.congestion, id, now); }
    AcksExactly(p1, acks, now);
    var p2 := Acks(p1, acks, now);
    assert acks == [] ==> p2 == p1 by { NoAcks(p1, now); }
    NackEachExactly(p2, nacks, now);
    assert nacks == [] ==> NackEach(p2, nacks, now) == p2 by { NoNacks(p2, now); }
  }

  lemma ReceivedKeepsWindow(cc: CC.State, id: u32, now: nat)
    ensures CC.ReceivedDatagram(cc, id, true, now).window == cc.window
  {
  }

  lemma NoAcks(p: Peer, now: nat)
    requires p.congestion.window > 0
    ensures Acks(p, [], now) == p
  {
  }

  lemma NoNacks(p: Peer, now: nat)
    ensures NackEach(p, [], now) == p
  {
  }

  // --- Any datagram ---

  lemma {:induction false} AcksKeepDatagrams(p: Peer, ids: seq<u32>, now: nat)
    requires p.congestion.window > 0
    ensures Acks(p, ids, now).congestion.datagramHistory == p.congestion.datagramHistory
    decreases |ids|
  {
    hide CC.Statistics, CC.Sampled;
    if ids != [] {
      AcksKeepDatagrams(p, ids[..|ids| - 1], now);
    }
  }

  lemma {:induction false} NacksKeepCongestion(p: Peer, ids: seq<u32>, now: nat)
    ensures NackEach(p, ids, now).congestion == p.congestion
    decreases |ids|
  {
    if ids != [] {
      NacksKeepCongestion(p, ids[..|ids| - 1], now);
    }
  }

  lemma AnsweredKeepsDatagrams(p: Peer, h: DH.DatagramHeader, now: nat)
    requires p.congestion.window > 0
    ensures Answered(p, h, now).congestion.datagramHistory == p.congestion.datagramHistory
  {
    hide Acks, NackEach;
    AcksKeepDatagrams(p, h.acks, now);
    NacksKeepCongestion(if h.acks != [] then Acks(p, h.acks, now) else p, h.nacks, now);
  }

  lemma OpenedRemembers(p: Peer, h: DH.DatagramHeader, ms: seq<Message>, now: nat)
    requires p.congestion.window > 0
    ensures h.id in Opened(p, h, ms, now).peer.congestion.datagramHistory
  {
    var p1 := p.(congestion := CC.ReceivedDatagram(p.congestion, h.id, !h.data, now));
    assert h.id in p1.congestion.datagramHistory;
    hide CC.ReceivedDatagram;
    AnsweredKeepsDatagrams(p1, h, now);
    hide Answered;
    TakenIs(Answered(p1, h, now).congestion, ms, now);
    hide Taken;
  }

  /**
    Whatever the bytes: a datagram that closes the connection changes nothing
    else, and one that does not has no effect when it comes again.
   */
  lemma ReadTwice(p: Peer, f: Bytes, now: nat, later: nat)
    requires p.congestion.window > 0
    ensures var r := Read(p, f, now);
      if r.closed then r.peer == p && r.taken == []
      else Read(r.peer, f, later) == Reading(false, r.peer, [])
  {
    hide Decode, Opened;
    var d := Decode(f);
    if d.Received? {
      OpenedRemembers(p, d.header, d.messages, now);
    }
  }

  /** Datagrams from outside any connection pass by; ones too long for the MTU, or cut off, close it. */
  lemma StrangeDatagrams(p: Peer, f: Bytes, now: nat)
    requires p.congestion.window > 0
    ensures Offline(f) ==> Read(p, f, now) == Reading(false, p, [])
    ensures Decode(f).Malformed? ==> Read(p, f, now).closed
    ensures var d := Decode(f); d.Received? && d.header.data && d.start + d.header.dataLength > 1300 ==> Read(p, f, now).closed
  {
    hide Decode, Opened;
  }

  /** A data datagram that announces more payload than there is, or has less than two bytes of it, closes the connection. */
  lemma CutOffCloses(p: Peer, id: u32, link: bool, length: u16, payload: Bytes, now: nat)
    requires p.congestion.window > 0 && (|payload| < 2 || |payload| < length <= |payload| + 7)
    ensures Read(p, Encode(DataHeader(id, link, length), payload), now).closed
  {
    var h := DataHeader(id, link, length);
    var f := Encode(h, payload);
    hide PutAll, Put, DH.Layout, DH.Parse, ParseMessages, Wire.Extends;
    DH.LayoutSize(h);
    var w := PutAll(EMPTY, DH.Layout(h));
    PutAllConcat(EMPTY, DH.Layout(h), []);
    assert DH.Layout(h) + [] == DH.Layout(h);
    ExtendsPrefix(f, w);
    if |payload| < 2 {
      DH.TinyPayloadRefused(f, h);
    } else {
      DH.ParseInverts(f, h, []);
    }
  }
}
