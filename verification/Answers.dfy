/** What answers do to a peer, said without the searches and loops that do it. */
module Answers {
  import opened Types
  import CC = Congestion
  import RT = Receipts
  import opened Builders
  import opened RemotePeers

  // --- Which datagrams a list of numbers strikes off ---

  /** One pass over the sentbox: a number strikes off as many datagrams as it is listed times, from the front. */
  ghost function Struck(box: seq<Sent>, ids: multiset<u32>): seq<Sent> {
    if box == [] then []
    else if box[0].id in ids then [box[0]] + Struck(box[1..], ids - multiset{box[0].id})
    else Struck(box[1..], ids)
  }

  ghost function Left(box: seq<Sent>, ids: multiset<u32>): seq<Sent> {
    if box == [] then []
    else if box[0].id in ids then Left(box[1..], ids - multiset{box[0].id})
    else [box[0]] + Left(box[1..], ids)
  }

  /** The packets these datagrams stand for. */
  ghost function Books(box: seq<Sent>): set<u32> {
    if box == [] then {} else Listed(box[0].packets) + Books(box[1..])
  }

  ghost function Listed(ids: seq<u32>): set<u32> {
    set i | 0 <= i < |ids| :: ids[i]
  }

  lemma FirstInLine(box: seq<Sent>, ids: multiset<u32>)
    requires box != []
    ensures box[0].id in ids ==>
      && Left(box, ids) == Left(box[1..], ids - multiset{box[0].id})
      && Books(Struck(box, ids)) == Listed(box[0].packets) + Books(Struck(box[1..], ids - multiset{box[0].id}))
    ensures box[0].id !in ids ==>
      Left(box, ids) == [box[0]] + Left(box[1..], ids) && Books(Struck(box, ids)) == Books(Struck(box[1..], ids))
  {
    hide Listed;
    if box[0].id in ids {
      assert Struck(box, ids)[1..] == Struck(box[1..], ids - multiset{box[0].id});
    }
  }

  /** One more number strikes off the first datagram left with that number. */
  ghost predicate OneMore(left: seq<Sent>, left': seq<Sent>, books: set<u32>, books': set<u32>, x: u32) {
    var k := IndexOf(left, x);
    if k < |left| then left' == Without(left, k) && books' == books + Listed(left[k].packets)
    else left' == left && books' == books
  }

  lemma {:induction false} OneMoreStrike(box: seq<Sent>, ids: multiset<u32>, x: u32)
    ensures OneMore(Left(box, ids), Left(box, ids + multiset{x}), Books(Struck(box, ids)), Books(Struck(box, ids + multiset{x})), x)
    decreases |box|
  {
    hide Listed, Left, Struck, Books, OneMore;
    var more := ids + multiset{x};
    if box == [] {
      NothingSent(ids, x);
    } else {
      var d, rest := box[0], box[1..];
      FirstInLine(box, ids);
      FirstInLine(box, more);
      if d.id in ids {
        var fewer := ids - multiset{d.id};
        OneMoreStrike(rest, fewer, x);
        assert more - multiset{d.id} == fewer + multiset{x};
        StrikeBesides(Left(rest, fewer), Left(rest, fewer + multiset{x}), Books(Struck(rest, fewer)),
                      Books(Struck(rest, fewer + multiset{x})), x, Listed(d.packets));
      } else if d.id == x {
        assert more - multiset{x} == ids;
        StrikeFirst(d, Left(rest, ids), Books(Struck(rest, ids)));
      } else {
        OneMoreStrike(rest, ids, x);
        StrikeBehind(d, Left(rest, ids), Left(rest, more), Books(Struck(rest, ids)), Books(Struck(rest, more)), x);
      }
    }
  }

  lemma StrikeFirst(d: Sent, left: seq<Sent>, books: set<u32>)
    ensures OneMore([d] + left, left, books, Listed(d.packets) + books, d.id)
  {
    assert ([d] + left)[1..] == left;
  }

  lemma StrikeBehind(d: Sent, left: seq<Sent>, left': seq<Sent>, books: set<u32>, books': set<u32>, x: u32)
    requires OneMore(left, left', books, books', x) && d.id != x
    ensures OneMore([d] + left, [d] + left', books, books', x)
  {
    hide Listed;
    var k := IndexOf(left, x);
    assert IndexOf([d] + left, x) == 1 + k by { assert ([d] + left)[1..] == left; }
    hide IndexOf;
    if k < |left| {
      assert Without([d] + left, 1 + k) == [d] + Without(left, k);
    }
  }

  lemma StrikeBesides(left: seq<Sent>, left': seq<Sent>, books: set<u32>, books': set<u32>, x: u32, other: set<u32>)
    requires OneMore(left, left', books, books', x)
    ensures OneMore(left, left', other + books, other + books', x)
  {
    hide IndexOf, Listed;
  }

  lemma NothingSent(ids: multiset<u32>, x: u32)
    ensures OneMore(Left([], ids), Left([], ids + multiset{x}), Books(Struck([], ids)), Books(Struck([], ids + multiset{x})), x)
  {
  }

  lemma ListedLast(ids: seq<u32>)
    requires ids != []
    ensures var n := |ids| - 1; multiset(ids) == multiset(ids[..n]) + multiset{ids[n]}
  {
    assert ids == ids[..|ids| - 1] + [ids[|ids| - 1]];
  }

  lemma NoStrike(box: seq<Sent>)
    ensures Left(box, multiset{}) == box && Struck(box, multiset{}) == []
  {
    if box != [] {
      NoStrike(box[1..]);
    }
  }

  // --- Acknowledgements ---

  /** The packets with other numbers, in order. */
  function Others(outbox: Outbox, gone: set<u32>): Outbox {
    if outbox == [] then []
    else if outbox[0].id in gone then Others(outbox[1..], gone)
    else [outbox[0]] + Others(outbox[1..], gone)
  }

  lemma {:induction false} OthersAll(outbox: Outbox, gone: set<u32>)
    requires forall i :: 0 <= i < |outbox| ==> outbox[i].id !in gone
    ensures Others(outbox, gone) == outbox
    decreases |outbox|
  {
    if outbox != [] {
      OthersAll(outbox[1..], gone);
    }
  }

  lemma {:induction false} OthersTwice(outbox: Outbox, a: set<u32>, b: set<u32>)
    ensures Others(Others(outbox, a), b) == Others(outbox, a + b)
    decreases |outbox|
  {
    if outbox != [] {
      OthersTwice(outbox[1..], a, b);
      if outbox[0].id !in a {
        assert Others(outbox, a)[1..] == Others(outbox[1..], a);
      }
    }
  }

  /** Exactly the packets with other numbers are left. */
  lemma {:induction false} OthersAre(outbox: Outbox, gone: set<u32>, q: Outgoing)
    ensures q in Others(outbox, gone) <==> q in outbox && q.id !in gone
    decreases |outbox|
  {
    if outbox != [] {
      OthersAre(outbox[1..], gone, q);
      assert outbox == [outbox[0]] + outbox[1..];
    }
  }

  lemma {:induction false} OthersDistinct(outbox: Outbox, gone: set<u32>)
    requires Distinct(outbox)
    ensures Distinct(Others(outbox, gone))
    decreases |outbox|
  {
    if outbox != [] {
      var rest := Others(outbox[1..], gone);
      OthersDistinct(outbox[1..], gone);
      forall i | 0 <= i < |rest| ensures rest[i].id != outbox[0].id {
        OthersAre(outbox[1..], gone, rest[i]);
      }
    }
  }

  lemma {:induction false} RemovedIsOthers(outbox: Outbox, id: u32)
    requires Distinct(outbox)
    ensures Removed(outbox, id) == Others(outbox, {id})
    decreases |outbox|
  {
    if outbox != [] {
      if outbox[0].id == id {
        OthersAll(outbox[1..], {id});
      } else {
        RemovedIsOthers(outbox[1..], id);
      }
    }
  }

  /** Groups of segments are not empty and do not overlap. */
  ghost predicate Apart(splits: map<u32, set<u32>>) {
    && (forall c :: c in splits ==> splits[c] != {})
    && (forall c, d :: c in splits && d in splits && c != d ==> splits[c] !! splits[d])
  }

  /** Groups lose the numbers that have arrived; a group with none left is gone. */
  ghost predicate GroupsLose(splits: map<u32, set<u32>>, splits': map<u32, set<u32>>, gone: set<u32>) {
    && (forall c :: c in splits' ==> c in splits && splits'[c] == splits[c] - gone)
    && (forall c :: c in splits && !(splits[c] <= gone) ==> c in splits')
    && (Apart(splits) ==> Apart(splits'))
  }

  /**
    The tracker before and after some numbers have arrived. What leaves it are
    these numbers and the containers they complete; all of that, and nothing
    else, gets a positive receipt.
   */
  ghost predicate Reported(r: RT.State, r': RT.State, gone: set<u32>) {
    && GroupsLose(r.splits, r'.splits, gone)
    && r'.tracker <= r.tracker - gone
    && (forall n :: n in r.tracker && n !in r'.tracker ==> n in gone || (n in r.splits && r.splits[n] <= gone))
    && (Apart(r.splits) ==> forall c :: c in r.splits && r.splits[c] <= gone ==> c !in r'.tracker)
    && r.posted <= r'.posted
    && (forall n :: n in r.tracker && n !in r'.tracker ==> RT.Receipt(n, true) in r'.posted[|r.posted|..])
    && (forall x :: x in r'.posted[|r.posted|..] ==> x.acked && x.id in r.tracker && x.id !in r'.tracker)
  }

  lemma PostedReported(s: RT.State, id: u32)
    ensures var t := RT.Posted(s, id, true);
      && t.splits == s.splits && t.tracker == s.tracker - {id}
      && s.posted <= t.posted
      && t.posted[|s.posted|..] == if id in s.tracker then [RT.Receipt(id, true)] else []
  {
  }

  lemma WithoutLoses(splits: map<u32, set<u32>>, id: u32)
    ensures GroupsLose(splits, RT.Without(splits, id), {id})
    ensures var f := RT.Finished(splits, id);
      && (f.Some? ==> f.value in splits && splits[f.value] <= {id})
      && (Apart(splits) ==> forall c :: c in splits && splits[c] <= {id} ==> f == Some(c))
  {
    forall c | Apart(splits) && c in splits && splits[c] <= {id} ensures RT.Finished(splits, id) == Some(c) {
      assert splits[c] == {id};
    }
  }

  lemma AcknowledgedReported(s: RT.State, id: u32)
    ensures Reported(s, RT.Acknowledged(s, id), {id})
  {
    hide Apart, GroupsLose, RT.Without, RT.Finished;
    WithoutLoses(s.splits, id);
    var s1 := s.(splits := RT.Without(s.splits, id));
    var f := RT.Finished(s.splits, id);
    var s2 := if f.Some? then RT.Posted(s1, f.value, true) else s1;
    if f.Some? {
      PostedReported(s1, f.value);
    }
    PostedReported(s2, id);
    var t := RT.Acknowledged(s, id);
    assert t == RT.Posted(s2, id, true);
    hide RT.Posted, RT.Acknowledged;
    assert t.posted[|s.posted|..] == s2.posted[|s.posted|..] + t.posted[|s2.posted|..];
  }

  lemma ReportedBoth(a: RT.State, b: RT.State, c: RT.State, g: set<u32>, h: set<u32>)
    requires Reported(a, b, g) && Reported(b, c, h)
    ensures Reported(a, c, g + h)
  {
    GroupsLoseBoth(a.splits, b.splits, c.splits, g, h);
    hide GroupsLose;
    assert c.posted[|a.posted|..] == b.posted[|a.posted|..] + c.posted[|b.posted|..];
  }

  lemma GroupsLoseBoth(a: map<u32, set<u32>>, b: map<u32, set<u32>>, c: map<u32, set<u32>>, g: set<u32>, h: set<u32>)
    requires GroupsLose(a, b, g) && GroupsLose(b, c, h)
    ensures GroupsLose(a, c, g + h)
    ensures forall k :: k in a && a[k] <= g + h ==> a[k] <= g || (k in b && b[k] <= h)
    ensures forall k :: k in b && b[k] <= h ==> k in a && a[k] <= g + h
  {
  }

  /** The packets an acknowledged datagram stands for leave the outbox and are reported. */
  lemma {:induction false} DeliveredExactly(p: Peer, ids: seq<u32>)
    requires Distinct(p.outbox)
    ensures var q := Delivered(p, ids);
      q.outbox == Others(p.outbox, Listed(ids)) && Distinct(q.outbox) && Reported(p.receipts, q.receipts, Listed(ids))
    decreases |ids|
  {
    hide Others, Distinct, Reported, RT.Acknowledged, Removed;
    if ids == [] {
      assert Listed([]) == {};
      NobodyGone(p.outbox, p.receipts);
    } else {
      var n := |ids| - 1;
      var q, id := Delivered(p, ids[..n]), ids[n];
      DeliveredExactly(p, ids[..n]);
      assert Listed(ids) == Listed(ids[..n]) + {id};
      hide Listed;
      RemovedIsOthers(q.outbox, id);
      OthersTwice(p.outbox, Listed(ids[..n]), {id});
      OthersDistinct(q.outbox, {id});
      AcknowledgedReported(q.receipts, id);
      ReportedBoth(p.receipts, q.receipts, RT.Acknowledged(q.receipts, id), Listed(ids[..n]), {id});
    }
  }

  lemma NobodyGone(outbox: Outbox, r: RT.State)
    ensures Others(outbox, {}) == outbox && Reported(r, r, {})
  {
    OthersAll(outbox, {});
  }

  /**
    One acknowledgement: the first datagram with that number leaves the
    sentbox, its packets leave the outbox, and all of them that someone asked
    about are reported as delivered. Without such a datagram nothing changes
    but the congestion state.
   */
  lemma AckExactly(p: Peer, id: u32, now: nat, k: nat)
    requires p.congestion.window > 0 && Distinct(p.outbox)
    requires k <= |p.sentbox| && (k < |p.sentbox| ==> p.sentbox[k].id == id) && forall j :: 0 <= j < k ==> p.sentbox[j].id != id
    ensures var q, gone := Ack(p, id, now), if k < |p.sentbox| then Listed(p.sentbox[k].packets) else {};
      && q.sentbox == (if k < |p.sentbox| then p.sentbox[..k] + p.sentbox[k + 1..] else p.sentbox)
      && q.outbox == Others(p.outbox, gone) && Distinct(q.outbox) && Reported(p.receipts, q.receipts, gone)
      && q.congestion == CC.Acked(p.congestion, id, now)
  {
    assert IndexOf(p.sentbox, id) == k;
    hide Others, Distinct, Reported, Delivered, CC.Acked, Listed, IndexOf;
    if k < |p.sentbox| {
      DeliveredExactly(p, p.sentbox[k].packets);
    } else {
      NobodyGone(p.outbox, p.receipts);
    }
  }

  /** A peer once these packets have been acknowledged, with this sentbox left. */
  ghost predicate Acknowledged(p: Peer, q: Peer, left: seq<Sent>, gone: set<u32>) {
    && q.sentbox == left && q.outbox == Others(p.outbox, gone) && Distinct(q.outbox) && Reported(p.receipts, q.receipts, gone)
  }

  lemma OneMoreAck(p: Peer, q: Peer, left: seq<Sent>, left': seq<Sent>, gone: set<u32>, gone': set<u32>, id: u32, now: nat)
    requires Distinct(p.outbox) && q.congestion.window > 0
    requires Acknowledged(p, q, left, gone) && OneMore(left, left', gone, gone', id)
    ensures Acknowledged(p, Ack(q, id, now), left', gone')
  {
    var k := IndexOf(q.sentbox, id);
    AckExactly(q, id, now, k);
    hide Others, Distinct, Reported, Ack, Listed, IndexOf;
    var here := if k < |q.sentbox| then Listed(q.sentbox[k].packets) else {};
    OthersTwice(p.outbox, gone, here);
    ReportedBoth(p.receipts, q.receipts, Ack(q, id, now).receipts, gone, here);
    assert gone' == gone + here;
  }

  /** A whole list of acknowledgements, in one pass over the sentbox and one over the outbox. */
  lemma {:induction false} AcksExactly(p: Peer, ids: seq<u32>, now: nat)
    requires p.congestion.window > 0 && Distinct(p.outbox)
    ensures Acknowledged(p, Acks(p, ids, now), Left(p.sentbox, multiset(ids)), Books(Struck(p.sentbox, multiset(ids))))
    decreases |ids|
  {
    if ids == [] {
      hide Others, Distinct, Reported;
      NoStrike(p.sentbox);
      NobodyGone(p.outbox, p.receipts);
    } else {
      hide Acknowledged, Distinct, Left, Struck, Books, OneMore, Ack;
      var n := |ids| - 1;
      AcksExactly(p, ids[..n], now);
      ListedLast(ids);
      OneMoreStrike(p.sentbox, multiset(ids[..n]), ids[n]);
      OneMoreAck(p, Acks(p, ids[..n], now), Left(p.sentbox, multiset(ids[..n])), Left(p.sentbox, multiset(ids)),
                 Books(Struck(p.sentbox, multiset(ids[..n]))), Books(Struck(p.sentbox, multiset(ids))), ids[n], now);
    }
  }

  /** All of the list land: nothing listed is in flight any more, and everything else still is. */
  lemma {:induction false} AcksLand(p: Peer, ids: seq<u32>, now: nat)
    requires p.congestion.window > 0
    ensures Acks(p, ids, now).congestion.outgoing == p.congestion.outgoing - Listed(ids)
    ensures Acks(p, ids, now).congestion.window >= p.congestion.window + |ids|
    decreases |ids|
  {
    hide Ack;
    if ids == [] {
      assert p.congestion.outgoing - Listed([]) == p.congestion.outgoing;
    } else {
      var n := |ids| - 1;
      AcksLand(p, ids[..n], now);
      AckLands(Acks(p, ids[..n], now), ids[n], now);
      LessListed(p.congestion.outgoing, ids);
      hide Listed;
    }
  }

  lemma LessListed(m: map<u32, CC.InFlight>, ids: seq<u32>)
    requires ids != []
    ensures var n := |ids| - 1; m - Listed(ids) == m - Listed(ids[..n]) - {ids[n]}
  {
    assert Listed(ids) == Listed(ids[..|ids| - 1]) + {ids[|ids| - 1]};
  }

  lemma AckLands(p: Peer, id: u32, now: nat)
    requires p.congestion.window > 0
    ensures Ack(p, id, now).congestion.outgoing == p.congestion.outgoing - {id}
    ensures Ack(p, id, now).congestion.window > p.congestion.window
  {
    hide Delivered, IndexOf, CC.Statistics, CC.Sampled;
    assert MTU * MTU / p.congestion.window >= 0;
  }

  // --- Reports of missing datagrams ---

  /** These packets are due now, and nothing else about the outbox changes. */
  ghost predicate DueNow(outbox: Outbox, outbox': Outbox, ids: set<u32>, now: int) {
    && |outbox'| == |outbox|
    && forall i :: 0 <= i < |outbox| ==> outbox'[i] == if outbox[i].id in ids then outbox[i].(sendNext := now) else outbox[i]
  }

  lemma {:induction false} HurriedExactly(outbox: Outbox, id: u32, now: int)
    requires Distinct(outbox)
    ensures DueNow(outbox, Hurried(outbox, id, now), {id}, now)
    decreases |outbox|
  {
    if outbox != [] && outbox[0].id != id {
      HurriedExactly(outbox[1..], id, now);
    }
  }

  lemma DueBoth(a: Outbox, b: Outbox, c: Outbox, g: set<u32>, h: set<u32>, now: int)
    requires DueNow(a, b, g, now) && DueNow(b, c, h, now)
    ensures DueNow(a, c, g + h, now)
  {
  }

  lemma DueDistinct(a: Outbox, b: Outbox, g: set<u32>, now: int)
    requires DueNow(a, b, g, now) && Distinct(a)
    ensures Distinct(b)
  {
  }

  lemma {:induction false} HurriedAllExactly(outbox: Outbox, ids: seq<u32>, now: int)
    requires Distinct(outbox)
    ensures DueNow(outbox, HurriedAll(outbox, ids, now), Listed(ids), now)
    decreases |ids|
  {
    if ids != [] {
      var n := |ids| - 1;
      HurriedAllExactly(outbox, ids[..n], now);
      assert Listed(ids) == Listed(ids[..n]) + {ids[n]};
      hide DueNow, Distinct, Hurried, Listed;
      var before := HurriedAll(outbox, ids[..n], now);
      DueDistinct(outbox, before, Listed(ids[..n]), now);
      HurriedExactly(before, ids[n], now);
      DueBoth(outbox, before, Hurried(before, ids[n], now), Listed(ids[..n]), {ids[n]}, now);
    }
  }

  lemma NackExactly(p: Peer, id: u32, now: nat)
    requires Distinct(p.outbox)
    ensures var q, k := Nack(p, id, now), IndexOf(p.sentbox, id);
      && q.sentbox == (if k < |p.sentbox| then Without(p.sentbox, k) else p.sentbox)
      && DueNow(p.outbox, q.outbox, if k < |p.sentbox| then Listed(p.sentbox[k].packets) else {}, now)
      && Distinct(q.outbox) && q.receipts == p.receipts && q.congestion == p.congestion
  {
    var k := IndexOf(p.sentbox, id);
    if k < |p.sentbox| {
      HurriedAllExactly(p.outbox, p.sentbox[k].packets, now);
      hide HurriedAll, Listed, IndexOf;
      DueDistinct(p.outbox, Nack(p, id, now).outbox, Listed(p.sentbox[k].packets), now);
    }
  }

  lemma {:induction false} NackEachExactly(p: Peer, ids: seq<u32>, now: nat)
    requires Distinct(p.outbox)
    ensures var q := NackEach(p, ids, now);
      && q.sentbox == Left(p.sentbox, multiset(ids))
      && DueNow(p.outbox, q.outbox, Books(Struck(p.sentbox, multiset(ids))), now)
      && Distinct(q.outbox) && q.receipts == p.receipts && q.congestion == p.congestion
    decreases |ids|
  {
    if ids == [] {
      NoStrike(p.sentbox);
    } else {
      hide DueNow, Distinct, Nack, Left, Struck, Books, Listed, Without;
      var n := |ids| - 1;
      var q, id := NackEach(p, ids[..n], now), ids[n];
      NackEachExactly(p, ids[..n], now);
      ListedLast(ids);
      OneMoreStrike(p.sentbox, multiset(ids[..n]), id);
      NackExactly(q, id, now);
      var k := IndexOf(q.sentbox, id);
      hide IndexOf;
      DueBoth(p.outbox, q.outbox, Nack(q, id, now).outbox, Books(Struck(p.sentbox, multiset(ids[..n]))),
              if k < |q.sentbox| then Listed(q.sentbox[k].packets) else {}, now);
    }
  }

  /**
    A list of missing datagrams: they leave the sentbox, their packets are due
    at once, everything else about the outbox and the receipts stays, and the
    window starts over once, however long the list.
   */
  lemma NacksExactly(p: Peer, ids: seq<u32>, now: nat)
    requires Distinct(p.outbox)
    ensures var q := Nacks(p, ids, now);
      && q.sentbox == Left(p.sentbox, multiset(ids))
      && DueNow(p.outbox, q.outbox, Books(Struck(p.sentbox, multiset(ids))), now)
      && q.receipts == p.receipts
      && q.congestion == p.congestion.(window := 1300,
                                       threshold := if p.congestion.window >= 5200 then p.congestion.window / 2 else 2600)
  {
    hide NackEach;
    NackEachExactly(p, ids, now);
  }

  // --- Datagrams nobody answers ---

  /** The datagrams whose time is up, in order. */
  ghost function Stale(box: seq<Sent>, now: nat): seq<Sent> {
    if box == [] then [] else (if now >= box[0].discard then [box[0]] else []) + Stale(box[1..], now)
  }

  /** These numbers leave the tracker and are reported lost, each once; nothing else changes. */
  ghost predicate ReportedLost(r: RT.State, r': RT.State, gone: set<u32>) {
    && r'.splits == r.splits && r'.tracker == r.tracker - gone && r.posted <= r'.posted
    && (forall n :: n in r.tracker && n in gone ==> RT.Receipt(n, false) in r'.posted[|r.posted|..])
    && OnceEachLost(r'.posted[|r.posted|..], r.tracker * gone)
  }

  ghost predicate OnceEachLost(news: seq<RT.Receipt>, gone: set<u32>) {
    && (forall i :: 0 <= i < |news| ==> !news[i].acked && news[i].id in gone)
    && (forall i, j :: 0 <= i < j < |news| ==> news[i].id != news[j].id)
  }

  lemma PostedLost(s: RT.State, id: u32)
    ensures ReportedLost(s, RT.Posted(s, id, false), {id})
  {
  }

  lemma ReportedLostBoth(a: RT.State, b: RT.State, c: RT.State, g: set<u32>, h: set<u32>)
    requires ReportedLost(a, b, g) && ReportedLost(b, c, h)
    ensures ReportedLost(a, c, g + h)
  {
    var first, second := b.posted[|a.posted|..], c.posted[|b.posted|..];
    assert c.posted[|a.posted|..] == first + second;
    OnceEachBoth(first, second, a.tracker * g, b.tracker * h);
    assert a.tracker * g + b.tracker * h == a.tracker * (g + h);
    assert forall x :: x in first || x in second ==> x in first + second;
  }

  lemma OnceEachBoth(first: seq<RT.Receipt>, second: seq<RT.Receipt>, g: set<u32>, h: set<u32>)
    requires OnceEachLost(first, g) && OnceEachLost(second, h) && g !! h
    ensures OnceEachLost(first + second, g + h)
  {
  }

  lemma {:induction false} LostExactly(s: RT.State, ids: seq<u32>)
    ensures ReportedLost(s, RT.Lost(s, ids), Listed(ids))
    decreases |ids|
  {
    if ids != [] {
      var n := |ids| - 1;
      LostExactly(s, ids[..n]);
      assert Listed(ids) == Listed(ids[..n]) + {ids[n]};
      hide Listed, ReportedLost;
      PostedLost(RT.Lost(s, ids[..n]), ids[n]);
      ReportedLostBoth(s, RT.Lost(s, ids[..n]), RT.Lost(s, ids), Listed(ids[..n]), {ids[n]});
    }
  }

  lemma {:induction false} StaleSnoc(box: seq<Sent>, d: Sent, now: nat)
    ensures Stale(box + [d], now) == Stale(box, now) + if now >= d.discard then [d] else []
    decreases |box|
  {
    if box != [] {
      StaleSnoc(box[1..], d, now);
      assert (box + [d])[1..] == box[1..] + [d];
    } else {
      assert [d][1..] == [];
    }
  }

  lemma {:induction false} BooksBoth(a: seq<Sent>, b: seq<Sent>)
    ensures Books(a + b) == Books(a) + Books(b)
    decreases |a|
  {
    hide Listed;
    if a == [] {
      assert a + b == b;
    } else {
      BooksBoth(a[1..], b);
      assert (a + b)[1..] == a[1..] + b;
    }
  }

  lemma {:induction false} LostReceiptsExactly(r: RT.State, box: seq<Sent>, now: nat)
    ensures ReportedLost(r, LostReceipts(r, box, now), Books(Stale(box, now)))
    decreases |box|
  {
    if box != [] {
      var n := |box| - 1;
      var d, before := box[n], LostReceipts(r, box[..n], now);
      LostReceiptsExactly(r, box[..n], now);
      assert box == box[..n] + [d];
      StaleSnoc(box[..n], d, now);
      hide Stale, ReportedLost, Listed;
      if now >= d.discard {
        BooksBoth(Stale(box[..n], now), [d]);
        assert [d][1..] == [];
        assert Books([d]) == Listed(d.packets);
        LostExactly(before, d.packets);
        ReportedLostBoth(r, before, RT.Lost(before, d.packets), Books(Stale(box[..n], now)), Listed(d.packets));
      } else {
        assert Stale(box[..n], now) + [] == Stale(box[..n], now);
      }
    }
  }

  lemma {:induction false} KeptExactly(box: seq<Sent>, now: nat, d: Sent)
    ensures multiset(Kept(box, now))[d] == if now < d.discard then multiset(box)[d] else 0
    decreases |box|
  {
    if box != [] {
      KeptExactly(box[..|box| - 1], now, d);
      assert box == box[..|box| - 1] + [box[|box| - 1]];
    }
  }

  lemma {:induction false} KeptInOrder(a: seq<Sent>, b: seq<Sent>, now: nat)
    ensures Kept(a + b, now) == Kept(a, now) + Kept(b, now)
    decreases |b|
  {
    if b == [] {
      assert a + b == a;
    } else {
      KeptInOrder(a, b[..|b| - 1], now);
      assert (a + b)[..|a + b| - 1] == a + b[..|b| - 1];
    }
  }

  /**
    The datagrams whose time is up leave the sentbox and no others, the rest
    in order; their packets still open are reported lost, each once. The
    outbox stays: reliable packets are still sent again.
   */
  lemma PrunedExactly(p: Peer, now: nat, d: Sent)
    ensures var q := Pruned(p, now);
      && multiset(q.sentbox)[d] == (if now < d.discard then multiset(p.sentbox)[d] else 0)
      && ReportedLost(p.receipts, q.receipts, Books(Stale(p.sentbox, now)))
      && q.outbox == p.outbox && q.congestion == p.congestion
  {
    hide Kept, LostReceipts, ReportedLost;
    KeptExactly(p.sentbox, now, d);
    LostReceiptsExactly(p.receipts, p.sentbox, now);
  }

  /** A data datagram waits five seconds for its answer, a datagram of acknowledgements one second. */
  lemma WaitsForAnswer(p: Peer, link: bool, now: nat, later: nat)
    requires p.congestion.bytesInFlight >= 0
    ensures var next := NextDatagram(p, link, now);
      next.0.Built? ==>
        Pruned(next.1, later).sentbox == Pruned(p, later).sentbox + if later < now + 5 * SECOND then [next.0.datagram] else []
    ensures var next := NextAckgram(p, now);
      Pruned(next.1, later).sentbox == Pruned(p, later).sentbox + if later < now + 1 * SECOND then [next.0] else []
  {
    hide Chosen, Exhausted, Overdue, Scheduled, Written, Ids, Picked, Kept, LostReceipts;
    var next, ackgram := NextDatagram(p, link, now), NextAckgram(p, now).0;
    KeptOne(ackgram, later);
    KeptInOrder(p.sentbox, [ackgram], later);
    if next.0.Built? {
      KeptOne(next.0.datagram, later);
      KeptInOrder(p.sentbox, [next.0.datagram], later);
    }
  }

  lemma KeptOne(d: Sent, now: nat)
    ensures Kept([d], now) == if now < d.discard then [d] else []
  {
    assert [d][..0] == [];
  }
}
