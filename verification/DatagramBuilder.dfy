/** Choosing queued packets for the next datagram, and writing them out. */
module Builders {
  import opened Types

  const SEND_RETRY_COUNT: nat := 6

  /** A queued packet: its wire bytes, its options, when to send it next and how often it was sent. */
  datatype Outgoing = Outgoing(id: u32, blob: Bytes, reliable: bool, receipt: bool, sendNext: int, sendCount: nat)

  type Outbox = seq<Outgoing>

  // --- Choosing ---

  predicate Suitable(p: Outgoing, max: nat, resend: bool, now: int) {
    |p.blob| <= max && (p.sendCount > 0 <==> resend) && now >= p.sendNext
  }

  /** Looks for the first suitable packet from the front of the outbox; its length when there is none. */
  method GetQueuedPacket(outbox: Outbox, max: nat, resend: bool, now: int) returns (k: nat)
    ensures k <= |outbox|
    ensures k < |outbox| ==> Suitable(outbox[k], max, resend, now)
    ensures forall j :: 0 <= j < k ==> !Suitable(outbox[j], max, resend, now)
  {
    k := 0;
    while k < |outbox| && !Suitable(outbox[k], max, resend, now)
      invariant k <= |outbox|
      invariant forall j :: 0 <= j < k ==> !Suitable(outbox[j], max, resend, now)
    {
      k := k + 1;
    }
  }

  /** One pass over the outbox that takes every new packet still fitting the budget. */
  function Greedy(outbox: Outbox, i: nat, budget: nat, now: int): (sel: seq<nat>)
    requires i <= |outbox|
    ensures forall a :: 0 <= a < |sel| ==> i <= sel[a] < |outbox|
    ensures forall a, b :: 0 <= a < b < |sel| ==> sel[a] < sel[b]
    decreases |outbox| - i
  {
    if i == |outbox| || budget == 0 then []
    else if Suitable(outbox[i], budget, false, now) then [i] + Greedy(outbox, i + 1, budget - |outbox[i].blob|, now)
    else Greedy(outbox, i + 1, budget, now)
  }

  predicate Within(outbox: Outbox, sel: seq<nat>) {
    forall a :: 0 <= a < |sel| ==> sel[a] < |outbox|
  }

  function Payload(outbox: Outbox, sel: seq<nat>): nat
    requires Within(outbox, sel)
  {
    if sel == [] then 0 else |outbox[sel[0]].blob| + Payload(outbox, sel[1..])
  }

  /** The choice is new and due, fits the budget, and leaves out no packet that would still have fitted. */
  ghost predicate Fills(outbox: Outbox, i: nat, sel: seq<nat>, budget: nat, now: int) {
    && Within(outbox, sel) && Payload(outbox, sel) <= budget
    && (forall a :: 0 <= a < |sel| ==> Suitable(outbox[sel[a]], budget, false, now))
    && (forall k :: i <= k < |outbox| && Suitable(outbox[k], budget - Payload(outbox, sel), false, now)
          ==> k in sel || Payload(outbox, sel) == budget)
  }

  lemma {:induction false} GreedyFills(outbox: Outbox, i: nat, budget: nat, now: int)
    requires i <= |outbox|
    ensures Fills(outbox, i, Greedy(outbox, i, budget, now), budget, now)
    decreases |outbox| - i
  {
    if i < |outbox| && budget > 0 {
      hide Fills, Suitable, Payload;
      if Suitable(outbox[i], budget, false, now) {
        GreedyFills(outbox, i + 1, budget - |outbox[i].blob|, now);
        TakeOne(outbox, i, Greedy(outbox, i + 1, budget - |outbox[i].blob|, now), budget, now);
      } else {
        GreedyFills(outbox, i + 1, budget, now);
        SkipOne(outbox, i, Greedy(outbox, i + 1, budget, now), budget, now);
      }
    }
  }

  lemma SkipOne(outbox: Outbox, i: nat, sel: seq<nat>, budget: nat, now: int)
    requires i < |outbox| && !Suitable(outbox[i], budget, false, now) && Fills(outbox, i + 1, sel, budget, now)
    ensures Fills(outbox, i, sel, budget, now)
  {
  }

  lemma TakeOne(outbox: Outbox, i: nat, rest: seq<nat>, budget: nat, now: int)
    requires i < |outbox| && Suitable(outbox[i], budget, false, now)
    requires Fills(outbox, i + 1, rest, budget - |outbox[i].blob|, now)
    ensures Fills(outbox, i, [i] + rest, budget, now)
  {
    var sel := [i] + rest;
    assert sel[1..] == rest;
    assert Payload(outbox, sel) == |outbox[i].blob| + Payload(outbox, rest);
    forall k | i <= k < |outbox| && Suitable(outbox[k], budget - Payload(outbox, sel), false, now)
      ensures k in sel || Payload(outbox, sel) == budget
    {
      if k == i {
        assert sel[0] == k;
      } else if k in rest {
        assert k in [i] + rest;
      }
    }
  }

  /** The chosen places in front of the k-th. */
  function Below(sel: seq<nat>, k: nat): seq<nat> {
    if sel == [] || sel[0] >= k then [] else [sel[0]] + Below(sel[1..], k)
  }

  /** The k-th packet is chosen exactly when it is new, due, and fits what those before it leave. */
  ghost predicate Served(outbox: Outbox, sel: seq<nat>, budget: nat, now: int, k: nat)
    requires k < |outbox|
  {
    && Within(outbox, Below(sel, k)) && Payload(outbox, Below(sel, k)) <= budget
    && var left := budget - Payload(outbox, Below(sel, k));
    k in sel <==> left > 0 && Suitable(outbox[k], left, false, now)
  }

  lemma ServedBehind(outbox: Outbox, i: nat, rest: seq<nat>, budget: nat, now: int, k: nat)
    requires i < k < |outbox| && |outbox[i].blob| <= budget && Served(outbox, rest, budget - |outbox[i].blob|, now, k)
    ensures Served(outbox, [i] + rest, budget, now, k)
  {
    hide Suitable;
    var sel := [i] + rest;
    assert sel[1..] == rest;
    assert Below(sel, k)[1..] == Below(rest, k);
    assert k in sel <==> k in rest;
  }

  /** First come, first served. */
  lemma {:induction false} GreedyExactly(outbox: Outbox, i: nat, budget: nat, now: int, k: nat)
    requires i <= k < |outbox|
    ensures Served(outbox, Greedy(outbox, i, budget, now), budget, now, k)
    decreases k - i
  {
    if i < k && budget > 0 {
      hide Suitable, Served;
      if Suitable(outbox[i], budget, false, now) {
        FitsIn(outbox[i], budget, now);
        var left := budget - |outbox[i].blob|;
        GreedyExactly(outbox, i + 1, left, now, k);
        ServedBehind(outbox, i, Greedy(outbox, i + 1, left, now), budget, now, k);
      } else {
        GreedyExactly(outbox, i + 1, budget, now, k);
      }
    }
  }

  lemma FitsIn(p: Outgoing, budget: nat, now: int)
    requires Suitable(p, budget, false, now)
    ensures |p.blob| <= budget
  {
  }

  lemma {:induction false} GreedySkips(outbox: Outbox, i: nat, k: nat, budget: nat, now: int)
    requires i <= k <= |outbox| && budget > 0
    requires forall j :: i <= j < k ==> !Suitable(outbox[j], budget, false, now)
    ensures Greedy(outbox, i, budget, now) == Greedy(outbox, k, budget, now)
    decreases k - i
  {
    if i < k {
      GreedySkips(outbox, i + 1, k, budget, now);
    }
  }

  /** The outbox once the chosen packets have their next resend scheduled. */
  function Delayed(outbox: Outbox, sel: seq<nat>, due: int): (r: Outbox)
    ensures |r| == |outbox|
  {
    seq(|outbox|, i requires 0 <= i < |outbox| => if i in sel then outbox[i].(sendNext := due) else outbox[i])
  }

  lemma DelayedOneMore(outbox: Outbox, sel: seq<nat>, k: nat, due: int)
    requires k < |outbox|
    ensures Delayed(outbox, sel + [k], due) == Delayed(outbox, sel, due)[k := outbox[k].(sendNext := due)]
  {
    forall i | 0 <= i < |outbox| ensures i in sel + [k] <==> i in sel || i == k {
    }
  }

  /**
    The loop of the source searches from the front each time. Because a chosen
    packet is pushed into the future, that is the same as one greedy pass.
   */
  method AddNewPackets(outbox: Outbox, budget: nat, now: int, due: int) returns (sel: seq<nat>, outbox': Outbox)
    requires due > now
    ensures sel == Greedy(outbox, 0, budget, now)
    ensures outbox' == Delayed(outbox, sel, due)
  {
    hide Delayed, Suitable, Greedy, Progress;
    sel, outbox' := [], outbox;
    var left: nat := budget;
    ghost var next := 0;
    Begin(outbox, budget, now, due);
    while left > 0
      invariant next <= |outbox| == |outbox'|
      invariant Progress(outbox, outbox', sel, next, left, budget, now, due)
      decreases left > 0, |outbox| - next
    {
      var k := GetQueuedPacket(outbox', left, false, now);
      if k == |outbox'| {
        Exhausts(outbox, outbox', sel, next, left, budget, now, due);
        left := 0;
      } else {
        Advance(outbox, outbox', sel, next, left, budget, now, due, k);
        sel := sel + [k];
        left := left - |outbox'[k].blob|;
        outbox' := outbox'[k := outbox'[k].(sendNext := due)];
        next := k + 1;
      }
    }
    Finish(outbox, outbox', sel, next, budget, now, due);
  }

  /** The places before `next` are settled; the rest of the outbox is as it was. */
  ghost predicate Progress(outbox: Outbox, outbox': Outbox, sel: seq<nat>, next: nat, left: nat,
                           budget: nat, now: int, due: int)
  {
    && next <= |outbox| && |outbox'| == |outbox| && outbox' == Delayed(outbox, sel, due)
    && (if left > 0 then sel + Greedy(outbox, next, left, now) == Greedy(outbox, 0, budget, now)
        else sel == Greedy(outbox, 0, budget, now))
    && (forall j :: next <= j < |outbox| ==> outbox'[j] == outbox[j])
    && (left > 0 ==> forall j :: 0 <= j < next ==> !Suitable(outbox'[j], left, false, now))
  }

  lemma Begin(outbox: Outbox, budget: nat, now: int, due: int)
    ensures Progress(outbox, outbox, [], 0, budget, budget, now, due)
  {
    NoneDelayed(outbox, due);
    hide Delayed;
    assert [] + Greedy(outbox, 0, budget, now) == Greedy(outbox, 0, budget, now);
  }

  lemma Exhausts(outbox: Outbox, outbox': Outbox, sel: seq<nat>, next: nat, left: nat, budget: nat, now: int, due: int)
    requires left > 0 && Progress(outbox, outbox', sel, next, left, budget, now, due)
    requires forall j :: 0 <= j < |outbox'| ==> !Suitable(outbox'[j], left, false, now)
    ensures Progress(outbox, outbox', sel, next, 0, budget, now, due)
  {
    hide Delayed, Suitable;
    GreedySkips(outbox, next, |outbox|, left, now);
    assert sel + [] == sel;
  }

  lemma Advance(outbox: Outbox, outbox': Outbox, sel: seq<nat>, next: nat, left: nat,
                budget: nat, now: int, due: int, k: nat)
    requires left > 0 && due > now && Progress(outbox, outbox', sel, next, left, budget, now, due)
    requires k < |outbox'| && Suitable(outbox'[k], left, false, now)
    requires forall j :: 0 <= j < k ==> !Suitable(outbox'[j], left, false, now)
    ensures next <= k && |outbox'[k].blob| <= left
    ensures Progress(outbox, outbox'[k := outbox'[k].(sendNext := due)], sel + [k], k + 1,
                     left - |outbox'[k].blob|, budget, now, due)
  {
    hide Delayed, Suitable;
    GreedySkips(outbox, next, k, left, now);
    DelayedOneMore(outbox, sel, k, due);
    NowUnsuitable(outbox', outbox'[k := outbox'[k].(sendNext := due)], k, left, now, due);
    var rest := Greedy(outbox, k + 1, left - |outbox[k].blob|, now);
    assert Greedy(outbox, k, left, now) == [k] + rest;
    assert sel + [k] + rest == sel + ([k] + rest);
    if left == |outbox[k].blob| {
      assert sel + [k] + [] == sel + [k];
    }
  }

  lemma Finish(outbox: Outbox, outbox': Outbox, sel: seq<nat>, next: nat, budget: nat, now: int, due: int)
    requires Progress(outbox, outbox', sel, next, 0, budget, now, due)
    ensures sel == Greedy(outbox, 0, budget, now) && outbox' == Delayed(outbox, sel, due)
  {
    hide Delayed, Suitable, Greedy;
  }

  lemma NoneDelayed(outbox: Outbox, due: int)
    ensures Delayed(outbox, [], due) == outbox
  {
  }

  /** A shrinking budget makes nothing suitable that was not, and the chosen packet is not due any more. */
  lemma NowUnsuitable(outbox: Outbox, outbox': Outbox, k: nat, budget: nat, now: int, due: int)
    requires k < |outbox| && due > now && Suitable(outbox[k], budget, false, now)
    requires forall j :: 0 <= j < k ==> !Suitable(outbox[j], budget, false, now)
    requires outbox' == outbox[k := outbox[k].(sendNext := due)]
    ensures |outbox[k].blob| <= budget
    ensures forall j :: 0 <= j <= k ==> !Suitable(outbox'[j], budget - |outbox[k].blob|, false, now)
  {
  }

  // --- Taking a packet out of the outbox ---

  /** Without the first packet of that number, if there is one. */
  function Removed(outbox: Outbox, id: u32): Outbox {
    if outbox == [] then []
    else if outbox[0].id == id then outbox[1..]
    else [outbox[0]] + Removed(outbox[1..], id)
  }

  /** The first packet of that number, or the length of the outbox. */
  method FindPacket(outbox: Outbox, id: u32) returns (k: nat)
    ensures k <= |outbox| && (k < |outbox| ==> outbox[k].id == id)
    ensures forall j :: 0 <= j < k ==> outbox[j].id != id
  {
    k := 0;
    while k < |outbox| && outbox[k].id != id
      invariant k <= |outbox|
      invariant forall j :: 0 <= j < k ==> outbox[j].id != id
    {
      k := k + 1;
    }
  }

  method RemovePacketFromOutbox(outbox: Outbox, id: u32) returns (outbox': Outbox)
    ensures outbox' == Removed(outbox, id)
  {
    var k := FindPacket(outbox, id);
    RemovedFirst(outbox, id, k);
    outbox' := if k < |outbox| then outbox[..k] + outbox[k + 1..] else outbox;
  }

  lemma {:induction false} RemovedFirst(outbox: Outbox, id: u32, k: nat)
    requires k <= |outbox| && (k < |outbox| ==> outbox[k].id == id)
    requires forall j :: 0 <= j < k ==> outbox[j].id != id
    ensures Removed(outbox, id) == if k < |outbox| then outbox[..k] + outbox[k + 1..] else outbox
    decreases k
  {
    if k > 0 {
      RemovedFirst(outbox[1..], id, k - 1);
    }
  }

  ghost predicate Distinct(outbox: Outbox) {
    forall i, j :: 0 <= i < j < |outbox| ==> outbox[i].id != outbox[j].id
  }

  lemma RemovedAt(outbox: Outbox, k: nat)
    requires Distinct(outbox) && k < |outbox|
    ensures Removed(outbox, outbox[k].id) == outbox[..k] + outbox[k + 1..]
  {
    RemovedFirst(outbox, outbox[k].id, k);
  }

  // --- Writing the chosen packets ---

  function Picked(outbox: Outbox, sel: seq<nat>): (r: seq<Outgoing>)
    requires Within(outbox, sel)
    ensures |r| == |sel|
  {
    seq(|sel|, a requires 0 <= a < |sel| => outbox[sel[a]])
  }

  /**
    The packets that end up in the datagram, and the outbox afterwards. The
    choice consists of places in the outbox, and taking out an unreliable
    packet moves those behind it forward; None if a place has ceased to exist.
   */
  function Written(outbox: Outbox, sel: seq<nat>): Option<(seq<Outgoing>, Outbox)>
    decreases |sel|
  {
    if sel == [] then Some(([], outbox))
    else if sel[0] >= |outbox| then None
    else
      var p := outbox[sel[0]];
      match Written(if p.reliable then outbox else Removed(outbox, p.id), sel[1..])
      case None => None
      case Some((rest, outbox')) => Some(([p] + rest, outbox'))
  }

  function BlobsOf(ps: seq<Outgoing>): seq<Bytes> {
    seq(|ps|, i requires 0 <= i < |ps| => ps[i].blob)
  }

  ghost predicate OnlyLastUnreliable(outbox: Outbox, sel: seq<nat>)
    requires Within(outbox, sel)
  {
    forall a :: 0 <= a < |sel| - 1 ==> outbox[sel[a]].reliable
  }

  /** Everything written behind an unreliable packet lies in front of it in the outbox. */
  ghost predicate Undisturbed(outbox: Outbox, sel: seq<nat>)
    requires Within(outbox, sel)
  {
    forall a, b :: 0 <= a < b < |sel| && !outbox[sel[a]].reliable ==> sel[b] < sel[a]
  }

  ghost predicate NoPlaceTwice(sel: seq<nat>) {
    forall a, b :: 0 <= a < b < |sel| ==> sel[a] != sel[b]
  }

  ghost predicate AsMeant(outbox: Outbox, sel: seq<nat>)
    requires Within(outbox, sel)
  {
    Written(outbox, sel).Some? && Written(outbox, sel).value.0 == Picked(outbox, sel)
  }

  /**
    The datagram carries the packets it was meant to carry exactly when
    everything written behind an unreliable packet lies in front of it.
   */
  lemma {:induction false} WrittenAsChosen(outbox: Outbox, sel: seq<nat>)
    requires Within(outbox, sel) && Distinct(outbox) && NoPlaceTwice(sel)
    ensures AsMeant(outbox, sel) <==> Undisturbed(outbox, sel)
    decreases |sel|
  {
    if sel != [] {
      hide Written, Picked;
      var k, rest := sel[0], sel[1..];
      var p := outbox[k];
      if p.reliable {
        WrittenAsChosen(outbox, rest);
        WrittenBehind(outbox, sel, outbox);
        UndisturbedBehind(outbox, sel);
      } else if b :| 1 <= b < |sel| && sel[b] > k {
        PlaceShifted(outbox, sel, b);
      } else {
        var left := Removed(outbox, p.id);
        FrontStays(outbox, sel, left);
        WrittenAsChosen(left, rest);
        WrittenBehind(outbox, sel, left);
        UndisturbedBehind(outbox, sel);
      }
    }
  }

  /** The packets behind the first one are written from what the first one leaves. */
  lemma WrittenBehind(outbox: Outbox, sel: seq<nat>, left: Outbox)
    requires sel != [] && Within(outbox, sel) && Within(left, sel[1..])
    requires left == if outbox[sel[0]].reliable then outbox else Removed(outbox, outbox[sel[0]].id)
    requires Picked(left, sel[1..]) == Picked(outbox, sel[1..])
    ensures AsMeant(outbox, sel) <==> AsMeant(left, sel[1..])
  {
    hide Removed;
    var p, rest := outbox[sel[0]], sel[1..];
    assert Picked(outbox, sel) == [p] + Picked(outbox, rest);
    if Written(left, rest).Some? {
      SameHead(p, Written(left, rest).value.0, Picked(left, rest));
    }
  }

  lemma SameHead(p: Outgoing, a: seq<Outgoing>, b: seq<Outgoing>)
    ensures [p] + a == [p] + b <==> a == b
  {
    assert ([p] + a)[1..] == a && ([p] + b)[1..] == b;
  }

  lemma UndisturbedBehind(outbox: Outbox, sel: seq<nat>)
    requires sel != [] && Within(outbox, sel)
    requires outbox[sel[0]].reliable || forall b :: 1 <= b < |sel| ==> sel[b] < sel[0]
    ensures Undisturbed(outbox, sel) <==> Undisturbed(outbox, sel[1..])
  {
    var rest := sel[1..];
    if Undisturbed(outbox, rest) {
      forall a, b | 0 <= a < b < |sel| && !outbox[sel[a]].reliable ensures sel[b] < sel[a] {
        if a > 0 {
          assert rest[a - 1] == sel[a] && rest[b - 1] == sel[b];
        }
      }
    }
  }

  /** Taking out a packet does not move those in front of it. */
  lemma FrontStays(outbox: Outbox, sel: seq<nat>, left: Outbox)
    requires sel != [] && Within(outbox, sel) && Distinct(outbox) && NoPlaceTwice(sel)
    requires left == Removed(outbox, outbox[sel[0]].id)
    requires forall b :: 1 <= b < |sel| ==> sel[b] <= sel[0]
    ensures Distinct(left) && Within(left, sel[1..]) && NoPlaceTwice(sel[1..])
    ensures forall b :: 1 <= b < |sel| ==> sel[b] < sel[0]
    ensures Picked(left, sel[1..]) == Picked(outbox, sel[1..])
    ensures Undisturbed(left, sel[1..]) <==> Undisturbed(outbox, sel[1..])
  {
    RemovedAt(outbox, sel[0]);
    hide Removed;
    forall i, j | 0 <= i < j < |left| ensures left[i].id != left[j].id {
      assert left[i] == outbox[if i < sel[0] then i else i + 1];
      assert left[j] == outbox[if j < sel[0] then j else j + 1];
    }
    forall a | 0 <= a < |sel[1..]| ensures sel[1..][a] < sel[0] && left[sel[1..][a]] == outbox[sel[1..][a]] {
    }
  }

  /** From that place on there is no packet of that number. */
  ghost predicate Gone(outbox: Outbox, place: nat, id: u32) {
    forall q :: place <= q < |outbox| ==> outbox[q].id != id
  }

  lemma RemovedStaysGone(outbox: Outbox, x: u32, place: nat, id: u32)
    requires Gone(outbox, place, id)
    ensures Gone(Removed(outbox, x), place, id)
  {
    if k :| 0 <= k < |outbox| && outbox[k].id == x && forall j :: 0 <= j < k ==> outbox[j].id != x {
      RemovedFirst(outbox, x, k);
    } else {
      NotThere(outbox, x, |outbox|);
      RemovedFirst(outbox, x, |outbox|);
    }
  }

  /** A number that has no first place has none. */
  lemma {:induction false} NotThere(outbox: Outbox, x: u32, n: nat)
    requires n <= |outbox|
    requires !exists k :: 0 <= k < |outbox| && outbox[k].id == x && forall j :: 0 <= j < k ==> outbox[j].id != x
    ensures forall j :: 0 <= j < n ==> outbox[j].id != x
  {
    if n > 0 {
      NotThere(outbox, x, n - 1);
    }
  }

  /** What is gone from a place is not written from there, whatever else is taken out first. */
  lemma {:induction false} NeverAgain(outbox: Outbox, sel: seq<nat>, b: nat, id: u32)
    requires b < |sel| && Gone(outbox, sel[b], id)
    ensures Written(outbox, sel).Some? ==> |Written(outbox, sel).value.0| == |sel| && Written(outbox, sel).value.0[b].id != id
    decreases |sel|
  {
    hide Removed;
    WrittenLength(outbox, sel);
    if b > 0 && sel[0] < |outbox| {
      var p := outbox[sel[0]];
      var left := if p.reliable then outbox else Removed(outbox, p.id);
      RemovedStaysGone(outbox, p.id, sel[b], id);
      NeverAgain(left, sel[1..], b - 1, id);
    }
  }

  lemma {:induction false} WrittenLength(outbox: Outbox, sel: seq<nat>)
    ensures Written(outbox, sel).Some? ==> |Written(outbox, sel).value.0| == |sel|
    decreases |sel|
  {
    hide Removed;
    if sel != [] && sel[0] < |outbox| {
      var p := outbox[sel[0]];
      WrittenLength(if p.reliable then outbox else Removed(outbox, p.id), sel[1..]);
    }
  }

  /** A place behind an unreliable packet holds another packet once that one is taken out. */
  lemma PlaceShifted(outbox: Outbox, sel: seq<nat>, b: nat)
    requires Within(outbox, sel) && Distinct(outbox) && 1 <= b < |sel|
    requires !outbox[sel[0]].reliable && sel[0] < sel[b]
    ensures !AsMeant(outbox, sel) && !Undisturbed(outbox, sel)
  {
    var k, j, rest := sel[0], sel[b], sel[1..];
    RemovedAt(outbox, k);
    var left := Removed(outbox, outbox[k].id);
    hide Removed;
    assert Gone(left, j, outbox[j].id) by {
      forall q | j <= q < |left| ensures left[q].id != outbox[j].id {
        assert left[q] == outbox[q + 1];
      }
    }
    NeverAgain(left, rest, b - 1, outbox[j].id);
    var w := Written(left, rest);
    if w.Some? {
      assert Written(outbox, sel).value.0 == [outbox[k]] + w.value.0;
      assert Written(outbox, sel).value.0[b] == w.value.0[b - 1];
      assert Picked(outbox, sel)[b] == outbox[j];
    }
  }

  /** In queue order behind an unreliable packet, that leaves only the last place for one. */
  lemma OnlyLastExactly(outbox: Outbox, sel: seq<nat>)
    requires Within(outbox, sel)
    requires forall a, b :: 0 <= a < b < |sel| && !outbox[sel[a]].reliable ==> sel[a] < sel[b]
    ensures Undisturbed(outbox, sel) <==> OnlyLastUnreliable(outbox, sel)
  {
    if Undisturbed(outbox, sel) {
      forall a | 0 <= a < |sel| - 1 ensures outbox[sel[a]].reliable {
        assert sel[a] < sel[a + 1] || outbox[sel[a]].reliable;
      }
    }
  }

  lemma WriteLast(outbox: Outbox, k: nat)
    requires k < |outbox| && outbox[k].reliable
    ensures Written(outbox, [k]) == Some(([outbox[k]], outbox))
  {
    var sel: seq<nat> := [k];
    assert sel[1..] == [];
    assert Written(outbox, sel[1..]) == Some(([], outbox));
    assert [outbox[k]] + [] == [outbox[k]];
  }

  /** With a new unreliable packet in front, one packet goes out under another's name. */
  lemma WrongPacketSent(u: Outgoing, b: Outgoing, c: Outgoing, now: int, budget: nat)
    requires u.id != b.id && u.id != c.id && b.id != c.id && !u.reliable && b.reliable && c.reliable
    requires u.sendCount == 0 && b.sendCount == 0 && c.sendCount == 1
    requires u.sendNext <= now && b.sendNext <= now < c.sendNext
    requires 0 < |u.blob| && 0 < |b.blob| && |u.blob| + |b.blob| <= budget
    ensures var outbox := [u, b, c];
      var sel := Greedy(outbox, 0, budget, now);
      sel == [0, 1] && Picked(outbox, sel) == [u, b] && Written(outbox, sel) == Some(([u, c], [b, c]))
  {
    var outbox := [u, b, c];
    assert Greedy(outbox, 2, budget - |u.blob| - |b.blob|, now) == [];
    assert Greedy(outbox, 1, budget - |u.blob|, now) == [1];
    assert Greedy(outbox, 0, budget, now) == [0] + [1];
    assert Removed(outbox, u.id) == [b, c];
    WriteLast([b, c], 1);
    assert [0, 1][1..] == [1];
    assert [u] + [c] == [u, c];
  }

  /** The failure can leave an unreliable packet queued that was sent already. */
  lemma UnreliableMayStay(u: Outgoing, b: Outgoing, c: Outgoing)
    requires u.id != b.id && u.id != c.id && b.id != c.id && !u.reliable && !b.reliable && c.reliable
    ensures Written([u, b, c], [0, 1]) == Some(([u, c], [b, c]))
  {
    assert Removed([u, b, c], u.id) == [b, c];
    WriteLast([b, c], 1);
    assert [0, 1][1..] == [1];
    assert [u] + [c] == [u, c];
  }
}
