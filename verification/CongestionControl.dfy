/**
  Congestion bookkeeping of one connection: bytes in flight, duplicate
  histories, acknowledgement lists, round-trip times and the window.
  Time is an input, in nanoseconds.
 */
module Congestion {
  import opened Types
  import opened Serial

  const INITIAL_THRESHOLD: nat := 65536
  const RTT_HISTORY_LENGTH: nat := 32
  const HISTORY_EXPIRY: nat := 10 * SECOND
  const UPDATE_INTERVAL: nat := 20 * MILLISECOND
  const BASE_DELAY: nat := 5 * MILLISECOND

  datatype InFlight = InFlight(bytes: nat, sent: nat)

  datatype Rtt = Rtt(min: nat, max: nat, avg: nat)

  datatype State = State(
    nextPacket: u32,
    nextDatagram: u32,
    remoteDatagram: u32,                 // next datagram expected from the other side
    nextUpdate: nat,
    oldestUnsentAck: nat,
    bytesInFlight: int,
    outgoing: map<u32, InFlight>,
    rttHistory: seq<nat>,
    rtt: Rtt,
    datagramHistory: map<u32, nat>,      // datagrams seen, and when
    packetHistory: map<u32, nat>,
    acks: seq<u32>,
    nacks: seq<u32>,
    window: nat,
    threshold: nat)

  function Initial(now: nat): State {
    State(0, 0, 0, now, 0, 0, map[], [], Rtt(0, 0, 0), map[], map[], [], [], MTU, INITIAL_THRESHOLD)
  }

  // --- Bytes in flight ---

  ghost function Total(m: map<u32, InFlight>): nat {
    if m == map[] then 0
    else
      assert m.Keys != {};
      var k :| k in m;
      m[k].bytes + Total(m - {k})
  }

  lemma {:induction false} TotalWithout(m: map<u32, InFlight>, k: u32)
    requires k in m
    ensures Total(m) == m[k].bytes + Total(m - {k})
    decreases |m|
  {
    assert m.Keys != {};
    var j :| j in m && Total(m) == m[j].bytes + Total(m - {j});
    if j != k {
      assert |m - {j}| < |m| by { assert (m - {j}).Keys == m.Keys - {j}; }
      assert |m - {k}| < |m| by { assert (m - {k}).Keys == m.Keys - {k}; }
      TotalWithout(m - {j}, k);
      TotalWithout(m - {k}, j);
      assert m - {j} - {k} == m - {k} - {j};
    }
  }

  predicate Expired(f: InFlight, now: nat, lifetime: nat) {
    now >= f.sent + lifetime
  }

  function Live(m: map<u32, InFlight>, now: nat, lifetime: nat): map<u32, InFlight> {
    map k | k in m && !Expired(m[k], now, lifetime) :: m[k]
  }

  function Remembered(m: map<u32, nat>, now: nat): map<u32, nat> {
    map k | k in m && now < m[k] + HISTORY_EXPIRY :: m[k]
  }

  // --- Round-trip times ---

  function Sum(xs: seq<nat>): nat {
    if xs == [] then 0 else Sum(xs[..|xs| - 1]) + xs[|xs| - 1]
  }

  function Max(xs: seq<nat>): nat {
    if xs == [] then 0
    else
      var rest, last := Max(xs[..|xs| - 1]), xs[|xs| - 1];
      if rest >= last then rest else last
  }

  /** The largest 64-bit number when there is nothing to compare. */
  function Min(xs: seq<nat>): nat {
    if xs == [] then 0xFFFF_FFFF_FFFF_FFFF
    else
      var rest, last := Min(xs[..|xs| - 1]), xs[|xs| - 1];
      if rest <= last then rest else last
  }

  function Statistics(history: seq<nat>): Rtt
    requires history != []
  {
    Rtt(Min(history), Max(history), Sum(history) / |history|)
  }

  function Sampled(history: seq<nat>, rtt: nat): (h: seq<nat>)
    ensures h != []
  {
    var h := history + [rtt];
    if |h| > RTT_HISTORY_LENGTH then h[1..] else h
  }

  // --- Steps ---

  ghost function Updated(s: State, now: nat): State {
    if now < s.nextUpdate then s else Swept(s.(nextUpdate := now + UPDATE_INTERVAL), now)
  }

  ghost function Swept(s: State, now: nat): (s': State)
    ensures s'.window == s.window && s'.threshold == s.threshold
  {
    var live := Live(s.outgoing, now, s.rtt.avg * 16);
    s.(outgoing := live,
       bytesInFlight := s.bytesInFlight - (Total(s.outgoing) - Total(live)),
       datagramHistory := Remembered(s.datagramHistory, now),
       packetHistory := Remembered(s.packetHistory, now))
  }

  function Sending(s: State, id: u32, bytes: nat, now: nat): State {
    s.(bytesInFlight := s.bytesInFlight + bytes,
       outgoing := if id in s.outgoing then s.outgoing else s.outgoing[id := InFlight(bytes, now)])
  }

  predicate SlowStart(s: State) {
    s.window <= s.threshold
  }

  function Grown(s: State): (s': State)
    requires s.window > 0
    ensures s' == s.(window := s'.window) && s'.window >= s.window
  {
    s.(window := s.window + if SlowStart(s) then MTU else MTU * MTU / s.window + MTU / 8)
  }

  function Between(a: nat, b: nat): nat {
    if a > b then a - b else b - a
  }

  /** An acknowledgement always grows the window, but only a datagram in flight gives a round-trip time. */
  function Acked(s: State, id: u32, now: nat): (s': State)
    requires s.window > 0
    ensures s'.window >= s.window
  {
    Grown(if id in s.outgoing then Landed(s, id, now) else s)
  }

  function Landed(s: State, id: u32, now: nat): (s': State)
    requires id in s.outgoing
    ensures s'.window == s.window && s'.threshold == s.threshold
  {
    var history := Sampled(s.rttHistory, Between(now, s.outgoing[id].sent));
    s.(rttHistory := history, rtt := Statistics(history),
       bytesInFlight := s.bytesInFlight - s.outgoing[id].bytes,
       outgoing := s.outgoing - {id})
  }

  function NakGroup(s: State): State {
    s.(threshold := if s.window / 2 >= MTU * 2 then s.window / 2 else MTU * 2, window := MTU)
  }

  function Skipped(expected: u32, recv: u32): seq<u32> {
    seq<u32>(Minus(recv, expected), i => Wrap(expected as int + i))
  }

  function ReceivedDatagram(s: State, id: u32, isAck: bool, now: nat): State {
    if id in s.datagramHistory then s else Registered(s, id, isAck, now)
  }

  function Registered(s: State, id: u32, isAck: bool, now: nat): (s': State)
    ensures s'.window == s.window && s'.threshold == s.threshold
  {
    s.(datagramHistory := s.datagramHistory[id := now],
       oldestUnsentAck := if s.acks == [] && s.nacks == [] then now else s.oldestUnsentAck,
       nacks := if Greater(id, s.remoteDatagram) then s.nacks + Skipped(s.remoteDatagram, id) else s.nacks,
       remoteDatagram := Wrap(id + 1),
       acks := if isAck then s.acks else s.acks + [id])
  }

  function ReceivedPacket(s: State, id: u32, now: nat): State {
    if id in s.packetHistory then s else s.(packetHistory := s.packetHistory[id := now])
  }

  function AcksTaken(s: State): State {
    s.(acks := [], nacks := [])
  }

  // --- Budgets ---

  function ResendBudget(s: State): nat
    requires s.bytesInFlight >= 0
  {
    if s.bytesInFlight <= MTU then s.bytesInFlight else MTU
  }

  function SendBudget(s: State): nat
    requires s.bytesInFlight >= 0
  {
    var room := if s.bytesInFlight >= s.window then 0 else s.window - s.bytesInFlight;
    var rest := MTU - ResendBudget(s);
    if room <= rest then room else rest
  }

  function RetransmissionTimeout(s: State, retries: nat): int {
    if |s.rttHistory| < 2 then 100 * MILLISECOND + BASE_DELAY
    else (2 * s.rtt.avg + 4 * (s.rtt.max - s.rtt.min) + BASE_DELAY) * (retries + 1)
  }

  predicate NeedsToSendAcks(s: State, now: nat) {
    (s.acks != [] || s.nacks != [])
    && (|s.acks| + |s.nacks| > 10 || now >= s.oldestUnsentAck + 10 * MILLISECOND)
  }

  // --- Whole runs ---

  datatype Event =
    | Update
    | Send(id: u32, bytes: nat)
    | Ack(id: u32)
    | Nacks
    | Datagram(id: u32, isAck: bool)
    | Packet(id: u32)
    | TakeAcks

  ghost function Step(s: State, now: nat, e: Event): (s': State)
    requires s.window > 0
    ensures s'.window > 0
  {
    match e
    case Update => Updated(s, now)
    case Send(id, bytes) => Sending(s, id, bytes, now)
    case Ack(id) => Acked(s, id, now)
    case Nacks => NakGroup(s)
    case Datagram(id, isAck) => ReceivedDatagram(s, id, isAck, now)
    case Packet(id) => ReceivedPacket(s, id, now)
    case TakeAcks => AcksTaken(s)
  }

  /** An event and the time at which it happens. */
  datatype Timed = Timed(now: nat, event: Event)

  ghost function Run(start: nat, log: seq<Timed>): (s: State)
    ensures s.window > 0
  {
    if log == [] then Initial(start)
    else
      var last := log[|log| - 1];
      Step(Run(start, log[..|log| - 1]), last.now, last.event)
  }

  // --- Bytes in flight match the records, in every run that sends fresh identifiers ---

  ghost predicate Balanced(s: State) {
    s.bytesInFlight == Total(s.outgoing)
  }

  ghost predicate FreshSends(start: nat, log: seq<Timed>) {
    forall i :: 0 <= i < |log| && log[i].event.Send? ==> log[i].event.id !in Run(start, log[..i]).outgoing
  }

  lemma {:induction false} AlwaysBalanced(start: nat, log: seq<Timed>)
    requires FreshSends(start, log)
    ensures Balanced(Run(start, log))
    decreases |log|
  {
    if log != [] {
      var n := |log| - 1;
      assert FreshSends(start, log[..n]) by {
        forall i | 0 <= i < n ensures log[..n][..i] == log[..i] && log[..n][i] == log[i] {}
      }
      AlwaysBalanced(start, log[..n]);
      StepBalances(Run(start, log[..n]), log[n].now, log[n].event);
    }
  }

  /** Every step keeps the balance, except sending bytes under an identifier already in flight. */
  lemma StepBalances(s: State, now: nat, e: Event)
    requires s.window > 0 && Balanced(s)
    ensures Balanced(Step(s, now, e)) <==> (e.Send? ==> e.id !in s.outgoing || e.bytes == 0)
  {
    match e
    case Send(id, bytes) =>
      if id !in s.outgoing {
        var m := s.outgoing[id := InFlight(bytes, now)];
        TotalWithout(m, id);
        assert m - {id} == s.outgoing;
      }
    case Ack(id) =>
      if id in s.outgoing {
        TotalWithout(s.outgoing, id);
      }
    case _ =>
  }

  // --- At most once within ten seconds ---

  ghost predicate Monotone(start: nat, log: seq<Timed>) {
    && (forall i, j :: 0 <= i <= j < |log| ==> log[i].now <= log[j].now)
    && (forall i :: 0 <= i < |log| ==> start <= log[i].now)
  }

  /** The i-th event brings a packet that is taken as new. */
  ghost predicate NewPacket(start: nat, log: seq<Timed>, i: nat, id: u32)
    requires i < |log|
  {
    log[i].event == Packet(id) && id !in Run(start, log[..i]).packetHistory
  }

  ghost predicate NewDatagram(start: nat, log: seq<Timed>, i: nat, id: u32)
    requires i < |log|
  {
    log[i].event.Datagram? && log[i].event.id == id && id !in Run(start, log[..i]).datagramHistory
  }

  /** Once recorded at time t, an identifier stays recorded until an update ten seconds later. */
  lemma {:induction false} StaysRecorded(start: nat, log: seq<Timed>, i: nat, j: nat, id: u32)
    requires Monotone(start, log) && i < j <= |log|
    ensures NewPacket(start, log, i, id) ==>
      || (id in Run(start, log[..j]).packetHistory && Run(start, log[..j]).packetHistory[id] == log[i].now)
      || log[j - 1].now >= log[i].now + HISTORY_EXPIRY
    ensures NewDatagram(start, log, i, id) ==>
      || (id in Run(start, log[..j]).datagramHistory && Run(start, log[..j]).datagramHistory[id] == log[i].now)
      || log[j - 1].now >= log[i].now + HISTORY_EXPIRY
    decreases j
  {
    hide Live, Total, Acked, NakGroup;
    assert log[..j][..j - 1] == log[..j - 1];
    assert log[..j][j - 1] == log[j - 1];
    if i < j - 1 {
      StaysRecorded(start, log, i, j - 1, id);
      OtherStepsKeepHistories(Run(start, log[..j - 1]), log[j - 1].now, log[j - 1].event);
    }
  }

  lemma OtherStepsKeepHistories(s: State, now: nat, e: Event)
    requires s.window > 0
    ensures var s' := Step(s, now, e);
      && (forall id :: id in s.packetHistory && now < s.packetHistory[id] + HISTORY_EXPIRY
            ==> id in s'.packetHistory && s'.packetHistory[id] == s.packetHistory[id])
      && (forall id :: id in s.datagramHistory && now < s.datagramHistory[id] + HISTORY_EXPIRY
            ==> id in s'.datagramHistory && s'.datagramHistory[id] == s.datagramHistory[id])
  {
    hide Live, Total, Statistics, Sampled;
  }

  /** Two acceptances of the same packet, or of the same datagram, are at least ten seconds apart. */
  lemma AtMostOncePerTenSeconds(start: nat, log: seq<Timed>, i: nat, j: nat, id: u32)
    requires Monotone(start, log) && i < j < |log|
    requires (NewPacket(start, log, i, id) && NewPacket(start, log, j, id))
          || (NewDatagram(start, log, i, id) && NewDatagram(start, log, j, id))
    ensures log[j].now >= log[i].now + HISTORY_EXPIRY
  {
    StaysRecorded(start, log, i, j, id);
  }

  // --- Every datagram is accounted for once ---

  /** What became of the datagrams of a run. */
  datatype Ledger = Ledger(
    data: multiset<u32>,     // new datagrams with packets
    quiet: multiset<u32>,    // new datagrams with acknowledgements only
    acks: multiset<u32>,     // acknowledgements handed out for sending
    nacks: multiset<u32>)

  ghost function Booked(l: Ledger, s: State, e: Event): Ledger {
    match e
    case Datagram(id, isAck) =>
      if id in s.datagramHistory then l
      else if isAck then l.(quiet := l.quiet + multiset{id})
      else l.(data := l.data + multiset{id})
    case TakeAcks => l.(acks := l.acks + multiset(s.acks), nacks := l.nacks + multiset(s.nacks))
    case _ => l
  }

  ghost function Book(start: nat, log: seq<Timed>): Ledger {
    if log == [] then Ledger(multiset{}, multiset{}, multiset{}, multiset{})
    else
      var n := |log| - 1;
      Booked(Book(start, log[..n]), Run(start, log[..n]), log[n].event)
  }

  /** In every run: each new data datagram is acknowledged exactly once, and nothing else is. */
  lemma {:induction false} AcksAreReceipts(start: nat, log: seq<Timed>)
    ensures Book(start, log).data == Book(start, log).acks + multiset(Run(start, log).acks)
    decreases |log|
  {
    hide Step, Booked;
    if log != [] {
      var n := |log| - 1;
      AcksAreReceipts(start, log[..n]);
      StepAcksReceipts(Run(start, log[..n]), Book(start, log[..n]), log[n].now, log[n].event);
    }
  }

  lemma StepAcksReceipts(s: State, l: Ledger, now: nat, e: Event)
    requires s.window > 0 && l.data == l.acks + multiset(s.acks)
    ensures Booked(l, s, e).data == Booked(l, s, e).acks + multiset(Step(s, now, e).acks)
  {
    hide Live, Total, Remembered, Statistics, Sampled, Greater, Skipped, Wrap;
    match e
    case Datagram(id, isAck) => assert multiset(s.acks + [id]) == multiset(s.acks) + multiset{id};
    case _ =>
  }

  lemma {:induction false} SkippedOnce(expected: u32, recv: u32, k: u32)
    requires expected <= recv
    ensures multiset(Skipped(expected, recv))[k] == if expected <= k < recv then 1 else 0
    decreases recv
  {
    SkippedAre(expected, recv);
    hide Skipped;
    if expected < recv {
      SkippedOnce(expected, recv - 1, k);
      SkippedAre(expected, recv - 1);
      assert Skipped(expected, recv) == Skipped(expected, recv - 1) + [recv - 1];
    }
  }

  lemma SkippedAre(expected: u32, recv: u32)
    requires expected <= recv
    ensures |Skipped(expected, recv)| == recv - expected
    ensures forall i :: 0 <= i < recv - expected ==> Skipped(expected, recv)[i] == expected + i
  {
    forall i | 0 <= i < recv - expected ensures Skipped(expected, recv)[i] == expected + i {
      WrapSmall(expected + i);
    }
  }

  lemma WrapSmall(n: nat)
    requires n < SPAN
    ensures Wrap(n) == n
  {
  }

  /** How often a number is acknowledged, reported missing, or heard as acknowledgement only; handed out or still waiting. */
  ghost function Entries(s: State, l: Ledger, k: u32): nat {
    l.quiet[k] + l.acks[k] + l.nacks[k] + multiset(s.acks)[k] + multiset(s.nacks)[k]
  }

  /** Every number below the next expected one has one entry, and no other number has any. */
  ghost predicate Accounted(s: State, l: Ledger) {
    && (forall k: u32 :: Entries(s, l, k) == if k < s.remoteDatagram then 1 else 0)
    && (forall id :: id in s.datagramHistory ==> id < s.remoteDatagram)
  }

  /** A datagram that comes is less than 2^31 ahead or behind, and not the very last number. */
  ghost predicate Near(s: State, e: Event) {
    e.Datagram? ==> -0x8000_0000 < e.id - s.remoteDatagram < 0x8000_0000 && e.id < SPAN - 1
  }

  lemma GreaterNear(a: u32, b: u32)
    requires -0x8000_0000 < a - b < 0x8000_0000
    ensures Greater(a, b) <==> a > b
  {
  }

  /** A late datagram, and nothing else, upsets the accounts. */
  lemma AccountedExactly(s: State, l: Ledger, now: nat, e: Event)
    requires s.window > 0 && Accounted(s, l) && Near(s, e)
    ensures Accounted(Step(s, now, e), Booked(l, s, e))
       <==> (e.Datagram? && e.id !in s.datagramHistory ==> s.remoteDatagram <= e.id)
  {
    hide Live, Total, Statistics, Sampled, Greater, Skipped, Wrap;
    if e.Datagram? && e.id !in s.datagramHistory {
      var s', l' := Step(s, now, e), Booked(l, s, e);
      WrapSmall(e.id + 1);
      forall k: u32 ensures Entries(s', l', k) == Entries(s, l, k)
                            + (if s.remoteDatagram <= k < e.id then 1 else 0) + (if k == e.id then 1 else 0) {
        EntriesAdded(s, l, now, e.id, e.isAck, k);
      }
      if s.remoteDatagram > e.id {
        assert Entries(s', l', e.id) == 2;
      }
    } else {
      EntriesKept(s, l, now, e);
    }
  }

  /** A late datagram: number 1 arrives before number 0, which is then both reported missing and acknowledged. */
  lemma LateDatagramUpsets()
    ensures var log := [Timed(0, Datagram(1, false)), Timed(0, Datagram(0, false))];
      && Run(0, log).acks == [1, 0] && Run(0, log).nacks == [0] && Run(0, log).remoteDatagram == 1
      && !Accounted(Run(0, log), Book(0, log))
  {
    hide Total, Live, Remembered, Skipped, Statistics, Accounted, Registered, Booked;
    var log := [Timed(0, Datagram(1, false)), Timed(0, Datagram(0, false))];
    var one := [Timed(0, Datagram(1, false))];
    assert one[..0] == [] && log[..1] == one;
    NumberZeroLate();
    StillEntered(Run(0, log), Book(0, log));
  }

  lemma NumberZeroLate()
    ensures var s := Registered(Initial(0), 1, false, 0);
      && 0 !in s.datagramHistory
      && var s' := Registered(s, 0, false, 0);
      s'.acks == [1, 0] && s'.nacks == [0] && s'.remoteDatagram == 1
  {
    SkippedAre(0, 1);
    assert Skipped(0, 1) == [0];
    hide Skipped;
    assert [] + [0] == [0] && [] + [1] == [1] && [1] + [0] == [1, 0];
  }

  /** A number acknowledged although the next expected one is not beyond it. */
  lemma StillEntered(s: State, l: Ledger)
    requires s.acks == [1, 0] && s.remoteDatagram == 1
    ensures !Accounted(s, l)
  {
    assert multiset(s.acks)[1] == 1;
    assert Entries(s, l, 1) >= 1;
  }

  lemma EntriesAdded(s: State, l: Ledger, now: nat, id: u32, isAck: bool, k: u32)
    requires id !in s.datagramHistory && -0x8000_0000 < id - s.remoteDatagram < 0x8000_0000
    ensures Entries(ReceivedDatagram(s, id, isAck, now), Booked(l, s, Datagram(id, isAck)), k)
         == Entries(s, l, k) + (if s.remoteDatagram <= k < id then 1 else 0) + (if k == id then 1 else 0)
  {
    hide Skipped, Wrap, Greater;
    GreaterNear(id, s.remoteDatagram);
    if s.remoteDatagram < id {
      SkippedOnce(s.remoteDatagram, id, k);
    }
  }

  lemma EntriesKept(s: State, l: Ledger, now: nat, e: Event)
    requires s.window > 0 && (e.Datagram? ==> e.id in s.datagramHistory)
    ensures var s', l' := Step(s, now, e), Booked(l, s, e);
      && s'.remoteDatagram == s.remoteDatagram
      && (forall id :: id in s'.datagramHistory ==> id in s.datagramHistory)
      && forall k: u32 :: Entries(s', l', k) == Entries(s, l, k)
  {
    hide Live, Total, Statistics, Sampled;
  }

  /** Datagrams arrive in order of their numbers, with gaps below 2^31. */
  ghost predicate InSequence(start: nat, log: seq<Timed>) {
    forall i :: 0 <= i < |log| && log[i].event.Datagram? ==>
      var s := Run(start, log[..i]);
      Near(s, log[i].event) && (log[i].event.id in s.datagramHistory || s.remoteDatagram <= log[i].event.id)
  }

  /** Over any such run, across any number of hand-outs, the lists partition the numbers below the next expected one. */
  lemma {:induction false} AlwaysAccounted(start: nat, log: seq<Timed>)
    requires InSequence(start, log)
    ensures Accounted(Run(start, log), Book(start, log))
    decreases |log|
  {
    hide Step, Booked;
    if log != [] {
      var n := |log| - 1;
      assert InSequence(start, log[..n]) by {
        forall i | 0 <= i < n ensures log[..n][..i] == log[..i] && log[..n][i] == log[i] {}
      }
      AlwaysAccounted(start, log[..n]);
      AccountedExactly(Run(start, log[..n]), Book(start, log[..n]), log[n].now, log[n].event);
    }
  }

  // --- Window and budgets ---

  ghost predicate WindowSound(s: State) {
    s.window >= MTU && s.threshold >= 2 * MTU
  }

  lemma {:induction false} WindowAlwaysSound(start: nat, log: seq<Timed>)
    ensures WindowSound(Run(start, log))
    decreases |log|
  {
    hide Swept, Registered, Landed, Grown;
    if log != [] {
      WindowAlwaysSound(start, log[..|log| - 1]);
    }
  }

  /** In every run with fresh identifiers something may be sent, but never more than one datagram full. */
  lemma BudgetsSound(start: nat, log: seq<Timed>)
    requires FreshSends(start, log)
    ensures var s := Run(start, log);
      && s.bytesInFlight >= 0
      && 0 < SendBudget(s) + ResendBudget(s) <= MTU
      && SendBudget(s) <= (if s.bytesInFlight < s.window then s.window - s.bytesInFlight else 0)
  {
    hide Run;
    AlwaysBalanced(start, log);
    WindowAlwaysSound(start, log);
  }

  /** New data gets all the room that the window and the rest of a datagram leave it. */
  lemma SendBudgetIsLargest(s: State)
    requires s.bytesInFlight >= 0
    ensures ResendBudget(s) <= s.bytesInFlight && ResendBudget(s) <= MTU
    ensures ResendBudget(s) == s.bytesInFlight || ResendBudget(s) == MTU
    ensures SendBudget(s) > 0 ==> s.bytesInFlight + SendBudget(s) <= s.window
    ensures ResendBudget(s) + SendBudget(s) <= MTU
    ensures s.bytesInFlight + SendBudget(s) >= s.window || ResendBudget(s) + SendBudget(s) == MTU
  {
  }

  /** One datagram's worth per acknowledgement in slow start, strictly less afterwards. */
  lemma AckGrowsWindow(s: State, id: u32, now: nat)
    requires WindowSound(s)
    ensures Acked(s, id, now).threshold == s.threshold
    ensures SlowStart(s) ==> Acked(s, id, now).window == s.window + MTU
    ensures !SlowStart(s) ==> s.window < Acked(s, id, now).window < s.window + MTU
    ensures !SlowStart(s) ==>
      var extra := Acked(s, id, now).window - s.window - MTU / 8;
      extra * s.window <= MTU * MTU < (extra + 1) * s.window
  {
    hide Statistics, Sampled;
    if !SlowStart(s) {
      assert MTU * MTU / s.window <= MTU / 2 by { QuotientBound(s.window); }
      QuotientIs(MTU * MTU, s.window);
    }
  }

  lemma QuotientIs(a: nat, w: nat)
    requires w > 0
    ensures a / w * w <= a < (a / w + 1) * w
  {
    assert (a / w + 1) * w == a / w * w + w;
  }

  lemma QuotientBound(w: nat)
    requires w > 2 * MTU
    ensures 0 <= MTU * MTU / w <= MTU / 2
  {
    var q := MTU * MTU / w;
    assert q * w <= MTU * MTU;
    if q > MTU / 2 {
      MulMonotone(MTU / 2 + 1, 2 * MTU, q, w);
    }
  }

  lemma MulMonotone(a: nat, b: nat, c: nat, d: nat)
    requires a <= c && b <= d
    ensures a * b <= c * d
  {
    assert a * b <= c * b;
    assert c * b <= c * d;
  }

  /** A round of losses halves the threshold, but not below two datagrams, and starts over. */
  lemma NakGroupStartsOver(s: State)
    ensures var s' := NakGroup(s);
      && SlowStart(s') && WindowSound(s') && s'.window == MTU
      && (s'.threshold == s.window / 2 || (s'.threshold == 2 * MTU && s.window / 2 < 2 * MTU))
  {
  }

  // --- Round-trip times ---

  ghost predicate RttSound(s: State) {
    && |s.rttHistory| <= RTT_HISTORY_LENGTH
    && (s.rttHistory != [] ==> s.rtt == Statistics(s.rttHistory))
  }

  lemma {:induction false} SumBetween(xs: seq<nat>)
    ensures |xs| * Min(xs) <= Sum(xs) <= |xs| * Max(xs)
    decreases |xs|
  {
    if xs != [] {
      var n, rest, last := |xs| - 1, xs[..|xs| - 1], xs[|xs| - 1];
      SumBetween(rest);
      MulMonotone(n, Min(xs), n, Min(rest));
      MulMonotone(n, Max(rest), n, Max(xs));
      Distribute(n, Min(xs));
      Distribute(n, Max(xs));
    }
  }

  lemma Distribute(n: nat, x: nat)
    ensures (n + 1) * x == n * x + x
  {
  }

  lemma NoEntries()
    ensures Sum([]) == 0 && Max([]) == 0 && Min([]) == 0xFFFF_FFFF_FFFF_FFFF
  {
  }

  lemma OneMore(xs: seq<nat>, i: nat)
    requires i < |xs|
    ensures var a, b, x := xs[..i], xs[..i + 1], xs[i];
      && Sum(b) == Sum(a) + x
      && Max(b) == (if Max(a) >= x then Max(a) else x)
      && Min(b) == (if Min(a) <= x then Min(a) else x)
  {
    assert xs[..i + 1][..i] == xs[..i];
  }

  /** The integer average lies between the extremes. */
  lemma AverageBetween(history: seq<nat>)
    requires history != []
    ensures Statistics(history).min <= Statistics(history).avg <= Statistics(history).max
  {
    var n := |history|;
    SumBetween(history);
    DivideBounds(Min(history), Sum(history), Max(history), n);
  }

  lemma DivideBounds(lo: nat, sum: nat, hi: nat, n: nat)
    requires n > 0 && n * lo <= sum <= n * hi
    ensures lo <= sum / n <= hi
  {
    var q, r := sum / n, sum % n;
    assert sum == n * q + r;
    assert n * (q + 1) == n * q + n && n * (hi + 1) == n * hi + n;
    if q < lo {
      MulMonotone(n, q + 1, n, lo);
    } else if q > hi {
      MulMonotone(n, hi + 1, n, q);
    }
  }

  /** In every run the history is bounded and summarised by its minimum, average and maximum, in that order. */
  lemma {:induction false} RttAlwaysSound(start: nat, log: seq<Timed>)
    ensures var s := Run(start, log);
      && RttSound(s)
      && (s.rttHistory != [] ==> s.rtt.min <= s.rtt.avg <= s.rtt.max)
    decreases |log|
  {
    hide Live, Total, Statistics, Skipped, Remembered;
    if log != [] {
      var s := Run(start, log[..|log| - 1]);
      RttAlwaysSound(start, log[..|log| - 1]);
      var s' := Run(start, log);
      if s'.rttHistory != [] {
        AverageBetween(s'.rttHistory);
      }
    }
  }

  /** The resend delay never underflows, is at least the base delay, and does not shrink with the retry count. */
  lemma TimeoutSound(start: nat, log: seq<Timed>, retries: nat)
    ensures var s := Run(start, log);
      && BASE_DELAY <= RetransmissionTimeout(s, retries) <= RetransmissionTimeout(s, retries + 1)
  {
    hide Run, RetransmissionTimeout;
    RttAlwaysSound(start, log);
    TimeoutOfSound(Run(start, log), retries);
  }

  lemma TimeoutOfSound(s: State, retries: nat)
    requires RttSound(s)
    ensures BASE_DELAY <= RetransmissionTimeout(s, retries) <= RetransmissionTimeout(s, retries + 1)
  {
    if |s.rttHistory| >= 2 {
      AverageBetween(s.rttHistory);
      hide Statistics;
      var once := 2 * s.rtt.avg + 4 * (s.rtt.max - s.rtt.min) + BASE_DELAY;
      assert once * (retries + 2) == once * (retries + 1) + once;
      assert once * (retries + 1) == once * retries + once;
      assert once * retries >= 0;
    }
  }

  /** The delay covers every round trip on record, grows in proportion to the attempts, and does not wait longer than it says. */
  lemma TimeoutCoversSamples(s: State, i: nat, retries: nat)
    requires RttSound(s) && i < |s.rttHistory| && |s.rttHistory| >= 2
    ensures s.rttHistory[i] + BASE_DELAY <= RetransmissionTimeout(s, 0)
    ensures RetransmissionTimeout(s, retries) == RetransmissionTimeout(s, 0) * (retries + 1)
  {
    AverageBetween(s.rttHistory);
    BetweenExtremes(s.rttHistory, i);
    hide Min, Max, Sum;
    var once := 2 * s.rtt.avg + 4 * (s.rtt.max - s.rtt.min) + BASE_DELAY;
    assert RetransmissionTimeout(s, 0) == once;
  }

  lemma {:induction false} BetweenExtremes(xs: seq<nat>, i: nat)
    requires i < |xs|
    ensures Min(xs) <= xs[i] <= Max(xs)
    decreases |xs|
  {
    if i < |xs| - 1 {
      BetweenExtremes(xs[..|xs| - 1], i);
    }
  }

  /** Twice the average, four times the spread, and a tick: on two samples, and before there are two. */
  lemma TimeoutOfTwo(s: State, a: nat, b: nat)
    requires RttSound(s) && b <= a < 0x1_0000_0000_0000_0000
    ensures s.rttHistory == [a, b] || s.rttHistory == [b, a] ==>
      RetransmissionTimeout(s, 0) == 2 * ((a + b) / 2) + 4 * (a - b) + 5 * MILLISECOND
    ensures |s.rttHistory| < 2 ==> forall n: nat :: RetransmissionTimeout(s, n) == 105 * MILLISECOND
  {
    if s.rttHistory == [a, b] {
      StatisticsOfTwo(a, b);
    } else if s.rttHistory == [b, a] {
      StatisticsOfTwo(b, a);
    }
  }

  lemma StatisticsOfTwo(a: nat, b: nat)
    requires a < 0x1_0000_0000_0000_0000 && b < 0x1_0000_0000_0000_0000
    ensures Statistics([a, b]) == Rtt(if a <= b then a else b, if a <= b then b else a, (a + b) / 2)
  {
    var two, one := [a, b], [a];
    assert two[..1] == one && one[..0] == [];
    NoEntries();
    assert Sum(one) == a && Max(one) == a && Min(one) == a;
  }

  // --- What is in flight since when, and what was measured ---

  /** The i-th event sent these bytes, and they have been in flight ever since. */
  ghost predicate InFlightSince(start: nat, log: seq<Timed>, i: nat, id: u32, f: InFlight) {
    && i < |log| && log[i] == Timed(f.sent, Send(id, f.bytes))
    && forall j :: i < j <= |log| ==> id in Run(start, log[..j]).outgoing && Run(start, log[..j]).outgoing[id] == f
  }

  /** In every run: a record says what was sent under its number, and when. */
  lemma {:induction false} RecordsAreTrue(start: nat, log: seq<Timed>, id: u32) returns (i: nat)
    requires id in Run(start, log).outgoing
    ensures InFlightSince(start, log, i, id, Run(start, log).outgoing[id])
    decreases |log|
  {
    var n := |log| - 1;
    var s, e := Run(start, log[..n]), log[n];
    assert log[..|log|] == log;
    RecordKept(s, e.now, e.event, id);
    hide Step;
    if id in s.outgoing {
      i := RecordsAreTrue(start, log[..n], id);
      forall j | i < j <= |log|
        ensures id in Run(start, log[..j]).outgoing && Run(start, log[..j]).outgoing[id] == Run(start, log).outgoing[id]
      {
        if j <= n {
          assert log[..n][..j] == log[..j];
        }
      }
    } else {
      i := n;
    }
  }

  lemma RecordKept(s: State, now: nat, e: Event, id: u32)
    requires s.window > 0
    ensures var s' := Step(s, now, e);
      id in s'.outgoing ==> if id in s.outgoing then s'.outgoing[id] == s.outgoing[id] else e == Send(id, s'.outgoing[id].bytes) && s'.outgoing[id].sent == now
  {
    hide Total, Statistics, Sampled, Remembered, Skipped;
  }

  /** The round trips a run has measured: from sending a datagram to the acknowledgement that found it in flight. */
  ghost function Measured(start: nat, log: seq<Timed>): seq<nat> {
    if log == [] then []
    else
      var n := |log| - 1;
      var s, e := Run(start, log[..n]), log[n];
      if e.event.Ack? && e.event.id in s.outgoing then
        var sent := s.outgoing[e.event.id].sent;
        Measured(start, log[..n]) + [if e.now >= sent then e.now - sent else sent - e.now]
      else Measured(start, log[..n])
  }

  /** In every run the history is what was measured last, in order. */
  lemma {:induction false} HistoryIsMeasured(start: nat, log: seq<Timed>)
    ensures LastOf(Measured(start, log), Run(start, log).rttHistory)
    decreases |log|
  {
    hide Step, LastOf, Sampled, Between;
    if log == [] {
      assert LastOf([], []) by { NoSamples(); }
    } else {
      var n := |log| - 1;
      var s, e := Run(start, log[..n]), log[n];
      Distance(e.now, if e.event.Ack? && e.event.id in s.outgoing then s.outgoing[e.event.id].sent else 0);
      HistoryIsMeasured(start, log[..n]);
      HistoryStep(s, e.now, e.event);
      if e.event.Ack? && e.event.id in s.outgoing {
        OneMoreSample(Measured(start, log[..n]), s.rttHistory, Between(e.now, s.outgoing[e.event.id].sent));
      }
    }
  }

  /** The last 32 of these, or all if there are fewer. */
  ghost predicate LastOf(all: seq<nat>, h: seq<nat>) {
    |h| == (if |all| <= 32 then |all| else 32) && h == all[|all| - |h|..]
  }

  lemma NoSamples()
    ensures LastOf([], [])
  {
  }

  lemma Distance(a: nat, b: nat)
    ensures Between(a, b) == if a >= b then a - b else b - a
  {
  }

  lemma OneMoreSample(all: seq<nat>, h: seq<nat>, x: nat)
    requires LastOf(all, h)
    ensures LastOf(all + [x], Sampled(h, x))
  {
    var k := |all| - |h|;
    var more := all + [x];
    assert h + [x] == more[k..];
    if |h| == 32 {
      assert (h + [x])[1..] == more[k + 1..];
    }
  }

  lemma HistoryStep(s: State, now: nat, e: Event)
    requires s.window > 0
    ensures Step(s, now, e).rttHistory
      == if e.Ack? && e.id in s.outgoing then Sampled(s.rttHistory, Between(now, s.outgoing[e.id].sent)) else s.rttHistory
  {
    hide Total, Live, Statistics, Sampled, Remembered, Skipped;
  }

  /**
    An update that is due drops exactly the records older than sixteen average
    round trips, with their bytes, and the history older than ten seconds; the
    next one is due 20 ms later. One that is not due changes nothing.
   */
  lemma UpdateExactly(s: State, now: nat, id: u32)
    requires Balanced(s)
    ensures var s' := Updated(s, now);
      if now < s.nextUpdate then s' == s
      else
        && (id in s'.outgoing <==> id in s.outgoing && now < s.outgoing[id].sent + 16 * s.rtt.avg)
        && (id in s'.outgoing ==> s'.outgoing[id] == s.outgoing[id])
        && s'.bytesInFlight == Total(s'.outgoing)
        && (id in s'.packetHistory <==> id in s.packetHistory && now < s.packetHistory[id] + 10 * SECOND)
        && (id in s'.datagramHistory <==> id in s.datagramHistory && now < s.datagramHistory[id] + 10 * SECOND)
        && s'.nextUpdate == now + 20 * MILLISECOND
  {
    hide Total;
  }

  // --- When acknowledgements are due ---

  predicate Pending(s: State) { s.acks != [] || s.nacks != [] }

  /** Acknowledgements have been waiting since the i-th event. */
  ghost predicate PendingSince(start: nat, log: seq<Timed>, i: nat) {
    && i < |log| && !Pending(Run(start, log[..i])) && forall j :: i < j <= |log| ==> Pending(Run(start, log[..j]))
  }

  /**
    In every run: acknowledgements that wait are due once there are more than
    ten of them or the first has waited for 10 ms; without any, none are due.
   */
  lemma AcksDueExactly(start: nat, log: seq<Timed>, now: nat) returns (i: nat)
    ensures var s := Run(start, log);
      if Pending(s) then
        && PendingSince(start, log, i)
        && (NeedsToSendAcks(s, now) <==> |s.acks| + |s.nacks| > 10 || now >= log[i].now + 10 * MILLISECOND)
      else !NeedsToSendAcks(s, now)
  {
    hide Run;
    i := 0;
    if Pending(Run(start, log)) {
      i := WaitingSince(start, log);
    }
  }

  lemma {:induction false} WaitingSince(start: nat, log: seq<Timed>) returns (i: nat)
    requires Pending(Run(start, log))
    ensures PendingSince(start, log, i) && Run(start, log).oldestUnsentAck == log[i].now
    decreases |log|
  {
    hide Step, Pending;
    assert Run(start, []) == Initial(start) && !Pending(Initial(start)) by { NothingPending(start); }
    var n := |log| - 1;
    var s, e := Run(start, log[..n]), log[n];
    assert log[..|log|] == log;
    PendingStep(s, e.now, e.event);
    if Pending(s) {
      i := WaitingSince(start, log[..n]);
      assert log[..n][..i] == log[..i];
      forall j | i < j <= |log| ensures Pending(Run(start, log[..j])) {
        if j <= n {
          assert log[..n][..j] == log[..j];
        }
      }
    } else {
      i := n;
    }
  }

  lemma NothingPending(start: nat)
    ensures !Pending(Initial(start))
  {
  }

  lemma PendingStep(s: State, now: nat, e: Event)
    requires s.window > 0
    ensures var s' := Step(s, now, e);
      Pending(s') ==> s'.oldestUnsentAck == if Pending(s) then s.oldestUnsentAck else now
  {
    hide Total, Live, Statistics, Sampled, Remembered, Skipped;
  }

  // --- The same as an object ---

  class CongestionControlWindow {
    var nextPacket: u32
    var nextDatagram: u32
    var remoteDatagram: u32
    var nextUpdate: nat
    var oldestUnsentAck: nat
    var bytesInFlight: int
    var outgoing: map<u32, InFlight>
    var rttHistory: seq<nat>
    var rttMin: nat
    var rttMax: nat
    var rttAvg: nat
    var datagramHistory: map<u32, nat>
    var packetHistory: map<u32, nat>
    var acks: seq<u32>
    var nacks: seq<u32>
    var window: nat
    var threshold: nat

    function View(): State
      reads this
    {
      State(nextPacket, nextDatagram, remoteDatagram, nextUpdate, oldestUnsentAck, bytesInFlight, outgoing,
            rttHistory, Rtt(rttMin, rttMax, rttAvg), datagramHistory, packetHistory, acks, nacks, window, threshold)
    }

    constructor (now: nat)
      ensures View() == Initial(now)
    {
      nextPacket, nextDatagram, remoteDatagram := 0, 0, 0;
      nextUpdate, oldestUnsentAck, bytesInFlight, outgoing := now, 0, 0, map[];
      rttHistory, rttMin, rttMax, rttAvg := [], 0, 0, 0;
      datagramHistory, packetHistory, acks, nacks := map[], map[], [], [];
      window, threshold := MTU, INITIAL_THRESHOLD;
    }

    method GetNextPacketID() returns (id: u32)
      modifies this`nextPacket
      ensures id == old(nextPacket) && nextPacket == Wrap(id + 1)
    {
      id := nextPacket;
      nextPacket := Wrap(nextPacket as int + 1);
    }

    method GetNextDatagramID() returns (id: u32)
      modifies this`nextDatagram
      ensures id == old(nextDatagram) && nextDatagram == Wrap(id + 1)
    {
      id := nextDatagram;
      nextDatagram := Wrap(nextDatagram as int + 1);
    }

    method MakeAckList() returns (acklist: seq<u32>, nacklist: seq<u32>)
      modifies this`acks, this`nacks
      ensures acklist == old(acks) && nacklist == old(nacks)
      ensures View() == AcksTaken(old(View()))
    {
      acklist, nacklist := acks, nacks;
      acks, nacks := [], [];
    }

    method Update(now: nat)
      modifies this`nextUpdate, this`outgoing, this`bytesInFlight, this`datagramHistory, this`packetHistory
      ensures View() == Updated(old(View()), now)
    {
      hide Swept;
      if now >= nextUpdate {
        nextUpdate := now + UPDATE_INTERVAL;
        Sweep(now);
      }
    }

    method Sweep(now: nat)
      modifies this`outgoing, this`bytesInFlight, this`datagramHistory, this`packetHistory
      ensures View() == Swept(old(View()), now)
    {
      hide Live, Total, Remembered;
      ExpireOutgoing(now, rttAvg * 16);
      datagramHistory := Expire(datagramHistory, now);
      packetHistory := Expire(packetHistory, now);
    }

    method ExpireOutgoing(now: nat, lifetime: nat)
      modifies this`outgoing, this`bytesInFlight
      ensures outgoing == Live(old(outgoing), now, lifetime)
      ensures bytesInFlight == old(bytesInFlight) - (Total(old(outgoing)) - Total(outgoing))
    {
      var todo := outgoing.Keys;
      ghost var done: set<u32> := {};
      while todo != {}
        invariant done + todo == old(outgoing).Keys && done !! todo
        invariant outgoing == map k | k in old(outgoing) && (k in todo || !Expired(old(outgoing)[k], now, lifetime)) :: old(outgoing)[k]
        invariant bytesInFlight == old(bytesInFlight) - (Total(old(outgoing)) - Total(outgoing))
        decreases todo
      {
        var k :| k in todo;
        if Expired(outgoing[k], now, lifetime) {
          TotalWithout(outgoing, k);
          bytesInFlight := bytesInFlight - outgoing[k].bytes;
          outgoing := outgoing - {k};
        }
        todo, done := todo - {k}, done + {k};
      }
    }

    static method Expire(history: map<u32, nat>, now: nat) returns (kept: map<u32, nat>)
      ensures kept == Remembered(history, now)
    {
      kept := history;
      var todo := history.Keys;
      while todo != {}
        invariant todo <= history.Keys
        invariant kept == map k | k in history && (k in todo || now < history[k] + HISTORY_EXPIRY) :: history[k]
        decreases todo
      {
        var k :| k in todo;
        if now >= kept[k] + HISTORY_EXPIRY {
          kept := kept - {k};
        }
        todo := todo - {k};
      }
    }

    method NotifySendingBytes(id: u32, bytes: nat, now: nat)
      modifies this`bytesInFlight, this`outgoing
      ensures View() == Sending(old(View()), id, bytes, now)
    {
      bytesInFlight := bytesInFlight + bytes;
      if id !in outgoing {
        outgoing := outgoing[id := InFlight(bytes, now)];
      }
    }

    method RecalculateRTT()
      requires rttHistory != []
      modifies this`rttMin, this`rttMax, this`rttAvg
      ensures Rtt(rttMin, rttMax, rttAvg) == Statistics(rttHistory)
    {
      var rtt := Summarize(rttHistory);
      rttMin, rttMax, rttAvg := rtt.min, rtt.max, rtt.avg;
    }

    static method Summarize(history: seq<nat>) returns (rtt: Rtt)
      requires history != []
      ensures rtt == Statistics(history)
    {
      hide Sum, Max, Min;
      var sum, max, min := 0, 0, 0xFFFF_FFFF_FFFF_FFFF;
      NoEntries();
      for i := 0 to |history|
        invariant sum == Sum(history[..i]) && max == Max(history[..i]) && min == Min(history[..i])
      {
        var entry := history[i];
        OneMore(history, i);
        sum := sum + entry;
        max := if max >= entry then max else entry;
        min := if min <= entry then min else entry;
      }
      assert history[..|history|] == history;
      rtt := Rtt(min, max, sum / |history|);
    }

    method NotifyReceivedAck(id: u32, now: nat)
      requires window > 0
      modifies this`rttHistory, this`rttMin, this`rttMax, this`rttAvg, this`bytesInFlight, this`outgoing, this`window
      ensures View() == Acked(old(View()), id, now)
    {
      hide Grown, Landed;
      if id in outgoing {
        Land(id, now);
      }
      Grow();
    }

    method Land(id: u32, now: nat)
      requires id in outgoing
      modifies this`rttHistory, this`rttMin, this`rttMax, this`rttAvg, this`bytesInFlight, this`outgoing
      ensures View() == Landed(old(View()), id, now)
    {
      hide Statistics, Sampled;
      TakeSample(Between(now, outgoing[id].sent));
      bytesInFlight := bytesInFlight - outgoing[id].bytes;
      outgoing := outgoing - {id};
    }

    method Grow()
      requires window > 0
      modifies this`window
      ensures View() == Grown(old(View()))
    {
      if window <= threshold {
        window := window + MTU;
      } else {
        window := window + (MTU * MTU / window + MTU / 8);
      }
    }

    method TakeSample(rtt: nat)
      modifies this`rttHistory, this`rttMin, this`rttMax, this`rttAvg
      ensures rttHistory == Sampled(old(rttHistory), rtt)
      ensures Rtt(rttMin, rttMax, rttAvg) == Statistics(rttHistory)
    {
      hide Statistics;
      rttHistory := rttHistory + [rtt];
      if |rttHistory| > RTT_HISTORY_LENGTH {
        rttHistory := rttHistory[1..];
      }
      RecalculateRTT();
    }

    method NotifyReceivedNakGroup()
      modifies this`window, this`threshold
      ensures View() == NakGroup(old(View()))
    {
      threshold := if window / 2 >= MTU * 2 then window / 2 else MTU * 2;
      window := MTU;
    }

    /** True when the datagram has not been seen lately. */
    method NotifyReceivedDatagram(id: u32, isAck: bool, now: nat) returns (isNew: bool)
      modifies this`datagramHistory, this`oldestUnsentAck, this`nacks, this`remoteDatagram, this`acks
      ensures isNew == (id !in old(datagramHistory))
      ensures View() == ReceivedDatagram(old(View()), id, isAck, now)
    {
      hide Registered;
      isNew := id !in datagramHistory;
      if isNew {
        Register(id, isAck, now);
      }
    }

    method Register(id: u32, isAck: bool, now: nat)
      modifies this`datagramHistory, this`oldestUnsentAck, this`nacks, this`remoteDatagram, this`acks
      ensures View() == Registered(old(View()), id, isAck, now)
    {
      hide Skipped, Greater, Wrap;
      datagramHistory := datagramHistory[id := now];
      oldestUnsentAck := if acks == [] && nacks == [] then now else oldestUnsentAck;
      // a gap before this datagram means that the datagrams in it got lost
      if Greater(id, remoteDatagram) {
        var missing := ReportMissing(remoteDatagram, id);
        nacks := nacks + missing;
      }
      remoteDatagram := Wrap(id as int + 1);
      acks := if isAck then acks else acks + [id];
    }

    static method ReportMissing(expected: u32, recv: u32) returns (missing: seq<u32>)
      ensures missing == Skipped(expected, recv)
    {
      missing := [];
      var total := Minus(recv, expected);
      var skipped := total;
      while skipped > 0
        invariant 0 <= skipped <= total && |missing| == total - skipped
        invariant missing == Skipped(expected, recv)[..total - skipped]
      {
        assert Minus(recv, skipped) == Wrap(expected as int + (total - skipped));
        missing := missing + [Minus(recv, skipped)];
        skipped := skipped - 1;
      }
    }

    method NotifyReceivedPacket(id: u32, now: nat) returns (isNew: bool)
      modifies this`packetHistory
      ensures isNew == (id !in old(packetHistory))
      ensures View() == ReceivedPacket(old(View()), id, now)
    {
      if id in packetHistory { return false; }
      packetHistory := packetHistory[id := now];
      return true;
    }
  }
}
