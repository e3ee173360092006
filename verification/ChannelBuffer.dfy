/** Per-channel buffers that put packets back in order, or drop the ones that come too late. */
module Channels {
  import opened Types
  import opened Serial

  datatype Mode = ORDERED | SEQUENCED

  /** The state of a channel buffer as a value. */
  datatype Channel<T> = Channel(mode: Mode, backlog: map<u32, T>, nextEnqueue: u32, nextDequeue: u32)

  function Fresh<T>(mode: Mode): Channel<T> {
    Channel(mode, map[], 0, 0)
  }

  function Enqueued<T>(c: Channel<T>, s: u32, p: T): (c': Channel<T>)
    ensures c'.mode == c.mode
  {
    if c.mode.SEQUENCED? && Less(s, c.nextEnqueue) then c
    else
      var backlog := if s in c.backlog then c.backlog else c.backlog[s := p];
      if c.mode.SEQUENCED? then c.(backlog := backlog, nextEnqueue := Wrap(s + 1)) else c.(backlog := backlog)
  }

  predicate Eligible<T>(c: Channel<T>, s: u32) {
    c.mode.ORDERED? ==> GreaterOrEqual(c.nextDequeue, s)
  }

  ghost predicate IsMin(k: u32, keys: set<u32>) {
    k in keys && forall j :: j in keys ==> k <= j
  }

  lemma {:induction false} HasMin(keys: set<u32>)
    requires keys != {}
    ensures exists k :: IsMin(k, keys)
    decreases |keys|
  {
    var k :| k in keys;
    if keys == {k} {
      assert IsMin(k, keys);
    } else {
      assert keys - {k} != {};
      HasMin(keys - {k});
      var j :| IsMin(j, keys - {k});
      var m := if k <= j then k else j;
      forall i | i in keys ensures m <= i {
        assert i == k || i in keys - {k};
      }
      assert IsMin(m, keys);
    }
  }

  /** The first key of an ordered map. */
  function MinKey(keys: set<u32>): (k: u32)
    requires keys != {}
    ensures IsMin(k, keys)
  {
    HasMin(keys);
    var k :| k in keys && forall j :: j in keys ==> k <= j;
    k
  }

  function Dequeued<T>(c: Channel<T>): (res: (Option<T>, Channel<T>))
    ensures res.1.mode == c.mode
    ensures res.0.Some? ==> |res.1.backlog| < |c.backlog|
  {
    if c.backlog == map[] then (None, c)
    else
      assert c.backlog.Keys != {};
      var s := MinKey(c.backlog.Keys);
      if !Eligible(c, s) then (None, c)
      else
        RemovedSize(c.backlog, s);
        (Some(c.backlog[s]), c.(nextDequeue := Wrap(s + 1), backlog := c.backlog - {s}))
  }

  lemma RemovedSize<K, V>(m: map<K, V>, k: K)
    requires k in m
    ensures |m - {k}| == |m| - 1
  {
    assert (m - {k}).Keys == m.Keys - {k};
  }

  /** Everything that can be released right now, in order of release. */
  function Drained<T>(c: Channel<T>): (res: (seq<T>, Channel<T>))
    ensures res.1.mode == c.mode
    decreases |c.backlog|
  {
    var (p, c1) := Dequeued(c);
    if p.None? then ([], c1)
    else
      var (ps, c2) := Drained(c1);
      ([p.value] + ps, c2)
  }

  function Handled<T>(c: Channel<T>, s: u32, p: T): (seq<T>, Channel<T>) {
    Drained(Enqueued(c, s, p))
  }

  class ChannelBuffer<T> {
    const mode: Mode
    var backlog: map<u32, T>
    var nextEnqueue: u32
    var nextDequeue: u32
    var outgoing: u32

    ghost function State(): Channel<T>
      reads this
    {
      Channel(mode, backlog, nextEnqueue, nextDequeue)
    }

    constructor (mode: Mode)
      ensures this.mode == mode && State() == Fresh(mode) && outgoing == 0
    {
      this.mode := mode;
      backlog, nextEnqueue, nextDequeue, outgoing := map[], 0, 0, 0;
    }

    method Enqueue(sequence: u32, packet: T)
      modifies this`backlog, this`nextEnqueue
      ensures State() == Enqueued(old(State()), sequence, packet)
    {
      if mode == SEQUENCED {
        // a newer packet has been taken in already
        if Less(sequence, nextEnqueue) { return; }
        nextEnqueue := Wrap(sequence as int + 1);
      }
      if sequence !in backlog {
        backlog := backlog[sequence := packet];
      }
    }

    method Dequeue() returns (packet: Option<T>)
      modifies this`backlog, this`nextDequeue
      ensures (packet, State()) == Dequeued(old(State()))
    {
      if backlog == map[] { return None; }
      assert backlog.Keys != {};
      var first := MinKey(backlog.Keys);
      if mode == ORDERED && !GreaterOrEqual(nextDequeue, first) { return None; }
      packet := Some(backlog[first]);
      nextDequeue := Wrap(first as int + 1);
      backlog := backlog - {first};
    }

    method GetNextOutgoing() returns (sequence: u32)
      modifies this`outgoing
      ensures sequence == old(outgoing) && outgoing == Wrap(sequence + 1)
    {
      sequence := outgoing;
      outgoing := Wrap(outgoing as int + 1);
    }

    /** Takes in one packet and moves every packet that is now due to the inbox. */
    method HandleIncomingPacket(sequence: u32, packet: T, inbox: seq<T>) returns (inbox': seq<T>)
      modifies this`backlog, this`nextEnqueue, this`nextDequeue
      ensures inbox' == inbox + Handled(old(State()), sequence, packet).0
      ensures State() == Handled(old(State()), sequence, packet).1
    {
      hide Dequeued, Drained, Enqueued;
      Enqueue(sequence, packet);
      ghost var all := Drained(State());
      inbox' := inbox;
      DrainedFirst(State());
      var eligible := Dequeue();
      while eligible.Some?
        invariant inbox + all.0 == inbox' + (if eligible.Some? then [eligible.value] + Drained(State()).0 else [])
        invariant all.1 == if eligible.Some? then Drained(State()).1 else State()
        decreases eligible.Some?, |backlog|
      {
        assert (inbox' + [eligible.value]) + Drained(State()).0 == inbox + all.0;
        inbox' := inbox' + [eligible.value];
        DrainedFirst(State());
        eligible := Dequeue();
      }
      assert inbox' + [] == inbox';
    }
  }

  /** Draining is taking out the first and draining what is left. */
  lemma DrainedFirst<T>(c: Channel<T>)
    ensures var first := Dequeued(c);
      Drained(c) == if first.0.None? then ([], first.1) else ([first.0.value] + Drained(first.1).0, Drained(first.1).1)
  {
    hide Dequeued;
  }

  // --- Whole runs ---

  /** A packet with its place in the sender's order, before the counter is cut to 32 bits. */
  datatype Arrival<T> = Arrival(number: nat, payload: T)

  /** What the application got, and the buffer, after a list of arrivals. */
  function Run<T>(mode: Mode, arrivals: seq<Arrival<T>>): (res: (seq<T>, Channel<T>))
    ensures res.1.mode == mode
  {
    if arrivals == [] then ([], Fresh(mode))
    else
      var last := arrivals[|arrivals| - 1];
      var (ps, c) := Run(mode, arrivals[..|arrivals| - 1]);
      (ps + Handled(c, Wrap(last.number), last.payload).0, Handled(c, Wrap(last.number), last.payload).1)
  }

  /** Payload by number; the first arrival of a number counts. */
  function Arrived<T>(arrivals: seq<Arrival<T>>): map<nat, T> {
    if arrivals == [] then map[]
    else
      var last := arrivals[|arrivals| - 1];
      var m := Arrived(arrivals[..|arrivals| - 1]);
      if last.number in m then m else m[last.number := last.payload]
  }

  const WINDOW: nat := 0x8000_0000

  /** The number in k, k+1, ... that the wire form s stands for. */
  function Unwrapped(s: u32, k: nat): (t: nat)
    ensures k <= t < k + SPAN && Wrap(t) == s
  {
    k + (s - k) % SPAN
  }

  lemma UnwrappedUnique(t: nat, k: nat)
    requires k <= t < k + SPAN
    ensures Unwrapped(Wrap(t), k) == t
  {
  }

  /**
    Numbers 0..k-1 have been released, the buffer waits for k, and it holds
    exactly the packets that came early, all less than 2^31 ahead.
   */
  ghost predicate Waiting<T>(c: Channel<T>, m: map<nat, T>, k: nat) {
    && c.mode.ORDERED?
    && c.nextDequeue == Wrap(k)
    && (forall i: nat :: i < k ==> i in m)
    && (forall t :: t in m && k <= t ==> t < k + WINDOW && Wrap(t) in c.backlog)
    && (forall s :: s in c.backlog ==> Unwrapped(s, k) in m && c.backlog[s] == m[Unwrapped(s, k)])
  }

  /** Only the awaited number is ever released, also when the counter wraps around. */
  lemma ReleasesAwaited<T>(c: Channel<T>, m: map<nat, T>, k: nat)
    requires Waiting(c, m, k)
    ensures var (p, c') := Dequeued(c);
      && (p.Some? <==> Wrap(k) in c.backlog && IsMin(Wrap(k), c.backlog.Keys))
      && (p.Some? ==> k in m && p.value == m[k] && Waiting(c', m, k + 1))
      && (p.None? ==> c' == c)
  {
    hide Wrap, Unwrapped, GreaterOrEqual, Waiting;
    if c.backlog != map[] {
      assert c.backlog.Keys != {};
      EligibleIsAwaited(c, m, k, MinKey(c.backlog.Keys));
      if Wrap(k) in c.backlog {
        WaitingNext(c, m, k);
        EligibleIsAwaited(c, m, k, Wrap(k));
      }
      WrapNext(k);
    }
  }

  lemma EligibleIsAwaited<T>(c: Channel<T>, m: map<nat, T>, k: nat, s: u32)
    requires Waiting(c, m, k) && s in c.backlog
    ensures Eligible(c, s) <==> s == Wrap(k)
    ensures s == Wrap(k) ==> k in m && c.backlog[s] == m[k]
  {
    hide Wrap, Unwrapped;
    var t := Unwrapped(s, k);
    EligibleExactly(k, t);
    UnwrappedUnique(k, k);
  }

  lemma WaitingNext<T>(c: Channel<T>, m: map<nat, T>, k: nat)
    requires Waiting(c, m, k) && Wrap(k) in c.backlog
    ensures Waiting(c.(nextDequeue := Wrap(k + 1), backlog := c.backlog - {Wrap(k)}), m, k + 1)
  {
    hide Wrap, Unwrapped;
    var c' := c.(nextDequeue := Wrap(k + 1), backlog := c.backlog - {Wrap(k)});
    UnwrappedUnique(k, k);
    forall u | u in m && k + 1 <= u ensures u < k + 1 + WINDOW && Wrap(u) in c'.backlog {
      DistinctInWindow(k, u);
    }
    forall r | r in c'.backlog ensures Unwrapped(r, k + 1) in m && c'.backlog[r] == m[Unwrapped(r, k + 1)] {
      UnwrappedNext(r, k);
    }
  }

  lemma WrapNext(k: nat)
    ensures Wrap(Wrap(k) + 1) == Wrap(k + 1)
  {
  }

  lemma EligibleExactly(k: nat, t: nat)
    requires k <= t < k + WINDOW
    ensures GreaterOrEqual(Wrap(k), Wrap(t)) <==> t == k
  {
    WrapMinus(k, t);
  }

  lemma DistinctInWindow(k: nat, u: nat)
    requires k < u < k + SPAN
    ensures Wrap(k) != Wrap(u)
  {
    WrapMinus(k, u);
  }

  lemma UnwrappedNext(r: u32, k: nat)
    requires r != Wrap(k)
    ensures Unwrapped(r, k + 1) == Unwrapped(r, k)
  {
  }

  /** The packets ps carry the numbers k, k+1, ... */
  ghost predicate InOrderFrom<T>(m: map<nat, T>, k: nat, ps: seq<T>) {
    forall i :: 0 <= i < |ps| ==> Carries(m, k + i, ps[i])
  }

  ghost predicate Carries<T>(m: map<nat, T>, number: nat, p: T) {
    number in m && m[number] == p
  }

  lemma {:induction false} DrainsInOrder<T>(c: Channel<T>, m: map<nat, T>, k: nat)
    requires Waiting(c, m, k)
    ensures var (ps, c') := Drained(c);
      && InOrderFrom(m, k, ps)
      && Waiting(c', m, k + |ps|)
      && Dequeued(c').0.None?
    decreases |c.backlog|
  {
    hide Waiting, Dequeued, Wrap;
    ReleasesAwaited(c, m, k);
    var (p, c1) := Dequeued(c);
    if p.Some? {
      DrainsInOrder(c1, m, k + 1);
      var (ps, c2) := Drained(c1);
      forall i | 0 <= i < |[p.value] + ps| ensures Carries(m, k + i, ([p.value] + ps)[i]) {
        assert i > 0 ==> Carries(m, k + 1 + (i - 1), ps[i - 1]);
      }
    }
  }

  function Recorded<T>(m: map<nat, T>, number: nat, p: T): map<nat, T> {
    if number in m then m else m[number := p]
  }

  lemma EnqueueKeepsWaiting<T>(c: Channel<T>, m: map<nat, T>, k: nat, number: nat, p: T)
    requires Waiting(c, m, k) && k <= number < k + WINDOW
    ensures Waiting(Enqueued(c, Wrap(number), p), Recorded(m, number, p), k)
  {
    hide Wrap, Unwrapped;
    var c', m' := Enqueued(c, Wrap(number), p), Recorded(m, number, p);
    UnwrappedUnique(number, k);
    forall s | s in c'.backlog ensures Unwrapped(s, k) in m' && c'.backlog[s] == m'[Unwrapped(s, k)] {
    }
  }

  /** Every arrival is not yet released, and less than 2^31 ahead of the next one to be released. */
  ghost predicate OnTime<T>(arrivals: seq<Arrival<T>>) {
    forall i :: 0 <= i < |arrivals| ==>
      var k := |Run(ORDERED, arrivals[..i]).0|;
      k <= arrivals[i].number < k + WINDOW
  }

  /** Whatever the arrival order, an ordered channel releases 0, 1, 2, ... and nothing else, across any number of wraps. */
  lemma {:induction false} OrderedIsInOrder<T>(arrivals: seq<Arrival<T>>)
    requires OnTime(arrivals)
    ensures var (ps, c) := Run(ORDERED, arrivals);
      && Waiting(c, Arrived(arrivals), |ps|)
      && InOrderFrom(Arrived(arrivals), 0, ps)
      && Dequeued(c).0.None?
    decreases |arrivals|
  {
    hide Dequeued, Wrap, Enqueued, Drained, Waiting;
    if arrivals == [] {
      NothingYet<T>();
    } else {
      var n := |arrivals| - 1;
      var before, last := arrivals[..n], arrivals[n];
      assert OnTime(before) by {
        forall i | 0 <= i < |before| ensures before[..i] == arrivals[..i] {}
      }
      OrderedIsInOrder(before);
      var (ps, c) := Run(ORDERED, before);
      var m, m' := Arrived(before), Arrived(arrivals);
      EnqueueKeepsWaiting(c, m, |ps|, last.number, last.payload);
      assert m' == Recorded(m, last.number, last.payload);
      var c1 := Enqueued(c, Wrap(last.number), last.payload);
      DrainsInOrder(c1, m', |ps|);
      ReleasedPrefix(m, m', ps, Drained(c1).0);
    }
  }

  lemma NothingYet<T>()
    ensures Waiting<T>(Fresh(ORDERED), map[], 0) && Dequeued<T>(Fresh(ORDERED)).0.None?
  {
  }

  lemma ReleasedPrefix<T>(m: map<nat, T>, m': map<nat, T>, ps: seq<T>, qs: seq<T>)
    requires InOrderFrom(m, 0, ps) && InOrderFrom(m', |ps|, qs)
    requires forall i :: i in m ==> i in m' && m'[i] == m[i]
    ensures InOrderFrom(m', 0, ps + qs)
  {
    forall i | 0 <= i < |ps + qs| ensures Carries(m', 0 + i, (ps + qs)[i]) {
      assert i < |ps| ==> Carries(m, 0 + i, ps[i]);
      assert i >= |ps| ==> Carries(m', |ps| + (i - |ps|), qs[i - |ps|]);
    }
  }

  /** Below the wrap the released packets are the longest gap-free prefix of what has arrived. */
  lemma OrderedIsComplete<T>(arrivals: seq<Arrival<T>>)
    requires OnTime(arrivals)
    requires forall a :: a in arrivals ==> a.number < SPAN
    ensures var ps := Run(ORDERED, arrivals).0;
      && InOrderFrom(Arrived(arrivals), 0, ps)
      && |ps| !in Arrived(arrivals)
  {
    hide Dequeued, Wrap, Drained, Waiting, Run;
    OrderedIsInOrder(arrivals);
    var (ps, c) := Run(ORDERED, arrivals);
    ArrivedNumbers(arrivals);
    NoneLeftBehind(c, Arrived(arrivals), |ps|);
  }

  lemma {:induction false} ArrivedNumbers<T>(arrivals: seq<Arrival<T>>)
    ensures forall t :: t in Arrived(arrivals) ==> exists a :: a in arrivals && a.number == t
    decreases |arrivals|
  {
    if arrivals != [] {
      var n := |arrivals| - 1;
      ArrivedNumbers(arrivals[..n]);
      assert arrivals[n] in arrivals;
    }
  }

  lemma NoneLeftBehind<T>(c: Channel<T>, m: map<nat, T>, k: nat)
    requires Waiting(c, m, k) && Dequeued(c).0.None?
    requires forall t :: t in m ==> t < SPAN
    ensures k !in m
  {
    hide Dequeued, Wrap, Unwrapped;
    ReleasesAwaited(c, m, k);
    if k in m {
      SmallNumber(k);
      forall s | s in c.backlog ensures Wrap(k) <= s {
        SmallNumber(Unwrapped(s, k));
      }
    }
  }

  lemma SmallNumber(t: nat)
    ensures t < SPAN ==> Wrap(t) == t
  {
  }

  /** A stored packet that is next in line stays put exactly when a later one has a smaller wire form. */
  lemma StuckBehindWrap<T>(c: Channel<T>, m: map<nat, T>, k: nat)
    requires Waiting(c, m, k) && k in m
    ensures Drained(c) == ([], c) <==> exists t :: t in m && k < t && Wrap(t) < Wrap(k)
  {
    hide Dequeued, Wrap, Unwrapped, Waiting;
    ReleasesAwaited(c, m, k);
    SmallestKey(c, m, k);
    if Dequeued(c).0.Some? {
      assert Drained(c).0 != [];
    }
  }

  lemma SmallestKey<T>(c: Channel<T>, m: map<nat, T>, k: nat)
    requires Waiting(c, m, k) && k in m
    ensures Wrap(k) in c.backlog && (IsMin(Wrap(k), c.backlog.Keys) <==> !exists t :: t in m && k < t && Wrap(t) < Wrap(k))
  {
    hide Wrap, Unwrapped;
    if !exists t :: t in m && k < t && Wrap(t) < Wrap(k) {
      forall s | s in c.backlog ensures Wrap(k) <= s {
        var t := Unwrapped(s, k);
        assert t in m && (t == k || k < t);
      }
    }
  }

  /** The numbers 0 to n-1, each once and in order. */
  function UpTo<T>(n: nat, x: T): (r: seq<Arrival<T>>)
    ensures |r| == n
  {
    seq(n, i requires 0 <= i < n => Arrival(i, x))
  }

  lemma UpToPrefix<T>(n: nat, i: nat, x: T)
    requires i <= n
    ensures UpTo(n, x)[..i] == UpTo(i, x)
  {
  }

  lemma {:induction false} ReleasesUpTo<T>(n: nat, x: T)
    requires n < SPAN
    ensures OnTime(UpTo(n, x)) && |Run(ORDERED, UpTo(n, x)).0| == n
    ensures forall t: nat :: t in Arrived(UpTo(n, x)) <==> t < n
  {
    hide Run;
    ArrivedUpTo(n, x);
    forall i | 0 <= i < n ensures |Run(ORDERED, UpTo(n, x)[..i]).0| == i {
      UpToPrefix(n, i, x);
      ReleasesUpTo(i, x);
    }
    OrderedIsComplete(UpTo(n, x));
    ReleasedHasArrived(UpTo(n, x), n);
  }

  lemma ReleasedHasArrived<T>(arrivals: seq<Arrival<T>>, n: nat)
    requires InOrderFrom(Arrived(arrivals), 0, Run(ORDERED, arrivals).0) && n !in Arrived(arrivals)
    ensures |Run(ORDERED, arrivals).0| <= n
  {
    hide Run, Arrived;
    var ps := Run(ORDERED, arrivals).0;
    forall i | 0 <= i < |ps| ensures i in Arrived(arrivals) {
      assert Carries(Arrived(arrivals), 0 + i, ps[i]);
    }
  }

  lemma {:induction false} ArrivedUpTo<T>(n: nat, x: T)
    ensures forall t: nat :: t in Arrived(UpTo(n, x)) <==> t < n
  {
    if n > 0 {
      ArrivedUpTo(n - 1, x);
      UpToPrefix(n, n - 1, x);
    }
  }

  /** A run that gets stuck: 0 to 2^32 - 2 in order, then 2^32, then 2^32 - 1, which everything waits for. */
  lemma StuckRun<T>(x: T)
    ensures var arrivals := UpTo(SPAN - 1, x) + [Arrival(SPAN, x), Arrival(SPAN - 1, x)];
      && OnTime(arrivals) && (forall t: nat :: t <= SPAN ==> t in Arrived(arrivals))
      && |Run(ORDERED, arrivals).0| == SPAN - 1
  {
    hide Run, Wrap, Waiting, Drained, Dequeued, UpTo, Arrived;
    var n := SPAN - 1;
    var first := UpTo(n, x);
    ReleasesUpTo(n, x);
    var second := first + [Arrival(SPAN, x)];
    OneMoreOnTime(first, Arrival(SPAN, x));
    LongerRun(first, Arrival(SPAN, x));
    OrderedIsInOrder(second);
    ReleasedHasArrived(second, n);
    assert first + [Arrival(SPAN, x), Arrival(n, x)] == second + [Arrival(n, x)];
    OneMoreOnTime(second, Arrival(n, x));
    LastStuck(second, x);
  }

  lemma LastStuck<T>(arrivals: seq<Arrival<T>>, x: T)
    requires Waiting(Run(ORDERED, arrivals).1, Arrived(arrivals), SPAN - 1) && SPAN in Arrived(arrivals)
    ensures Run(ORDERED, arrivals + [Arrival(SPAN - 1, x)]).0 == Run(ORDERED, arrivals).0
  {
    hide Run, Waiting, Drained, Dequeued, Arrived, Enqueued;
    var n, c := SPAN - 1, Run(ORDERED, arrivals).1;
    EnqueueKeepsWaiting(c, Arrived(arrivals), n, n, x);
    var m := Recorded(Arrived(arrivals), n, x);
    assert SPAN in m && n in m && Wrap(SPAN) < Wrap(n);
    StuckBehindWrap(Enqueued(c, Wrap(n), x), m, n);
    StaysPut(arrivals, Arrival(n, x));
  }

  lemma OneMoreOnTime<T>(arrivals: seq<Arrival<T>>, a: Arrival<T>)
    requires OnTime(arrivals)
    requires |Run(ORDERED, arrivals).0| <= a.number < |Run(ORDERED, arrivals).0| + WINDOW
    ensures OnTime(arrivals + [a])
    ensures Arrived(arrivals + [a]) == Recorded(Arrived(arrivals), a.number, a.payload)
  {
    hide Run;
    var all := arrivals + [a];
    assert all[..|arrivals|] == arrivals;
    forall i | 0 <= i < |arrivals| ensures all[..i] == arrivals[..i] && all[i] == arrivals[i] {
    }
  }

  lemma LongerRun<T>(arrivals: seq<Arrival<T>>, a: Arrival<T>)
    ensures |Run(ORDERED, arrivals).0| <= |Run(ORDERED, arrivals + [a]).0|
  {
    assert (arrivals + [a])[..|arrivals|] == arrivals;
  }

  lemma StaysPut<T>(arrivals: seq<Arrival<T>>, a: Arrival<T>)
    requires var c := Enqueued(Run(ORDERED, arrivals).1, Wrap(a.number), a.payload); Drained(c) == ([], c)
    ensures Run(ORDERED, arrivals + [a]).0 == Run(ORDERED, arrivals).0
  {
    assert (arrivals + [a])[..|arrivals|] == arrivals;
    var ps := Run(ORDERED, arrivals).0;
    assert ps + [] == ps;
  }

  /** Exactly the arrivals not yet released keep the order: a released number that comes again is released again. */
  lemma InOrderExactly<T>(c: Channel<T>, m: map<nat, T>, k: nat, number: nat, p: T)
    requires Waiting(c, m, k) && k !in m
    requires k < number + WINDOW - 1 && number < k + WINDOW
    requires k < SPAN && forall t :: t in m ==> t < SPAN
    ensures InOrderFrom(Recorded(m, number, p), k, Handled(c, Wrap(number), p).0) <==> k <= number
  {
    hide Wrap, Unwrapped, Drained, Enqueued, Waiting;
    if k <= number {
      EnqueueKeepsWaiting(c, m, k, number, p);
      DrainsInOrder(Enqueued(c, Wrap(number), p), Recorded(m, number, p), k);
    } else {
      ReleasedAgain(c, m, k, number, p);
      var ps := Handled(c, Wrap(number), p).0;
      assert !Carries(m, k + 0, ps[0]);
    }
  }

  /** A run with a repeated number: what arrives again is released again. */
  lemma RepeatedRun<T>(a: T, b: T)
    ensures Run(ORDERED, [Arrival(0, a), Arrival(0, b)]).0 == [a, b]
  {
    assert Wrap(0) == 0 && Wrap(1) == 1;
    var c1 := Channel(ORDERED, map[], 0, 1);
    var one := [Arrival(0, a)];
    assert one[..0] == [];
    FirstOut(Fresh<T>(ORDERED), a, c1);
    assert [] + [a] == [a];
    assert Run(ORDERED, one) == ([a], c1);
    var two := [Arrival(0, a), Arrival(0, b)];
    assert two[..1] == one;
    FirstOut(c1, b, c1);
    assert [a] + [b] == [a, b];
  }

  lemma FirstOut<T>(c: Channel<T>, p: T, c': Channel<T>)
    requires c.mode.ORDERED? && c.backlog == map[] && c.nextEnqueue == 0 && c.nextDequeue in {0, 1}
    requires c' == c.(nextDequeue := 1)
    ensures Handled(c, 0, p) == ([p], c')
  {
    var d := Enqueued(c, 0, p);
    assert d.backlog == map[0 := p] && d.backlog.Keys == {0};
    assert MinKey(d.backlog.Keys) == 0;
    assert d.backlog - {0} == map[];
    assert Wrap(1) == 1;
    assert Dequeued(d) == (Some(p), c');
    assert Drained(c') == ([], c');
    assert [p] + [] == [p];
  }

  lemma ReleasedAgain<T>(c: Channel<T>, m: map<nat, T>, k: nat, number: nat, p: T)
    requires Waiting(c, m, k) && number < k < number + WINDOW - 1
    requires k < SPAN && forall t :: t in m ==> t < SPAN
    ensures Handled(c, Wrap(number), p).0 != []
  {
    hide Wrap, Unwrapped, GreaterOrEqual;
    SmallNumber(number);
    SmallNumber(k);
    var c' := Enqueued(c, Wrap(number), p);
    assert number in c'.backlog;
    forall s | s in c'.backlog ensures number <= s {
      if s in c.backlog {
        SmallNumber(Unwrapped(s, k));
      }
    }
    assert IsMin(number, c'.backlog.Keys);
    RefinesOrder(k, number);
    assert Dequeued(c').0.Some?;
  }

  /** Numbers that arrive only once are on time as long as none is 2^31 or more ahead. */
  lemma {:induction false} OnceEachIsOnTime<T>(arrivals: seq<Arrival<T>>)
    requires forall i, j :: 0 <= i < j < |arrivals| ==> arrivals[i].number != arrivals[j].number
    requires forall i :: 0 <= i < |arrivals| ==> arrivals[i].number < |Run(ORDERED, arrivals[..i]).0| + WINDOW
    ensures OnTime(arrivals)
    decreases |arrivals|
  {
    hide Run, Waiting;
    if arrivals != [] {
      var n := |arrivals| - 1;
      var before := arrivals[..n];
      forall i | 0 <= i <= n ensures arrivals[..n][..i] == arrivals[..i] {}
      OnceEachIsOnTime(before);
      OrderedIsInOrder(before);
      NotArrived(before, arrivals[n].number);
      var ps := Run(ORDERED, before).0;
      forall i: nat | i < |ps| ensures i in Arrived(before) {
        assert Carries(Arrived(before), 0 + i, ps[i]);
      }
      forall i | 0 <= i < |arrivals| ensures |Run(ORDERED, arrivals[..i]).0| <= arrivals[i].number {
        if i < n {
          assert before[..i] == arrivals[..i] && before[i] == arrivals[i];
        }
      }
    }
  }

  lemma {:induction false} NotArrived<T>(arrivals: seq<Arrival<T>>, number: nat)
    requires forall i :: 0 <= i < |arrivals| ==> arrivals[i].number != number
    ensures number !in Arrived(arrivals)
    decreases |arrivals|
  {
    if arrivals != [] {
      NotArrived(arrivals[..|arrivals| - 1], number);
    }
  }

  // --- Sequenced channels ---

  function Latest<T>(arrivals: seq<Arrival<T>>): int {
    if arrivals == [] then -1
    else
      var before := Latest(arrivals[..|arrivals| - 1]);
      var last := arrivals[|arrivals| - 1].number;
      if last > before then last else before
  }

  /** The arrivals that are newer than everything before them. */
  function Maxima<T>(arrivals: seq<Arrival<T>>): seq<T> {
    if arrivals == [] then []
    else
      var before, last := arrivals[..|arrivals| - 1], arrivals[|arrivals| - 1];
      Maxima(before) + if last.number > Latest(before) then [last.payload] else []
  }

  /** Every arrival is within 2^31 - 2 of the number after the latest one so far. */
  ghost predicate Close<T>(arrivals: seq<Arrival<T>>) {
    forall i :: 0 <= i < |arrivals| ==>
      -HALF_SPAN < arrivals[i].number - (Latest(arrivals[..i]) + 1) < HALF_SPAN
  }

  /** A sequenced channel delivers exactly the strict left-to-right maxima, across any number of wraps. */
  lemma {:induction false} SequencedIsMaxima<T>(arrivals: seq<Arrival<T>>)
    requires Close(arrivals)
    ensures Run(SEQUENCED, arrivals).0 == Maxima(arrivals)
    ensures Run(SEQUENCED, arrivals).1.backlog == map[]
    ensures Run(SEQUENCED, arrivals).1.nextEnqueue == Wrap(Latest(arrivals) + 1)
    decreases |arrivals|
  {
    hide Handled, Wrap;
    if arrivals == [] {
      SmallNumber(0);
    } else {
      var n := |arrivals| - 1;
      var before, last := arrivals[..n], arrivals[n];
      assert Close(before) by {
        forall i | 0 <= i < |before| ensures before[..i] == arrivals[..i] {}
      }
      SequencedIsMaxima(before);
      SequencedStep(Run(SEQUENCED, before).1, Latest(before), last);
    }
  }

  lemma SequencedStep<T>(c: Channel<T>, latest: int, a: Arrival<T>)
    requires c.mode.SEQUENCED? && c.backlog == map[] && latest >= -1 && c.nextEnqueue == Wrap(latest + 1)
    requires -HALF_SPAN < a.number - (latest + 1) < HALF_SPAN
    ensures Handled(c, Wrap(a.number), a.payload).0 == if a.number > latest then [a.payload] else []
    ensures Handled(c, Wrap(a.number), a.payload).1.backlog == map[]
    ensures Handled(c, Wrap(a.number), a.payload).1.nextEnqueue == Wrap((if a.number > latest then a.number else latest) + 1)
  {
    hide Handled, Wrap, Less;
    RefinesOrder(a.number, latest + 1);
    HandlesOne(c, Wrap(a.number), a.payload);
    WrapNext(a.number);
  }

  lemma HandlesOne<T>(c: Channel<T>, s: u32, p: T)
    requires c.mode.SEQUENCED? && c.backlog == map[]
    ensures var r := Handled(c, s, p);
      && r.1.backlog == map[]
      && (if Less(s, c.nextEnqueue) then r.0 == [] && r.1.nextEnqueue == c.nextEnqueue
          else r.0 == [p] && r.1.nextEnqueue == Wrap(s + 1))
  {
    var c1 := Enqueued(c, s, p);
    if !Less(s, c.nextEnqueue) {
      assert c1.backlog.Keys == {s};
      assert MinKey(c1.backlog.Keys) == s;
      var (_, c2) := Dequeued(c1);
      assert c2.backlog == map[];
      assert Drained(c2) == ([], c2);
    }
  }
}
