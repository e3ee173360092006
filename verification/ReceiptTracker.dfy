/** Delivery receipts: which packets were acknowledged or lost, also for packets sent in segments. */
module Receipts {
  import opened Types

  /** A notification to the application. */
  datatype Receipt = Receipt(id: u32, acked: bool)

  datatype State = State(
    tracker: set<u32>,              // packets whose fate is still open
    splits: map<u32, set<u32>>,     // container to the segments not yet acknowledged
    posted: seq<Receipt>)

  const START: State := State({}, map[], [])

  function Posted(s: State, id: u32, acked: bool): State {
    if id in s.tracker then s.(tracker := s.tracker - {id}, posted := s.posted + [Receipt(id, acked)]) else s
  }

  /** Split groups after a segment has arrived; a group that runs empty goes away. */
  function Without(splits: map<u32, set<u32>>, id: u32): map<u32, set<u32>> {
    map c | c in splits && splits[c] - {id} != {} :: splits[c] - {id}
  }

  /** The container whose last open segment is `id`. */
  ghost function Finished(splits: map<u32, set<u32>>, id: u32): (c: Option<u32>)
    ensures c.Some? ==> c.value in splits && splits[c.value] == {id}
    ensures c.None? ==> forall k :: k in splits ==> splits[k] != {id}
  {
    if k :| k in splits && splits[k] == {id} then Some(k) else None
  }

  ghost function Acknowledged(s: State, id: u32): State {
    var s1 := s.(splits := Without(s.splits, id));
    var s2 := match Finished(s.splits, id) { case Some(c) => Posted(s1, c, true) case None => s1 };
    Posted(s2, id, true)
  }

  function Lost(s: State, ids: seq<u32>): State {
    if ids == [] then s else Posted(Lost(s, ids[..|ids| - 1]), ids[|ids| - 1], false)
  }

  function Tracked(s: State, id: u32): State {
    s.(tracker := s.tracker + {id})
  }

  function Registered(s: State, container: u32, segments: set<u32>): State {
    s.(splits := if container in s.splits then s.splits else s.splits[container := segments])
  }

  /**
    A packet is given up: its negative receipt, if it carries the option, goes
    out past the tracker, and the connection is reset along with the tracker.
   */
  function GivenUp(s: State, id: u32, wanted: bool): State {
    State({}, map[], ReportedPast(s.posted, id, wanted))
  }

  function ReportedPast(posted: seq<Receipt>, id: u32, wanted: bool): seq<Receipt> {
    if wanted then posted + [Receipt(id, false)] else posted
  }

  /** Groups are non-empty, pairwise disjoint, and hold no container. */
  ghost predicate Sound(splits: map<u32, set<u32>>, containers: set<u32>) {
    && splits.Keys <= containers
    && (forall c :: c in splits ==> splits[c] != {} && splits[c] !! containers)
    && (forall c, d :: c in splits && d in splits && c != d ==> splits[c] !! splits[d])
  }

  /** Halfway through the sweep for `id`: the groups in `todo` are still as they were. */
  ghost function Partly(splits: map<u32, set<u32>>, id: u32, todo: set<u32>): map<u32, set<u32>> {
    map c | c in splits && (c in todo || splits[c] - {id} != {}) :: if c in todo then splits[c] else splits[c] - {id}
  }

  lemma PartlySound(splits: map<u32, set<u32>>, containers: set<u32>, id: u32, todo: set<u32>)
    requires Sound(splits, containers)
    ensures Sound(Partly(splits, id, todo), containers)
  {
  }

  /** A container is in no group, so acknowledging one touches no group. */
  lemma ContainerAcknowledged(s: State, containers: set<u32>, c: u32)
    requires Sound(s.splits, containers) && c in containers
    ensures Acknowledged(s, c) == Posted(s, c, true)
  {
    forall k | k in s.splits ensures s.splits[k] - {c} == s.splits[k] && s.splits[k] != {c} {
      assert c !in s.splits[k];
    }
    assert Without(s.splits, c) == s.splits;
  }

  lemma SmallerMap<V>(m: map<u32, V>, n: map<u32, V>, c: u32)
    requires m.Keys <= n.Keys && c in n && c !in m
    ensures |m| < |n|
  {
    assert m.Keys <= n.Keys - {c};
    SubsetSize(m.Keys, n.Keys - {c});
  }

  class ReceiptTracker {
    var tracker: set<u32>
    var splits: map<u32, set<u32>>
    var posted: seq<Receipt>
    ghost var containers: set<u32>    // every container ever registered

    ghost predicate Valid()
      reads this
    {
      Sound(splits, containers)
    }

    ghost function View(): State
      reads this
    {
      State(tracker, splits, posted)
    }

    constructor ()
      ensures Valid() && View() == START && containers == {}
    {
      tracker, splits, posted, containers := {}, map[], [], {};
    }

    method Track(id: u32)
      modifies this`tracker
      ensures View() == Tracked(old(View()), id)
    {
      tracker := tracker + {id};
    }

    /** The numbers of a new group are used nowhere else. */
    ghost predicate Unused(container: u32, segments: set<u32>)
      reads this
    {
      && segments != {} && container !in containers && container !in segments
      && segments !! containers && forall c :: c in splits ==> splits[c] !! segments && container !in splits[c]
    }

    /** A container that is still open keeps its group. */
    method RegisterSplitPacket(container: u32, segments: set<u32>)
      modifies this`splits, this`containers
      ensures containers == old(containers) + {container}
      ensures View() == Registered(old(View()), container, segments)
      ensures old(Valid() && Unused(container, segments)) ==> Valid()
    {
      if container !in splits {
        splits := splits[container := segments];
      }
      containers := containers + {container};
    }

    /** The recursion finds every group as it was, so the outer iteration is not disturbed. */
    method Acknowledge(id: u32)
      requires Valid()
      modifies this`tracker, this`splits, this`posted
      ensures Valid()
      ensures View() == Acknowledged(old(View()), id)
      decreases |splits|
    {
      hide Acknowledged, Sound, Partly, Without, Sweeping;
      SweepBegins(View(), id);
      ghost var start := View();
      ghost var finished := Finished(splits, id);
      var todo := splits.Keys;
      while todo != {}
        invariant todo <= start.splits.Keys
        invariant View() == Sweeping(start, id, finished, todo)
        decreases todo
      {
        var c :| c in todo;
        var rest := todo - {c};
        NextGroup(start, containers, id, finished, todo, c);
        var open := splits[c] - {id};
        if open == {} {
          // the whole group was delivered
          splits := splits - {c};
          PartlySound(start.splits, containers, id, rest);
          SmallerMap(splits, start.splits, c);
          ContainerAcknowledged(View(), containers, c);
          Acknowledge(c);
        } else {
          splits := splits[c := open];
        }
        todo := rest;
      }
      PartlySound(start.splits, containers, id, {});
      SweepDone(start, id);
      if id in tracker {
        tracker := tracker - {id};
        posted := posted + [Receipt(id, true)];
      }
    }

    method Lose(packets: seq<u32>)
      modifies this`tracker, this`posted
      ensures View() == Lost(old(View()), packets)
    {
      for i := 0 to |packets|
        invariant View() == Lost(old(View()), packets[..i])
      {
        assert packets[..i + 1][..i] == packets[..i];
        if packets[i] in tracker {
          tracker := tracker - {packets[i]};
          posted := posted + [Receipt(packets[i], false)];
        }
      }
      assert packets[..|packets|] == packets;
    }
  }

  /** The tracker halfway through the sweep: the finished container, if passed already, has its receipt. */
  ghost function Sweeping(s: State, id: u32, finished: Option<u32>, todo: set<u32>): State {
    var s1 := s.(splits := Partly(s.splits, id, todo));
    if finished.Some? && finished.value !in todo then Posted(s1, finished.value, true) else s1
  }

  lemma SweepBegins(s: State, id: u32)
    ensures Sweeping(s, id, Finished(s.splits, id), s.splits.Keys) == s
  {
    assert Partly(s.splits, id, s.splits.Keys) == s.splits;
  }

  lemma SweepDone(s: State, id: u32)
    ensures Posted(Sweeping(s, id, Finished(s.splits, id), {}), id, true) == Acknowledged(s, id)
    ensures Sweeping(s, id, Finished(s.splits, id), {}).splits == Partly(s.splits, id, {})
  {
    assert Partly(s.splits, id, {}) == Without(s.splits, id);
  }

  /** What the sweep does with one group. */
  lemma NextGroup(s: State, containers: set<u32>, id: u32, finished: Option<u32>, todo: set<u32>, c: u32)
    requires Sound(s.splits, containers) && finished == Finished(s.splits, id)
    requires todo <= s.splits.Keys && c in todo
    ensures c in containers
    ensures var now, next := Sweeping(s, id, finished, todo), Sweeping(s, id, finished, todo - {c});
      && c in now.splits
      && (if now.splits[c] - {id} == {}
          then next == Posted(now.(splits := now.splits - {c}), c, true)
            && now.splits - {c} == Partly(s.splits, id, todo - {c}) && (now.splits - {c}).Keys <= s.splits.Keys
          else next == now.(splits := now.splits[c := now.splits[c] - {id}]))
  {
    var p: map<u32, set<u32>> := Partly(s.splits, id, todo);
    var q: map<u32, set<u32>> := Partly(s.splits, id, todo - {c});
    if s.splits[c] - {id} == {} {
      assert s.splits[c] == {id};
      assert finished == Some(c);
      assert q == p - {c};
    } else {
      assert q == p[c := p[c] - {id}];
    }
  }

  // --- Whole runs ---

  datatype Event =
    | Enqueue(container: u32, segments: set<u32>, receipt: bool)  // no segments: the packet travels whole
    | Ack(id: u32)
    | Lose(ids: seq<u32>)
    | GiveUp(id: u32, wanted: bool)    // a packet was sent too often, which ends the connection

  /** The tracker together with what has happened so far. */
  datatype World = World(
    s: State,
    used: set<u32>,                // identifiers given out
    containers: set<u32>,          // identifiers of packets that travel in segments
    asked: set<u32>,               // packets for which a receipt was requested
    groups: map<u32, set<u32>>,    // segments of those that travel in segments
    acked: set<u32>,
    over: bool)                    // the connection has been given up

  const BEGINNING: World := World(START, {}, {}, {}, map[], {}, false)

  /**
    Identifiers are fresh, only packets that actually travel are acknowledged,
    lost or given up, and nothing follows giving up.
   */
  predicate Allowed(w: World, e: Event) {
    && !w.over
    && match e
       case Enqueue(container, segments, _) =>
         container !in w.used && segments !! w.used && container !in segments
       case Ack(id) => id in w.used && id !in w.containers
       case Lose(ids) => forall id :: id in ids ==> id in w.used && id !in w.containers
       case GiveUp(id, wanted) => id in w.used && id !in w.containers && id !in w.acked && (id in w.asked ==> wanted)
  }

  ghost function Step(w: World, e: Event): World {
    match e
    case Enqueue(container, segments, receipt) =>
      var s1 := if receipt then Tracked(w.s, container) else w.s;
      var split := segments != {};
      w.(s := if receipt && split then Registered(s1, container, segments) else s1,
         used := w.used + {container} + segments,
         containers := if split then w.containers + {container} else w.containers,
         asked := if receipt then w.asked + {container} else w.asked,
         groups := if receipt && split then w.groups[container := segments] else w.groups)
    case Ack(id) => w.(s := Acknowledged(w.s, id), acked := w.acked + {id})
    case Lose(ids) => w.(s := Lost(w.s, ids))
    case GiveUp(id, wanted) => w.(s := GivenUp(w.s, id, wanted), over := true)
  }

  ghost function Run(log: seq<Event>): World {
    if log == [] then BEGINNING else Step(Run(log[..|log| - 1]), log[|log| - 1])
  }

  ghost predicate Legal(log: seq<Event>) {
    forall i :: 0 <= i < |log| ==> Allowed(Run(log[..i]), log[i])
  }

  function Times(posted: seq<Receipt>, id: u32): nat {
    if posted == [] then 0
    else Times(posted[..|posted| - 1], id) + if posted[|posted| - 1].id == id then 1 else 0
  }

  /** Open exactly as long as no receipt has been posted, and never more than one. */
  ghost predicate OneEach(w: World) {
    && w.s.tracker <= w.asked <= w.used
    && forall id: u32 :: Times(w.s.posted, id) == if id in w.asked && id !in w.s.tracker then 1 else 0
  }

  /** A group holds the segments still unacknowledged, and its container is open as long as there are any. */
  ghost predicate Linked(w: World) {
    && Sound(w.s.splits, w.containers)
    && Sound(w.groups, w.containers)
    && w.containers <= w.used && w.acked <= w.used && w.groups.Keys <= w.asked
    && (forall c :: c in w.groups ==> w.groups[c] <= w.used)
    && (forall c :: c in w.s.splits ==> c in w.groups)
    && (forall c :: c in w.groups ==> Follows(w, c))
  }

  ghost predicate Follows(w: World, c: u32)
    requires c in w.groups
  {
    && (c in w.s.splits <==> !(w.groups[c] <= w.acked))
    && (c in w.s.splits ==> w.s.splits[c] == w.groups[c] - w.acked)
    && (c in w.s.tracker <==> c in w.s.splits)
  }

  /** No packet in segments is ever reported lost. */
  ghost predicate NoneLost(w: World) {
    forall r :: r in w.s.posted && r.id in w.containers ==> r.acked
  }

  ghost predicate Good(w: World) {
    OneEach(w) && Linked(w) && NoneLost(w)
  }

  lemma TimesPosted(s: State, id: u32, acked: bool, k: u32)
    ensures Times(Posted(s, id, acked).posted, k) == Times(s.posted, k) + if id in s.tracker && k == id then 1 else 0
  {
    if id in s.tracker {
      assert Posted(s, id, acked).posted[..|s.posted|] == s.posted;
    }
  }

  lemma PostedOneEach(w: World, id: u32, acked: bool)
    requires OneEach(w)
    ensures OneEach(w.(s := Posted(w.s, id, acked)))
  {
    forall k: u32 ensures Times(Posted(w.s, id, acked).posted, k) == if k in w.asked && k !in Posted(w.s, id, acked).tracker then 1 else 0 {
      TimesPosted(w.s, id, acked, k);
    }
  }

  lemma AckGood(w: World, id: u32)
    requires Good(w) && Allowed(w, Ack(id))
    ensures Good(Step(w, Ack(id)))
  {
    hide OneEach, Times, Sound, Without;
    var w1 := w.(s := w.s.(splits := Without(w.s.splits, id)), acked := w.acked + {id});
    var finished := Finished(w.s.splits, id);
    OneEachFrame(w, w1);
    var w2 := if finished.Some? then w1.(s := Posted(w1.s, finished.value, true)) else w1;
    if finished.Some? {
      PostedOneEach(w1, finished.value, true);
    }
    PostedOneEach(w2, id, true);
    AckLinked(w, id);
  }

  lemma OneEachFrame(w: World, w': World)
    requires OneEach(w) && w'.s.posted == w.s.posted && w'.s.tracker == w.s.tracker && w'.asked == w.asked && w.used <= w'.used
    ensures OneEach(w')
  {
  }

  lemma AckLinked(w: World, id: u32)
    requires Linked(w) && id in w.used && id !in w.containers
    ensures Linked(Step(w, Ack(id)))
  {
    var w' := Step(w, Ack(id));
    forall c | c in w.groups ensures Follows(w', c) {
      AckFollows(w, id, c);
    }
    assert Sound(w'.s.splits, w.containers);
  }

  lemma AckFollows(w: World, id: u32, c: u32)
    requires Linked(w) && id !in w.containers && c in w.groups
    ensures Follows(Step(w, Ack(id)), c)
  {
    var w' := Step(w, Ack(id));
    assert Follows(w, c);
    assert w.groups[c] - w'.acked == w.groups[c] - w.acked - {id};
    assert c in w'.s.splits <==> c in w.s.splits && w.s.splits[c] - {id} != {};
    if c in w.s.splits && w.s.splits[c] - {id} == {} {
      assert w.s.splits[c] == {id};
      assert Finished(w.s.splits, id) == Some(c);
    }
  }

  lemma {:induction false} LoseGood(w: World, ids: seq<u32>)
    requires Good(w) && Allowed(w, Lose(ids))
    ensures Good(Step(w, Lose(ids)))
    decreases |ids|
  {
    if ids != [] {
      var n := |ids| - 1;
      LoseGood(w, ids[..n]);
      var w1 := Step(w, Lose(ids[..n]));
      PostedOneEach(w1, ids[n], false);
      assert ids[n] in ids;
      var w2 := w1.(s := Posted(w1.s, ids[n], false));
      forall c | c in w2.groups ensures Follows(w2, c) {
        assert Follows(w1, c);
      }
      assert w2 == Step(w, Lose(ids));
    }
  }

  lemma EnqueueGood(w: World, e: Event)
    requires Good(w) && e.Enqueue? && Allowed(w, e)
    ensures Good(Step(w, e))
  {
    hide Linked, NoneLost, Step, Times;
    EnqueueOneEach(w, e);
    EnqueueLinked(w, e);
    EnqueueNoneLost(w, e);
  }

  lemma EnqueueOneEach(w: World, e: Event)
    requires OneEach(w) && e.Enqueue? && Allowed(w, e)
    ensures OneEach(Step(w, e))
  {
    hide Times;
  }

  lemma EnqueueLinked(w: World, e: Event)
    requires Linked(w) && w.s.tracker <= w.used && e.Enqueue? && Allowed(w, e)
    ensures Linked(Step(w, e))
  {
    forall c | c in w.groups ensures Follows(w, c) {}
    SplitsInGroups(w);
    SoundAdded(w.s.splits, w.containers, w.used, e.container, e.segments);
    SoundAdded(w.groups, w.containers, w.used, e.container, e.segments);
    hide Sound;
    var w' := Step(w, e);
    forall c | c in w'.groups ensures Follows(w', c) {
      assert c in w.groups ==> Follows(w, c);
    }
  }

  lemma SplitsInGroups(w: World)
    requires Linked(w)
    ensures forall c :: c in w.s.splits ==> w.s.splits[c] <= w.used
    ensures w.groups.Keys <= w.containers
  {
    forall c | c in w.s.splits ensures w.s.splits[c] <= w.used {
      assert Follows(w, c);
    }
  }

  lemma SoundAdded(splits: map<u32, set<u32>>, containers: set<u32>, used: set<u32>, c: u32, segments: set<u32>)
    requires Sound(splits, containers) && containers <= used && forall k :: k in splits ==> splits[k] <= used
    requires c !in used && segments !! used && c !in segments
    ensures Sound(splits, containers + {c})
    ensures segments != {} ==> Sound(splits[c := segments], containers + {c})
  {
  }

  lemma EnqueueNoneLost(w: World, e: Event)
    requires NoneLost(w) && OneEach(w) && e.Enqueue? && Allowed(w, e)
    ensures NoneLost(Step(w, e))
  {
    hide Times;
    TimesPositive(w.s.posted, e.container);
  }

  /** Until the connection is given up, each requested receipt is open or posted exactly once, in every run. */
  lemma {:induction false} AlwaysGood(log: seq<Event>)
    requires Legal(log)
    ensures !Run(log).over ==> Good(Run(log))
    decreases |log|
  {
    hide Good, Step, Allowed;
    if log == [] {
      BeginningGood();
    } else {
      LegalBefore(log);
      var n := |log| - 1;
      AlwaysGood(log[..n]);
      if !log[n].GiveUp? {
        StepGood(Run(log[..n]), log[n]);
      } else {
        EndsThere(Run(log[..n]), log[n]);
      }
    }
  }

  lemma LegalBefore(log: seq<Event>)
    requires Legal(log) && log != []
    ensures var n := |log| - 1;
      Legal(log[..n]) && Allowed(Run(log[..n]), log[n]) && !Run(log[..n]).over
  {
    hide Run, Step;
    var n := |log| - 1;
    forall i | 0 <= i < n ensures log[..n][..i] == log[..i] && log[..n][i] == log[i] {
    }
  }

  lemma EndsThere(w: World, e: Event)
    requires e.GiveUp?
    ensures Step(w, e).over
  {
  }

  lemma BeginningGood()
    ensures Good(BEGINNING)
  {
  }

  lemma StepGood(w: World, e: Event)
    requires Good(w) && Allowed(w, e) && !e.GiveUp?
    ensures Good(Step(w, e))
  {
    hide Good, Step, Allowed;
    match e
    case Enqueue(_, _, _) => EnqueueGood(w, e);
    case Ack(id) => AckGood(w, id);
    case Lose(ids) => LoseGood(w, ids);
  }

  lemma {:induction false} TimesPositive(posted: seq<Receipt>, id: u32)
    ensures Times(posted, id) > 0 <==> exists r :: r in posted && r.id == id
    decreases |posted|
  {
    if posted != [] {
      var n := |posted| - 1;
      TimesPositive(posted[..n], id);
      assert posted == posted[..n] + [posted[n]];
    }
  }

  /** The receipt for a packet in segments says "acknowledged", and is posted exactly when all segments have been. */
  lemma ContainerReceipt(log: seq<Event>, c: u32)
    requires Legal(log) && c in Run(log).groups
    ensures ContainerReported(Run(log), c)
  {
    hide Step, Allowed, ContainerReported, Good;
    AlwaysGood(log);
    if !Run(log).over {
      GoodReports(Run(log), c);
    } else {
      LegalBefore(log);
      var n := |log| - 1;
      AlwaysGood(log[..n]);
      ReportsToTheEnd(Run(log[..n]), log[n], c);
    }
  }

  ghost predicate ContainerReported(w: World, c: u32) {
    && c in w.groups
    && (Receipt(c, true) in w.s.posted <==> w.groups[c] <= w.acked)
    && Receipt(c, false) !in w.s.posted
    && Times(w.s.posted, c) <= 1
  }

  lemma GoodReports(w: World, c: u32)
    requires Good(w) && c in w.groups
    ensures ContainerReported(w, c)
  {
    hide Times;
    TimesPositive(w.s.posted, c);
    assert Follows(w, c);
    if r :| r in w.s.posted && r.id == c {
      assert r == Receipt(c, true);
    }
  }

  lemma ReportsToTheEnd(w: World, e: Event, c: u32)
    requires Good(w) && Allowed(w, e) && Step(w, e).over && c in Step(w, e).groups
    ensures ContainerReported(Step(w, e), c)
  {
    assert c in w.groups && e.GiveUp?;
    GoodReports(w, c);
    assert c in w.containers && e.id != c;
    TimesReported(w.s.posted, e.id, e.wanted, c);
  }

  // --- The receipt of a packet that was given up ---

  lemma TimesReported(posted: seq<Receipt>, id: u32, wanted: bool, k: u32)
    ensures Times(ReportedPast(posted, id, wanted), k) == Times(posted, k) + if wanted && k == id then 1 else 0
  {
    if wanted {
      assert (posted + [Receipt(id, false)])[..|posted|] == posted;
    }
  }

  /** Nobody hears twice about a packet, or of one not asked for. */
  ghost predicate AtMostOne(posted: seq<Receipt>, asked: set<u32>) {
    forall id: u32 :: Times(posted, id) <= if id in asked then 1 else 0
  }

  /**
    Giving up keeps receipts single exactly when it posts none, or the packet
    was asked for and is still open. With the tracker cleared, every request
    has been answered exactly when this was the only open one; with the
    tracker as it was, the receipt posted past it is one too many.
   */
  lemma GiveUpExactly(w: World, id: u32, wanted: bool)
    requires OneEach(w)
    ensures AtMostOne(Step(w, GiveUp(id, wanted)).s.posted, w.asked) <==> (wanted ==> id in w.s.tracker)
    ensures OneEach(Step(w, GiveUp(id, wanted))) <==> w.s.tracker == if wanted then {id} else {}
    ensures OneEach(w.(s := w.s.(posted := ReportedPast(w.s.posted, id, wanted)))) <==> !wanted
  {
    forall k: u32
      ensures Times(ReportedPast(w.s.posted, id, wanted), k) == Times(w.s.posted, k) + if wanted && k == id then 1 else 0
    {
      TimesReported(w.s.posted, id, wanted, k);
    }
    hide Times, ReportedPast;
    var w' := Step(w, GiveUp(id, wanted));
    var posted := ReportedPast(w.s.posted, id, wanted);
    assert Times(posted, id) == Times(w.s.posted, id) + if wanted then 1 else 0;
    if OneEach(w') {
      forall k | k in w.s.tracker ensures wanted && k == id {
        assert Times(posted, k) == 1;
      }
    }
  }

  /** A packet reported lost and given up later is reported twice. */
  lemma ReportedTwice()
    ensures var log := [Enqueue(0, {}, true), Lose([0]), GiveUp(0, true)];
      Legal(log) && Run(log).asked == {0} && Times(Run(log).s.posted, 0) == 2
  {
    var log := [Enqueue(0, {}, true), Lose([0]), GiveUp(0, true)];
    var one, two := [log[0]], [log[0], log[1]];
    assert one[..0] == [] && two[..1] == one && log[..2] == two && log[..1] == one && log[..0] == [];
    assert [0][..0] == [];
    assert Run(one).s == State({0}, map[], []);
    assert Run(two).s == State({}, map[], [Receipt(0, false)]);
    var posted := Run(log).s.posted;
    assert posted == [Receipt(0, false), Receipt(0, false)];
    assert posted[..1] == [Receipt(0, false)] && posted[..1][..0] == [];
  }

  /** A segment given up is reported under its own number, which nobody asked for. */
  lemma SegmentReported()
    ensures var log := [Enqueue(0, {1, 2}, true), GiveUp(1, true)];
      Legal(log) && 1 !in Run(log).asked && Run(log).s.posted == [Receipt(1, false)]
  {
    var log := [Enqueue(0, {1, 2}, true), GiveUp(1, true)];
    var one := [log[0]];
    assert one[..0] == [] && log[..1] == one && log[..0] == [];
    assert Run(one).s.posted == [];
  }
}
