/** Putting segments back together, container by container, in whatever order they arrive. */
module Reassembly {
  import opened Types
  import opened Wire
  import opened Streams
  import PH = PacketHeaders
  import opened Datagrams
  import opened Segmentation

  /** A partially received message: its segment indices, bytes, stream capacity, and last index if known. */
  datatype Partial = Partial(received: set<u32>, blob: Bytes, capacity: nat, last: u32)

  const NOTHING: Partial := Partial({}, [], DEFAULT_CAPACITY, 0)

  /** Seeking to the segment's offset ends up there, unless the offset is inside the unused capacity. */
  predicate Lands(s: Partial, offset: nat) {
    !(|s.blob| < offset < s.capacity)
  }

  function Extended(s: Partial, offset: nat): (b: Bytes)
    ensures Lands(s, offset) ==> offset <= |b|
  {
    if s.capacity <= offset && |s.blob| <= offset then s.blob + Zeros(offset - |s.blob|) else s.blob
  }

  /** The capacity once `count` bytes at the offset are stored. */
  function Room(s: Partial, offset: nat, count: nat): (c: nat)
    requires |s.blob| <= s.capacity
    ensures s.capacity <= c && offset + count <= c
  {
    var cap := if s.capacity <= offset then Grown(s.capacity, |s.blob|, offset - |s.blob|) else s.capacity;
    Grown(cap, offset, count)
  }

  function Inserted(s: Partial, m: Message): (s': Partial)
    requires |s.blob| <= s.capacity && Lands(s, m.header.offset)
    ensures |s'.blob| <= s'.capacity
  {
    var offset := m.header.offset;
    Partial(s.received + {m.header.index},
            Splice(Extended(s, offset), offset, m.body),
            Room(s, offset, |m.body|),
            if m.header.segment then s.last else m.header.index)
  }

  predicate Complete(s: Partial) {
    s.last != 0 && |s.received| == s.last + 1
  }

  // --- One container ---

  function Indices(n: nat): (r: set<u32>)
    requires n <= 0x1_0000_0000
    ensures |r| == n
    ensures forall i :: i in r <==> 0 <= i < n
  {
    if n == 0 then {} else Indices(n - 1) + {n - 1}
  }

  lemma SubsetComplete(a: set<u32>, n: nat)
    requires n <= 0x1_0000_0000 && a <= Indices(n) && |a| == n
    ensures a == Indices(n)
  {
    if x :| x in Indices(n) && x !in a {
      SubsetSize(a, Indices(n) - {x});
    }
  }

  /** The part of the message covered by segment i is in place. */
  ghost predicate InPlace(blob: Bytes, full: Bytes, i: u32) {
    && Offset(i) <= End(full, i) <= |blob| <= |full|
    && blob[Offset(i)..End(full, i)] == full[Offset(i)..End(full, i)]
  }

  /** Where the highest of the segments `got` ends. */
  function Frontier(full: Bytes, got: set<u32>, n: nat): (f: nat)
    requires n <= 0x1_0000_0000
    ensures f <= |full|
  {
    if n == 0 then 0 else if n - 1 in got then End(full, n - 1) else Frontier(full, got, n - 1)
  }

  lemma {:induction false} FrontierGrows(full: Bytes, got: set<u32>, i: u32, n: nat)
    requires i < n <= 0x1_0000_0000
    ensures var f := Frontier(full, got, n);
      Frontier(full, got + {i}, n) == if f < End(full, i) then End(full, i) else f
  {
    if i == n - 1 {
      FrontierBelow(full, got, n);
    } else if n - 1 in got {
      assert End(full, i) <= End(full, n - 1);
    } else {
      FrontierGrows(full, got, i, n - 1);
    }
  }

  lemma {:induction false} FrontierBelow(full: Bytes, got: set<u32>, n: nat)
    requires n <= 0x1_0000_0000
    ensures n > 0 ==> Frontier(full, got, n) <= End(full, n - 1)
  {
    if n > 1 {
      FrontierBelow(full, got, n - 1);
    }
  }

  /** The capacity is the next power of two, and never under the default. */
  ghost predicate Tight(cap: nat, length: nat) {
    var least := if length < DEFAULT_CAPACITY then DEFAULT_CAPACITY else length;
    PowerOfTwo(cap) && least <= cap < 2 * least
  }

  /** Exactly the segments `got` of the message have been stored. */
  ghost predicate Holds(s: Partial, full: Bytes, got: set<u32>) {
    && CHUNK_SIZE < |full| < PACKET_MAX_LENGTH
    && got <= Indices(SegmentCount(full))
    && s.received == got
    && |s.blob| == Frontier(full, got, SegmentCount(full)) && Tight(s.capacity, |s.blob|)
    && s.last == (if SegmentCount(full) - 1 in got then SegmentCount(full) - 1 else 0)
    && forall i :: i in got ==> InPlace(s.blob, full, i)
  }

  /** The message `m` is segment i of the bytes `full`. */
  ghost predicate IsSegment(m: Message, full: Bytes, i: u32) {
    && full != [] && i < SegmentCount(full)
    && m.header.offset == Offset(i) && m.header.index == i
    && (m.header.segment <==> i < SegmentCount(full) - 1)
    && m.body == SegmentBody(full, i)
  }

  lemma InsertHolds(s: Partial, full: Bytes, got: set<u32>, m: Message, i: u32)
    requires Holds(s, full, got) && IsSegment(m, full, i) && Lands(s, m.header.offset)
    ensures Holds(Inserted(s, m), full, got + {i})
  {
    hide PowerOfTwo, Indices, SegmentCount, SegmentBody, Tight, InPlace, Grown, Frontier;
    var offset := m.header.offset;
    var ext := Extended(s, offset);
    var blob := Splice(ext, offset, m.body);
    FrontierGrows(full, got, i, SegmentCount(full));
    InsertTight(s, m);
    forall k | k in got + {i} ensures InPlace(blob, full, k) {
      if k == i {
        OwnSegmentStored(ext, blob, full, i);
      } else {
        assert InPlace(s.blob, full, k);
        OtherSegmentKept(s.blob, ext, blob, full, i, k);
      }
    }
  }

  lemma InsertTight(s: Partial, m: Message)
    requires Tight(s.capacity, |s.blob|) && Lands(s, m.header.offset)
    ensures Tight(Inserted(s, m).capacity, |Inserted(s, m).blob|)
  {
    hide PowerOfTwo;
  }

  lemma OwnSegmentStored(ext: Bytes, blob: Bytes, full: Bytes, i: u32)
    requires full != [] && i < SegmentCount(full)
    requires Offset(i) <= |ext| && |blob| <= |full|
    requires blob == Splice(ext, Offset(i), SegmentBody(full, i))
    ensures InPlace(blob, full, i)
  {
    assert blob[Offset(i)..End(full, i)] == SegmentBody(full, i);
  }

  lemma OtherSegmentKept(was: Bytes, ext: Bytes, blob: Bytes, full: Bytes, i: u32, k: u32)
    requires full != [] && i < SegmentCount(full) && k < SegmentCount(full) && k != i
    requires InPlace(was, full, k) && was <= ext && Offset(i) <= |ext|
    requires |blob| <= |full|
    requires blob == Splice(ext, Offset(i), SegmentBody(full, i))
    ensures InPlace(blob, full, k)
  {
    var lo, hi := Offset(k), End(full, k);
    forall j | lo <= j < hi ensures blob[j] == full[j] {
      assert was[lo..hi][j - lo] == full[lo..hi][j - lo];
      assert blob[j] == ext[j] == was[j];
    }
    assert blob[lo..hi] == full[lo..hi];
  }

  /** With every segment in place nothing is left to differ. */
  lemma AllInPlace(blob: Bytes, full: Bytes)
    requires full != [] && |blob| <= |full| < PACKET_MAX_LENGTH
    requires forall i: u32 :: i < SegmentCount(full) ==> InPlace(blob, full, i)
    ensures blob == full
  {
    hide SegmentCount;
    var n := SegmentCount(full);
    assert InPlace(blob, full, n - 1);
    forall j | 0 <= j < |full| ensures j < |blob| && blob[j] == full[j] {
      var i := j / CHUNK_SIZE;
      SegmentOf(full, j);
      assert InPlace(blob, full, i);
      assert blob[Offset(i)..End(full, i)][j - Offset(i)] == full[Offset(i)..End(full, i)][j - Offset(i)];
    }
  }

  lemma SegmentOf(full: Bytes, j: nat)
    requires j < |full|
    ensures j / CHUNK_SIZE < SegmentCount(full) && Offset(j / CHUNK_SIZE) <= j < End(full, j / CHUNK_SIZE)
  {
  }

  /** A message counts as complete exactly when all its segments are there, and its bytes are then the original ones. */
  lemma CompleteExactly(s: Partial, full: Bytes, got: set<u32>)
    requires Holds(s, full, got)
    ensures Complete(s) <==> got == Indices(SegmentCount(full))
    ensures Complete(s) ==> s.blob == full
  {
    hide InPlace, SegmentCount, Indices;
    var n := SegmentCount(full);
    if Complete(s) {
      SubsetComplete(got, n);
    }
    if got == Indices(n) {
      AllInPlace(s.blob, full);
    }
  }

  // --- All containers ---

  type Backlog = map<u32, Partial>

  function Entry(backlog: Backlog, c: u32): Partial {
    if c in backlog then backlog[c] else NOTHING
  }

  /** The assertions made before and after the segment is copied in. */
  predicate Accepts(backlog: Backlog, m: Message) {
    var s := Entry(backlog, m.header.container);
    && m.header.offset + |m.body| < PACKET_MAX_LENGTH
    && |s.blob| <= s.capacity && Lands(s, m.header.offset)
    && (m.header.segment || m.header.index > 0)
    && (Complete(Inserted(s, m)) ==> Inserted(s, m).blob != [])
  }

  /** Stores a segment; a message that is complete with it is handed out and forgotten. */
  function HandleSplit(backlog: Backlog, m: Message): (Backlog, Option<Packet>)
    requires Accepts(backlog, m)
  {
    var c := m.header.container;
    var s := Inserted(Entry(backlog, c), m);
    if Complete(s) then (backlog - {c}, Some(FromDatagram(s.blob))) else (backlog[c := s], None)
  }

  /** The buffer after a list of arrivals, as long as no assertion fails. */
  function Run(arrivals: seq<Message>): Option<Backlog> {
    if arrivals == [] then Some(map[])
    else
      var before, m := Run(arrivals[..|arrivals| - 1]), arrivals[|arrivals| - 1];
      if before.Some? && Accepts(before.value, m) then Some(HandleSplit(before.value, m).0) else None
  }

  /** Each message is a segment of the packet its container number stands for. */
  ghost predicate Genuine(arrivals: seq<Message>, packets: map<u32, Packet>) {
    forall m :: m in arrivals ==> GenuineOne(m, packets)
  }

  ghost predicate GenuineOne(m: Message, packets: map<u32, Packet>) {
    && m.header.container in packets
    && CHUNK_SIZE < |ToDatagram(packets[m.header.container])| < PACKET_MAX_LENGTH
    && IsSegment(m, ToDatagram(packets[m.header.container]), m.header.index)
  }

  ghost function All(packets: map<u32, Packet>, c: u32): set<u32>
    requires c in packets && CHUNK_SIZE < |ToDatagram(packets[c])| < PACKET_MAX_LENGTH
  {
    Indices(SegmentCount(ToDatagram(packets[c])))
  }

  /** Segments of c that arrived since c was last handed out. */
  ghost function Pending(arrivals: seq<Message>, packets: map<u32, Packet>, c: u32): set<u32>
    requires Genuine(arrivals, packets)
  {
    if arrivals == [] then {}
    else
      var before, m := arrivals[..|arrivals| - 1], arrivals[|arrivals| - 1];
      var got := Pending(before, packets, c);
      assert m in arrivals;
      if m.header.container != c then got
      else if got + {m.header.index} == All(packets, c) then {}
      else got + {m.header.index}
  }

  ghost predicate Tracks(backlog: Backlog, packets: map<u32, Packet>, c: u32, got: set<u32>)
    requires c in packets
  {
    if got == {} then c !in backlog else c in backlog && Holds(backlog[c], ToDatagram(packets[c]), got)
  }

  /** What one arrival does to its container, given what was pending. */
  lemma OneArrival(backlog: Backlog, packets: map<u32, Packet>, m: Message, got: set<u32>)
    requires GenuineOne(m, packets) && Accepts(backlog, m)
    requires Tracks(backlog, packets, m.header.container, got)
    ensures var c := m.header.container;
      var (b', out) := HandleSplit(backlog, m);
      if got + {m.header.index} == All(packets, c) then
        out == Some(packets[c]) && b' == backlog - {c}
      else
        out == None && c in b' && b' == backlog[c := b'[c]] && Holds(b'[c], ToDatagram(packets[c]), got + {m.header.index})
  {
    hide Inserted, Lands, Holds, Complete, IsSegment, SegmentCount, Indices;
    var c := m.header.container;
    var full := ToDatagram(packets[c]);
    var s := Entry(backlog, c);
    if got == {} {
      EmptyHolds(full);
    }
    InsertHolds(s, full, got, m, m.header.index);
    CompleteExactly(Inserted(s, m), full, got + {m.header.index});
    FromDatagramInverts(packets[c]);
  }

  lemma EmptyHolds(full: Bytes)
    requires CHUNK_SIZE < |full| < PACKET_MAX_LENGTH
    ensures Holds(NOTHING, full, {})
  {
    NoFrontier(full, SegmentCount(full));
  }

  lemma {:induction false} NoFrontier(full: Bytes, n: nat)
    requires n <= 0x1_0000_0000
    ensures Frontier(full, {}, n) == 0
  {
    if n > 0 {
      NoFrontier(full, n - 1);
    }
  }

  lemma {:induction false} BacklogTracks(arrivals: seq<Message>, packets: map<u32, Packet>)
    requires Genuine(arrivals, packets) && Run(arrivals).Some?
    ensures forall c :: c in packets ==> Tracks(Run(arrivals).value, packets, c, Pending(arrivals, packets, c))
    decreases |arrivals|
  {
    hide HandleSplit, Accepts, Holds;
    if arrivals != [] {
      var n := |arrivals| - 1;
      var before, m := arrivals[..n], arrivals[n];
      BacklogTracks(before, packets);
      var b := Run(before).value;
      var got := Pending(before, packets, m.header.container);
      OneArrival(b, packets, m, got);
      forall c | c in packets ensures Tracks(Run(arrivals).value, packets, c, Pending(arrivals, packets, c)) {
        assert Tracks(b, packets, c, Pending(before, packets, c));
      }
    }
  }

  /**
    Whatever the order, with repetitions and other containers in between: an
    arrival hands out a message exactly when it is the last missing segment,
    and the message is then the one that was cut up.
   */
  lemma ReassemblyInverts(arrivals: seq<Message>, packets: map<u32, Packet>, m: Message)
    requires Genuine(arrivals, packets) && GenuineOne(m, packets)
    requires Run(arrivals).Some? && Accepts(Run(arrivals).value, m)
    ensures var c := m.header.container;
      HandleSplit(Run(arrivals).value, m).1
        == if Pending(arrivals, packets, c) + {m.header.index} == All(packets, c) then Some(packets[c]) else None
  {
    hide Run, HandleSplit, Accepts;
    BacklogTracks(arrivals, packets);
    OneArrival(Run(arrivals).value, packets, m, Pending(arrivals, packets, m.header.container));
  }

  /** Some arrival completed the container. */
  ghost predicate Completed(arrivals: seq<Message>, packets: map<u32, Packet>, c: u32)
    requires Genuine(arrivals, packets)
  {
    exists i :: 0 <= i < |arrivals| && Completing(arrivals, packets, c, i)
  }

  ghost predicate Completing(arrivals: seq<Message>, packets: map<u32, Packet>, c: u32, i: nat)
    requires Genuine(arrivals, packets) && i < |arrivals|
  {
    && arrivals[i].header.container == c
    && (assert GenuineOne(arrivals[i], packets);
        Pending(arrivals[..i], packets, c) + {arrivals[i].header.index} == All(packets, c))
  }

  ghost function Arrived(arrivals: seq<Message>, c: u32): set<u32> {
    set i | 0 <= i < |arrivals| && arrivals[i].header.container == c :: arrivals[i].header.index
  }

  /** A container all of whose segments have arrived was completed. */
  lemma AllArrivedCompletes(arrivals: seq<Message>, packets: map<u32, Packet>, c: u32)
    requires Genuine(arrivals, packets) && c in packets && CHUNK_SIZE < |ToDatagram(packets[c])| < PACKET_MAX_LENGTH
    requires All(packets, c) <= Arrived(arrivals, c)
    ensures Completed(arrivals, packets, c)
  {
    if !Completed(arrivals, packets, c) {
      NeverCompleted(arrivals, packets, c);
    }
  }

  /** What is pending came after the container was last completed. */
  lemma {:induction false} PendingIsRecent(arrivals: seq<Message>, packets: map<u32, Packet>, c: u32, i: nat, k: u32)
    returns (j: nat)
    requires Genuine(arrivals, packets) && i < |arrivals| && Completing(arrivals, packets, c, i)
    requires k in Pending(arrivals, packets, c)
    ensures i < j < |arrivals| && arrivals[j].header.container == c && arrivals[j].header.index == k
    decreases |arrivals|
  {
    hide GenuineOne, All;
    var n := |arrivals| - 1;
    var before, m := arrivals[..n], arrivals[n];
    assert i < n by {
      if i == n { NothingPending(arrivals, packets, c); }
    }
    if m.header.container == c && m.header.index == k {
      j := n;
    } else {
      assert before[..i] == arrivals[..i] && before[i] == arrivals[i];
      j := PendingIsRecent(before, packets, c, i, k);
    }
  }

  lemma NothingPending(arrivals: seq<Message>, packets: map<u32, Packet>, c: u32)
    requires Genuine(arrivals, packets) && arrivals != [] && Completing(arrivals, packets, c, |arrivals| - 1)
    ensures Pending(arrivals, packets, c) == {}
  {
    hide GenuineOne, All;
  }

  lemma {:induction false} NeverCompleted(arrivals: seq<Message>, packets: map<u32, Packet>, c: u32)
    requires Genuine(arrivals, packets) && c in packets && CHUNK_SIZE < |ToDatagram(packets[c])| < PACKET_MAX_LENGTH
    requires !Completed(arrivals, packets, c)
    ensures Pending(arrivals, packets, c) == Arrived(arrivals, c) < All(packets, c)
    decreases |arrivals|
  {
    hide SegmentCount, Indices, Arrived, GenuineOne, Completed;
    if arrivals == [] {
      assert 0 in All(packets, c);
      NoArrivals(c);
    } else {
      var n := |arrivals| - 1;
      var before, m := arrivals[..n], arrivals[n];
      NotEarlier(arrivals, packets, c);
      NeverCompleted(before, packets, c);
      ArrivedOneMore(before, m, c);
      assert before + [m] == arrivals;
      if m.header.container == c {
        IndexInAll(m, packets);
      }
    }
  }

  lemma NoArrivals(c: u32)
    ensures Arrived([], c) == {}
  {
  }

  lemma IndexInAll(m: Message, packets: map<u32, Packet>)
    requires GenuineOne(m, packets)
    ensures m.header.index in All(packets, m.header.container)
  {
  }

  lemma NotEarlier(arrivals: seq<Message>, packets: map<u32, Packet>, c: u32)
    requires Genuine(arrivals, packets) && arrivals != [] && !Completed(arrivals, packets, c)
    ensures !Completed(arrivals[..|arrivals| - 1], packets, c)
    ensures !Completing(arrivals, packets, c, |arrivals| - 1)
  {
    hide Pending, GenuineOne, All;
    var n := |arrivals| - 1;
    forall i | 0 <= i < n ensures !Completing(arrivals[..n], packets, c, i) {
      assert arrivals[..n][..i] == arrivals[..i] && arrivals[..n][i] == arrivals[i];
      assert !Completing(arrivals, packets, c, i);
    }
  }

  lemma ArrivedOneMore(before: seq<Message>, m: Message, c: u32)
    ensures Arrived(before + [m], c) == Arrived(before, c) + if m.header.container == c then {m.header.index} else {}
  {
    var all := before + [m];
    forall k | k in Arrived(before, c) ensures k in Arrived(all, c) {
      var i :| 0 <= i < |before| && before[i].header.container == c && before[i].header.index == k;
      assert all[i] == before[i];
    }
    assert all[|before|] == m;
  }

  // --- When the offset is reached ---

  lemma {:induction false} PowersApart(p: nat, q: nat)
    requires PowerOfTwo(p) && PowerOfTwo(q) && p < q
    ensures 2 * p <= q
  {
    if p > 1 {
      PowersApart(p / 2, q / 2);
    }
  }

  /** Seeking fails for an offset strictly between the stored bytes and the capacity they were given. */
  predicate Reaches(full: Bytes, got: set<u32>, i: u32)
    requires full != [] && SegmentCount(full) <= 0x1_0000_0000
  {
    var f := Frontier(full, got, SegmentCount(full));
    !(f < Offset(i) < NextPowerOfTwo(if f < DEFAULT_CAPACITY then DEFAULT_CAPACITY else f))
  }

  lemma LandsExactly(s: Partial, full: Bytes, got: set<u32>, i: u32)
    requires Holds(s, full, got)
    ensures Lands(s, Offset(i)) <==> Reaches(full, got, i)
  {
    hide NextPowerOfTwo, PowerOfTwo, Frontier, InPlace, Indices, SegmentCount;
    var f := |s.blob|;
    var c := NextPowerOfTwo(if f < DEFAULT_CAPACITY then DEFAULT_CAPACITY else f);
    if c < s.capacity {
      PowersApart(c, s.capacity);
    }
    if s.capacity < c {
      PowersApart(s.capacity, c);
    }
  }

  /** A segment finds its place when it is the first, or the one before it or the last one has arrived. */
  lemma PredecessorReaches(full: Bytes, got: set<u32>, i: u32)
    requires full != [] && SegmentCount(full) <= 0x1_0000_0000 && i < SegmentCount(full)
    requires got == {} || i == 0 || (i - 1) as u32 in got || (SegmentCount(full) - 1) as u32 in got
    ensures Reaches(full, got, i)
  {
    if got == {} {
      NoFrontier(full, SegmentCount(full));
    } else if i > 0 && i - 1 in got {
      FrontierCovers(full, got, i - 1, SegmentCount(full));
    }
  }

  lemma {:induction false} FrontierCovers(full: Bytes, got: set<u32>, i: u32, n: nat)
    requires i in got && i < n <= 0x1_0000_0000
    ensures End(full, i) <= Frontier(full, got, n)
  {
    if i < n - 1 {
      FrontierCovers(full, got, i, n - 1);
    }
  }

  /** Not so for segment 3 right after 0 and 1: bytes 2400 to 4096 are capacity only. */
  lemma ThirdAfterFirstFails(full: Bytes)
    requires |full| > 3600 && SegmentCount(full) <= 0x1_0000_0000
    ensures !Reaches(full, {0, 1}, 3)
  {
    OnlyTwo(full, SegmentCount(full));
    assert NextPowerOfTwo(2400) == 4096;
  }

  lemma {:induction false} OnlyTwo(full: Bytes, n: nat)
    requires |full| > 3600 && 2 <= n <= 0x1_0000_0000
    ensures Frontier(full, {0, 1}, n) == 2400
  {
    if n > 2 {
      OnlyTwo(full, n - 1);
    }
  }

  /** The last segment of a message of the greatest length that may be queued is refused. */
  lemma LongestRefused(backlog: Backlog, m: Message, full: Bytes)
    requires |full| == PACKET_MAX_LENGTH && IsSegment(m, full, SegmentCount(full) - 1)
    ensures !Accepts(backlog, m)
  {
  }

  /** Every arrival finds its place, judging by the segments that came before it. */
  ghost predicate Landing(arrivals: seq<Message>, packets: map<u32, Packet>)
    requires Genuine(arrivals, packets)
  {
    arrivals != [] ==>
      var before, m := arrivals[..|arrivals| - 1], arrivals[|arrivals| - 1];
      assert m in arrivals;
      Landing(before, packets) && Finds(before, packets, m)
  }

  ghost predicate Finds(before: seq<Message>, packets: map<u32, Packet>, m: Message)
    requires Genuine(before, packets) && GenuineOne(m, packets)
  {
    var c := m.header.container;
    Reaches(ToDatagram(packets[c]), Pending(before, packets, c), m.header.index)
  }

  /** The assertions hold throughout exactly when every arrival finds its place. */
  lemma {:induction false} RunsExactly(arrivals: seq<Message>, packets: map<u32, Packet>)
    requires Genuine(arrivals, packets)
    ensures Run(arrivals).Some? <==> Landing(arrivals, packets)
    decreases |arrivals|
  {
    hide HandleSplit, Accepts, Finds;
    if arrivals != [] {
      var n := |arrivals| - 1;
      var before, m := arrivals[..n], arrivals[n];
      RunsExactly(before, packets);
      if Landing(before, packets) {
        BacklogTracks(before, packets);
        AcceptsExactly(before, packets, m);
      }
    }
  }

  lemma AcceptsExactly(before: seq<Message>, packets: map<u32, Packet>, m: Message)
    requires Genuine(before, packets) && GenuineOne(m, packets) && Run(before).Some?
    requires Tracks(Run(before).value, packets, m.header.container, Pending(before, packets, m.header.container))
    ensures Accepts(Run(before).value, m) <==> Finds(before, packets, m)
  {
    hide Run, Pending, Reaches, Lands, InPlace, Frontier;
    var c := m.header.container;
    var full := ToDatagram(packets[c]);
    EmptyHolds(full);
    LandsExactly(Entry(Run(before).value, c), full, Pending(before, packets, c), m.header.index);
  }

  // --- Arrival orders that always work ---

  ghost function LastIndex(packets: map<u32, Packet>, c: u32): nat
    requires c in packets && CHUNK_SIZE < |ToDatagram(packets[c])| < PACKET_MAX_LENGTH
  {
    SegmentCount(ToDatagram(packets[c])) - 1
  }

  /** The container is empty, or holds the segment before this one, or the last one. */
  ghost predicate Prepared(before: seq<Message>, packets: map<u32, Packet>, m: Message)
    requires Genuine(before, packets) && GenuineOne(m, packets)
  {
    var got, i := Pending(before, packets, m.header.container), m.header.index;
    got == {} || i == 0 || i - 1 in got || LastIndex(packets, m.header.container) in got
  }

  ghost predicate AllPrepared(arrivals: seq<Message>, packets: map<u32, Packet>)
    requires Genuine(arrivals, packets)
  {
    forall i :: 0 <= i < |arrivals| ==> PreparedAt(arrivals, packets, i)
  }

  ghost predicate PreparedAt(arrivals: seq<Message>, packets: map<u32, Packet>, i: nat)
    requires Genuine(arrivals, packets) && i < |arrivals|
  {
    assert arrivals[i] in arrivals;
    Prepared(arrivals[..i], packets, arrivals[i])
  }

  lemma {:induction false} PreparedLands(arrivals: seq<Message>, packets: map<u32, Packet>)
    requires Genuine(arrivals, packets) && AllPrepared(arrivals, packets)
    ensures Landing(arrivals, packets)
    decreases |arrivals|
  {
    hide Pending, GenuineOne, Reaches;
    if arrivals != [] {
      var n := |arrivals| - 1;
      var before, m := arrivals[..n], arrivals[n];
      forall i | 0 <= i < n ensures PreparedAt(before, packets, i) {
        assert PreparedAt(arrivals, packets, i) && before[..i] == arrivals[..i] && before[i] == arrivals[i];
      }
      PreparedLands(before, packets);
      assert PreparedAt(arrivals, packets, n);
      PreparedFinds(before, packets, m);
    }
  }

  lemma PreparedFinds(before: seq<Message>, packets: map<u32, Packet>, m: Message)
    requires Genuine(before, packets) && GenuineOne(m, packets) && Prepared(before, packets, m)
    ensures Finds(before, packets, m)
  {
    hide Pending, Reaches;
    var c := m.header.container;
    PredecessorReaches(ToDatagram(packets[c]), Pending(before, packets, c), m.header.index);
  }

  /** Whose turn it is among the n segments of the container, counting its arrivals round by round. */
  function Turn(arrivals: seq<Message>, c: u32, n: nat): (t: nat)
    requires n > 0
    ensures t < n
  {
    if arrivals == [] then 0
    else
      var t := Turn(arrivals[..|arrivals| - 1], c, n);
      if arrivals[|arrivals| - 1].header.container != c then t else if t + 1 == n then 0 else t + 1
  }

  /** Container by container the segments come in order, as often as the message is sent; containers may alternate. */
  ghost predicate ComeInOrder(arrivals: seq<Message>, packets: map<u32, Packet>)
    requires Genuine(arrivals, packets)
  {
    forall i :: 0 <= i < |arrivals| ==> InTurn(arrivals, packets, i)
  }

  ghost predicate InTurn(arrivals: seq<Message>, packets: map<u32, Packet>, i: nat)
    requires Genuine(arrivals, packets) && i < |arrivals|
  {
    assert arrivals[i] in arrivals;
    var c := arrivals[i].header.container;
    arrivals[i].header.index == Turn(arrivals[..i], c, LastIndex(packets, c) + 1)
  }

  lemma {:induction false} PendingInOrder(arrivals: seq<Message>, packets: map<u32, Packet>, c: u32)
    requires Genuine(arrivals, packets) && ComeInOrder(arrivals, packets)
    requires c in packets && CHUNK_SIZE < |ToDatagram(packets[c])| < PACKET_MAX_LENGTH
    ensures Pending(arrivals, packets, c) == Indices(Turn(arrivals, c, LastIndex(packets, c) + 1))
    decreases |arrivals|
  {
    hide SegmentCount, GenuineOne, ComeInOrder;
    if arrivals == [] {
      assert Indices(0) == {};
    } else {
      var n := |arrivals| - 1;
      var before, m := arrivals[..n], arrivals[n];
      PrefixInOrder(arrivals, packets);
      PendingInOrder(before, packets, c);
      OneMoreIndex(Turn(before, c, LastIndex(packets, c) + 1), LastIndex(packets, c) + 1);
      hide Indices;
    }
  }

  lemma OneMoreIndex(k: nat, n: nat)
    requires k < n <= 0x1_0000_0000
    ensures Indices(k + 1) == Indices(k) + {k} && Indices(0) == {}
    ensures k + 1 < n ==> Indices(k + 1) != Indices(n)
  {
    if k + 1 < n {
      assert k + 1 in Indices(n) && k + 1 !in Indices(k + 1);
    }
  }

  lemma PrefixInOrder(arrivals: seq<Message>, packets: map<u32, Packet>)
    requires Genuine(arrivals, packets) && ComeInOrder(arrivals, packets) && arrivals != []
    ensures ComeInOrder(arrivals[..|arrivals| - 1], packets) && InTurn(arrivals, packets, |arrivals| - 1)
  {
    hide GenuineOne, Turn;
    var n := |arrivals| - 1;
    forall i | 0 <= i < n ensures InTurn(arrivals[..n], packets, i) {
      assert InTurn(arrivals, packets, i) && arrivals[..n][..i] == arrivals[..i] && arrivals[..n][i] == arrivals[i];
    }
  }

  /** In-order arrival works, with any other containers in between. */
  lemma InOrderWorks(arrivals: seq<Message>, packets: map<u32, Packet>)
    requires Genuine(arrivals, packets) && ComeInOrder(arrivals, packets)
    ensures Landing(arrivals, packets) && Run(arrivals).Some?
  {
    forall i | 0 <= i < |arrivals| ensures PreparedAt(arrivals, packets, i) {
      InOrderPrepared(arrivals, packets, i);
    }
    hide Landing, Run;
    PreparedLands(arrivals, packets);
    RunsExactly(arrivals, packets);
  }

  lemma InOrderPrepared(arrivals: seq<Message>, packets: map<u32, Packet>, i: nat)
    requires Genuine(arrivals, packets) && ComeInOrder(arrivals, packets) && i < |arrivals|
    ensures PreparedAt(arrivals, packets, i)
  {
    var m := arrivals[i];
    assert InTurn(arrivals, packets, i);
    forall j | 0 <= j < i ensures InTurn(arrivals[..i], packets, j) {
      assert InTurn(arrivals, packets, j) && arrivals[..i][..j] == arrivals[..j];
    }
    hide Pending, Turn, SegmentCount, Indices;
    assert GenuineOne(m, packets);
    PendingInOrder(arrivals[..i], packets, m.header.container);
  }

  /** Whenever a container starts anew, it starts with its last segment; the others come in any order, also repeatedly. */
  ghost predicate LastComesFirst(arrivals: seq<Message>, packets: map<u32, Packet>)
    requires Genuine(arrivals, packets)
  {
    forall i :: 0 <= i < |arrivals| ==> StartsWithLast(arrivals, packets, i)
  }

  ghost predicate StartsWithLast(arrivals: seq<Message>, packets: map<u32, Packet>, i: nat)
    requires Genuine(arrivals, packets) && i < |arrivals|
  {
    assert arrivals[i] in arrivals;
    var c := arrivals[i].header.container;
    Pending(arrivals[..i], packets, c) == {} ==> arrivals[i].header.index == LastIndex(packets, c)
  }

  lemma {:induction false} LastIsPending(arrivals: seq<Message>, packets: map<u32, Packet>, c: u32)
    requires Genuine(arrivals, packets) && LastComesFirst(arrivals, packets)
    requires c in packets && CHUNK_SIZE < |ToDatagram(packets[c])| < PACKET_MAX_LENGTH
    ensures Pending(arrivals, packets, c) == {} || LastIndex(packets, c) in Pending(arrivals, packets, c)
    decreases |arrivals|
  {
    hide SegmentCount, Indices;
    if arrivals != [] {
      var n := |arrivals| - 1;
      forall i | 0 <= i < n ensures StartsWithLast(arrivals[..n], packets, i) {
        assert StartsWithLast(arrivals, packets, i) && arrivals[..n][..i] == arrivals[..i];
      }
      LastIsPending(arrivals[..n], packets, c);
      assert StartsWithLast(arrivals, packets, n);
    }
  }

  /** Last-segment-first arrival works, with any other containers in between. */
  lemma LastFirstWorks(arrivals: seq<Message>, packets: map<u32, Packet>)
    requires Genuine(arrivals, packets) && LastComesFirst(arrivals, packets)
    ensures Landing(arrivals, packets) && Run(arrivals).Some?
  {
    hide Landing, Run, Pending;
    forall i | 0 <= i < |arrivals| ensures PreparedAt(arrivals, packets, i) {
      forall j | 0 <= j < i ensures StartsWithLast(arrivals[..i], packets, j) {
        assert StartsWithLast(arrivals, packets, j) && arrivals[..i][..j] == arrivals[..j];
      }
      assert GenuineOne(arrivals[i], packets);
      LastIsPending(arrivals[..i], packets, arrivals[i].header.container);
    }
    PreparedLands(arrivals, packets);
    RunsExactly(arrivals, packets);
  }

  // --- In place ---

  class SplitPacket {
    var received: set<u32>
    const blob: BinaryStream
    var last: u32

    ghost predicate Valid()
      reads this, blob, blob.buffer
    {
      blob.Valid() && !blob.readonly && blob.subBytePosition == 0
    }

    ghost function Value(): Partial
      reads this, blob, blob.buffer
    {
      Partial(received, blob.View().bytes, blob.buffer.Length, last)
    }

    constructor ()
      ensures Valid() && Value() == NOTHING && fresh(blob) && fresh(blob.buffer)
    {
      received, last := {}, 0;
      blob := new BinaryStream(DEFAULT_CAPACITY);
    }

    /** Makes room for a segment, as zeroes. */
    method Reserve(offset: nat, count: nat)
      requires Valid() && Lands(Value(), offset)
      modifies blob, blob.buffer
      ensures Valid() && (blob.buffer == old(blob.buffer) || fresh(blob.buffer))
      ensures blob.View().bytes == Splice(Extended(old(Value()), offset), offset, Zeros(count))
      ensures blob.buffer.Length == Room(old(Value()), offset, count)
    {
      hide Grown, NextPowerOfTwo, Splice;
      blob.SeekForce(offset);
      assert blob.View().bytes == Extended(old(Value()), offset);
      blob.WriteZeroes(count);
    }

    /** Overwrites bytes that are already part of the stream. */
    method Fill(offset: nat, data: Bytes)
      requires Valid() && offset + |data| <= blob.length
      modifies blob.buffer
      ensures Valid() && blob.View().bytes == Splice(old(blob.View().bytes), offset, data)
    {
      hide Splice;
      forall i | 0 <= i < |data| {
        blob.buffer[offset + i] := data[i];
      }
      SpliceIs(old(blob.View().bytes), offset, data, blob.View().bytes);
    }

    /** Reads the segment's bytes from the stream straight into place. */
    method Insert(header: PH.PacketHeader, instream: BinaryStream)
      requires Valid() && instream.Valid() && instream != blob && instream.buffer != blob.buffer
      requires Lands(Value(), header.offset)
      modifies this, blob, blob.buffer, instream`position, instream`subBytePosition
      ensures Valid() && (blob.buffer == old(blob.buffer) || fresh(blob.buffer))
      ensures instream.Valid() && instream.View().bytes == old(instream.View().bytes)
      ensures var (data, head) := GetBytes(old(instream.View().bytes), old(instream.View().Head()), header.length);
        && instream.View().Head() == head
        && Value() == Inserted(old(Value()), Message(header, data))
    {
      hide Room, GetBytes, Splice, Extended;
      Reserve(header.offset, header.length);
      received := received + {header.index};
      var data := instream.ReadBytes(header.length);
      Fill(header.offset, data);
      OverZeroes(Extended(old(Value()), header.offset), header.offset, data);
      if !header.segment {
        last := header.index;
      }
    }

    /** Hands out the message once it is complete. */
    method Reassemble() returns (packet: Option<Packet>)
      requires Valid() && (Complete(Value()) ==> Value().blob != [])
      modifies blob`position, blob`subBytePosition
      ensures Valid() && Value() == old(Value())
      ensures packet == if Complete(Value()) then Some(FromDatagram(Value().blob)) else None
    {
      if last == 0 || |received| != last as int + 1 {
        return None;
      }
      blob.Seek(0);
      var command := blob.ReadByte();
      var data := blob.ReadBytes(blob.length - 1);
      assert data == Value().blob[1..];
      packet := Some(Packet(command, data));
    }
  }

  /** The table of partial messages. Its entries are values here; SplitPacket shows one of them in place. */
  class ReassemblyBuffer {
    var backlog: Backlog

    constructor ()
      ensures backlog == map[]
    {
      backlog := map[];
    }

    method Insert(m: Message)
      requires Accepts(backlog, m)
      modifies this
      ensures backlog == old(backlog)[m.header.container := Inserted(Entry(old(backlog), m.header.container), m)]
    {
      var c := m.header.container;
      if c !in backlog {
        backlog := backlog[c := NOTHING];
      }
      backlog := backlog[c := Inserted(backlog[c], m)];
    }

    method Reassemble(c: u32) returns (packet: Option<Packet>)
      requires c in backlog && (Complete(backlog[c]) ==> backlog[c].blob != [])
      modifies this
      ensures packet.Some? <==> Complete(old(backlog)[c])
      ensures packet.Some? ==> packet.value == FromDatagram(old(backlog)[c].blob) && backlog == old(backlog) - {c}
      ensures packet.None? ==> backlog == old(backlog)
    {
      var split := backlog[c];
      if split.last == 0 || |split.received| != split.last as int + 1 {
        return None;
      }
      packet := Some(FromDatagram(split.blob));
      backlog := backlog - {c};
    }

    method HandleSplitPacket(m: Message) returns (packet: Option<Packet>)
      requires Accepts(backlog, m)
      modifies this
      ensures (backlog, packet) == HandleSplit(old(backlog), m)
    {
      hide Inserted;
      Insert(m);
      packet := Reassemble(m.header.container);
      var c := m.header.container;
      assert old(backlog)[c := Inserted(Entry(old(backlog), c), m)] - {c} == old(backlog) - {c};
    }
  }

  lemma OverZeroes(s: Bytes, p: nat, data: Bytes)
    requires p <= |s|
    ensures Splice(Splice(s, p, Zeros(|data|)), p, data) == Splice(s, p, data)
  {
  }
}
