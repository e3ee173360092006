/** Where every field stands on the wire, and what its bytes are worth. */
module WireFormat {
  import opened Types
  import opened Wire
  import PH = PacketHeaders
  import DH = DatagramHeaders

  /** The number that bytes stand for, most significant first. */
  function Worth(b: Bytes): nat {
    if b == [] then 0 else Worth(b[..|b| - 1]) * 256 + b[|b| - 1]
  }

  lemma WorthTwo(b: Bytes)
    requires |b| == 2
    ensures Worth(b) == b[0] as int * 256 + b[1]
  {
    assert b[..1][..0] == [];
    assert Worth(b[..1]) == b[0];
  }

  lemma WorthFour(b: Bytes)
    requires |b| == 4
    ensures Worth(b) == ((b[0] as int * 256 + b[1]) * 256 + b[2]) * 256 + b[3]
  {
    WorthTwo(b[..2]);
    assert b[..3][..2] == b[..2];
  }

  /** Integers go out in network byte order. */
  lemma NetworkOrder(n: u64)
    ensures n < 0x1_0000 ==> Worth(Bytes16(n)) == n
    ensures n < 0x1_0000_0000 ==> Worth(Bytes32(n)) == n
    ensures Worth(Bytes64(n)) == n
  {
    if n < 0x1_0000 {
      WorthTwo(Bytes16(n));
    }
    if n < 0x1_0000_0000 {
      Worth32(n);
    }
    var hi, lo := n / 0x1_0000_0000, n % 0x1_0000_0000;
    Worth32(hi);
    Worth32(lo);
    WorthEight(Bytes32(hi), Bytes32(lo));
  }

  lemma Worth32(n: u32)
    ensures Worth(Bytes32(n)) == n
  {
    WorthFour(Bytes32(n));
  }

  lemma WorthEight(a: Bytes, b: Bytes)
    requires |a| == 4 && |b| == 4
    ensures Worth(a + b) == Worth(a) * 0x1_0000_0000 + Worth(b)
  {
    WorthFour(b);
    var c := a + b;
    assert c[..7] == a + b[..3] && c[..7][..6] == a + b[..2] && c[..7][..6][..5] == a + b[..1] && (a + b[..1])[..4] == a;
    assert c[..7][..6] == (a + b[..3])[..6];
    assert Worth(a + b[..1]) == Worth(a) * 256 + b[0];
    assert (a + b[..2])[..5] == a + b[..1];
    assert Worth(a + b[..2]) == Worth(a + b[..1]) * 256 + b[1];
    assert (a + b[..3])[..6] == a + b[..2];
    assert Worth(a + b[..3]) == Worth(a + b[..2]) * 256 + b[2];
  }

  /** The number that groups of seven bits stand for, least significant first. */
  function GroupWorth(b: Bytes): nat {
    if b == [] then 0 else b[0] % 128 + 128 * GroupWorth(b[1..])
  }

  /** All groups but the last have their top bit set. */
  ghost predicate Marked(b: Bytes) {
    b != [] && b[|b| - 1] < 128 && forall i :: 0 <= i < |b| - 1 ==> b[i] >= 128
  }

  lemma {:induction false} SevenBitGroups(n: nat)
    ensures GroupWorth(VarBytes(n)) == n && Marked(VarBytes(n))
    decreases n
  {
    hide GroupWorth, Marked;
    if n < 0x80 {
      OneGroup(n);
    } else {
      SevenBitGroups(n / 0x80);
      GroupInFront(n % 0x80 + 0x80, VarBytes(n / 0x80));
    }
  }

  lemma OneGroup(n: byte)
    requires n < 128
    ensures GroupWorth([n]) == n && Marked([n])
  {
    assert [n][1..] == [];
  }

  lemma GroupInFront(first: byte, rest: Bytes)
    requires first >= 128 && Marked(rest)
    ensures GroupWorth([first] + rest) == first - 128 + 128 * GroupWorth(rest) && Marked([first] + rest)
  {
    assert ([first] + rest)[1..] == rest;
  }

  /** Bits fill a byte from its most significant end. */
  lemma TopBitFirst()
    ensures SetBit(0, 0) == 128 && SetBit(0, 1) == 64 && SetBit(0, 2) == 32 && SetBit(0, 3) == 16
    ensures SetBit(0, 4) == 8 && SetBit(0, 5) == 4 && SetBit(0, 6) == 2 && SetBit(0, 7) == 1
  {
  }

  function Flag(b: bool, worth: nat): nat { if b then worth else 0 }

  lemma TwoFlags(a: bool, b: bool)
    ensures var w := PutBit(PutBit(EMPTY, a), b); w.sub == 2 && w.bytes == [Flag(a, 128) + Flag(b, 64)]
  {
    TopBitFirst();
    SetMore();
    hide SetBit;
  }

  lemma SetMore()
    ensures SetBit(128, 1) == 192
    ensures SetBit(64, 2) == 96 && SetBit(128, 2) == 160 && SetBit(192, 2) == 224
    ensures SetBit(32, 3) == 48 && SetBit(64, 3) == 80 && SetBit(96, 3) == 112 && SetBit(128, 3) == 144
    ensures SetBit(160, 3) == 176 && SetBit(192, 3) == 208 && SetBit(224, 3) == 240
  {
  }

  lemma FourFlags(a: bool, b: bool, c: bool, d: bool)
    ensures var w := PutBit(PutBit(PutBit(PutBit(EMPTY, a), b), c), d);
      w.sub == 4 && w.bytes == [Flag(a, 128) + Flag(b, 64) + Flag(c, 32) + Flag(d, 16)]
  {
    TwoFlags(a, b);
    TopBitFirst();
    SetMore();
    hide SetBit;
  }

  // --- Packet headers ---

  lemma PutInts(w: Writer, a: u32, b: u32)
    requires w.Valid() && w.sub == 0
    ensures PutAll(w, []) == w
    ensures PutAll(w, [U32(a)]) == Writer(w.bytes + Bytes32(a), 0)
    ensures PutAll(w, [U32(a), U32(b)]) == Writer(w.bytes + Bytes32(a) + Bytes32(b), 0)
  {
    PutTwo(w, U32(a), U32(b));
    PutOne(w, U32(a), []);
    assert [U32(a)] + [] == [U32(a)];
    hide Bytes32;
  }

  lemma PutShorts(w: Writer, a: u16, b: u16)
    requires w.Valid() && w.sub == 0
    ensures PutAll(w, [U16(a), U16(b)]) == Writer(w.bytes + Bytes16(a) + Bytes16(b), 0)
  {
    PutTwo(w, U16(a), U16(b));
    hide Bytes16;
  }

  function FixedBytes(h: PH.PacketHeader): Bytes {
    [Flag(h.segment, 128) + Flag(h.jumbo, 64)] + Bytes32(h.id) + [h.options, h.channel]
  }

  function SequenceBytes(h: PH.PacketHeader): Bytes {
    if h.channel != 0 then Bytes32(h.sequence) else []
  }

  function LengthBytes(h: PH.PacketHeader): Bytes {
    if h.jumbo then Bytes32(h.length) + Bytes32(h.offset) else Bytes16(h.length % 0x1_0000) + Bytes16(h.offset % 0x1_0000)
  }

  function SplitBytes(h: PH.PacketHeader): Bytes {
    if h.Split() then Bytes32(h.container) + Bytes32(h.index) else []
  }

  lemma FixedPart(h: PH.PacketHeader)
    ensures PutAll(EMPTY, PH.FixedPart(h)) == Writer(FixedBytes(h), 0)
  {
    PutFive(EMPTY, Bit(h.segment), Bit(h.jumbo), U32(h.id), U8(h.options), U8(h.channel));
    TwoFlags(h.segment, h.jumbo);
    hide PutBit, Bytes32, PutAll;
    var two := PutBit(PutBit(EMPTY, h.segment), h.jumbo);
    assert Put(Put(EMPTY, Bit(h.segment)), Bit(h.jumbo)) == two;
    assert Put(two, U32(h.id)) == Writer(two.bytes + Bytes32(h.id), 0);
    assert two.bytes + Bytes32(h.id) + [h.options] + [h.channel] == FixedBytes(h);
  }

  lemma InParts(h: PH.PacketHeader)
    ensures PutAll(EMPTY, PH.Layout(h)).bytes == FixedBytes(h) + SequenceBytes(h) + LengthBytes(h) + SplitBytes(h)
  {
    hide PutAll, Bytes32, Bytes16, FixedBytes;
    PH.LayoutInParts(EMPTY, h);
    FixedPart(h);
    var w1 := Writer(FixedBytes(h), 0);
    PutInts(w1, h.sequence, 0);
    var w2 := Writer(w1.bytes + SequenceBytes(h), 0);
    assert PutAll(w1, PH.SequencePart(h)) == w2;
    PutInts(w2, h.length, h.offset);
    PutShorts(w2, h.length % 0x1_0000, h.offset % 0x1_0000);
    var w3 := Writer(w2.bytes + LengthBytes(h), 0);
    assert PutAll(w2, PH.LengthPart(h)) == w3;
    PutInts(w3, h.container, h.index);
    assert PutAll(w3, PH.SplitPart(h)) == Writer(w3.bytes + SplitBytes(h), 0);
  }

  lemma FixedWorth(h: PH.PacketHeader)
    ensures var b := FixedBytes(h);
      && |b| == 7 && b[0] == Flag(h.segment, 128) + Flag(h.jumbo, 64)
      && Worth(b[1..5]) == h.id && b[5] == h.options && b[6] == h.channel
  {
    hide Bytes32, Worth;
    assert FixedBytes(h)[1..5] == Bytes32(h.id);
    Worth32(h.id);
  }

  lemma PairWorth(a: u32, b: u32)
    ensures var ab := Bytes32(a) + Bytes32(b); |ab| == 8 && Worth(ab[..4]) == a && Worth(ab[4..]) == b
  {
    hide Bytes32, Worth;
    assert (Bytes32(a) + Bytes32(b))[..4] == Bytes32(a) && (Bytes32(a) + Bytes32(b))[4..] == Bytes32(b);
    Worth32(a);
    Worth32(b);
  }

  lemma ShortWorth(a: u16, b: u16)
    ensures var ab := Bytes16(a) + Bytes16(b); |ab| == 4 && Worth(ab[..2]) == a && Worth(ab[2..]) == b
  {
    NetworkOrder(a);
    NetworkOrder(b);
    hide Bytes16, Worth;
    assert (Bytes16(a) + Bytes16(b))[..2] == Bytes16(a) && (Bytes16(a) + Bytes16(b))[2..] == Bytes16(b);
  }

  lemma Slices(b1: Bytes, b2: Bytes, b3: Bytes, b4: Bytes, b: Bytes)
    requires b == b1 + b2 + b3 + b4
    ensures b[..|b1|] == b1 && b[|b1|..|b1| + |b2|] == b2
    ensures b[|b1| + |b2|..|b1| + |b2| + |b3|] == b3 && b[|b1| + |b2| + |b3|..] == b4
  {
  }

  lemma SliceOfSlice(b: Bytes, p: nat, q: nat, i: nat, j: nat)
    requires p + i <= p + j <= q <= |b|
    ensures b[p..q][i..j] == b[p + i..p + j]
  {
    var part, other := b[p..q][i..j], b[p + i..p + j];
    forall k | 0 <= k < j - i ensures part[k] == other[k] {
      assert part[k] == b[p..q][i + k] == b[p + (i + k)];
    }
  }

  function LengthsAt(h: PH.PacketHeader): nat { if h.channel != 0 then 11 else 7 }

  function SplitAt(h: PH.PacketHeader): nat { LengthsAt(h) + if h.jumbo then 8 else 4 }

  lemma PartsAt(h: PH.PacketHeader, b: Bytes)
    requires b == PutAll(EMPTY, PH.Layout(h)).bytes
    ensures |b| == SplitAt(h) + (if h.segment || h.offset > 0 then 8 else 0)
    ensures b[..7] == FixedBytes(h) && b[7..LengthsAt(h)] == SequenceBytes(h)
    ensures b[LengthsAt(h)..SplitAt(h)] == LengthBytes(h) && b[SplitAt(h)..] == SplitBytes(h)
  {
    InParts(h);
    hide Bytes32, Bytes16, PutAll, PH.Layout;
    Slices(FixedBytes(h), SequenceBytes(h), LengthBytes(h), SplitBytes(h), b);
  }

  lemma LengthsFormat(h: PH.PacketHeader, b: Bytes)
    requires b == PutAll(EMPTY, PH.Layout(h)).bytes
    ensures var p, q := LengthsAt(h), SplitAt(h);
      && q <= |b|
      && (h.jumbo ==> Worth(b[p..p + 4]) == h.length && Worth(b[p + 4..q]) == h.offset)
      && (!h.jumbo ==> Worth(b[p..p + 2]) == h.length % 0x1_0000 && Worth(b[p + 2..q]) == h.offset % 0x1_0000)
  {
    PartsAt(h, b);
    hide Bytes32, Bytes16, PutAll, PH.Layout, Worth, FixedBytes, SequenceBytes, SplitBytes, SplitAt, LengthsAt;
    var p, q := LengthsAt(h), SplitAt(h);
    if h.jumbo {
      PairWorth(h.length, h.offset);
      SliceOfSlice(b, p, q, 0, 4);
      SliceOfSlice(b, p, q, 4, 8);
    } else {
      ShortWorth(h.length % 0x1_0000, h.offset % 0x1_0000);
      SliceOfSlice(b, p, q, 0, 2);
      SliceOfSlice(b, p, q, 2, 4);
    }
  }

  lemma SplitFormat(h: PH.PacketHeader, b: Bytes)
    requires b == PutAll(EMPTY, PH.Layout(h)).bytes && (h.segment || h.offset > 0)
    ensures var q := SplitAt(h); |b| == q + 8 && Worth(b[q..q + 4]) == h.container && Worth(b[q + 4..]) == h.index
  {
    PartsAt(h, b);
    hide Bytes32, Bytes16, PutAll, PH.Layout, Worth, FixedBytes, SequenceBytes, LengthBytes, SplitAt, LengthsAt;
    PairWorth(h.container, h.index);
    var q := SplitAt(h);
    assert b[q..|b|] == b[q..] && b[q + 4..q + 8] == b[q + 4..];
    SliceOfSlice(b, q, |b|, 0, 4);
    SliceOfSlice(b, q, |b|, 4, 8);
  }

  /**
    A packet header on the wire: one byte of flags, the number, options and
    channel; the sequence number if there is a channel; length and offset, in
    four or in two bytes each; container and index for a segment.
   */
  lemma PacketHeaderFormat(h: PH.PacketHeader)
    ensures var b := PutAll(EMPTY, PH.Layout(h)).bytes;
      var p := if h.channel != 0 then 11 else 7;
      var q := p + if h.jumbo then 8 else 4;
      && |b| == q + (if h.segment || h.offset > 0 then 8 else 0)
      && b[0] == Flag(h.segment, 128) + Flag(h.jumbo, 64)
      && Worth(b[1..5]) == h.id && b[5] == h.options && b[6] == h.channel
      && (h.channel != 0 ==> Worth(b[7..11]) == h.sequence)
      && (h.jumbo ==> Worth(b[p..p + 4]) == h.length && Worth(b[p + 4..q]) == h.offset)
      && (!h.jumbo ==> Worth(b[p..p + 2]) == h.length % 0x1_0000 && Worth(b[p + 2..q]) == h.offset % 0x1_0000)
      && (h.segment || h.offset > 0 ==> Worth(b[q..q + 4]) == h.container && Worth(b[q + 4..]) == h.index)
  {
    hide PutAll, PH.Layout, Worth, FixedBytes, Bytes32, LengthBytes, SplitBytes, Flag;
    var b := PutAll(EMPTY, PH.Layout(h)).bytes;
    PartsAt(h, b);
    FixedWorth(h);
    SliceOfSlice(b, 0, 7, 1, 5);
    Worth32(h.sequence);
    LengthsFormat(h, b);
    if h.segment || h.offset > 0 {
      SplitFormat(h, b);
    }
    assert b[0..7] == b[..7];
    assert b[0] == b[..7][0] && b[5] == b[..7][5] && b[6] == b[..7][6];
  }

  // --- Datagram headers ---

  function IdBytes(ids: seq<u32>): Bytes {
    if ids == [] then [] else Bytes32(ids[0]) + IdBytes(ids[1..])
  }

  lemma {:induction false} PutIds(w: Writer, ids: seq<u32>)
    requires w.Valid() && w.sub == 0
    ensures PutAll(w, DH.IdValues(ids)) == Writer(w.bytes + IdBytes(ids), 0)
    decreases |ids|
  {
    hide Bytes32;
    if ids != [] {
      PutOne(w, U32(ids[0]), DH.IdValues(ids[1..]));
      PutIds(Writer(w.bytes + Bytes32(ids[0]), 0), ids[1..]);
      assert w.bytes + Bytes32(ids[0]) + IdBytes(ids[1..]) == w.bytes + IdBytes(ids);
    }
  }

  lemma {:induction false} IdAt(ids: seq<u32>, i: nat)
    requires i < |ids|
    ensures |IdBytes(ids)| == 4 * |ids| && IdBytes(ids)[4 * i..4 * i + 4] == Bytes32(ids[i])
    decreases |ids|
  {
    hide Bytes32;
    var first, rest := Bytes32(ids[0]), IdBytes(ids[1..]);
    IdSize(ids[1..]);
    if i > 0 {
      IdAt(ids[1..], i - 1);
      SliceBehind(first, rest, 4 * (i - 1));
    } else {
      assert (first + rest)[0..4] == first;
    }
  }

  lemma SliceBehind(a: Bytes, b: Bytes, i: nat)
    requires |a| == 4 && i + 4 <= |b|
    ensures (a + b)[i + 4..i + 8] == b[i..i + 4]
  {
  }

  lemma {:induction false} IdSize(ids: seq<u32>)
    ensures |IdBytes(ids)| == 4 * |ids|
    decreases |ids|
  {
    if ids != [] {
      IdSize(ids[1..]);
    }
  }

  function ListBytes(ids: seq<u32>): Bytes {
    if ids == [] then [] else [(if |ids| <= 256 then |ids| else 256) - 1] + IdBytes(ids)
  }

  lemma PutList(w: Writer, ids: seq<u32>)
    requires w.Valid() && w.sub == 0
    ensures PutAll(w, DH.IdPart(ids)) == Writer(w.bytes + ListBytes(ids), 0)
  {
    hide DH.IdValues, IdBytes, PutAll;
    if ids == [] {
      DH.PutNone(w);
    } else {
      var count: byte := (if |ids| <= 256 then |ids| else 256) - 1;
      PutOne(w, U8(count), DH.IdValues(ids));
      PutIds(Writer(w.bytes + [count], 0), ids);
      assert w.bytes + [count] + IdBytes(ids) == w.bytes + ListBytes(ids);
    }
  }

  function FlagBytes(h: DH.DatagramHeader): Bytes {
    [Flag(h.data, 128) + Flag(h.link, 64) + Flag(h.acks != [], 32) + Flag(h.nacks != [], 16)] + Bytes32(h.id)
  }

  lemma FlagPart(h: DH.DatagramHeader)
    ensures PutAll(EMPTY, DH.FlagPart(h)) == Writer(FlagBytes(h), 0)
  {
    hide PutBit, Bytes32, PutAll, Flag;
    PutFive(EMPTY, Bit(h.data), Bit(h.link), Bit(h.acks != []), Bit(h.nacks != []), U32(h.id));
    FourFlags(h.data, h.link, h.acks != [], h.nacks != []);
    var four := PutBit(PutBit(PutBit(PutBit(EMPTY, h.data), h.link), h.acks != []), h.nacks != []);
    assert Put(Put(Put(Put(EMPTY, Bit(h.data)), Bit(h.link)), Bit(h.acks != [])), Bit(h.nacks != [])) == four;
    assert Put(four, U32(h.id)) == Writer(four.bytes + Bytes32(h.id), 0);
  }

  function DataBytes(h: DH.DatagramHeader): Bytes {
    if h.data then Bytes16(h.dataLength % 0x1_0000) else []
  }

  lemma HeaderInParts(h: DH.DatagramHeader)
    ensures PutAll(EMPTY, DH.Layout(h)).bytes == FlagBytes(h) + ListBytes(h.acks) + ListBytes(h.nacks) + DataBytes(h)
  {
    hide PutAll, Bytes16, FlagBytes, ListBytes, DH.IdPart;
    DH.LayoutInParts(EMPTY, h);
    FlagPart(h);
    var w1 := Writer(FlagBytes(h), 0);
    PutList(w1, h.acks);
    var w2 := Writer(w1.bytes + ListBytes(h.acks), 0);
    PutList(w2, h.nacks);
    var w3 := Writer(w2.bytes + ListBytes(h.nacks), 0);
    PutLength(w3, h);
  }

  lemma PutLength(w: Writer, h: DH.DatagramHeader)
    requires w.Valid() && w.sub == 0
    ensures PutAll(w, DH.LengthPart(h)) == Writer(w.bytes + DataBytes(h), 0)
  {
    hide Bytes16;
    if h.data {
      PutOne(w, U16(h.dataLength % 0x1_0000), []);
      assert [U16(h.dataLength % 0x1_0000)] + [] == DH.LengthPart(h);
    }
  }

  /** A list of numbers at some place: how many, less one, in one byte, then all of them. */
  ghost predicate ListAt(b: Bytes, p: nat, ids: seq<u32>) {
    ids != [] ==>
      && p + 1 + 4 * |ids| <= |b| && b[p] == (if |ids| <= 256 then |ids| else 256) - 1
      && forall i :: 0 <= i < |ids| ==> IdFound(b, p + 1, i, ids[i])
  }

  ghost predicate IdFound(b: Bytes, p: nat, i: nat, id: u32) {
    p + 4 * i + 4 <= |b| && Worth(b[p + 4 * i..p + 4 * i + 4]) == id
  }

  lemma ListFound(b: Bytes, p: nat, ids: seq<u32>)
    requires p + |ListBytes(ids)| <= |b| && b[p..p + |ListBytes(ids)|] == ListBytes(ids)
    ensures ListAt(b, p, ids)
  {
    hide Worth, Bytes32;
    IdSize(ids);
    if ids != [] {
      var part := ListBytes(ids);
      assert b[p] == part[0];
      forall i | 0 <= i < |ids| ensures IdFound(b, p + 1, i, ids[i]) {
        IdAt(ids, i);
        assert part[1..|part|] == IdBytes(ids);
        SliceOfSlice(part, 1, |part|, 4 * i, 4 * i + 4);
        SliceOfSlice(b, p, p + |part|, 1 + 4 * i, 1 + 4 * i + 4);
        Worth32(ids[i]);
        assert b[p + 1 + 4 * i..p + 1 + 4 * i + 4] == Bytes32(ids[i]);
      }
    }
  }

  lemma ListSize(ids: seq<u32>)
    ensures |ListBytes(ids)| == if ids == [] then 0 else 1 + 4 * |ids|
  {
    IdSize(ids);
  }

  lemma DataWorth(h: DH.DatagramHeader)
    ensures h.data ==> |DataBytes(h)| == 2 && Worth(DataBytes(h)) == h.dataLength % 0x1_0000
  {
    NetworkOrder(h.dataLength % 0x1_0000);
  }

  lemma FlagWorth(h: DH.DatagramHeader)
    ensures var b := FlagBytes(h);
      && |b| == 5 && Worth(b[1..5]) == h.id
      && b[0] == Flag(h.data, 128) + Flag(h.link, 64) + Flag(h.acks != [], 32) + Flag(h.nacks != [], 16)
  {
    hide Bytes32, Worth;
    assert FlagBytes(h)[1..5] == Bytes32(h.id);
    Worth32(h.id);
  }

  /**
    A datagram header on the wire: one byte of flags, the number, the two
    lists if they are not empty, and two bytes for the length of the payload
    if there is one.
   */
  lemma DatagramHeaderFormat(h: DH.DatagramHeader)
    ensures var b := PutAll(EMPTY, DH.Layout(h)).bytes;
      var p := 5 + if h.acks == [] then 0 else 1 + 4 * |h.acks|;
      var q := p + if h.nacks == [] then 0 else 1 + 4 * |h.nacks|;
      && |b| == q + (if h.data then 2 else 0)
      && b[0] == Flag(h.data, 128) + Flag(h.link, 64) + Flag(h.acks != [], 32) + Flag(h.nacks != [], 16)
      && Worth(b[1..5]) == h.id && ListAt(b, 5, h.acks) && ListAt(b, p, h.nacks)
      && (h.data ==> Worth(b[q..]) == h.dataLength % 0x1_0000)
  {
    hide PutAll, DH.Layout, Worth, FlagBytes, ListBytes, Bytes16, Flag, ListAt;
    var b := PutAll(EMPTY, DH.Layout(h)).bytes;
    HeaderInParts(h);
    Slices(FlagBytes(h), ListBytes(h.acks), ListBytes(h.nacks), DataBytes(h), b);
    ListSize(h.acks);
    ListSize(h.nacks);
    FlagWorth(h);
    DataWorth(h);
    var p := 5 + if h.acks == [] then 0 else 1 + 4 * |h.acks|;
    ListFound(b, 5, h.acks);
    ListFound(b, p, h.nacks);
    SliceOfSlice(b, 0, 5, 1, 5);
    assert b[0..5] == b[..5];
    assert b[0] == b[..5][0];
  }
}
