/** The header in front of every packet. */
module PacketHeaders {
  import opened Types
  import opened Wire
  import opened Streams

  datatype PacketHeader = PacketHeader(
    segment: bool,     // more segments of this message follow
    jumbo: bool,       // length and offset take 32 bits instead of 16
    id: u32,
    options: byte,
    channel: byte,
    sequence: u32,
    length: u32,
    offset: u32,
    container: u32,
    index: u32)
  {
    predicate Split() { segment || offset > 0 }
  }

  const BLANK: PacketHeader := PacketHeader(false, false, 0, 0, 0, 0, 0, 0, 0, 0)

  function FixedPart(h: PacketHeader): seq<Value> {
    [Bit(h.segment), Bit(h.jumbo), U32(h.id), U8(h.options), U8(h.channel)]
  }

  function SequencePart(h: PacketHeader): seq<Value> {
    if h.channel != 0 then [U32(h.sequence)] else []
  }

  function LengthPart(h: PacketHeader): seq<Value> {
    if h.jumbo then [U32(h.length), U32(h.offset)]
    else [U16(h.length % 0x1_0000), U16(h.offset % 0x1_0000)]
  }

  function SplitPart(h: PacketHeader): seq<Value> {
    if h.Split() then [U32(h.container), U32(h.index)] else []
  }

  function Layout(h: PacketHeader): seq<Value> {
    FixedPart(h) + SequencePart(h) + LengthPart(h) + SplitPart(h)
  }

  // --- Parsing; `prior` supplies the fields the flags leave out ---

  function ParseFixed(f: Bytes, r: Reader, prior: PacketHeader): (res: (PacketHeader, Reader))
    requires r.Valid()
    ensures res.1.Valid()
  {
    var (segment, r1) := GetBit(f, r);
    var (jumbo, r2) := GetBit(f, r1);
    var (id, r3) := GetU32(f, r2);
    var (options, r4) := GetU8(f, r3);
    var (channel, r5) := GetU8(f, r4);
    (prior.(segment := segment, jumbo := jumbo, id := id, options := options, channel := channel), r5)
  }

  function ParseSequence(f: Bytes, r: Reader, h: PacketHeader): (res: (PacketHeader, Reader))
    requires r.Valid()
    ensures res.1.Valid()
  {
    if h.channel != 0 then
      var (sequence, r') := GetU32(f, r);
      (h.(sequence := sequence), r')
    else (h, r)
  }

  function ParseLengths(f: Bytes, r: Reader, h: PacketHeader): (res: (PacketHeader, Reader))
    requires r.Valid()
    ensures res.1.Valid()
  {
    if h.jumbo then
      var (length, r1) := GetU32(f, r);
      var (offset, r2) := GetU32(f, r1);
      (h.(length := length, offset := offset), r2)
    else
      var (length, r1) := GetU16(f, r);
      var (offset, r2) := GetU16(f, r1);
      (h.(length := length, offset := offset), r2)
  }

  function ParseSplit(f: Bytes, r: Reader, h: PacketHeader): (res: (PacketHeader, Reader))
    requires r.Valid()
    ensures res.1.Valid()
  {
    if h.Split() then
      var (container, r1) := GetU32(f, r);
      var (index, r2) := GetU32(f, r1);
      (h.(container := container, index := index), r2)
    else (h, r)
  }

  /** The parser; false when the stream is too short or the header is out of bounds. */
  function Parse(f: Bytes, r: Reader, prior: PacketHeader): (res: (bool, PacketHeader, Reader))
    requires r.Valid()
    ensures res.2.Valid()
  {
    if IsEof(|f|, r.pos, 7) then (false, prior, r) else
    var (h1, r1) := ParseFixed(f, r, prior);
    var (h2, r2) := ParseSequence(f, r1, h1);
    if IsEof(|f|, r2.pos, if h2.jumbo then 8 else 4) then (false, h2, r2) else
    var (h3, r3) := ParseLengths(f, r2, h2);
    if h3.Split() && IsEof(|f|, r3.pos, 8) then (false, h3, r3) else
    var (h4, r4) := ParseSplit(f, r3, h3);
    (h4.length <= PACKET_MAX_LENGTH && h4.offset < PACKET_MAX_LENGTH, h4, r4)
  }

  /** What the parser makes of `h`: absent fields keep their old values. */
  function Seen(h: PacketHeader, prior: PacketHeader): PacketHeader {
    var h1 := if h.channel != 0 then h else h.(sequence := prior.sequence);
    if h.Split() then h1 else h1.(container := prior.container, index := prior.index)
  }

  /** The form the jumbo flag chooses holds length and offset. */
  predicate Holds(h: PacketHeader) {
    h.jumbo || (h.length < 0x1_0000 && h.offset < 0x1_0000)
  }

  /** And both are within the limits of a message. */
  predicate Fits(h: PacketHeader) {
    Holds(h) && h.length <= PACKET_MAX_LENGTH && h.offset < PACKET_MAX_LENGTH
  }

  lemma ParseFixedInverts(f: Bytes, w: Writer, h: PacketHeader, prior: PacketHeader, rest: seq<Value>)
    requires w.Valid() && w.sub == 0 && Extends(f, PutAll(w, FixedPart(h) + rest))
    requires forall v :: v in rest ==> Writable(v)
    ensures PutAll(w, FixedPart(h)).Valid()
    ensures PutAll(w, FixedPart(h)).sub == 0 && |PutAll(w, FixedPart(h)).bytes| == |w.bytes| + 7
    ensures Extends(f, PutAll(PutAll(w, FixedPart(h)), rest)) && Extends(f, PutAll(w, FixedPart(h)))
    ensures ParseFixed(f, Cursor(w), prior)
         == (prior.(segment := h.segment, jumbo := h.jumbo, id := h.id, options := h.options, channel := h.channel),
             Cursor(PutAll(w, FixedPart(h))))
  {
    hide Extends, PutBit, GetBit, GetU8, GetU32, Bytes32;
    ReadFive(f, w, Bit(h.segment), Bit(h.jumbo), U32(h.id), U8(h.options), U8(h.channel), rest);
  }

  lemma ParseSequenceInverts(f: Bytes, w: Writer, h: PacketHeader, seen: PacketHeader, rest: seq<Value>)
    requires w.Valid() && w.sub == 0 && Extends(f, PutAll(w, SequencePart(h) + rest))
    requires seen.channel == h.channel
    requires forall v :: v in rest ==> Writable(v)
    ensures var w' := PutAll(w, SequencePart(h));
      && w'.sub == 0 && |w'.bytes| <= |w.bytes| + 4
      && Extends(f, PutAll(w', rest))
      && ParseSequence(f, Cursor(w), seen) == (if h.channel != 0 then seen.(sequence := h.sequence) else seen, Cursor(w'))
  {
    hide Extends, GetU32, Bytes32, Cursor;
    if h.channel != 0 {
      ReadNextU32(f, w, h.sequence, rest);
      PutOne(w, U32(h.sequence), []);
      assert [U32(h.sequence)] + [] == [U32(h.sequence)];
    } else {
      assert SequencePart(h) + rest == rest;
    }
  }

  lemma ReadPair32(f: Bytes, w: Writer, m: u32, n: u32, rest: seq<Value>)
    requires w.Valid() && Extends(f, PutAll(w, [U32(m), U32(n)] + rest))
    requires forall v :: v in rest ==> Writable(v)
    ensures var w1 := Put(w, U32(m)); var w2 := PutAll(w, [U32(m), U32(n)]);
      && w2.sub == 0 && |w2.bytes| == |w.bytes| + 8 <= |f|
      && Extends(f, PutAll(w2, rest))
      && GetU32(f, Cursor(w)) == (m, Cursor(w1))
      && GetU32(f, Cursor(w1)) == (n, Cursor(w2))
  {
    hide GetU32, Cursor, Bytes32;
    assert [U32(m), U32(n)] + rest == [U32(m)] + ([U32(n)] + rest);
    ReadNextU32(f, w, m, [U32(n)] + rest);
    ReadNextU32(f, Put(w, U32(m)), n, rest);
    PutTwo(w, U32(m), U32(n));
  }

  lemma ReadPair16(f: Bytes, w: Writer, m: u16, n: u16, rest: seq<Value>)
    requires w.Valid() && Extends(f, PutAll(w, [U16(m), U16(n)] + rest))
    requires forall v :: v in rest ==> Writable(v)
    ensures var w1 := Put(w, U16(m)); var w2 := PutAll(w, [U16(m), U16(n)]);
      && w2.sub == 0 && |w2.bytes| == |w.bytes| + 4 <= |f|
      && Extends(f, PutAll(w2, rest))
      && GetU16(f, Cursor(w)) == (m, Cursor(w1))
      && GetU16(f, Cursor(w1)) == (n, Cursor(w2))
  {
    hide GetU16, Cursor, Bytes16;
    assert [U16(m), U16(n)] + rest == [U16(m)] + ([U16(n)] + rest);
    ReadNextU16(f, w, m, [U16(n)] + rest);
    ReadNextU16(f, Put(w, U16(m)), n, rest);
    PutTwo(w, U16(m), U16(n));
  }

  lemma ParseLengthsInverts(f: Bytes, w: Writer, h: PacketHeader, seen: PacketHeader, rest: seq<Value>)
    requires w.Valid() && w.sub == 0 && Extends(f, PutAll(w, LengthPart(h) + rest))
    requires seen.jumbo == h.jumbo && Holds(h)
    requires forall v :: v in rest ==> Writable(v)
    ensures var w' := PutAll(w, LengthPart(h));
      && w'.sub == 0 && |w'.bytes| == |w.bytes| + (if h.jumbo then 8 else 4) <= |f|
      && Extends(f, PutAll(w', rest))
      && ParseLengths(f, Cursor(w), seen) == (seen.(length := h.length, offset := h.offset), Cursor(w'))
  {
    hide Extends, GetU32, GetU16, Put, Cursor, PutAll;
    if h.jumbo {
      ReadPair32(f, w, h.length, h.offset, rest);
    } else {
      ReadPair16(f, w, h.length, h.offset, rest);
    }
  }

  lemma ParseSplitInverts(f: Bytes, w: Writer, h: PacketHeader, seen: PacketHeader, rest: seq<Value>)
    requires w.Valid() && w.sub == 0 && Extends(f, PutAll(w, SplitPart(h) + rest))
    requires seen.Split() == h.Split()
    requires forall v :: v in rest ==> Writable(v)
    ensures var w' := PutAll(w, SplitPart(h));
      && w'.sub == 0
      && (h.Split() ==> |w.bytes| + 8 <= |f|)
      && Extends(f, PutAll(w', rest))
      && ParseSplit(f, Cursor(w), seen)
         == (if h.Split() then seen.(container := h.container, index := h.index) else seen, Cursor(w'))
  {
    hide Extends, GetU32, Put, Cursor;
    if h.Split() {
      ReadPair32(f, w, h.container, h.index, rest);
    } else {
      assert SplitPart(h) + rest == rest;
    }
  }

  /**
    Parsing a header written anywhere on a byte boundary gives back every
    field its flags mark present, and refuses it exactly when its length or
    offset is out of bounds.
   */
  lemma ParseInverts(f: Bytes, w: Writer, h: PacketHeader, prior: PacketHeader, rest: seq<Value>)
    requires w.Valid() && w.sub == 0 && Extends(f, PutAll(w, Layout(h) + rest))
    requires Holds(h)
    requires forall v :: v in rest ==> Writable(v)
    ensures var w' := PutAll(w, Layout(h));
      && w'.sub == 0 && |w.bytes| + 7 < |w'.bytes|
      && Extends(f, PutAll(w', rest))
      && Parse(f, Cursor(w), prior) == (Fits(h), Seen(h, prior), Cursor(w'))
  {
    hide Extends, Put, ParseFixed, ParseSequence, ParseLengths, ParseSplit, FixedPart, SequencePart, LengthPart, SplitPart;
    var p1, p2, p3, p4 := FixedPart(h), SequencePart(h), LengthPart(h), SplitPart(h);
    assert Layout(h) + rest == p1 + (p2 + (p3 + (p4 + rest)));
    assert Layout(h) == p1 + (p2 + (p3 + (p4 + [])));
    PartsWritable(h);
    ParseFixedInverts(f, w, h, prior, p2 + (p3 + (p4 + rest)));
    var w1 := PutAll(w, p1);
    var h1 := prior.(segment := h.segment, jumbo := h.jumbo, id := h.id, options := h.options, channel := h.channel);
    ParseSequenceInverts(f, w1, h, h1, p3 + (p4 + rest));
    var w2 := PutAll(w1, p2);
    var h2 := if h.channel != 0 then h1.(sequence := h.sequence) else h1;
    ParseLengthsInverts(f, w2, h, h2, p4 + rest);
    var w3 := PutAll(w2, p3);
    var h3 := h2.(length := h.length, offset := h.offset);
    ParseSplitInverts(f, w3, h, h3, rest);
    var w4 := PutAll(w3, p4);
    PutAllConcat(w, p1, p2 + (p3 + (p4 + [])));
    PutAllConcat(w1, p2, p3 + (p4 + []));
    PutAllConcat(w2, p3, p4 + []);
    assert p4 + [] == p4;
    PutAllGrows(w1, p2);
    PutAllGrows(w3, p4);
  }

  lemma Beginning(f: Bytes, w: Writer, vs: seq<Value>, rest: Bytes)
    requires w.Valid() && w.sub == 0 && Sized(f) && PutAll(w, vs).sub == 0
    requires f <= rest && PutAll(w, vs).bytes <= rest && |PutAll(w, vs).bytes| <= |f|
    ensures Extends(f, PutAll(w, vs + []))
  {
    hide PutAll;
    assert vs + [] == vs;
  }

  lemma BytesAdded(w: Writer, vs: seq<Value>)
    requires w.Valid() && w.sub == 0
    ensures w.bytes <= PutAll(w, vs).bytes
  {
    hide PutAll;
    PutAllBehind(w.bytes, EMPTY, vs);
    assert w.bytes + EMPTY.bytes == w.bytes;
  }

  lemma TooFew(f: Bytes, pos: nat, n: nat)
    requires Sized(f) && n <= |f| && pos <= |f| < pos + n
    ensures IsEof(|f|, pos, n)
  {
    IsEofExact(|f|, pos, n);
  }

  /** Any beginning of a header, with nothing behind it, is refused. */
  lemma CutHeaderRefused(f: Bytes, w: Writer, h: PacketHeader, prior: PacketHeader)
    requires w.Valid() && w.sub == 0 && Sized(f) && |f| >= 8 && Holds(h)
    requires w.bytes <= f && f < PutAll(w, Layout(h)).bytes
    ensures !Parse(f, Cursor(w), prior).0
  {
    hide Put, PutAll, ParseFixed, ParseSequence, ParseLengths, ParseSplit, FixedPart, SequencePart, LengthPart, SplitPart, Extends, IsEof;
    var full := PutAll(w, Layout(h)).bytes;
    LayoutInParts(w, h);
    LayoutSize(w, h);
    var w1 := PutAll(w, FixedPart(h));
    FixedSize(w, h);
    var w2 := PutAll(w1, SequencePart(h));
    PairSize(w1, h);
    var w3 := PutAll(w2, LengthPart(h));
    PairSize(w2, h);
    BytesAdded(w1, SequencePart(h));
    BytesAdded(w2, LengthPart(h));
    BytesAdded(w3, SplitPart(h));
    if |f| < |w.bytes| + 7 {
      TooFew(f, |w.bytes|, 7);
    } else {
      Beginning(f, w, FixedPart(h), full);
      ParseFixedInverts(f, w, h, prior, []);
      var h1 := prior.(segment := h.segment, jumbo := h.jumbo, id := h.id, options := h.options, channel := h.channel);
      if |f| < |w2.bytes| {
        SequenceCutOff(f, w1, h1);
        TooFew(f, |w1.bytes|, if h.jumbo then 8 else 4);
      } else {
        Beginning(f, w1, SequencePart(h), full);
        ParseSequenceInverts(f, w1, h, h1, []);
        if |f| < |w3.bytes| {
          TooFew(f, |w2.bytes|, if h.jumbo then 8 else 4);
        } else {
          Beginning(f, w2, LengthPart(h), full);
          ParseLengthsInverts(f, w2, h, if h.channel != 0 then h1.(sequence := h.sequence) else h1, []);
          TooFew(f, |w3.bytes|, 8);
        }
      }
    }
  }

  lemma SequenceCutOff(f: Bytes, w: Writer, h: PacketHeader)
    requires w.Valid() && w.sub == 0 && |w.bytes| <= |f| < |w.bytes| + 4
    ensures var r := ParseSequence(f, Cursor(w), h);
      r.1 == Cursor(w) && r.0 == h.(sequence := r.0.sequence)
  {
  }

  /** Bytes of a serialized header. */
  function Size(h: PacketHeader): (n: nat)
    ensures 11 <= n <= 27
  {
    7 + SequenceSize(h) + LengthSize(h) + SplitSize(h)
  }

  function SequenceSize(h: PacketHeader): nat { if h.channel != 0 then 4 else 0 }

  function LengthSize(h: PacketHeader): nat { if h.jumbo then 8 else 4 }

  function SplitSize(h: PacketHeader): nat { if h.Split() then 8 else 0 }

  lemma LayoutSize(w: Writer, h: PacketHeader)
    requires w.Valid() && w.sub == 0
    ensures PutAll(w, Layout(h)).sub == 0
    ensures |PutAll(w, Layout(h)).bytes| == |w.bytes| + Size(h)
  {
    hide Put, FixedPart, SequencePart, LengthPart, SplitPart, SequenceSize, LengthSize, SplitSize;
    LayoutInParts(w, h);
    var w1 := PutAll(w, FixedPart(h));
    var w2 := PutAll(w1, SequencePart(h));
    var w3 := PutAll(w2, LengthPart(h));
    FixedSize(w, h);
    PairSize(w1, h);
    PairSize(w2, h);
    PairSize(w3, h);
  }

  lemma FixedSize(w: Writer, h: PacketHeader)
    requires w.Valid() && w.sub == 0
    ensures PutAll(w, FixedPart(h)).sub == 0
    ensures |PutAll(w, FixedPart(h)).bytes| == |w.bytes| + 7
  {
    hide PutBit;
    PutFive(w, Bit(h.segment), Bit(h.jumbo), U32(h.id), U8(h.options), U8(h.channel));
  }

  lemma PairSize(w: Writer, h: PacketHeader)
    requires w.Valid() && w.sub == 0
    ensures PutAll(w, SequencePart(h)).sub == 0 && PutAll(w, LengthPart(h)).sub == 0 && PutAll(w, SplitPart(h)).sub == 0
    ensures |PutAll(w, SequencePart(h)).bytes| == |w.bytes| + SequenceSize(h)
    ensures |PutAll(w, LengthPart(h)).bytes| == |w.bytes| + LengthSize(h)
    ensures |PutAll(w, SplitPart(h)).bytes| == |w.bytes| + SplitSize(h)
  {
    PutTwo(w, U32(h.length), U32(h.offset));
    PutTwo(w, U16(h.length % 0x1_0000), U16(h.offset % 0x1_0000));
    PutTwo(w, U32(h.container), U32(h.index));
    PutOne(w, U32(h.sequence), []);
    assert [U32(h.sequence)] + [] == [U32(h.sequence)];
  }

  lemma PartsWritable(h: PacketHeader)
    ensures forall v :: v in SequencePart(h) || v in LengthPart(h) || v in SplitPart(h) || v in Layout(h) ==> Writable(v)
  {
  }

  // --- The same through a stream ---

  method Serialize(h: PacketHeader, outstream: BinaryStream)
    requires outstream.Appending()
    modifies outstream, outstream.buffer
    ensures outstream.Appending()
    ensures outstream.buffer == old(outstream.buffer) || fresh(outstream.buffer)
    ensures outstream.Written() == PutAll(old(outstream.Written()), Layout(h))
  {
    hide Put, Layout, FixedPart, SequencePart, LengthPart, SplitPart;
    ghost var w := outstream.Written();
    SerializeFixed(h, outstream);
    SerializeSequence(h, outstream);
    SerializeLengths(h, outstream);
    SerializeSplit(h, outstream);
    LayoutInParts(w, h);
  }

  lemma LayoutInParts(w: Writer, h: PacketHeader)
    requires w.Valid()
    ensures PutAll(w, Layout(h))
         == PutAll(PutAll(PutAll(PutAll(w, FixedPart(h)), SequencePart(h)), LengthPart(h)), SplitPart(h))
  {
    hide Put, FixedPart, SequencePart, LengthPart, SplitPart;
    PutAllConcat(w, FixedPart(h) + SequencePart(h) + LengthPart(h), SplitPart(h));
    PutAllConcat(w, FixedPart(h) + SequencePart(h), LengthPart(h));
    PutAllConcat(w, FixedPart(h), SequencePart(h));
  }

  method SerializeFixed(h: PacketHeader, outstream: BinaryStream)
    requires outstream.Appending()
    modifies outstream, outstream.buffer
    ensures outstream.Appending()
    ensures outstream.buffer == old(outstream.buffer) || fresh(outstream.buffer)
    ensures outstream.Written() == PutAll(old(outstream.Written()), FixedPart(h))
  {
    hide Put, WriteValue;
    ghost var w := outstream.Written();
    outstream.WriteBool(h.segment);
    outstream.WriteBool(h.jumbo);
    outstream.WriteInt32(h.id);
    outstream.WriteByte(h.options);
    outstream.WriteByte(h.channel);
    PutFive(w, Bit(h.segment), Bit(h.jumbo), U32(h.id), U8(h.options), U8(h.channel));
  }

  method SerializeSequence(h: PacketHeader, outstream: BinaryStream)
    requires outstream.Appending()
    modifies outstream, outstream.buffer
    ensures outstream.Appending()
    ensures outstream.buffer == old(outstream.buffer) || fresh(outstream.buffer)
    ensures outstream.Written() == PutAll(old(outstream.Written()), SequencePart(h))
  {
    hide Put, WriteValue;
    if h.channel != 0 {
      PutOne(outstream.Written(), U32(h.sequence), []);
      outstream.WriteInt32(h.sequence);
    }
  }

  method SerializeLengths(h: PacketHeader, outstream: BinaryStream)
    requires outstream.Appending()
    modifies outstream, outstream.buffer
    ensures outstream.Appending()
    ensures outstream.buffer == old(outstream.buffer) || fresh(outstream.buffer)
    ensures outstream.Written() == PutAll(old(outstream.Written()), LengthPart(h))
  {
    hide Put, WriteValue;
    ghost var w := outstream.Written();
    if h.jumbo {
      outstream.WriteInt32(h.length);
      outstream.WriteInt32(h.offset);
      PutTwo(w, U32(h.length), U32(h.offset));
    } else {
      outstream.WriteInt16(h.length % 0x1_0000);
      outstream.WriteInt16(h.offset % 0x1_0000);
      PutTwo(w, U16(h.length % 0x1_0000), U16(h.offset % 0x1_0000));
    }
  }

  method SerializeSplit(h: PacketHeader, outstream: BinaryStream)
    requires outstream.Appending()
    modifies outstream, outstream.buffer
    ensures outstream.Appending()
    ensures outstream.buffer == old(outstream.buffer) || fresh(outstream.buffer)
    ensures outstream.Written() == PutAll(old(outstream.Written()), SplitPart(h))
  {
    hide Put, WriteValue;
    ghost var w := outstream.Written();
    if h.Split() {
      outstream.WriteInt32(h.container);
      outstream.WriteInt32(h.index);
      PutTwo(w, U32(h.container), U32(h.index));
    }
  }

  method Deserialize(instream: BinaryStream, prior: PacketHeader) returns (ok: bool, h: PacketHeader)
    requires instream.Valid()
    modifies instream`position, instream`subBytePosition
    ensures instream.Valid() && instream.View().bytes == old(instream.View()).bytes
    ensures (ok, h, instream.View().Head()) == Parse(old(instream.View()).bytes, old(instream.View()).Head(), prior)
  {
    hide GetU32, ParseFixed, ParseLengths;
    h := prior;
    if IsEof(instream.length, instream.position, 7) { return false, h; }

    h := DeserializeFixed(instream, h);
    if h.channel != 0 {
      var sequence := instream.ReadUInt32();
      h := h.(sequence := sequence);
    }

    if IsEof(instream.length, instream.position, if h.jumbo then 8 else 4) { return false, h; }
    h := DeserializeLengths(instream, h);

    if h.Split() {
      if IsEof(instream.length, instream.position, 8) { return false, h; }
      var container := instream.ReadUInt32();
      var index := instream.ReadUInt32();
      h := h.(container := container, index := index);
    }
    ok := h.length <= PACKET_MAX_LENGTH && h.offset < PACKET_MAX_LENGTH;
  }

  method DeserializeFixed(instream: BinaryStream, prior: PacketHeader) returns (h: PacketHeader)
    requires instream.Valid()
    modifies instream`position, instream`subBytePosition
    ensures instream.Valid() && instream.View().bytes == old(instream.View()).bytes
    ensures (h, instream.View().Head()) == ParseFixed(old(instream.View()).bytes, old(instream.View()).Head(), prior)
  {
    hide GetBit, GetU8, GetU32;
    var segment := instream.ReadBool();
    var jumbo := instream.ReadBool();
    var id := instream.ReadUInt32();
    var options := instream.ReadByte();
    var channel := instream.ReadByte();
    h := prior.(segment := segment, jumbo := jumbo, id := id, options := options, channel := channel);
  }

  method DeserializeLengths(instream: BinaryStream, prior: PacketHeader) returns (h: PacketHeader)
    requires instream.Valid()
    modifies instream`position, instream`subBytePosition
    ensures instream.Valid() && instream.View().bytes == old(instream.View()).bytes
    ensures (h, instream.View().Head()) == ParseLengths(old(instream.View()).bytes, old(instream.View()).Head(), prior)
  {
    hide GetU16, GetU32;
    if prior.jumbo {
      var length := instream.ReadUInt32();
      var offset := instream.ReadUInt32();
      h := prior.(length := length, offset := offset);
    } else {
      var length := instream.ReadUInt16();
      var offset := instream.ReadUInt16();
      h := prior.(length := length, offset := offset);
    }
  }
}
