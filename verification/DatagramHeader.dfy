/** The header in front of every datagram. */
module DatagramHeaders {
  import opened Types
  import opened Wire
  import opened Streams

  datatype DatagramHeader = DatagramHeader(
    data: bool,        // packets follow the header
    link: bool,        // the sender considers itself connected
    id: u32,
    acks: seq<u32>,
    nacks: seq<u32>,
    dataLength: nat)

  /** An acknowledgement list is preceded by one byte for its length. */
  const MAX_IDS: nat := 256

  function FlagPart(h: DatagramHeader): seq<Value> {
    [Bit(h.data), Bit(h.link), Bit(h.acks != []), Bit(h.nacks != []), U32(h.id)]
  }

  function IdValues(ids: seq<u32>): seq<Value> {
    if ids == [] then [] else [U32(ids[0])] + IdValues(ids[1..])
  }

  /** The count saturates at 256, but all identifiers are written. */
  function IdPart(ids: seq<u32>): seq<Value> {
    if ids == [] then []
    else [U8((if |ids| <= MAX_IDS then |ids| else MAX_IDS) - 1)] + IdValues(ids)
  }

  function LengthPart(h: DatagramHeader): seq<Value> {
    if h.data then [U16(h.dataLength % 0x1_0000)] else []
  }

  function Layout(h: DatagramHeader): seq<Value> {
    FlagPart(h) + IdPart(h.acks) + IdPart(h.nacks) + LengthPart(h)
  }

  // --- Parsing ---

  function ParseIds(f: Bytes, r: Reader, n: nat): (res: (seq<u32>, Reader))
    requires r.Valid()
    ensures res.1.Valid() && |res.0| == n
    decreases n
  {
    if n == 0 then ([], r)
    else
      var (id, r1) := GetU32(f, r);
      var (ids, r2) := ParseIds(f, r1, n - 1);
      ([id] + ids, r2)
  }

  function ParseIdPart(f: Bytes, r: Reader, present: bool): (res: (seq<u32>, Reader))
    requires r.Valid()
    ensures res.1.Valid() && |res.0| <= MAX_IDS
  {
    if !present then ([], r)
    else
      var (n, r1) := GetU8(f, r);
      ParseIds(f, r1, n + 1)
  }

  /** Flags and identifier; the two booleans say whether acks and nacks follow. */
  function ParseFlags(f: Bytes, r: Reader): (res: (DatagramHeader, bool, bool, Reader))
    requires r.Valid()
    ensures res.3.Valid()
  {
    var (data, r1) := GetBit(f, r);
    var (link, r2) := GetBit(f, r1);
    var (hasAcks, r3) := GetBit(f, r2);
    var (hasNacks, r4) := GetBit(f, r3);
    var (id, r5) := GetU32(f, r4);
    (DatagramHeader(data, link, id, [], [], 0), hasAcks, hasNacks, r5)
  }

  function Parse(f: Bytes, r: Reader): (res: (bool, DatagramHeader, Reader))
    requires r.Valid()
    ensures res.2.Valid()
    ensures |res.1.acks| <= MAX_IDS && |res.1.nacks| <= MAX_IDS
  {
    if IsEof(|f|, r.pos, 5) then (false, DatagramHeader(false, false, 0, [], [], 0), r) else
    var (h, hasAcks, hasNacks, r1) := ParseFlags(f, r);
    var (acks, r2) := ParseIdPart(f, r1, hasAcks);
    var (nacks, r3) := ParseIdPart(f, r2, hasNacks);
    var h1 := h.(acks := acks, nacks := nacks);
    if !h.data then (true, h1, r3) else
    if IsEof(|f|, r3.pos, 4) then (false, h1, r3) else
    var (length, r4) := GetU16(f, r3);
    (!IsEof(|f|, r4.pos, length), h1.(dataLength := length), r4)
  }

  lemma ParseFlagsInverts(f: Bytes, w: Writer, h: DatagramHeader, rest: seq<Value>)
    requires w.Valid() && w.sub == 0 && Extends(f, PutAll(w, FlagPart(h) + rest))
    requires forall v :: v in rest ==> Writable(v)
    ensures var w' := PutAll(w, FlagPart(h));
      && w'.sub == 0 && |w'.bytes| == |w.bytes| + 5 <= |f|
      && Extends(f, PutAll(w', rest))
      && ParseFlags(f, Cursor(w))
         == (DatagramHeader(h.data, h.link, h.id, [], [], 0), h.acks != [], h.nacks != [], Cursor(w'))
  {
    hide Extends, PutBit, GetBit, GetU32, Bytes32;
    ReadFive(f, w, Bit(h.data), Bit(h.link), Bit(h.acks != []), Bit(h.nacks != []), U32(h.id), rest);
    ExtendsLength(f, PutAll(w, FlagPart(h)));
  }

  lemma ExtendsLength(f: Bytes, w: Writer)
    requires w.Valid() && Extends(f, w)
    ensures |w.bytes| <= |f| && Sized(f)
  {
  }

  lemma {:induction false} IdValuesWritable(ids: seq<u32>)
    ensures forall v :: v in IdValues(ids) ==> v.U32?
  {
    if ids != [] {
      IdValuesWritable(ids[1..]);
    }
  }

  lemma {:induction false} ParseIdsInverts(f: Bytes, w: Writer, ids: seq<u32>, rest: seq<Value>)
    requires w.Valid() && w.sub == 0 && Extends(f, PutAll(w, IdValues(ids) + rest))
    requires forall v :: v in rest ==> Writable(v)
    ensures var w' := PutAll(w, IdValues(ids));
      && w'.sub == 0
      && Extends(f, PutAll(w', rest))
      && ParseIds(f, Cursor(w), |ids|) == (ids, Cursor(w'))
    decreases |ids|
  {
    hide Extends, GetU32, Put;
    if ids == [] {
      assert IdValues(ids) + rest == rest;
    } else {
      var v, vs := U32(ids[0]), IdValues(ids[1..]);
      IdValuesWritable(ids[1..]);
      assert IdValues(ids) + rest == [v] + (vs + rest);
      ReadNextU32(f, w, ids[0], vs + rest);
      ParseIdsInverts(f, Put(w, v), ids[1..], rest);
      PutOne(w, v, vs);
      assert ids == [ids[0]] + ids[1..];
    }
  }

  lemma ParseIdPartInverts(f: Bytes, w: Writer, ids: seq<u32>, rest: seq<Value>)
    requires w.Valid() && w.sub == 0 && Extends(f, PutAll(w, IdPart(ids) + rest))
    requires |ids| <= MAX_IDS
    requires forall v :: v in rest ==> Writable(v)
    ensures var w' := PutAll(w, IdPart(ids));
      && w'.sub == 0
      && Extends(f, PutAll(w', rest))
      && ParseIdPart(f, Cursor(w), ids != []) == (ids, Cursor(w'))
  {
    hide Extends, GetU8, ParseIds, IdValues, Put, PutAll, Cursor;
    if ids == [] {
      assert IdPart(ids) + rest == rest;
      PutNone(w);
    } else {
      var v, vs := U8(|ids| - 1), IdValues(ids);
      IdValuesWritable(ids);
      assert IdPart(ids) + rest == [v] + (vs + rest);
      ReadNextU8(f, w, |ids| - 1, vs + rest);
      ParseIdsInverts(f, Put(w, v), ids, rest);
      PutOne(w, v, vs);
    }
  }

  lemma PutNone(w: Writer)
    requires w.Valid()
    ensures PutAll(w, []) == w
  {
  }

  /**
    Parsing a datagram header at the start of a stream gives back every field,
    and refuses it exactly when the stream does not hold the payload it
    announces.
   */
  lemma ParseInverts(f: Bytes, h: DatagramHeader, rest: seq<Value>)
    requires Extends(f, PutAll(EMPTY, Layout(h) + rest))
    requires |h.acks| <= MAX_IDS && |h.nacks| <= MAX_IDS
    requires forall v :: v in rest ==> Writable(v)
    requires if h.data then h.dataLength < 0x1_0000 && h.dataLength <= |f| && |PutAll(EMPTY, Layout(h)).bytes| + 2 <= |f|
             else h.dataLength == 0
    ensures var w' := PutAll(EMPTY, Layout(h));
      && w'.sub == 0 && 5 <= |w'.bytes|
      && Extends(f, PutAll(w', rest))
      && Parse(f, Reader(0, 0)) == (!h.data || |w'.bytes| + h.dataLength <= |f|, h, Cursor(w'))
  {
    hide Extends, Put, PutAll, ParseFlags, ParseIdPart, FlagPart, IdPart, GetU16;
    var p1, p2, p3, p4 := FlagPart(h), IdPart(h.acks), IdPart(h.nacks), LengthPart(h);
    assert Layout(h) + rest == p1 + (p2 + (p3 + (p4 + rest)));
    assert Layout(h) == p1 + (p2 + (p3 + p4));
    PartsWritable(h);
    ParseFlagsInverts(f, EMPTY, h, p2 + (p3 + (p4 + rest)));
    var w1 := PutAll(EMPTY, p1);
    ParseIdPartInverts(f, w1, h.acks, p3 + (p4 + rest));
    var w2 := PutAll(w1, p2);
    ParseIdPartInverts(f, w2, h.nacks, p4 + rest);
    var w3 := PutAll(w2, p3);
    PutAllConcat(EMPTY, p1, p2 + (p3 + p4));
    PutAllConcat(w1, p2, p3 + p4);
    PutAllConcat(w2, p3, p4);
    PutAllGrows(w1, p2 + (p3 + p4));
    if h.data {
      ReadNextU16(f, w3, h.dataLength, rest);
      PutOne(w3, U16(h.dataLength), []);
      assert [U16(h.dataLength)] + [] == p4;
      PutNone(Put(w3, U16(h.dataLength)));
      LengthFits(f, w3, h.dataLength);
    } else {
      PutNone(w3);
      assert p4 + rest == rest;
    }
  }

  /** A payload of fewer than two bytes is refused, whatever length is announced. */
  lemma TinyPayloadRefused(f: Bytes, h: DatagramHeader)
    requires h.data && |h.acks| <= MAX_IDS && |h.nacks| <= MAX_IDS
    requires Extends(f, PutAll(EMPTY, Layout(h))) && |f| < |PutAll(EMPTY, Layout(h)).bytes| + 2
    ensures !Parse(f, Reader(0, 0)).0
  {
    hide Extends, Put, PutAll, ParseFlags, ParseIdPart, FlagPart, IdPart, GetU16;
    var p1, p2, p3, p4 := FlagPart(h), IdPart(h.acks), IdPart(h.nacks), LengthPart(h);
    assert Layout(h) == p1 + (p2 + (p3 + p4));
    PartsWritable(h);
    ParseFlagsInverts(f, EMPTY, h, p2 + (p3 + p4));
    var w1 := PutAll(EMPTY, p1);
    ParseIdPartInverts(f, w1, h.acks, p3 + p4);
    var w2 := PutAll(w1, p2);
    ParseIdPartInverts(f, w2, h.nacks, p4);
    var w3 := PutAll(w2, p3);
    PutAllConcat(EMPTY, p1, p2 + (p3 + p4));
    PutAllConcat(w1, p2, p3 + p4);
    PutAllConcat(w2, p3, p4);
    LengthSize(w3, h.dataLength % 0x1_0000);
    ExtendsLength(f, PutAll(EMPTY, Layout(h)));
    IsEofExact(|f|, |w3.bytes|, 4);
  }

  lemma LengthFits(f: Bytes, w: Writer, n: u16)
    requires w.Valid() && w.sub == 0 && n <= |f| && |Put(w, U16(n)).bytes| + 2 <= |f| && Extends(f, Put(w, U16(n)))
    ensures !IsEof(|f|, Cursor(w).pos, 4)
    ensures !IsEof(|f|, Cursor(Put(w, U16(n))).pos, n) <==> |Put(w, U16(n)).bytes| + n <= |f|
    ensures Put(w, U16(n)).sub == 0
  {
  }

  lemma PartsWritable(h: DatagramHeader)
    ensures forall v :: v in IdPart(h.acks) || v in IdPart(h.nacks) || v in LengthPart(h) || v in Layout(h) ==> Writable(v)
  {
    IdValuesWritable(h.acks);
    IdValuesWritable(h.nacks);
  }

  /** Fits in memory, and is longer than the shortest read; a data header without acknowledgements takes 7 bytes. */
  lemma LayoutSize(h: DatagramHeader)
    requires |h.acks| <= MAX_IDS && |h.nacks| <= MAX_IDS
    ensures PutAll(EMPTY, Layout(h)).sub == 0
    ensures var n := |PutAll(EMPTY, Layout(h)).bytes|;
      && 5 <= n < 0x1_0000
      && (h.acks != [] || h.nacks != [] || h.data ==> 7 <= n)
      && (h.data && h.acks == [] && h.nacks == [] ==> n == 7)
  {
    hide Put, PutAll, FlagPart, IdPart;
    LayoutInParts(EMPTY, h);
    var w1 := PutAll(EMPTY, FlagPart(h));
    var w2 := PutAll(w1, IdPart(h.acks));
    var w3 := PutAll(w2, IdPart(h.nacks));
    FlagSize(h);
    IdPartSize(w1, h.acks);
    IdPartSize(w2, h.nacks);
    if h.data {
      LengthSize(w3, h.dataLength % 0x1_0000);
    } else {
      PutNone(w3);
    }
  }

  lemma FlagSize(h: DatagramHeader)
    ensures PutAll(EMPTY, FlagPart(h)).sub == 0 && |PutAll(EMPTY, FlagPart(h)).bytes| == 5
  {
    hide PutBit;
    PutFive(EMPTY, Bit(h.data), Bit(h.link), Bit(h.acks != []), Bit(h.nacks != []), U32(h.id));
  }

  lemma LengthSize(w: Writer, n: u16)
    requires w.Valid()
    ensures PutAll(w, [U16(n)]).sub == 0 && |PutAll(w, [U16(n)]).bytes| == |w.bytes| + 2
  {
  }

  lemma IdPartSize(w: Writer, ids: seq<u32>)
    requires w.Valid() && w.sub == 0
    ensures PutAll(w, IdPart(ids)).sub == 0
    ensures |PutAll(w, IdPart(ids)).bytes| == |w.bytes| + if ids == [] then 0 else 1 + 4 * |ids|
  {
    hide IdValues, PutAll;
    PutNone(w);
    if ids != [] {
      var count: byte := (if |ids| <= MAX_IDS then |ids| else MAX_IDS) - 1;
      PutOne(w, U8(count), IdValues(ids));
      IdValuesSize(Put(w, U8(count)), ids);
    }
  }

  lemma {:induction false} IdValuesSize(w: Writer, ids: seq<u32>)
    requires w.Valid() && w.sub == 0
    ensures PutAll(w, IdValues(ids)).sub == 0
    ensures |PutAll(w, IdValues(ids)).bytes| == |w.bytes| + 4 * |ids|
    decreases |ids|
  {
    if ids != [] {
      PutOne(w, U32(ids[0]), IdValues(ids[1..]));
      IdValuesSize(Put(w, U32(ids[0])), ids[1..]);
    }
  }

  // --- The same through a stream ---

  method Serialize(h: DatagramHeader, outstream: BinaryStream)
    requires outstream.Appending()
    requires h.data ==> h.dataLength < 0xFFFF
    modifies outstream, outstream.buffer
    ensures outstream.Appending()
    ensures outstream.buffer == old(outstream.buffer) || fresh(outstream.buffer)
    ensures outstream.Written() == PutAll(old(outstream.Written()), Layout(h))
  {
    hide Put, PutAll, WriteValue, Layout, FlagPart, IdPart, LengthPart;
    ghost var w := outstream.Written();
    SerializeFlags(h, outstream);
    SerializeIds(h.acks, outstream);
    SerializeIds(h.nacks, outstream);
    SerializeLength(h, outstream);
    LayoutInParts(w, h);
  }

  method SerializeLength(h: DatagramHeader, outstream: BinaryStream)
    requires outstream.Appending()
    requires h.data ==> h.dataLength < 0xFFFF
    modifies outstream, outstream.buffer
    ensures outstream.Appending()
    ensures outstream.buffer == old(outstream.buffer) || fresh(outstream.buffer)
    ensures outstream.Written() == PutAll(old(outstream.Written()), LengthPart(h))
  {
    hide Put, WriteValue;
    if h.data {
      PutOne(outstream.Written(), U16(h.dataLength), []);
      outstream.WriteInt16(h.dataLength);
    }
  }

  lemma LayoutInParts(w: Writer, h: DatagramHeader)
    requires w.Valid()
    ensures PutAll(w, Layout(h))
         == PutAll(PutAll(PutAll(PutAll(w, FlagPart(h)), IdPart(h.acks)), IdPart(h.nacks)), LengthPart(h))
  {
    hide Put, PutAll, FlagPart, IdPart, LengthPart;
    PutAllConcat(w, FlagPart(h) + IdPart(h.acks) + IdPart(h.nacks), LengthPart(h));
    PutAllConcat(w, FlagPart(h) + IdPart(h.acks), IdPart(h.nacks));
    PutAllConcat(w, FlagPart(h), IdPart(h.acks));
  }

  method SerializeFlags(h: DatagramHeader, outstream: BinaryStream)
    requires outstream.Appending()
    modifies outstream, outstream.buffer
    ensures outstream.Appending()
    ensures outstream.buffer == old(outstream.buffer) || fresh(outstream.buffer)
    ensures outstream.Written() == PutAll(old(outstream.Written()), FlagPart(h))
  {
    hide Put, WriteValue;
    PutFive(outstream.Written(), Bit(h.data), Bit(h.link), Bit(h.acks != []), Bit(h.nacks != []), U32(h.id));
    outstream.WriteBool(h.data);
    outstream.WriteBool(h.link);
    outstream.WriteBool(h.acks != []);
    outstream.WriteBool(h.nacks != []);
    outstream.WriteInt32(h.id);
  }

  method SerializeIds(ids: seq<u32>, outstream: BinaryStream)
    requires outstream.Appending()
    modifies outstream, outstream.buffer
    ensures outstream.Appending()
    ensures outstream.buffer == old(outstream.buffer) || fresh(outstream.buffer)
    ensures outstream.Written() == PutAll(old(outstream.Written()), IdPart(ids))
  {
    hide Put, WriteValue;
    if ids != [] {
      var count: byte := (if |ids| <= MAX_IDS then |ids| else MAX_IDS) - 1;
      PutOne(outstream.Written(), U8(count), IdValues(ids));
      outstream.WriteByte(count);
      ghost var w := outstream.Written();
      assert ids[0..] == ids;
      for i := 0 to |ids|
        invariant outstream.Appending()
        invariant outstream.buffer == old(outstream.buffer) || fresh(outstream.buffer)
        invariant PutAll(outstream.Written(), IdValues(ids[i..])) == PutAll(w, IdValues(ids))
      {
        assert ids[i..][1..] == ids[i + 1..];
        PutOne(outstream.Written(), U32(ids[i]), IdValues(ids[i + 1..]));
        outstream.WriteInt32(ids[i]);
      }
    }
  }

  method Deserialize(instream: BinaryStream) returns (ok: bool, h: DatagramHeader)
    requires instream.Valid()
    modifies instream`position, instream`subBytePosition
    ensures instream.Valid() && instream.View().bytes == old(instream.View()).bytes
    ensures (ok, h, instream.View().Head()) == Parse(old(instream.View()).bytes, old(instream.View()).Head())
  {
    hide GetBit, GetU8, GetU16, GetU32, ParseFlags, ParseIdPart;
    h := DatagramHeader(false, false, 0, [], [], 0);
    if IsEof(instream.length, instream.position, 5) { return false, h; }

    var hasAcks, hasNacks;
    h, hasAcks, hasNacks := DeserializeFlags(instream);
    var acks := DeserializeIds(instream, hasAcks);
    var nacks := DeserializeIds(instream, hasNacks);
    h := h.(acks := acks, nacks := nacks);

    if h.data {
      if IsEof(instream.length, instream.position, 4) { return false, h; }
      var length := instream.ReadUInt16();
      h := h.(dataLength := length);
      if IsEof(instream.length, instream.position, length) { return false, h; }
    }
    ok := true;
  }

  method DeserializeFlags(instream: BinaryStream) returns (h: DatagramHeader, hasAcks: bool, hasNacks: bool)
    requires instream.Valid()
    modifies instream`position, instream`subBytePosition
    ensures instream.Valid() && instream.View().bytes == old(instream.View()).bytes
    ensures (h, hasAcks, hasNacks, instream.View().Head()) == ParseFlags(old(instream.View()).bytes, old(instream.View()).Head())
  {
    hide GetBit, GetU32;
    var data := instream.ReadBool();
    var link := instream.ReadBool();
    hasAcks := instream.ReadBool();
    hasNacks := instream.ReadBool();
    var id := instream.ReadUInt32();
    h := DatagramHeader(data, link, id, [], [], 0);
  }

  method DeserializeIds(instream: BinaryStream, present: bool) returns (ids: seq<u32>)
    requires instream.Valid()
    modifies instream`position, instream`subBytePosition
    ensures instream.Valid() && instream.View().bytes == old(instream.View()).bytes
    ensures (ids, instream.View().Head()) == ParseIdPart(old(instream.View()).bytes, old(instream.View()).Head(), present)
  {
    hide GetU8, GetU32;
    ids := [];
    if present {
      var last := instream.ReadByte();
      var n: nat := last as int + 1; // zero-indexed: 0x00 means one identifier
      ghost var f := instream.View().bytes;
      ghost var whole := ParseIds(f, instream.View().Head(), n);
      assert [] + whole.0 == whole.0;
      for i := 0 to n
        invariant instream.Valid() && instream.View().bytes == f
        invariant whole == (ids + ParseIds(f, instream.View().Head(), n - i).0, ParseIds(f, instream.View().Head(), n - i).1)
      {
        ghost var rest := ParseIds(f, instream.View().Head(), n - i).0;
        var id := instream.ReadUInt32();
        assert ids + rest == ids + [id] + rest[1..];
        ids := ids + [id];
      }
      assert ids + [] == ids;
    }
  }
}
