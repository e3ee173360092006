/** A whole datagram: header, then packets back to back until the bytes run out. */
module Datagrams {
  import opened Types
  import opened Wire
  import PH = PacketHeaders
  import DH = DatagramHeaders

  /** A packet header with the payload bytes it announces. */
  datatype Message = Message(header: PH.PacketHeader, body: Bytes) {
    predicate Valid() {
      PH.Fits(header) && header.length == |body|
    }
  }

  function MessageLayout(m: Message): seq<Value> {
    PH.Layout(m.header) + [Blob(m.body)]
  }

  /** The bytes queued for one packet. */
  function PacketBlob(m: Message): Bytes {
    PutAll(EMPTY, MessageLayout(m)).bytes
  }

  function Concat(blobs: seq<Bytes>): Bytes {
    if blobs == [] then [] else blobs[0] + Concat(blobs[1..])
  }

  function Blobs(ms: seq<Message>): seq<Bytes> {
    seq(|ms|, i requires 0 <= i < |ms| => PacketBlob(ms[i]))
  }

  function Encode(h: DH.DatagramHeader, payload: Bytes): Bytes {
    PutAll(EMPTY, DH.Layout(h)).bytes + payload
  }

  /** The receiving loop: headers and payloads until a header cannot be parsed. */
  function ParseMessages(f: Bytes, r: Reader, prior: PH.PacketHeader): (res: (seq<Message>, Reader))
    requires r.Valid()
    decreases |f| - r.pos
  {
    var (ok, h, r1) := PH.Parse(f, r, prior);
    var end := r1.Align() + h.length;
    if !ok || end > |f| || r1.pos <= r.pos then ([], r1)
    else
      var (ms, r2) := ParseMessages(f, Reader(end, 0), h);
      ([Message(h, f[r1.Align()..end])] + ms, r2)
  }

  /** The header as the loop sees it: a field its flags leave out still holds an earlier packet's value. */
  function SeenAll(ms: seq<Message>, prior: PH.PacketHeader): seq<Message> {
    if ms == [] then []
    else
      var h := PH.Seen(ms[0].header, prior);
      [Message(h, ms[0].body)] + SeenAll(ms[1..], h)
  }

  lemma BlobBehind(prefix: Bytes, m: Message)
    requires m.Valid()
    ensures PutAll(Writer(prefix, 0), MessageLayout(m)) == Writer(prefix + PacketBlob(m), 0)
    ensures 7 < |PacketBlob(m)|
  {
    hide Put, PutAll;
    PutAllBehind(prefix, EMPTY, MessageLayout(m));
    assert prefix + EMPTY.bytes == prefix;
    PutAllConcat(EMPTY, PH.Layout(m.header), [Blob(m.body)]);
    PutAllConcat(Writer(prefix, 0), PH.Layout(m.header), [Blob(m.body)]);
    PutBlob(PutAll(EMPTY, PH.Layout(m.header)), m.body);
    HeaderSize(m.header);
  }

  lemma PutBlob(w: Writer, b: Bytes)
    requires w.Valid()
    ensures PutAll(w, [Blob(b)]) == Writer(w.bytes + b, 0)
  {
  }

  lemma HeaderSize(h: PH.PacketHeader)
    ensures PutAll(EMPTY, PH.Layout(h)).sub == 0
    ensures |PutAll(EMPTY, PH.Layout(h)).bytes| == PH.Size(h)
  {
    hide Put;
    PH.LayoutSize(EMPTY, h);
  }

  lemma ExtendsPrefix(f: Bytes, w: Writer)
    requires Sized(f) && w.Valid() && w.sub == 0 && w.bytes <= f
    ensures Extends(f, w)
  {
  }

  /** One round of the receiving loop, on bytes that continue with a packet. */
  lemma ParseOne(f: Bytes, prefix: Bytes, m: Message, prior: PH.PacketHeader)
    requires Sized(f) && m.Valid() && prefix + PacketBlob(m) <= f
    ensures
      var (ok, h, r) := PH.Parse(f, Reader(|prefix|, 0), prior);
      && ok && h == PH.Seen(m.header, prior) && h.length == |m.body|
      && r.sub == 0 && |prefix| < r.pos && r.pos + |m.body| == |prefix + PacketBlob(m)|
      && f[r.pos..r.pos + |m.body|] == m.body
  {
    hide Put, PutAll, PH.Parse, Extends;
    var w := Writer(prefix, 0);
    BlobBehind(prefix, m);
    ExtendsPrefix(f, Writer(prefix + PacketBlob(m), 0));
    PH.ParseInverts(f, w, m.header, prior, [Blob(m.body)]);
    var w' := PutAll(w, PH.Layout(m.header));
    PutBlob(w', m.body);
    PutAllConcat(w, PH.Layout(m.header), [Blob(m.body)]);
    ReadBackBytes(f, w', m.body);
  }

  /** The loop recovers every packet in order and stops exactly at the end of the bytes. */
  lemma {:induction false} ParseMessagesInverts(f: Bytes, prefix: Bytes, ms: seq<Message>, prior: PH.PacketHeader)
    requires Sized(f) && f == prefix + Concat(Blobs(ms))
    requires 7 <= |f| && forall m :: m in ms ==> m.Valid()
    ensures ParseMessages(f, Reader(|prefix|, 0), prior) == (SeenAll(ms, prior), Reader(|f|, 0))
    decreases |ms|
  {
    hide PH.Seen, PacketBlob, PH.Parse;
    if ms == [] {
      assert f == prefix;
      ParseAtEnd(f, prior);
    } else {
      var m := ms[0];
      var next := prefix + PacketBlob(m);
      assert Blobs(ms)[0] == PacketBlob(m) && Blobs(ms)[1..] == Blobs(ms[1..]);
      assert f == next + Concat(Blobs(ms[1..]));
      ParseOne(f, prefix, m, prior);
      ParseMessagesInverts(f, next, ms[1..], PH.Seen(m.header, prior));
    }
  }

  lemma ParseAtEnd(f: Bytes, prior: PH.PacketHeader)
    requires Sized(f) && 7 <= |f|
    ensures PH.Parse(f, Reader(|f|, 0), prior) == (false, prior, Reader(|f|, 0))
  {
  }

  /** What the receiver reads from a datagram; `start` is where the packets begin. */
  datatype Received = Malformed | Received(header: DH.DatagramHeader, start: nat, messages: seq<Message>)

  function Decode(f: Bytes): Received {
    var (ok, h, r) := DH.Parse(f, Reader(0, 0));
    if ok then Received(h, r.pos, ParseMessages(f, r, PH.BLANK).0) else Malformed
  }

  /** A header that fits its payload: at most 256 acks and nacks, and a data flag exactly when packets follow. */
  ghost predicate Describes(h: DH.DatagramHeader, ms: seq<Message>) {
    && |h.acks| <= DH.MAX_IDS && |h.nacks| <= DH.MAX_IDS
    && (h.data <==> ms != [])
    && h.dataLength == |Concat(Blobs(ms))| < 0xFFFF
    && (forall m :: m in ms ==> m.Valid())
    && (h.data || h.acks != [] || h.nacks != [])
  }

  /** Parsing undoes building: header fields, packets in order, nothing left over. */
  lemma DecodeInverts(h: DH.DatagramHeader, ms: seq<Message>)
    requires Describes(h, ms)
    ensures Decode(Encode(h, Concat(Blobs(ms))))
         == Received(h, |PutAll(EMPTY, DH.Layout(h)).bytes|, SeenAll(ms, PH.BLANK))
  {
    hide Put, PutAll, DH.Parse, DH.Layout, SeenAll, ParseMessages, Extends;
    var payload := Concat(Blobs(ms));
    var w := PutAll(EMPTY, DH.Layout(h));
    var f := Encode(h, payload);
    assert 7 < |payload| || !h.data by {
      if ms != [] { BlobSize(ms); }
    }
    DH.LayoutSize(h);
    PutAllConcat(EMPTY, DH.Layout(h), []);
    assert DH.Layout(h) + [] == DH.Layout(h);
    ExtendsPrefix(f, w);
    DH.ParseInverts(f, h, []);
    ParseMessagesInverts(f, w.bytes, ms, PH.BLANK);
  }

  lemma BlobSize(ms: seq<Message>)
    requires ms != [] && ms[0].Valid()
    ensures 7 < |Concat(Blobs(ms))|
  {
    hide PacketBlob;
    BlobBehind([], ms[0]);
    assert Blobs(ms)[0] == PacketBlob(ms[0]);
  }

  /** An acknowledgement datagram survives exactly when neither list exceeds what its length byte can count. */
  lemma AckgramSurvives(h: DH.DatagramHeader)
    requires !h.data && h.dataLength == 0 && (h.acks != [] || h.nacks != [])
    ensures (Decode(Encode(h, [])).Received? && Decode(Encode(h, [])).header == h)
       <==> |h.acks| <= DH.MAX_IDS && |h.nacks| <= DH.MAX_IDS
  {
    hide DH.Parse, ParseMessages, Encode, PutAll;
    assert Concat(Blobs([])) == [];
    if |h.acks| <= DH.MAX_IDS && |h.nacks| <= DH.MAX_IDS {
      DecodeInverts(h, []);
    }
  }
}
