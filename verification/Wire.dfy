/**
  The wire format as plain functions: how typed values are laid out in bytes,
  including single bits packed from the most significant end, and how they are
  read back.
 */
module Wire {
  import opened Types

  /** One typed value, as one call of a stream's write functions takes it. */
  datatype Value =
    | Bit(bit: bool)
    | U8(n8: byte)
    | U16(n16: u16)
    | U32(n32: u32)
    | U64(n64: u64)
    | Var(nvar: u32)     // 7 bits per byte, least significant group first
    | Str(str: Bytes)    // length as Var, then the characters
    | Blob(blob: Bytes)

  /** What a reader must know beforehand to read a value. */
  datatype Kind = KBit | KU8 | KU16 | KU32 | KU64 | KVar | KStr | KBlob(n: nat)

  function KindOf(v: Value): Kind {
    match v
    case Bit(_) => KBit
    case U8(_) => KU8
    case U16(_) => KU16
    case U32(_) => KU32
    case U64(_) => KU64
    case Var(_) => KVar
    case Str(_) => KStr
    case Blob(b) => KBlob(|b|)
  }

  function KindsOf(vs: seq<Value>): seq<Kind> {
    seq(|vs|, i requires 0 <= i < |vs| => KindOf(vs[i]))
  }

  /** The one limit a writer asserts: a string is shorter than the largest int. */
  predicate Writable(v: Value) {
    v.Str? ==> |v.str| < 0x7FFF_FFFF
  }

  // --- Bits ---

  /** 0x80 >> k */
  function Mask(k: nat): bv8
    requires k < 8
  {
    match k
    case 0 => 0x80
    case 1 => 0x40
    case 2 => 0x20
    case 3 => 0x10
    case 4 => 0x08
    case 5 => 0x04
    case 6 => 0x02
    case _ => 0x01
  }

  predicate BitAt(b: byte, k: nat)
    requires k < 8
  {
    (b as bv8) & Mask(k) != 0
  }

  function SetBit(b: byte, k: nat): byte
    requires k < 8
  {
    ((b as bv8) | Mask(k)) as int
  }

  lemma SetBitBits(b: byte, k: nat, j: nat)
    requires k < 8 && j < 8
    ensures BitAt(SetBit(b, k), j) == (j == k || BitAt(b, j))
    ensures !BitAt(0, j)
  {
    ThereAndBack((b as bv8) | Mask(k));
  }

  lemma ThereAndBack(v: bv8)
    ensures (v as int) as bv8 == v
  {
  }

  // --- Integers, most significant byte first ---

  function Bytes16(n: u16): (b: Bytes)
    ensures |b| == 2
  {
    [n / 0x100, n % 0x100]
  }

  function Bytes32(n: u32): (b: Bytes)
    ensures |b| == 4
  {
    Bytes16(n / 0x1_0000) + Bytes16(n % 0x1_0000)
  }

  function Bytes64(n: u64): (b: Bytes)
    ensures |b| == 8
  {
    Bytes32(n / 0x1_0000_0000) + Bytes32(n % 0x1_0000_0000)
  }

  function Int16(b: Bytes): u16
    requires |b| == 2
  {
    b[0] as int * 0x100 + b[1] as int
  }

  function Int32(b: Bytes): u32
    requires |b| == 4
  {
    Int16(b[..2]) * 0x1_0000 + Int16(b[2..])
  }

  /** Seven bits at a time from the little end; the top bit of a byte says that more follow. */
  function VarBytes(n: nat): (b: Bytes)
    ensures 1 <= |b|
  {
    if n < 0x80 then [n] else [n % 0x80 + 0x80] + VarBytes(n / 0x80)
  }

  function BytesOf(v: Value): Bytes
    requires !v.Bit?
  {
    match v
    case U8(n) => [n]
    case U16(n) => Bytes16(n)
    case U32(n) => Bytes32(n)
    case U64(n) => Bytes64(n)
    case Var(n) => VarBytes(n)
    case Str(s) => VarBytes(|s|) + s
    case Blob(b) => b
  }

  // --- Writing at the end of a stream ---

  /** The bits from the k-th on are still zero. */
  ghost predicate Unused(b: byte, k: nat) {
    forall j: nat :: k <= j < 8 ==> !BitAt(b, j)
  }

  /** What has been written; `sub` bits of the last byte are in use, or all of it when `sub` is 0. */
  datatype Writer = Writer(bytes: Bytes, sub: nat) {
    ghost predicate Valid() {
      sub < 8 && (sub > 0 ==> bytes != [] && Unused(bytes[|bytes| - 1], sub))
    }
  }

  const EMPTY: Writer := Writer([], 0)

  function PutBit(w: Writer, b: bool): (w': Writer)
    requires w.Valid()
    ensures w'.Valid()
    ensures |w'.bytes| == (if w.sub == 0 then |w.bytes| + 1 else |w.bytes|)
    ensures w'.sub == (if w.sub == 7 then 0 else w.sub + 1)
  {
    if w.sub == 0 then
      assert Unused(if b then SetBit(0, 0) else 0, 1) by { SetBitUnused(0, 0); }
      Writer(w.bytes + [if b then SetBit(0, 0) else 0], 1)
    else
      var last := |w.bytes| - 1;
      SetBitUnused(w.bytes[last], w.sub);
      Writer(if b then w.bytes[last := SetBit(w.bytes[last], w.sub)] else w.bytes,
             if w.sub == 7 then 0 else w.sub + 1)
  }

  lemma SetBitUnused(b: byte, k: nat)
    requires k < 8 && Unused(b, k)
    ensures Unused(SetBit(b, k), k + 1)
  {
    forall j: nat | k < j < 8 ensures !BitAt(SetBit(b, k), j) {
      SetBitBits(b, k, j);
    }
  }

  function Put(w: Writer, v: Value): (w': Writer)
    requires w.Valid()
    ensures w'.Valid()
    ensures !v.Bit? ==> w'.sub == 0
  {
    if v.Bit? then PutBit(w, v.bit) else Writer(w.bytes + BytesOf(v), 0)
  }

  function PutAll(w: Writer, vs: seq<Value>): (w': Writer)
    requires w.Valid()
    ensures w'.Valid()
    decreases |vs|
  {
    if vs == [] then w else PutAll(Put(w, vs[0]), vs[1..])
  }

  // --- Reading ---

  /** Position in bytes, and bits of that byte already read. */
  datatype Reader = Reader(pos: nat, sub: nat) {
    predicate Valid() { sub < 8 }

    function Align(): nat {
      if sub > 0 then pos + 1 else pos
    }
  }

  /** `pos > len - read` in unsigned 64-bit arithmetic. */
  predicate IsEof(len: nat, pos: nat, read: nat) {
    pos > (if read <= len then len - read else len - read + 0x1_0000_0000_0000_0000)
  }

  /** Stream lengths are 64-bit words. */
  predicate Sized(bytes: Bytes) {
    |bytes| < 0x1_0000_0000_0000_0000
  }

  /** The end-of-stream test means what it says only for reads no longer than the stream. */
  lemma IsEofExact(len: nat, pos: nat, read: nat)
    requires len < 0x1_0000_0000_0000_0000 && pos <= len
    requires read < 0x1_0000_0000_0000_0000
    ensures read <= len ==> (IsEof(len, pos, read) <==> pos + read > len)
    ensures read > len ==> (IsEof(len, pos, read) <==> pos + read > len + 0x1_0000_0000_0000_0000)
  {
  }

  function Zeros(n: nat): (z: Bytes)
    ensures |z| == n
  {
    seq(n, i => 0)
  }

  function GetBit(f: Bytes, r: Reader): (bool, Reader)
    requires r.Valid()
  {
    if IsEof(|f|, r.pos, 1) || r.pos >= |f| then (false, r)
    else (BitAt(f[r.pos], r.sub), if r.sub == 7 then Reader(r.pos + 1, 0) else Reader(r.pos, r.sub + 1))
  }

  function GetBytes(f: Bytes, r: Reader, n: nat): (res: (Bytes, Reader))
    requires r.Valid()
    ensures |res.0| == n && res.1.Valid()
    ensures r.pos <= res.1.pos
  {
    if IsEof(|f|, r.pos, n) || r.Align() + n > |f| then (Zeros(n), r)
    else (f[r.Align()..r.Align() + n], Reader(r.Align() + n, 0))
  }

  function GetU8(f: Bytes, r: Reader): (res: (byte, Reader))
    requires r.Valid()
    ensures res.1.Valid()
  {
    var (b, r') := GetBytes(f, r, 1);
    (b[0], r')
  }

  function GetU16(f: Bytes, r: Reader): (res: (u16, Reader))
    requires r.Valid()
    ensures res.1.Valid()
  {
    var (b, r') := GetBytes(f, r, 2);
    (Int16(b), r')
  }

  function GetU32(f: Bytes, r: Reader): (res: (u32, Reader))
    requires r.Valid()
    ensures res.1.Valid()
  {
    var (b, r') := GetBytes(f, r, 4);
    (Int32(b), r')
  }

  function GetU64(f: Bytes, r: Reader): (res: (u64, Reader))
    requires r.Valid()
    ensures res.1.Valid()
  {
    var (hi, r1) := GetU32(f, r);
    var (lo, r2) := GetU32(f, r1);
    (hi * 0x1_0000_0000 + lo, r2)
  }

  /** Reads bytes up to and including the first without its top bit set, but no more than `max`. */
  function GetGroups(f: Bytes, r: Reader, max: nat): (res: (Bytes, Reader))
    requires r.Valid()
    ensures res.1.Valid() && |res.0| <= max
    decreases max
  {
    if max == 0 then ([], r)
    else
      var (snippet, r1) := GetU8(f, r);
      if snippet < 0x80 then ([snippet], r1)
      else
        var (more, r2) := GetGroups(f, r1, max - 1);
        ([snippet] + more, r2)
  }

  /** Seven-bit groups as one number, least significant group first. */
  function VarValue(groups: Bytes): nat {
    if groups == [] then 0 else groups[0] as int % 0x80 + 0x80 * VarValue(groups[1..])
  }

  function GetVar(f: Bytes, r: Reader): (res: (u32, Reader))
    requires r.Valid()
    ensures res.1.Valid()
  {
    var (groups, r') := GetGroups(f, r, 5);
    (VarValue(groups) % 0x1_0000_0000, r')
  }

  function GetStr(f: Bytes, r: Reader): (res: (Bytes, Reader))
    requires r.Valid()
    ensures res.1.Valid()
  {
    var (n, r') := GetVar(f, r);
    if IsEof(|f|, r'.pos, n) || r'.pos + n > |f| then ([], r')
    else (f[r'.pos..r'.pos + n], Reader(r'.pos + n, r'.sub))
  }

  function Get(f: Bytes, r: Reader, k: Kind): (res: (Value, Reader))
    requires r.Valid()
    ensures res.1.Valid()
  {
    match k
    case KBit => var (x, r') := GetBit(f, r); (Bit(x), r')
    case KU8 => var (x, r') := GetU8(f, r); (U8(x), r')
    case KU16 => var (x, r') := GetU16(f, r); (U16(x), r')
    case KU32 => var (x, r') := GetU32(f, r); (U32(x), r')
    case KU64 => var (x, r') := GetU64(f, r); (U64(x), r')
    case KVar => var (x, r') := GetVar(f, r); (Var(x), r')
    case KStr => var (x, r') := GetStr(f, r); (Str(x), r')
    case KBlob(n) => var (x, r') := GetBytes(f, r, n); (Blob(x), r')
  }

  function GetAll(f: Bytes, r: Reader, ks: seq<Kind>): (res: (seq<Value>, Reader))
    requires r.Valid()
    decreases |ks|
  {
    if ks == [] then ([], r)
    else
      var (v, r1) := Get(f, r, ks[0]);
      var (vs, r2) := GetAll(f, r1, ks[1..]);
      ([v] + vs, r2)
  }

  // --- Reading back what was written ---

  /** Where a reader stands that has read everything `w` wrote. */
  function Cursor(w: Writer): (r: Reader)
    requires w.Valid()
    ensures r.Valid()
  {
    if w.sub > 0 then Reader(|w.bytes| - 1, w.sub) else Reader(|w.bytes|, 0)
  }

  /** `f` is what `w` wrote plus later writes, which may fill up the last byte. */
  ghost predicate Extends(f: Bytes, w: Writer)
    requires w.Valid()
  {
    && Sized(f)
    && |w.bytes| <= |f|
    && f[..Cursor(w).pos] == w.bytes[..Cursor(w).pos]
    && (w.sub > 0 ==> SameTop(f[|w.bytes| - 1], w.bytes[|w.bytes| - 1], w.sub))
  }

  /** The k most significant bits agree. */
  ghost predicate SameTop(a: byte, b: byte, k: nat)
    requires k <= 8
  {
    forall j: nat :: j < k ==> BitAt(a, j) == BitAt(b, j)
  }

  lemma ReadBackBit(f: Bytes, w: Writer, b: bool)
    requires w.Valid() && Extends(f, PutBit(w, b))
    ensures GetBit(f, Cursor(w)) == (b, Cursor(PutBit(w, b)))
    ensures Extends(f, w)
  {
    hide SetBit, BitAt;
    var w' := PutBit(w, b);
    var last := |w'.bytes| - 1;
    var before: byte := if w.sub == 0 then 0 else w.bytes[last];
    assert w'.bytes[last] == if b then SetBit(before, w.sub) else before;
    assert !BitAt(before, w.sub) by { SetBitBits(before, w.sub, w.sub); }
    forall j: nat | j < 8 ensures BitAt(w'.bytes[last], j) == ((b && j == w.sub) || BitAt(before, j)) {
      SetBitBits(before, w.sub, j);
    }
    assert w'.bytes[..last] == w.bytes[..last];
    if w'.sub == 0 {
      assert f[last] == f[..last + 1][last] == w'.bytes[..last + 1][last];
      assert f[..last] == f[..last + 1][..last];
      assert w'.bytes[..last] == w'.bytes[..last + 1][..last];
    }
  }

  lemma ReadBackBytes(f: Bytes, w: Writer, data: Bytes)
    requires w.Valid() && Extends(f, Writer(w.bytes + data, 0))
    ensures |w.bytes| + |data| <= |f| && f[|w.bytes|..|w.bytes| + |data|] == data
    ensures GetBytes(f, Cursor(w), |data|) == (data, Reader(|w.bytes| + |data|, 0))
    ensures Extends(f, w)
  {
    var n := |w.bytes|;
    assert f[..n + |data|] == w.bytes + data;
    assert f[n..n + |data|] == f[..n + |data|][n..] == data;
    assert f[..n] == f[..n + |data|][..n] == w.bytes;
    assert f[..Cursor(w).pos] == f[..n][..Cursor(w).pos];
    assert w.sub > 0 ==> f[n - 1] == f[..n][n - 1];
    IsEofExact(|f|, Cursor(w).pos, |data|);
  }

  lemma {:induction false} ReadBackGroups(f: Bytes, r: Reader, n: nat, max: nat)
    requires r.Valid() && Sized(f)
    requires r.Align() + |VarBytes(n)| <= |f| && |VarBytes(n)| <= max
    requires f[r.Align()..r.Align() + |VarBytes(n)|] == VarBytes(n)
    ensures GetGroups(f, r, max) == (VarBytes(n), Reader(r.Align() + |VarBytes(n)|, 0))
    decreases n
  {
    var p := r.Align();
    var vb := VarBytes(n);
    assert f[p] == f[p..p + |vb|][0] == vb[0];
    assert GetU8(f, r) == (vb[0], Reader(p + 1, 0));
    if n >= 0x80 {
      assert f[p + 1..p + |vb|] == f[p..p + |vb|][1..] == VarBytes(n / 0x80);
      ReadBackGroups(f, Reader(p + 1, 0), n / 0x80, max - 1);
    }
  }

  lemma {:induction false} VarValueInverts(n: nat)
    ensures VarValue(VarBytes(n)) == n
  {
    if n >= 0x80 {
      VarValueInverts(n / 0x80);
      assert VarBytes(n)[1..] == VarBytes(n / 0x80);
    }
  }

  lemma ReadBackVar(f: Bytes, r: Reader, n: u32)
    requires r.Valid() && Sized(f)
    requires r.Align() + |VarBytes(n)| <= |f|
    requires f[r.Align()..r.Align() + |VarBytes(n)|] == VarBytes(n)
    ensures GetVar(f, r) == (n, Reader(r.Align() + |VarBytes(n)|, 0))
  {
    hide VarBytes, VarValue, GetGroups;
    VarLength(n);
    ReadBackGroups(f, r, n, 5);
    VarValueInverts(n);
  }

  lemma VarLength(n: u32)
    ensures |VarBytes(n)| <= 5
  {
    var n1, n2, n3, n4 := n / 0x80, n / 0x80 / 0x80, n / 0x80 / 0x80 / 0x80, n / 0x80 / 0x80 / 0x80 / 0x80;
    assert |VarBytes(n4)| == 1;
    assert |VarBytes(n3)| <= 2;
    assert |VarBytes(n2)| <= 3;
    assert |VarBytes(n1)| <= 4;
  }

  lemma ReadBackStr(f: Bytes, w: Writer, s: Bytes)
    requires w.Valid() && |s| < 0x7FFF_FFFF && Extends(f, Writer(w.bytes + (VarBytes(|s|) + s), 0))
    ensures GetStr(f, Cursor(w)) == (s, Reader(|w.bytes| + |VarBytes(|s|)| + |s|, 0))
  {
    hide GetVar, VarBytes;
    var vb := VarBytes(|s|);
    var w1 := Writer(w.bytes + vb, 0);
    assert w.bytes + (vb + s) == w1.bytes + s;
    ReadBackBytes(f, w1, s);
    ReadBackBytes(f, w, vb);
    ReadBackVar(f, Cursor(w), |s|);
  }

  lemma Int16Inverts(n: u16)
    ensures Int16(Bytes16(n)) == n
  {
  }

  lemma Int32Inverts(n: u32)
    ensures Int32(Bytes32(n)) == n
  {
    var hi, lo := n / 0x1_0000, n % 0x1_0000;
    assert Bytes32(n)[..2] == Bytes16(hi) && Bytes32(n)[2..] == Bytes16(lo);
    Int16Inverts(hi);
    Int16Inverts(lo);
  }

  lemma ReadBackInts(f: Bytes, w: Writer, v: Value)
    requires w.Valid() && (v.U8? || v.U16? || v.U32?) && Extends(f, Put(w, v))
    ensures Get(f, Cursor(w), KindOf(v)) == (v, Cursor(Put(w, v)))
  {
    ReadBackBytes(f, w, BytesOf(v));
    match v
    case U8(n) =>
    case U16(n) => Int16Inverts(n);
    case U32(n) => Int32Inverts(n);
  }

  lemma ReadBackLong(f: Bytes, w: Writer, v: Value)
    requires w.Valid() && Writable(v) && (v.U64? || v.Var? || v.Str? || v.Blob?) && Extends(f, Put(w, v))
    ensures Get(f, Cursor(w), KindOf(v)) == (v, Cursor(Put(w, v)))
  {
    hide Extends, Unused, GetBytes, GetU64, GetVar, GetStr, VarBytes, Bytes64;
    ReadBackBytes(f, w, BytesOf(v));
    match v
    case U64(n) => ReadBackU64(f, w, n);
    case Var(n) => ReadBackVar(f, Cursor(w), n);
    case Str(s) => ReadBackStr(f, w, s);
    case Blob(b) =>
  }

  /** One value: read at the place it was written, in a stream that may have grown since. */
  lemma ReadBack(f: Bytes, w: Writer, v: Value)
    requires w.Valid() && Writable(v) && Extends(f, Put(w, v))
    ensures Get(f, Cursor(w), KindOf(v)) == (v, Cursor(Put(w, v)))
    ensures Extends(f, w)
  {
    hide Extends, Unused, PutBit, GetBit, BytesOf, GetU8, GetU16, GetU32, GetU64, GetVar, GetStr;
    if v.Bit? {
      ReadBackBit(f, w, v.bit);
    } else {
      ReadBackBytes(f, w, BytesOf(v));
      if v.U8? || v.U16? || v.U32? {
        ReadBackInts(f, w, v);
      } else {
        ReadBackLong(f, w, v);
      }
    }
  }

  lemma ReadBackU64(f: Bytes, w: Writer, n: u64)
    requires w.Valid() && Extends(f, Writer(w.bytes + Bytes64(n), 0))
    ensures GetU64(f, Cursor(w)) == (n, Reader(|w.bytes| + 8, 0))
  {
    hide Bytes16, Int16, Int32;
    var hi, lo := n / 0x1_0000_0000, n % 0x1_0000_0000;
    var w1 := Writer(w.bytes + Bytes32(hi), 0);
    assert w.bytes + Bytes64(n) == w1.bytes + Bytes32(lo);
    ReadBackBytes(f, w1, Bytes32(lo));
    ReadBackBytes(f, w, Bytes32(hi));
    Int32Inverts(hi);
    Int32Inverts(lo);
  }

  lemma FirstKind(vs: seq<Value>)
    requires vs != []
    ensures KindsOf(vs) != [] && KindsOf(vs)[0] == KindOf(vs[0]) && KindsOf(vs)[1..] == KindsOf(vs[1..])
  {
  }

  lemma {:induction false} ReadBackAll(f: Bytes, w: Writer, vs: seq<Value>)
    requires w.Valid() && Extends(f, PutAll(w, vs))
    requires forall v :: v in vs ==> Writable(v)
    ensures GetAll(f, Cursor(w), KindsOf(vs)) == (vs, Cursor(PutAll(w, vs)))
    ensures Extends(f, w)
    decreases |vs|
  {
    if vs != [] {
      hide Get, Put, Extends, Writable;
      ReadBackAll(f, Put(w, vs[0]), vs[1..]);
      ReadBack(f, w, vs[0]);
      FirstKind(vs);
      hide KindsOf, KindOf, Cursor;
      assert vs == [vs[0]] + vs[1..];
    }
  }

  /** Any list of typed values survives being written to an empty stream and read by type. */
  lemma RoundTrip(vs: seq<Value>)
    requires forall v :: v in vs ==> Writable(v)
    requires Sized(PutAll(EMPTY, vs).bytes)
    ensures GetAll(PutAll(EMPTY, vs).bytes, Reader(0, 0), KindsOf(vs)) == (vs, Cursor(PutAll(EMPTY, vs)))
  {
    ReadBackAll(PutAll(EMPTY, vs).bytes, EMPTY, vs);
  }

  // --- Lists of values are written piecewise ---

  lemma {:induction false} PutAllConcat(w: Writer, us: seq<Value>, vs: seq<Value>)
    requires w.Valid()
    ensures PutAll(w, us + vs) == PutAll(PutAll(w, us), vs)
    decreases |us|
  {
    hide Put;
    if us == [] {
      assert us + vs == vs;
    } else {
      PutAllConcat(Put(w, us[0]), us[1..], vs);
      assert (us + vs)[0] == us[0] && (us + vs)[1..] == us[1..] + vs;
    }
  }

  /** Values written behind a byte boundary do not touch, or depend on, what stands before. */
  lemma {:induction false} PutAllBehind(prefix: Bytes, w: Writer, vs: seq<Value>)
    requires w.Valid()
    ensures Behind(prefix, w).Valid()
    ensures PutAll(Behind(prefix, w), vs) == Behind(prefix, PutAll(w, vs))
    decreases |vs|
  {
    BehindValid(prefix, w);
    hide Put, Behind;
    if vs != [] {
      PutBehind(prefix, w, vs[0]);
      PutAllBehind(prefix, Put(w, vs[0]), vs[1..]);
    }
  }

  function Behind(prefix: Bytes, w: Writer): Writer {
    Writer(prefix + w.bytes, w.sub)
  }

  lemma BehindValid(prefix: Bytes, w: Writer)
    requires w.Valid()
    ensures Behind(prefix, w).Valid()
  {
    assert w.sub > 0 ==> (prefix + w.bytes)[|prefix + w.bytes| - 1] == w.bytes[|w.bytes| - 1];
  }

  lemma PutBehind(prefix: Bytes, w: Writer, v: Value)
    requires w.Valid() && Behind(prefix, w).Valid()
    ensures Put(Behind(prefix, w), v) == Behind(prefix, Put(w, v))
  {
    hide SetBit, BytesOf, Unused;
    if v.Bit? && w.sub > 0 {
      var last := |w.bytes| - 1;
      assert (prefix + w.bytes)[|prefix| + last] == w.bytes[last];
      var b := SetBit(w.bytes[last], w.sub);
      assert (prefix + w.bytes)[|prefix| + last := b] == prefix + w.bytes[last := b];
    } else {
      var data := if v.Bit? then [if v.bit then SetBit(0, 0) else 0] else BytesOf(v);
      assert (prefix + w.bytes) + data == prefix + (w.bytes + data);
    }
  }

  // --- Reading the head of a list of written values ---

  lemma {:induction false} PutAllGrows(w: Writer, vs: seq<Value>)
    requires w.Valid()
    ensures |w.bytes| <= |PutAll(w, vs).bytes|
    decreases |vs|
  {
    if vs != [] {
      PutAllGrows(Put(w, vs[0]), vs[1..]);
    }
  }

  /** `v` was written at `w` and `rest` behind it. */
  lemma ReadNext(f: Bytes, w: Writer, v: Value, rest: seq<Value>)
    requires w.Valid() && Extends(f, PutAll(w, [v] + rest))
    requires Writable(v) && forall u :: u in rest ==> Writable(u)
    ensures Get(f, Cursor(w), KindOf(v)) == (v, Cursor(Put(w, v)))
    ensures Extends(f, PutAll(Put(w, v), rest))
    ensures Extends(f, Put(w, v)) && Extends(f, w)
  {
    hide Put, Get, Extends;
    assert ([v] + rest)[0] == v && ([v] + rest)[1..] == rest;
    ReadBackAll(f, Put(w, v), rest);
    ReadBack(f, w, v);
  }

  lemma ReadNextU8(f: Bytes, w: Writer, n: byte, rest: seq<Value>)
    requires w.Valid() && Extends(f, PutAll(w, [U8(n)] + rest))
    requires forall u :: u in rest ==> Writable(u)
    ensures GetU8(f, Cursor(w)) == (n, Cursor(Put(w, U8(n))))
    ensures Extends(f, PutAll(Put(w, U8(n)), rest)) && Extends(f, Put(w, U8(n)))
  {
    hide Put, Cursor, Extends, GetU8;
    ReadNext(f, w, U8(n), rest);
  }

  lemma ReadNextU16(f: Bytes, w: Writer, n: u16, rest: seq<Value>)
    requires w.Valid() && Extends(f, PutAll(w, [U16(n)] + rest))
    requires forall u :: u in rest ==> Writable(u)
    ensures GetU16(f, Cursor(w)) == (n, Cursor(Put(w, U16(n))))
    ensures Extends(f, PutAll(Put(w, U16(n)), rest)) && Extends(f, Put(w, U16(n)))
  {
    hide Put, Cursor, Extends, GetU16;
    ReadNext(f, w, U16(n), rest);
  }

  lemma ReadNextU32(f: Bytes, w: Writer, n: u32, rest: seq<Value>)
    requires w.Valid() && Extends(f, PutAll(w, [U32(n)] + rest))
    requires forall u :: u in rest ==> Writable(u)
    ensures GetU32(f, Cursor(w)) == (n, Cursor(Put(w, U32(n))))
    ensures Extends(f, PutAll(Put(w, U32(n)), rest)) && Extends(f, Put(w, U32(n)))
  {
    hide Put, Cursor, Extends, GetU32;
    ReadNext(f, w, U32(n), rest);
  }

  lemma PutOne(w: Writer, v: Value, rest: seq<Value>)
    requires w.Valid()
    ensures PutAll(w, [v] + rest) == PutAll(Put(w, v), rest)
  {
    hide Put;
    assert ([v] + rest)[0] == v && ([v] + rest)[1..] == rest;
  }

  lemma PutTwo(w: Writer, u: Value, v: Value)
    requires w.Valid()
    ensures PutAll(w, [u, v]) == Put(Put(w, u), v)
  {
    hide Put;
    PutOne(w, u, [v]);
    PutOne(Put(w, u), v, []);
    assert [u] + [v] == [u, v] && [v] + [] == [v];
  }

  lemma PutFive(w: Writer, v0: Value, v1: Value, v2: Value, v3: Value, v4: Value)
    requires w.Valid()
    ensures PutAll(w, [v0, v1, v2, v3, v4]) == Put(Put(Put(Put(Put(w, v0), v1), v2), v3), v4)
  {
    hide Put;
    var w2 := Put(Put(w, v0), v1);
    var w4 := Put(Put(w2, v2), v3);
    PutTwo(w, v0, v1);
    PutTwo(w2, v2, v3);
    PutOne(w4, v4, []);
    PutAllConcat(w, [v0, v1], [v2, v3] + [v4]);
    PutAllConcat(w2, [v2, v3], [v4] + []);
    assert [v0, v1] + ([v2, v3] + [v4]) == [v0, v1, v2, v3, v4];
    assert [v4] + [] == [v4];
  }

  /** Five values at the head of a list, in one go. */
  lemma ReadFive(f: Bytes, w: Writer, v0: Value, v1: Value, v2: Value, v3: Value, v4: Value, rest: seq<Value>)
    requires w.Valid() && Extends(f, PutAll(w, [v0, v1, v2, v3, v4] + rest))
    requires Writable(v0) && Writable(v1) && Writable(v2) && Writable(v3) && Writable(v4)
    requires forall u :: u in rest ==> Writable(u)
    ensures var w1 := Put(w, v0); var w2 := Put(w1, v1); var w3 := Put(w2, v2); var w4 := Put(w3, v3); var w5 := Put(w4, v4);
      && PutAll(w, [v0, v1, v2, v3, v4]) == w5
      && Extends(f, PutAll(w5, rest)) && Extends(f, w5)
      && Get(f, Cursor(w), KindOf(v0)) == (v0, Cursor(w1))
      && Get(f, Cursor(w1), KindOf(v1)) == (v1, Cursor(w2))
      && Get(f, Cursor(w2), KindOf(v2)) == (v2, Cursor(w3))
      && Get(f, Cursor(w3), KindOf(v3)) == (v3, Cursor(w4))
      && Get(f, Cursor(w4), KindOf(v4)) == (v4, Cursor(w5))
  {
    hide Put, Get, Extends, Cursor, KindOf;
    var w1 := Put(w, v0);
    var w2 := Put(w1, v1);
    var w3 := Put(w2, v2);
    var w4 := Put(w3, v3);
    assert [v0, v1, v2, v3, v4] + rest == [v0] + ([v1] + ([v2] + ([v3] + ([v4] + rest))));
    ReadNext(f, w, v0, [v1] + ([v2] + ([v3] + ([v4] + rest))));
    ReadNext(f, w1, v1, [v2] + ([v3] + ([v4] + rest)));
    ReadNext(f, w2, v2, [v3] + ([v4] + rest));
    ReadNext(f, w3, v3, [v4] + rest);
    ReadNext(f, w4, v4, rest);
    PutFive(w, v0, v1, v2, v3, v4);
  }
}
