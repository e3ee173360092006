/** The growing byte buffer with a read/write head that all serialization goes through. */
module Streams {
  import opened Types
  import opened Wire

  // --- Capacity ---

  /** The smallest power of two that is at least n; zero for zero. */
  function NextPowerOfTwo(n: nat): (c: nat)
    ensures n <= c && (n > 0 ==> c < 2 * n && PowerOfTwo(c))
    ensures n == 0 ==> c == 0
  {
    if n == 0 then 0 else Doubled(1, n)
  }

  function Doubled(p: nat, n: nat): (c: nat)
    requires 0 < p < 2 * n && PowerOfTwo(p)
    ensures n <= c < 2 * n && PowerOfTwo(c)
    decreases 2 * n - p
  {
    if p >= n then p else Doubled(2 * p, n)
  }

  predicate PowerOfTwo(c: nat) {
    c == 1 || (c > 1 && c % 2 == 0 && PowerOfTwo(c / 2))
  }

  /** Capacity after making room for `free` bytes behind `pos`. */
  function Grown(cap: nat, pos: nat, free: nat): (c: nat)
    ensures cap <= c || pos > cap
    ensures pos + free <= c
  {
    if pos <= cap && cap - pos >= free then cap else NextPowerOfTwo(pos + free)
  }

  // --- The contents as a value ---

  /** Written bytes, head position in bytes, and bits of that byte already used. */
  datatype Stream = Stream(bytes: Bytes, pos: nat, sub: nat) {
    predicate Valid() {
      pos <= |bytes| && sub < 8 && (sub > 0 ==> pos < |bytes|)
    }

    function Aligned(): nat {
      if sub > 0 then pos + 1 else pos
    }

    function Head(): Reader { Reader(pos, sub) }

    /** The head stands behind everything written, and the bits it has not reached are zero. */
    ghost predicate AtEnd() {
      Valid() && Aligned() == |bytes| && ToWriter().Valid()
    }

    function ToWriter(): Writer { Writer(bytes, sub) }
  }

  /** Overwrites from p on; what lies behind the new data stays. */
  function Splice(s: Bytes, p: nat, data: Bytes): (r: Bytes)
    requires p <= |s|
    ensures |r| == if p + |data| <= |s| then |s| else p + |data|
  {
    if p + |data| <= |s| then s[..p] + data + s[p + |data|..] else s[..p] + data
  }

  lemma SpliceIs(s: Bytes, p: nat, data: Bytes, r: Bytes)
    requires p <= |s|
    requires |r| == if p + |data| <= |s| then |s| else p + |data|
    requires forall i :: 0 <= i < |data| ==> r[p + i] == data[i]
    requires forall i :: 0 <= i < p || p + |data| <= i < |s| ==> r[i] == s[i]
    ensures r == Splice(s, p, data)
  {
    var end := p + |data|;
    assert r[..p] == s[..p];
    assert r[p..end] == data;
    assert r[..end] == r[..p] + r[p..end];
    if end <= |s| {
      assert r[end..] == s[end..];
      assert r == r[..end] + r[end..];
    } else {
      assert r == r[..end];
    }
  }

  function WriteAt(s: Stream, data: Bytes): (s': Stream)
    requires s.Valid()
    ensures s'.Valid()
  {
    Stream(Splice(s.bytes, s.Aligned(), data), s.Aligned() + |data|, 0)
  }

  function WriteBit(s: Stream, b: bool): (s': Stream)
    requires s.Valid()
    ensures s'.Valid()
  {
    var before := if s.sub == 0 then 0 else s.bytes[s.pos];
    var bytes := Splice(s.bytes, s.pos, [if b then SetBit(before, s.sub) else before]);
    if s.sub == 7 then Stream(bytes, s.pos + 1, 0) else Stream(bytes, s.pos, s.sub + 1)
  }

  function WriteValue(s: Stream, v: Value): (s': Stream)
    requires s.Valid()
    ensures s'.Valid()
  {
    if v.Bit? then WriteBit(s, v.bit) else WriteAt(s, BytesOf(v))
  }

  function SeekTo(s: Stream, position: nat): (s': Stream)
  {
    s.(pos := if position <= |s.bytes| then position else |s.bytes|)
  }

  /** Writing at the end of a stream is appending. */
  lemma WriteAppends(s: Stream, v: Value)
    requires s.AtEnd()
    ensures WriteValue(s, v).AtEnd()
    ensures WriteValue(s, v).ToWriter() == Put(s.ToWriter(), v)
  {
    hide SetBit, BytesOf;
    if v.Bit? {
      var before := if s.sub == 0 then 0 else s.bytes[s.pos];
      var b := if v.bit then SetBit(before, s.sub) else before;
      if s.sub == 0 {
        assert Splice(s.bytes, s.pos, [b]) == s.bytes + [b];
      } else {
        assert Splice(s.bytes, s.pos, [b]) == s.bytes[s.pos := b];
        assert s.pos == |s.bytes| - 1;
      }
      assert WriteBit(s, v.bit).ToWriter() == PutBit(s.ToWriter(), v.bit);
    } else {
      assert Splice(s.bytes, s.Aligned(), BytesOf(v)) == s.bytes + BytesOf(v);
    }
  }

  /** Two writes in a row are one write of both. */
  lemma WriteAtTwice(s: Stream, a: Bytes, b: Bytes)
    requires s.Valid()
    ensures WriteAt(WriteAt(s, a), b) == WriteAt(s, a + b)
  {
    var p := s.Aligned();
    var left, right := Splice(Splice(s.bytes, p, a), p + |a|, b), Splice(s.bytes, p, a + b);
    assert |left| == |right|;
    forall i | 0 <= i < |left| ensures left[i] == right[i] {
    }
  }

  class BinaryStream {
    var buffer: array<byte>
    var length: nat
    var position: nat
    var subBytePosition: nat
    var readonly: bool

    ghost predicate Valid()
      reads this, buffer
    {
      length <= buffer.Length && View().Valid()
    }

    ghost function View(): Stream
      reads this, buffer
    {
      Stream(if length <= buffer.Length then buffer[..length] else [], position, subBytePosition)
    }

    /** What has been appended so far; meaningful while the head stands at the end. */
    ghost function Written(): Writer
      reads this, buffer
    {
      View().ToWriter()
    }

    ghost predicate Appending()
      reads this, buffer
    {
      Valid() && !readonly && View().AtEnd()
    }

    constructor (capacity: nat)
      ensures Valid() && fresh(buffer) && !readonly
      ensures View() == Stream([], 0, 0) && Appending() && Written() == EMPTY
      ensures buffer.Length == NextPowerOfTwo(capacity)
    {
      buffer := new byte[NextPowerOfTwo(capacity)];
      length, position, subBytePosition, readonly := 0, 0, 0, false;
    }

    /** Wraps bytes for reading only. */
    constructor Wrap(data: Bytes)
      ensures Valid() && fresh(buffer) && readonly
      ensures View() == Stream(data, 0, 0)
      ensures buffer.Length == |data|
    {
      var b := new byte[|data|](i requires 0 <= i < |data| => data[i]);
      buffer := b;
      length, position, subBytePosition, readonly := |data|, 0, 0, true;
      assert b[..] == data;
    }

    /** Copies bytes into a stream of its own, with the head at their start. */
    constructor Copy(data: Bytes)
      ensures Valid() && fresh(buffer) && !readonly
      ensures View() == Stream(data, 0, 0)
      ensures buffer.Length == NextPowerOfTwo(|data|)
    {
      var b := new byte[NextPowerOfTwo(|data|)](i => if 0 <= i < |data| then data[i] else 0);
      buffer := b;
      length, position, subBytePosition, readonly := |data|, 0, 0, false;
      assert b[..|data|] == data;
    }

    // --- Room ---

    /** Copies what fits. The length stays, so a capacity below it leaves a stream that says it is longer than it is. */
    method Reallocate(newCapacity: nat)
      requires Valid()
      modifies this`buffer
      ensures if readonly then buffer == old(buffer) else fresh(buffer)
      ensures !readonly ==> buffer.Length == if newCapacity == 0 then 1 else NextPowerOfTwo(newCapacity)
      ensures forall i :: 0 <= i < length && i < buffer.Length ==> buffer[i] == old(buffer[i])
      ensures Valid() <==> length <= buffer.Length
      ensures Valid() ==> View() == old(View())
    {
      if readonly { return; }
      var rounded := NextPowerOfTwo(newCapacity);
      var newBuffer := new byte[if rounded > 0 then rounded else 1];
      forall i | 0 <= i < length && i < newBuffer.Length {
        newBuffer[i] := buffer[i];
      }
      assert length <= newBuffer.Length ==> newBuffer[..length] == buffer[..length];
      buffer := newBuffer;
    }

    method Ensure(free: nat)
      requires Valid()
      modifies this
      ensures Valid() && View() == old(View()) && readonly == old(readonly)
      ensures buffer == old(buffer) || fresh(buffer)
      ensures buffer.Length == if readonly then old(buffer.Length) else Grown(old(buffer.Length), position, free)
    {
      if readonly { return; }
      if buffer.Length - position >= free { return; }
      Reallocate(position + free);
    }

    method Align()
      requires Valid()
      modifies this`position, this`subBytePosition
      ensures Valid() && View() == Stream(old(View()).bytes, old(View()).Aligned(), 0)
    {
      if subBytePosition > 0 {
        position := position + 1;
      }
      subBytePosition := 0;
    }

    // --- Moving the head ---

    /** Clamps to the length. The sub-byte position stays, so only an aligned stream is sure to stay well-formed. */
    method Seek(target: nat)
      requires Valid()
      modifies this`position
      ensures View() == SeekTo(old(View()), target)
      ensures subBytePosition == 0 ==> Valid()
    {
      position := if target <= length then target else length;
    }

    /** Extends only when the capacity, not the length, falls short of the target. */
    method SeekForce(target: nat)
      requires Valid() && !readonly && subBytePosition == 0
      modifies this, buffer
      ensures Valid() && !readonly && subBytePosition == 0
      ensures buffer == old(buffer) || fresh(buffer)
      ensures length == if old(buffer.Length) <= target then target else old(length)
      ensures View().bytes == old(View()).bytes + Zeros(length - old(length))
      ensures buffer.Length
        == if old(buffer.Length) <= target then Grown(old(buffer.Length), old(length), target - old(length))
           else old(buffer.Length)
      ensures position == target <==> !(old(length) < target < old(buffer.Length))
    {
      if buffer.Length <= target {
        Seek(length);
        WriteZeroes(target - position);
        assert Splice(old(View()).bytes, old(length), Zeros(target - old(length)))
            == old(View()).bytes + Zeros(target - old(length));
      } else {
        assert View().bytes == View().bytes + Zeros(0);
      }
      Seek(target);
    }

    method Skip(num: nat) returns (ok: bool)
      requires Valid()
      modifies this`position
      ensures ok == !IsEof(length, old(position), num)
      ensures position == if ok then old(position) + num else old(position)
      ensures View().bytes == old(View()).bytes
      ensures num <= length && subBytePosition == 0 ==> Valid()
    {
      if IsEof(length, position, num) { return false; }
      position := position + num;
      return true;
    }

    // --- Writing ---

    method WriteBytes(data: Bytes)
      requires Valid()
      modifies this, buffer
      ensures Valid() && readonly == old(readonly)
      ensures buffer == old(buffer) || fresh(buffer)
      ensures View() == if readonly then old(View()) else WriteAt(old(View()), data)
      ensures buffer.Length == if readonly then old(buffer.Length) else Grown(old(buffer.Length), old(View()).Aligned(), |data|)
      ensures old(Appending()) ==> Appending() && Written() == Put(old(Written()), Blob(data))
    {
      hide NextPowerOfTwo, Splice;
      if readonly { return; }
      Align();
      Ensure(|data|);
      Store(data);
      position := position + |data|;
      if old(Appending()) { WriteAppends(old(View()), Blob(data)); }
    }

    /** Copies bytes to where the head stands, without moving the head. */
    method Store(data: Bytes)
      requires length <= buffer.Length && position <= length && position + |data| <= buffer.Length
      modifies this`length, buffer
      ensures length == if old(length) >= position + |data| then old(length) else position + |data|
      ensures length <= buffer.Length && buffer[..length] == Splice(old(buffer[..length]), position, data)
    {
      hide Splice;
      forall i | 0 <= i < |data| {
        buffer[position + i] := data[i];
      }
      length := if length >= position + |data| then length else position + |data|;
      SpliceIs(old(buffer[..length]), position, data, buffer[..length]);
    }

    method WriteZeroes(n: nat)
      requires Valid()
      modifies this, buffer
      ensures Valid() && readonly == old(readonly)
      ensures buffer == old(buffer) || fresh(buffer)
      ensures View() == if readonly then old(View()) else WriteAt(old(View()), Zeros(n))
      ensures buffer.Length == if readonly then old(buffer.Length) else Grown(old(buffer.Length), old(View()).Aligned(), n)
    {
      WriteBytes(Zeros(n));
    }

    method WriteByte(val: byte)
      requires Valid()
      modifies this, buffer
      ensures Valid() && readonly == old(readonly)
      ensures buffer == old(buffer) || fresh(buffer)
      ensures View() == if readonly then old(View()) else WriteValue(old(View()), U8(val))
      ensures old(Appending()) ==> Appending() && Written() == Put(old(Written()), U8(val))
    {
      WriteBytes([val]);
      if old(Appending()) { WriteAppends(old(View()), U8(val)); }
    }

    method WriteInt16(val: u16)
      requires Valid()
      modifies this, buffer
      ensures Valid() && readonly == old(readonly)
      ensures buffer == old(buffer) || fresh(buffer)
      ensures View() == if readonly then old(View()) else WriteValue(old(View()), U16(val))
      ensures old(Appending()) ==> Appending() && Written() == Put(old(Written()), U16(val))
    {
      WriteBytes(Bytes16(val));
      if old(Appending()) { WriteAppends(old(View()), U16(val)); }
    }

    method WriteInt32(val: u32)
      requires Valid()
      modifies this, buffer
      ensures Valid() && readonly == old(readonly)
      ensures buffer == old(buffer) || fresh(buffer)
      ensures View() == if readonly then old(View()) else WriteValue(old(View()), U32(val))
      ensures old(Appending()) ==> Appending() && Written() == Put(old(Written()), U32(val))
    {
      WriteBytes(Bytes32(val));
      if old(Appending()) { WriteAppends(old(View()), U32(val)); }
    }

    method WriteInt64(val: u64)
      requires Valid()
      modifies this, buffer
      ensures Valid() && readonly == old(readonly)
      ensures buffer == old(buffer) || fresh(buffer)
      ensures View() == if readonly then old(View()) else WriteValue(old(View()), U64(val))
      ensures old(Appending()) ==> Appending() && Written() == Put(old(Written()), U64(val))
    {
      var hi, lo := val / 0x1_0000_0000, val % 0x1_0000_0000;
      WriteInt32(hi);
      WriteInt32(lo);
      WriteAtTwice(old(View()), Bytes32(hi), Bytes32(lo));
      if old(Appending()) { WriteAppends(old(View()), U64(val)); }
    }

    method Write7BitEncodedInt(val: u32)
      requires Valid()
      modifies this, buffer
      ensures Valid() && readonly == old(readonly)
      ensures buffer == old(buffer) || fresh(buffer)
      ensures View() == if readonly then old(View()) else WriteValue(old(View()), Var(val))
      ensures old(Appending()) ==> Appending() && Written() == Put(old(Written()), Var(val))
    {
      hide NextPowerOfTwo, WriteAt;
      var raw: nat := val;
      var more := true;
      while more
        invariant Valid() && readonly == old(readonly)
        invariant buffer == old(buffer) || fresh(buffer)
        invariant readonly ==> View() == old(View())
        invariant !readonly && more ==> WriteAt(View(), VarBytes(raw)) == WriteAt(old(View()), VarBytes(val))
        invariant !readonly && !more ==> View() == WriteAt(old(View()), VarBytes(val))
        decreases more, raw
      {
        var snippet: byte := raw % 0x80;
        var rest := raw / 0x80;
        if rest > 0 {
          snippet := snippet + 0x80;
        }
        if rest > 0 {
          WriteAtTwice(View(), [snippet], VarBytes(rest));
        }
        WriteByte(snippet);
        raw := rest;
        more := raw > 0;
      }
      if old(Appending()) { WriteAppends(old(View()), Var(val)); }
    }

    method WriteString(str: Bytes)
      requires Valid() && |str| < 0x7FFF_FFFF
      modifies this, buffer
      ensures Valid() && readonly == old(readonly)
      ensures buffer == old(buffer) || fresh(buffer)
      ensures View() == if readonly then old(View()) else WriteValue(old(View()), Str(str))
      ensures old(Appending()) ==> Appending() && Written() == Put(old(Written()), Str(str))
    {
      Write7BitEncodedInt(|str|);
      WriteBytes(str);
      WriteAtTwice(old(View()), VarBytes(|str|), str);
      if old(Appending()) { WriteAppends(old(View()), Str(str)); }
    }

    method WriteBool(val: bool)
      requires Valid()
      modifies this, buffer
      ensures Valid() && readonly == old(readonly)
      ensures buffer == old(buffer) || fresh(buffer)
      ensures View() == if readonly then old(View()) else WriteValue(old(View()), Bit(val))
      ensures old(Appending()) ==> Appending() && Written() == Put(old(Written()), Bit(val))
    {
      hide NextPowerOfTwo, Splice, SetBit;
      if readonly { return; }
      Ensure(1);
      // the first bit of a byte clears the byte
      var bits: byte := if subBytePosition == 0 then 0 else buffer[position];
      assert subBytePosition > 0 ==> bits == View().bytes[position];
      Store([if val then SetBit(bits, subBytePosition) else bits]);
      subBytePosition := subBytePosition + 1;
      if subBytePosition > 7 {
        position := position + 1;
        subBytePosition := 0;
      }
      if old(Appending()) { WriteAppends(old(View()), Bit(val)); }
    }

    // --- Reading ---

    method ReadBytes(count: nat) returns (data: Bytes)
      requires Valid()
      modifies this`position, this`subBytePosition
      ensures Valid() && View().bytes == old(View()).bytes
      ensures (data, View().Head()) == GetBytes(old(View()).bytes, old(View()).Head(), count)
    {
      if IsEof(length, position, count) || (if subBytePosition > 0 then position + 1 else position) + count > length {
        return Zeros(count);
      }
      Align();
      data := buffer[position..position + count];
      assert data == buffer[..length][position..position + count];
      position := position + count;
    }

    method ReadByte() returns (val: byte)
      requires Valid()
      modifies this`position, this`subBytePosition
      ensures Valid() && View().bytes == old(View()).bytes
      ensures (val, View().Head()) == GetU8(old(View()).bytes, old(View()).Head())
    {
      var data := ReadBytes(1);
      val := data[0];
    }

    method ReadUInt16() returns (val: u16)
      requires Valid()
      modifies this`position, this`subBytePosition
      ensures Valid() && View().bytes == old(View()).bytes
      ensures (val, View().Head()) == GetU16(old(View()).bytes, old(View()).Head())
    {
      var data := ReadBytes(2);
      val := Int16(data);
    }

    method ReadUInt32() returns (val: u32)
      requires Valid()
      modifies this`position, this`subBytePosition
      ensures Valid() && View().bytes == old(View()).bytes
      ensures (val, View().Head()) == GetU32(old(View()).bytes, old(View()).Head())
    {
      var data := ReadBytes(4);
      val := Int32(data);
    }

    method ReadUInt64() returns (val: u64)
      requires Valid()
      modifies this`position, this`subBytePosition
      ensures Valid() && View().bytes == old(View()).bytes
      ensures (val, View().Head()) == GetU64(old(View()).bytes, old(View()).Head())
    {
      hide GetU32;
      var hi := ReadUInt32();
      var lo := ReadUInt32();
      val := hi as int * 0x1_0000_0000 + lo;
    }

    method ReadBool() returns (val: bool)
      requires Valid()
      modifies this`position, this`subBytePosition
      ensures Valid() && View().bytes == old(View()).bytes
      ensures (val, View().Head()) == GetBit(old(View()).bytes, old(View()).Head())
    {
      if IsEof(length, position, 1) || position >= length { return false; }
      val := BitAt(buffer[position], subBytePosition);
      assert buffer[position] == buffer[..length][position];
      subBytePosition := subBytePosition + 1;
      if subBytePosition > 7 {
        subBytePosition := 0;
        position := position + 1;
      }
    }

    method Read7BitEncodedInt() returns (val: u32)
      requires Valid()
      modifies this`position, this`subBytePosition
      ensures Valid() && View().bytes == old(View()).bytes
      ensures (val, View().Head()) == GetVar(old(View()).bytes, old(View()).Head())
    {
      hide GetGroups, VarValue, GetU8;
      var output: nat := 0;
      var shift: nat := 1;
      var i := 0;
      ghost var f := View().bytes;
      ghost var whole := GetGroups(f, View().Head(), 5);
      var more := true;
      while more && i < 5
        invariant 0 <= i <= 5 && Valid() && View().bytes == f
        invariant more ==> whole.1 == GetGroups(f, View().Head(), 5 - i).1
        invariant more ==> VarValue(whole.0) == output + shift * VarValue(GetGroups(f, View().Head(), 5 - i).0)
        invariant !more ==> whole.1 == View().Head() && VarValue(whole.0) == output
        decreases 5 - i
      {
        GroupsStep(f, View().Head(), 5 - i, shift);
        var snippet := ReadByte();
        output := output + shift * (snippet as int % 0x80);
        shift := shift * 0x80;
        more := snippet >= 0x80;
        i := i + 1;
      }
      NoGroups(f, View().Head());
      // the shifted groups are combined in 32 bits
      val := output % 0x1_0000_0000;
    }

    method ReadString() returns (str: Bytes)
      requires Valid()
      modifies this`position, this`subBytePosition
      ensures Valid() && View().bytes == old(View()).bytes
      ensures (str, View().Head()) == GetStr(old(View()).bytes, old(View()).Head())
    {
      hide GetVar;
      VarAligned(View().bytes, View().Head());
      var n := Read7BitEncodedInt();
      if IsEof(length, position, n) || position + n > length { return []; }
      str := buffer[position..position + n];
      assert str == buffer[..length][position..position + n];
      position := position + n;
    }
  }

  lemma {:induction false} GroupsAligned(f: Bytes, r: Reader, max: nat)
    requires r.Valid() && r.sub == 0
    ensures GetGroups(f, r, max).1.sub == 0
    decreases max
  {
    if max > 0 {
      GroupsAligned(f, GetU8(f, r).1, max - 1);
    }
  }

  /** A 7-bit integer leaves the head on a byte boundary, unless there was nothing to read. */
  lemma VarAligned(f: Bytes, r: Reader)
    requires r.Valid()
    ensures GetVar(f, r).1.sub == 0 || GetVar(f, r) == (0, r)
  {
    var (snippet, r') := GetU8(f, r);
    if r'.sub == 0 {
      GroupsAligned(f, r', 4);
    } else {
      assert GetGroups(f, r, 5) == ([0], r);
      assert VarValue([0]) == 0;
    }
  }

  lemma NoGroups(f: Bytes, r: Reader)
    requires r.Valid()
    ensures GetGroups(f, r, 0) == ([], r) && VarValue([]) == 0
  {
  }

  /** One round of the reading loop, on the value still to be read. */
  lemma GroupsStep(f: Bytes, r: Reader, max: nat, shift: nat)
    requires r.Valid() && max > 0
    ensures
      var (snippet, r') := GetU8(f, r);
      var (groups, end) := GetGroups(f, r, max);
      var low := shift * (snippet as int % 0x80);
      if snippet < 0x80 then
        end == r' && shift * VarValue(groups) == low
      else
        var (groups', end') := GetGroups(f, r', max - 1);
        end == end' && shift * VarValue(groups) == low + shift * 0x80 * VarValue(groups')
  {
    hide GetU8;
    var (snippet, r') := GetU8(f, r);
    if snippet < 0x80 {
      assert VarValue([snippet]) == snippet as int % 0x80;
    } else {
      var rest := GetGroups(f, r', max - 1).0;
      var low, high := snippet as int % 0x80, VarValue(rest);
      assert ([snippet] + rest)[1..] == rest;
      assert shift * (low + 0x80 * high) == shift * low + shift * 0x80 * high;
    }
  }

  // --- Typed values through a stream ---

  method WriteTyped(stream: BinaryStream, v: Value)
    requires stream.Appending() && Writable(v)
    modifies stream, stream.buffer
    ensures stream.Appending()
    ensures stream.buffer == old(stream.buffer) || fresh(stream.buffer)
    ensures stream.Written() == Put(old(stream.Written()), v)
  {
    hide Put, WriteValue, WriteAt;
    match v
    case Bit(x) => stream.WriteBool(x);
    case U8(x) => stream.WriteByte(x);
    case U16(x) => stream.WriteInt16(x);
    case U32(x) => stream.WriteInt32(x);
    case U64(x) => stream.WriteInt64(x);
    case Var(x) => stream.Write7BitEncodedInt(x);
    case Str(x) => stream.WriteString(x);
    case Blob(x) => stream.WriteBytes(x);
  }

  method ReadTyped(stream: BinaryStream, k: Kind) returns (v: Value)
    requires stream.Valid()
    modifies stream`position, stream`subBytePosition
    ensures stream.Valid() && stream.View().bytes == old(stream.View()).bytes
    ensures (v, stream.View().Head()) == Get(old(stream.View()).bytes, old(stream.View()).Head(), k)
  {
    hide GetBit, GetBytes, GetU8, GetU16, GetU32, GetU64, GetVar, GetStr;
    match k
    case KBit => var x := stream.ReadBool(); v := Bit(x);
    case KU8 => var x := stream.ReadByte(); v := U8(x);
    case KU16 => var x := stream.ReadUInt16(); v := U16(x);
    case KU32 => var x := stream.ReadUInt32(); v := U32(x);
    case KU64 => var x := stream.ReadUInt64(); v := U64(x);
    case KVar => var x := stream.Read7BitEncodedInt(); v := Var(x);
    case KStr => var x := stream.ReadString(); v := Str(x);
    case KBlob(n) => var x := stream.ReadBytes(n); v := Blob(x);
  }

  method WriteAllTyped(stream: BinaryStream, values: seq<Value>)
    requires stream.Appending() && forall v :: v in values ==> Writable(v)
    modifies stream, stream.buffer
    ensures stream.Appending()
    ensures stream.buffer == old(stream.buffer) || fresh(stream.buffer)
    ensures stream.Written() == PutAll(old(stream.Written()), values)
  {
    hide Put;
    for i := 0 to |values|
      invariant stream.Appending()
      invariant stream.buffer == old(stream.buffer) || fresh(stream.buffer)
      invariant PutAll(stream.Written(), values[i..]) == PutAll(old(stream.Written()), values)
    {
      assert values[i..][1..] == values[i + 1..];
      WriteTyped(stream, values[i]);
    }
  }

  method ReadAllTyped(stream: BinaryStream, kinds: seq<Kind>) returns (values: seq<Value>)
    requires stream.Valid()
    modifies stream`position, stream`subBytePosition
    ensures stream.Valid() && stream.View().bytes == old(stream.View()).bytes
    ensures (values, stream.View().Head()) == GetAll(old(stream.View()).bytes, old(stream.View()).Head(), kinds)
  {
    hide Get;
    ghost var f := stream.View().bytes;
    ghost var whole := GetAll(f, stream.View().Head(), kinds);
    values := [];
    assert [] + whole.0 == whole.0;
    for i := 0 to |kinds|
      invariant stream.Valid() && stream.View().bytes == f
      invariant whole.1 == GetAll(f, stream.View().Head(), kinds[i..]).1
      invariant whole.0 == values + GetAll(f, stream.View().Head(), kinds[i..]).0
    {
      ghost var rest := GetAll(f, stream.View().Head(), kinds[i..]).0;
      assert kinds[i..][1..] == kinds[i + 1..];
      var v := ReadTyped(stream, kinds[i]);
      assert values + rest == values + [v] + rest[1..];
      values := values + [v];
    }
    assert values + [] == values;
  }

  /** Any list of values written to a growing stream comes back through a fresh stream over its bytes. */
  method Echo(values: seq<Value>, capacity: nat) returns (copy: seq<Value>)
    requires forall v :: v in values ==> Writable(v)
    requires Sized(PutAll(EMPTY, values).bytes)
    ensures copy == values
  {
    hide Put, Get, PutAll, GetAll;
    var sink := new BinaryStream(capacity);
    WriteAllTyped(sink, values);
    var source := new BinaryStream.Wrap(sink.buffer[..sink.length]);
    RoundTrip(values);
    copy := ReadAllTyped(source, KindsOf(values));
  }
}
