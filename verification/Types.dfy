/** Machine words of the wire format, and the compile-time configuration. */
module Types {

  type byte = n: int | 0 <= n < 0x100
  type u16 = n: int | 0 <= n < 0x1_0000
  type u32 = n: int | 0 <= n < 0x1_0000_0000
  type u64 = n: int | 0 <= n < 0x1_0000_0000_0000_0000

  type Bytes = seq<byte>

  datatype Option<+T> = None | Some(value: T)

  /** Largest payload of one datagram, in bytes. */
  const MTU: nat := 1300
  /** Payload bytes carried by one segment of a split packet. */
  const CHUNK_SIZE: nat := 1200
  /** No message may be this long or longer. */
  const PACKET_MAX_LENGTH: nat := 16777216
  /** Initial capacity of a default-constructed stream. */
  const DEFAULT_CAPACITY: nat := 128

  // Time is a count of nanoseconds.
  const MILLISECOND: nat := 1_000_000
  const SECOND: nat := 1_000_000_000

  lemma {:induction false} SubsetSize(a: set<u32>, b: set<u32>)
    requires a <= b
    ensures |a| <= |b|
    decreases |a|
  {
    if a != {} {
      var x :| x in a;
      SubsetSize(a - {x}, b - {x});
    }
  }
}
