/** Byte strings, big-endian integers and lists of buffers. */
module Bytes {

  type byte = n: int | 0 <= n < 0x100
  type u16 = n: int | 0 <= n < 0x1_0000
  type u32 = n: int | 0 <= n < 0x1_0000_0000

  type Bytes = seq<byte>

  /** `n.to_be_bytes()` for a u16. */
  function U16Bytes(n: u16): (b: Bytes)
    ensures |b| == 2 && U16At(b) == n
  {
    [n / 0x100, n % 0x100]
  }

  function U16At(b: Bytes): (n: u16)
    requires |b| >= 2
  {
    b[0] as int * 0x100 + b[1]
  }

  /** `n.to_be_bytes()` for a u32. */
  function U32Bytes(n: u32): (b: Bytes)
    ensures |b| == 4 && U32At(b) == n
  {
    U16Bytes(n / 0x1_0000) + U16Bytes(n % 0x1_0000)
  }

  function U32At(b: Bytes): (n: u32)
    requires |b| >= 4
  {
    U16At(b) as int * 0x1_0000 + U16At(b[2..])
  }

  /** Bit `i` of a byte, where `mask` is 2 to the power `i`. */
  predicate Bit(b: byte, mask: nat)
    requires mask > 0
  {
    b / mask % 2 == 1
  }

  /** The bytes held by a list of buffers, in order. */
  function Flatten(chunks: seq<Bytes>): Bytes {
    if chunks == [] then [] else chunks[0] + Flatten(chunks[1..])
  }

  lemma {:induction false} FlattenConcat(a: seq<Bytes>, b: seq<Bytes>)
    ensures Flatten(a + b) == Flatten(a) + Flatten(b)
  {
    if a == [] {
      assert a + b == b;
    } else {
      FlattenConcat(a[1..], b);
      assert (a + b)[1..] == a[1..] + b && (a + b)[0] == a[0];
      assert a[0] + (Flatten(a[1..]) + Flatten(b)) == a[0] + Flatten(a[1..]) + Flatten(b);
    }
  }

  lemma FlattenSnoc(a: seq<Bytes>, x: Bytes)
    ensures Flatten(a + [x]) == Flatten(a) + x
  {
    FlattenConcat(a, [x]);
    assert Flatten([x]) == x + Flatten([x][1..]);
  }
}
