/**
 * Little-endian serialisation of the fixed-width integers that the packed
 * (`#[repr(C, packed)]`) records of the boot layer are laid out from.
 * x86 stores every multi-byte field least-significant byte first.
 */
module Bytes {
  /** The two bytes of a `u16`, low byte first. */
  function Le16(x: bv16): (b: seq<bv8>)
    ensures |b| == 2
  {
    [(x & 0xFF) as bv8, ((x >> 8) & 0xFF) as bv8]
  }

  function FromLe16(b: seq<bv8>): bv16
    requires |b| == 2
  {
    (b[0] as bv16) | ((b[1] as bv16) << 8)
  }

  /** The four bytes of a `u32`, low byte first. */
  function Le32(x: bv32): (b: seq<bv8>)
    ensures |b| == 4
  {
    [(x & 0xFF) as bv8, ((x >> 8) & 0xFF) as bv8, ((x >> 16) & 0xFF) as bv8, ((x >> 24) & 0xFF) as bv8]
  }

  function FromLe32(b: seq<bv8>): bv32
    requires |b| == 4
  {
    (b[0] as bv32) | ((b[1] as bv32) << 8) | ((b[2] as bv32) << 16) | ((b[3] as bv32) << 24)
  }

  /** The eight bytes of a `u64`, low byte first. */
  function Le64(x: bv64): (b: seq<bv8>)
    ensures |b| == 8
  {
    Le32((x & 0xFFFF_FFFF) as bv32) + Le32(((x >> 32) & 0xFFFF_FFFF) as bv32)
  }

  function FromLe64(b: seq<bv8>): bv64
    requires |b| == 8
  {
    (FromLe32(b[..4]) as bv64) | ((FromLe32(b[4..]) as bv64) << 32)
  }

  lemma Le16RoundTrip(x: bv16)
    ensures FromLe16(Le16(x)) == x
  {}

  lemma Le32RoundTrip(x: bv32)
    ensures FromLe32(Le32(x)) == x
  {}

  lemma Le64RoundTrip(x: bv64)
    ensures FromLe64(Le64(x)) == x
  {
    var b := Le64(x);
    var lo, hi := (x & 0xFFFF_FFFF) as bv32, ((x >> 32) & 0xFFFF_FFFF) as bv32;
    assert b[..4] == Le32(lo) && b[4..] == Le32(hi);
    Le32RoundTrip(lo);
    Le32RoundTrip(hi);
  }

  /** Chunk `i` of five 8-byte chunks laid out back to back is the `i`-th of them. */
  lemma ChunkOfConcat(b0: seq<bv8>, b1: seq<bv8>, b2: seq<bv8>, b3: seq<bv8>, b4: seq<bv8>, i: nat)
    requires |b0| == |b1| == |b2| == |b3| == |b4| == 8 && i < 5
    ensures (b0 + b1 + b2 + b3 + b4)[8 * i .. 8 * i + 8] == [b0, b1, b2, b3, b4][i]
  {
    var b := b0 + b1 + b2 + b3 + b4;
    var c := [b0, b1, b2, b3, b4][i];
    forall k | 0 <= k < 8
      ensures b[8 * i + k] == c[k]
    {
    }
  }
}
