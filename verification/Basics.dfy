/** Values shared by every part of the model: optional values, bytes and the 64-bit
    two's complement integers of `int64_t`. */
module Basics {

  datatype Option<+T> = None | Some(value: T)

  /** The outcome of reading a `T` off the front of a byte string. */
  datatype Read<+T> = Fail | Got(value: T, rest: Bytes)

  type byte = b: int | 0 <= b < 256
  type Bytes = seq<byte>

  const TWO_31: int := 0x8000_0000
  const TWO_32: int := 0x1_0000_0000
  const TWO_63: int := 0x8000_0000_0000_0000
  const TWO_64: int := 0x1_0000_0000_0000_0000

  type int64 = x: int | -TWO_63 <= x < TWO_63
  type uint64 = x: int | 0 <= x < TWO_64
  type uint32 = x: int | 0 <= x < TWO_32

  /** The `uint64_t` with the same 64 bits. */
  function ToUnsigned(x: int64): uint64 {
    if x < 0 then x + TWO_64 else x
  }

  /** The `int64_t` with the same 64 bits. */
  function ToSigned(u: uint64): int64 {
    if u < TWO_63 then u else u - TWO_64
  }

  /** The `int64_t` congruent to `x` modulo 2^64: what wrapping arithmetic leaves in a register. */
  function Wrap64(x: int): int64 {
    ToSigned(x % TWO_64)
  }

  lemma SignedRoundTrip(x: int64)
    ensures ToSigned(ToUnsigned(x)) == x
  {
  }

  /** Wrapping early or late makes no difference to a sum. */
  lemma WrapAdd(x: int, y: int)
    ensures Wrap64(Wrap64(x) + y) == Wrap64(x + y)
  {
    var q := x / TWO_64;
    assert x == q * TWO_64 + x % TWO_64;
    if x % TWO_64 < TWO_63 {
      assert x + y == Wrap64(x) + y + q * TWO_64;
      ModShift(Wrap64(x) + y, q);
    } else {
      assert x + y == Wrap64(x) + y + (q + 1) * TWO_64;
      ModShift(Wrap64(x) + y, q + 1);
    }
  }

  lemma ModShift(x: int, q: int)
    ensures (x + q * TWO_64) % TWO_64 == x % TWO_64
  {
    var d := (x + q * TWO_64) / TWO_64 - x / TWO_64 - q;
    assert (x + q * TWO_64) % TWO_64 - x % TWO_64 == -d * TWO_64;
  }

  lemma WrapSmall(x: int)
    requires -TWO_63 <= x < TWO_63
    ensures Wrap64(x) == x
  {
    if x < 0 {
      ModShift(x, 1);
    }
  }

  /** What is left in the register differs from the number by a multiple of 2^64. */
  lemma WrapMeans(x: int)
    ensures (Wrap64(x) - x) % TWO_64 == 0
  {
    var q := x / TWO_64;
    assert x == q * TWO_64 + x % TWO_64;
    if x % TWO_64 < TWO_63 {
      assert Wrap64(x) - x == -q * TWO_64;
      ModShift(0, -q);
    } else {
      assert Wrap64(x) - x == -(q + 1) * TWO_64;
      ModShift(0, -(q + 1));
    }
  }
}
