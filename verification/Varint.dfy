/** The scalar encodings of the Protocol Buffers wire format: "Base 128 Varints" and the
    little-endian fixed-width integers. */
module Varint {
  import opened Basics

  /** A 64-bit varint never takes more bytes than this; a longer run is malformed. */
  const MAX_BYTES: nat := 10

  function Encode(n: nat): (s: Bytes)
    ensures |s| > 0
  {
    if n < 128 then [n] else [n % 128 + 128] + Encode(n / 128)
  }

  /** Reads base-128 digits, least significant first, until one has no continuation bit;
      `used` bytes of the varint have been consumed already. */
  function Digits(s: Bytes, used: nat): (r: Read<nat>)
    ensures r.Got? ==> |r.rest| < |s|
    decreases |s|
  {
    if used >= MAX_BYTES || s == [] then Fail
    else if s[0] < 128 then Got(s[0], s[1..])
    else match Digits(s[1..], used + 1)
      case Fail => Fail
      case Got(v, rest) => Got(s[0] - 128 + 128 * v, rest)
  }

  /** ReadVarint64: bits beyond the 64th are dropped. */
  function Decode(s: Bytes): (r: Read<uint64>)
    ensures r.Got? ==> |r.rest| < |s|
  {
    match Digits(s, 0)
    case Fail => Fail
    case Got(v, rest) => Got(v % TWO_64, rest)
  }

  /** ReadVarint32: bits beyond the 32nd are dropped. */
  function Decode32(s: Bytes): (r: Read<uint32>)
    ensures r.Got? ==> |r.rest| < |s|
  {
    match Digits(s, 0)
    case Fail => Fail
    case Got(v, rest) => Got(v % TWO_32, rest)
  }

  function Pow128(k: nat): (p: nat)
    ensures p > 0
  {
    if k == 0 then 1 else 128 * Pow128(k - 1)
  }

  lemma {:induction false} DigitsOfEncode(n: nat, rest: Bytes, used: nat)
    requires used < MAX_BYTES && n < Pow128(MAX_BYTES - used)
    ensures Digits(Encode(n) + rest, used) == Got(n, rest)
    decreases n
  {
    if n < 128 {
      assert ([n] + rest)[1..] == rest;
    } else {
      assert Pow128(0) == 1 && used + 1 < MAX_BYTES;
      DigitsOfEncode(n / 128, rest, used + 1);
      var s := [n % 128 + 128] + Encode(n / 128);
      assert (s + rest)[1..] == Encode(n / 128) + rest;
    }
  }

  lemma TenDigitsHold64Bits()
    ensures TWO_64 < Pow128(MAX_BYTES)
  {
    assert Pow128(5) == 128 * 128 * 128 * 128 * 128;
    assert Pow128(10) == 128 * 128 * 128 * 128 * 128 * Pow128(5);
  }

  lemma DigitsOfSmall(n: nat, rest: Bytes)
    requires n < TWO_64
    ensures Digits(Encode(n) + rest, 0) == Got(n, rest)
  {
    TenDigitsHold64Bits();
    assert n < Pow128(MAX_BYTES - 0);
    hide Pow128, Encode, Digits;
    DigitsOfEncode(n, rest, 0);
  }

  /** Every 64-bit value is recovered from its varint, whatever follows it. */
  lemma RoundTrip(n: uint64, rest: Bytes)
    ensures Decode(Encode(n) + rest) == Got(n, rest)
  {
    hide Encode, Digits;
    DigitsOfSmall(n, rest);
  }

  lemma RoundTrip32(n: uint32, rest: Bytes)
    ensures Decode32(Encode(n) + rest) == Got(n, rest)
  {
    hide Encode, Digits;
    DigitsOfSmall(n, rest);
  }

  lemma {:induction false} DigitsExtend(s: Bytes, t: Bytes, used: nat)
    requires Digits(s, used).Got?
    ensures Digits(s + t, used) == Got(Digits(s, used).value, Digits(s, used).rest + t)
    decreases |s|
  {
    assert (s + t)[1..] == s[1..] + t;
    if s[0] >= 128 {
      DigitsExtend(s[1..], t, used + 1);
    }
  }

  /** VarintSize64: the length by comparison with powers of 128, not by encoding. */
  function Size(n: nat): nat {
    if n < 0x80 then 1
    else if n < 0x4000 then 2
    else if n < 0x20_0000 then 3
    else if n < 0x1000_0000 then 4
    else if n < 0x8_0000_0000 then 5
    else if n < 0x400_0000_0000 then 6
    else if n < 0x2_0000_0000_0000 then 7
    else if n < 0x100_0000_0000_0000 then 8
    else if n < 0x8000_0000_0000_0000 then 9
    else 10
  }

  lemma SizeStep(n: nat)
    requires 128 <= n < TWO_64
    ensures Size(n) == 1 + Size(n / 128)
  {
  }

  lemma {:induction false} SizeIsLength(n: uint64)
    ensures |Encode(n)| == Size(n)
  {
    if n >= 128 {
      SizeStep(n);
      SizeIsLength(n / 128);
    }
  }

  /** Little-endian fixed-width integers of `k` bytes. */
  function EncodeFixed(n: nat, k: nat): (s: Bytes)
    ensures |s| == k
  {
    if k == 0 then [] else [n % 256] + EncodeFixed(n / 256, k - 1)
  }

  function DecodeFixed(s: Bytes, k: nat): (r: Read<nat>)
    ensures r.Got? ==> |s| == k + |r.rest| && r.value < Pow256(k)
  {
    if |s| < k then Fail
    else if k == 0 then Got(0, s)
    else
      var r := DecodeFixed(s[1..], k - 1);
      Got(s[0] + 256 * r.value, r.rest)
  }

  function Pow256(k: nat): (p: nat)
    ensures p > 0
  {
    if k == 0 then 1 else 256 * Pow256(k - 1)
  }

  lemma {:induction false} FixedRoundTrip(n: nat, k: nat, rest: Bytes)
    requires n < Pow256(k)
    ensures DecodeFixed(EncodeFixed(n, k) + rest, k) == Got(n, rest)
  {
    if k > 0 {
      FixedRoundTrip(n / 256, k - 1, rest);
      assert (EncodeFixed(n, k) + rest)[1..] == EncodeFixed(n / 256, k - 1) + rest;
    } else {
      assert EncodeFixed(n, k) + rest == rest;
    }
  }

  lemma {:induction false} FixedExtend(s: Bytes, t: Bytes, k: nat)
    requires DecodeFixed(s, k).Got?
    ensures DecodeFixed(s + t, k) == Got(DecodeFixed(s, k).value, DecodeFixed(s, k).rest + t)
    decreases k
  {
    if k > 0 {
      assert (s + t)[1..] == s[1..] + t;
      FixedExtend(s[1..], t, k - 1);
    }
  }

  // ---- What the bytes mean ----

  /** All bytes but the last have the continuation bit. */
  predicate IsVarint(d: Bytes) {
    |d| > 0 && d[|d| - 1] < 128 && forall i | 0 <= i < |d| - 1 :: d[i] >= 128
  }

  /** The low seven bits of each byte, the `i`-th weighing 128^i. */
  function Value(d: Bytes): nat {
    if d == [] then 0 else Value(d[..|d| - 1]) + d[|d| - 1] % 128 * Pow128(|d| - 1)
  }

  lemma Regroup(b: nat, a: nat, c: nat, p: nat)
    ensures b + 128 * (a + c * p) == b + 128 * a + c * (128 * p)
  {
  }

  lemma {:induction false} ValueFront(d: Bytes)
    requires |d| > 0
    ensures Value(d) == d[0] % 128 + 128 * Value(d[1..])
    decreases |d|
  {
    if |d| == 1 {
      assert d[..0] == [] && d[1..] == [];
    } else {
      var tail := d[1..];
      assert d[..|d| - 1][1..] == tail[..|tail| - 1];
      ValueFront(d[..|d| - 1]);
      Regroup(d[0] % 128, Value(tail[..|tail| - 1]), d[|d| - 1] % 128, Pow128(|tail| - 1));
    }
  }

  lemma {:induction false} DigitsMean(d: Bytes, rest: Bytes, used: nat)
    requires IsVarint(d) && used + |d| <= 10
    ensures Digits(d + rest, used) == Got(Value(d), rest)
    decreases |d|
  {
    ValueFront(d);
    assert (d + rest)[1..] == d[1..] + rest;
    if |d| == 1 {
      assert d[1..] == [] && [] + rest == rest;
    } else {
      DigitsMean(d[1..], rest, used + 1);
    }
  }

  lemma {:induction false} DigitsFound(s: Bytes, used: nat) returns (k: nat)
    requires Digits(s, used).Got?
    ensures k <= |s| && used + k <= 10 && IsVarint(s[..k])
    decreases |s|
  {
    if s[0] < 128 {
      k := 1;
    } else {
      k := DigitsFound(s[1..], used + 1);
      k := k + 1;
      assert s[..k] == [s[0]] + s[1..][..k - 1];
    }
  }

  /** A varint is read exactly where the input begins with at most ten bytes of which the last is the
      first without a continuation bit; its value, modulo 2^64, is that of its digits. */
  lemma DecodeMeans(s: Bytes)
    ensures Decode(s).Got? <==> exists k | 0 <= k <= |s| :: k <= 10 && IsVarint(s[..k])
    ensures forall k | 0 <= k <= |s| && k <= 10 && IsVarint(s[..k]) ::
              && Decode(s) == Got(Value(s[..k]) % TWO_64, s[k..])
              && Decode32(s) == Got(Value(s[..k]) % TWO_32, s[k..])
  {
    forall k | 0 <= k <= |s| && k <= 10 && IsVarint(s[..k])
      ensures Digits(s, 0) == Got(Value(s[..k]), s[k..])
    {
      DigitsMean(s[..k], s[k..], 0);
      assert s == s[..k] + s[k..];
    }
    if Decode(s).Got? {
      var k := DigitsFound(s, 0);
      assert k <= |s| && IsVarint(s[..k]);
    }
  }

  /** And a number is written as such bytes. */
  lemma {:induction false} EncodeMeans(n: nat)
    ensures IsVarint(Encode(n)) && Value(Encode(n)) == n
  {
    var s := Encode(n);
    ValueFront(s);
    if n < 128 {
      assert s[1..] == [];
    } else {
      EncodeMeans(n / 128);
      assert s[1..] == Encode(n / 128);
    }
  }

  /** The bytes of a little-endian integer, the `i`-th weighing 256^i. */
  function FixedValue(s: Bytes): nat {
    if s == [] then 0 else FixedValue(s[..|s| - 1]) + s[|s| - 1] * Pow256(|s| - 1)
  }

  lemma RegroupFixed(b: nat, a: nat, c: nat, p: nat)
    ensures b + 256 * (a + c * p) == b + 256 * a + c * (256 * p)
  {
  }

  lemma {:induction false} FixedValueFront(s: Bytes)
    requires |s| > 0
    ensures FixedValue(s) == s[0] + 256 * FixedValue(s[1..])
    decreases |s|
  {
    if |s| == 1 {
      assert s[..0] == [] && s[1..] == [];
    } else {
      var tail := s[1..];
      assert s[..|s| - 1][1..] == tail[..|tail| - 1];
      FixedValueFront(s[..|s| - 1]);
      RegroupFixed(s[0], FixedValue(tail[..|tail| - 1]), s[|s| - 1], Pow256(|tail| - 1));
    }
  }

  /** A fixed-width integer is read exactly where there are bytes enough, least significant first. */
  lemma {:induction false} DecodeFixedMeans(s: Bytes, k: nat)
    ensures DecodeFixed(s, k) == if k <= |s| then Got(FixedValue(s[..k]), s[k..]) else Fail
    decreases k
  {
    if 0 < k <= |s| {
      DecodeFixedMeans(s[1..], k - 1);
      FixedValueFront(s[..k]);
      assert s[..k][1..] == s[1..][..k - 1] && s[1..][k - 1..] == s[k..];
    }
  }
}
