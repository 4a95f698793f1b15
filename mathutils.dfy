/** `clamp` and `EPSILON` (utils/math.h). */
module MathUtils {

  /** `math::EPSILON` (the float literal 0.0001f, taken as the exact decimal). */
  const EPSILON: real := 0.0001

  function Abs(x: real): real { if x < 0.0 then -x else x }

  /** `math::clamp(value, min, max)`: below `min` gives `min`, above `max` gives
      `max`, anything else is returned unchanged. */
  function Clamp(value: real, min: real, max: real): (r: real)
    ensures min <= max ==> min <= r <= max
    ensures min <= value <= max ==> r == value
    ensures value < min ==> r == min
    ensures max < value && min <= value ==> r == max
  {
    if value < min then min else if value > max then max else value
  }

  /** Clamping twice is clamping once. */
  lemma ClampIdempotent(value: real, lo: real, hi: real)
    requires lo <= hi
    ensures Clamp(Clamp(value, lo, hi), lo, hi) == Clamp(value, lo, hi)
  {
  }
}

/** Bit-level facts about `bv32` words. Each is stated with bitwise
    hypotheses and at most one comparison, so that it is proved on its own. */
module Bits32 {

  predicate IsPowerOf2U32(x: bv32) { x != 0 && x & (x - 1) == 0 }

  /** A low mask: a run of ones from bit 0 up (possibly empty). */
  predicate IsLowMask32(s: bv32) { (s >> 1) & !s == 0 }

  /** The highest set bit of a low mask (0 for the empty mask). */
  function TopBit32(s: bv32): bv32 { s ^ (s >> 1) }

  lemma LowMaskSuccessor32(s: bv32)
    requires IsLowMask32(s) && s != 0xFFFF_FFFF
    ensures IsPowerOf2U32(s + 1)
    ensures (s + 1) >> 1 == TopBit32(s)
  {
  }

  lemma LowMaskWithTopBit32(s: bv32)
    requires IsLowMask32(s) && s & 0x8000_0000 != 0
    ensures s == 0xFFFF_FFFF
  {
  }

  lemma LowMaskBelowTop32(v: bv32, s: bv32)
    requires IsLowMask32(s)
    requires TopBit32(s) & !v == 0
    requires v < 0x8000_0000
    ensures s & 0x8000_0000 == 0
  {
  }

  lemma AboveTop32(value: bv32)
    requires value == 0 || value > 0x8000_0000
    ensures (value - 1) & 0x8000_0000 != 0
  {
  }

  /** A power of two is a low mask plus one, and fits in the range. */
  lemma PowerOf2Shape32(p: bv32)
    requires IsPowerOf2U32(p)
    ensures IsLowMask32(p - 1)
    ensures (p >> 1) & !(p - 1) == 0
    ensures 1 <= p <= 0x8000_0000
  {
  }

  /** `value - 1` fits below the power of two `r` exactly when `value <= r`. */
  lemma FitsBelow32(value: bv32, r: bv32)
    requires IsPowerOf2U32(r) && value != 0
    requires (value - 1) & !(r - 1) == 0
    ensures value <= r
  {
  }

  /** A word whose bits all lie in `b` is at most `b`. */
  lemma SubsetBelow32(a: bv32, b: bv32)
    requires a & !b == 0
    ensures a <= b
  {
  }

  /** Decrementing a nonzero word does not wrap. */
  lemma DecrementBelow32(v: bv32)
    requires v != 0
    ensures v - 1 < v
  {
  }

  /** `value - 1` holds half of the power of two `r`, so that half is below `value`. */
  lemma HalfBelow32(value: bv32, r: bv32)
    requires IsPowerOf2U32(r) && value != 0
    requires (r >> 1) & !(value - 1) == 0
    ensures r >> 1 < value
  {
    SubsetBelow32(r >> 1, value - 1);
    DecrementBelow32(value);
  }

  /** Two powers of two that both bracket `value - 1` this way are equal. */
  lemma BracketUnique32(value: bv32, p: bv32, q: bv32)
    requires IsPowerOf2U32(p) && IsPowerOf2U32(q)
    requires (value - 1) & !(p - 1) == 0 && (p >> 1) & !(value - 1) == 0
    requires (value - 1) & !(q - 1) == 0 && (q >> 1) & !(value - 1) == 0
    ensures p == q
  {
  }
}

/** `nextPowerOf2<uint32_t>` (utils/math.cpp). `uint32_t` is `bv32`, so the
    decrement of 0 and the increment of the all-ones word wrap around as in C++. */
module PowerOf2U32 {

  import opened Bits32

  /** The five `value |= value >> k` steps of `nextPowerOf2<uint32_t>`. */
  function Smear32(v0: bv32): bv32
  {
    var v1 := v0 | (v0 >> 1);
    var v2 := v1 | (v1 >> 2);
    var v3 := v2 | (v2 >> 4);
    var v4 := v3 | (v3 >> 8);
    v4 | (v4 >> 16)
  }

  /** `nextPowerOf2<uint32_t>`: decrement (wrapping), smear, increment (wrapping). */
  function NextPowerOf2U32(value: bv32): bv32
  {
    Smear32(value - 1) + 1
  }

  /** What rounding `value` up to a power of two means on 32 bits. On
      1..2^31 the result `r` is a power of two such that `value - 1` has
      no bit at or above `r` and has the bit of `r / 2`: that is,
      `r / 2 < value <= r` (see `RoundsUpToBounds32`). 0 and everything above
      2^31 give 0. */
  predicate RoundsUpTo32(value: bv32, r: bv32)
  {
    && (1 <= value <= 0x8000_0000 ==>
          && IsPowerOf2U32(r)
          && (value - 1) & !(r - 1) == 0
          && (r >> 1) & !(value - 1) == 0)
    && (value == 0 ==> r == 0)
    && (value > 0x8000_0000 ==> r == 0)
  }

  /** In range, the bitwise characterisation is the arithmetic one. */
  lemma RoundsUpToBounds32(value: bv32, r: bv32)
    requires RoundsUpTo32(value, r) && 1 <= value <= 0x8000_0000
    ensures IsPowerOf2U32(r) && r >> 1 < value && value <= r
  {
    FitsBelow32(value, r);
    HalfBelow32(value, r);
  }

  /** `s` is `v` with every bit below its highest set bit set as well: it
      holds `v`, it is a low mask, and its top bit is in `v`. */
  predicate SmearedFrom32(v: bv32, s: bv32)
  {
    && v & !s == 0
    && IsLowMask32(s)
    && TopBit32(s) & !v == 0
  }

  lemma SmearKeepsBits32(v: bv32)
    ensures v & !Smear32(v) == 0
  {
  }

  lemma SmearIsLowMask32(v: bv32)
    ensures IsLowMask32(Smear32(v))
  {
  }

  /** The top bit of the smear is already in `v`: given that the smear
      holds `v` and is a low mask, its top bit cannot lie above `v`'s. */
  lemma SmearKeepsTopBit32(v: bv32)
    ensures TopBit32(Smear32(v)) & !v == 0
  {
    SmearKeepsBits32(v);
    SmearIsLowMask32(v);
  }

  /** The smear fills in exactly the bits below the highest set bit. */
  lemma SmearFacts32(v: bv32)
    ensures SmearedFrom32(v, Smear32(v))
  {
    SmearKeepsBits32(v);
    SmearIsLowMask32(v);
    SmearKeepsTopBit32(v);
  }

  lemma RoundUpInRange32(value: bv32, s: bv32)
    requires SmearedFrom32(value - 1, s)
    requires 1 <= value <= 0x8000_0000
    ensures IsPowerOf2U32(s + 1)
    ensures (value - 1) & !((s + 1) - 1) == 0
    ensures ((s + 1) >> 1) & !(value - 1) == 0
  {
    LowMaskBelowTop32(value - 1, s);
    LowMaskSuccessor32(s);
  }

  lemma RoundUpWraps32(value: bv32, s: bv32)
    requires SmearedFrom32(value - 1, s)
    requires value == 0 || value > 0x8000_0000
    ensures s + 1 == 0
  {
    AboveTop32(value);
    LowMaskWithTopBit32(s);
  }

  /** Incrementing the smear of `value - 1` rounds `value` up. */
  lemma RoundUp32(value: bv32, s: bv32)
    requires SmearedFrom32(value - 1, s)
    ensures RoundsUpTo32(value, s + 1)
  {
    if 1 <= value <= 0x8000_0000 {
      RoundUpInRange32(value, s);
    } else {
      RoundUpWraps32(value, s);
    }
  }

  /** `nextPowerOf2<uint32_t>` rounds up to a power of two, or wraps to 0. */
  lemma NextPowerOf2U32RoundsUp(value: bv32)
    ensures RoundsUpTo32(value, NextPowerOf2U32(value))
  {
    var s := Smear32(value - 1);
    SmearFacts32(value - 1);
    RoundUp32(value, s);
  }

  /** At most one result rounds a given value up. */
  lemma RoundsUpUnique32(value: bv32, r1: bv32, r2: bv32)
    requires RoundsUpTo32(value, r1) && RoundsUpTo32(value, r2)
    ensures r1 == r2
  {
    if 1 <= value <= 0x8000_0000 {
      BracketUnique32(value, r1, r2);
    }
  }

  /** A power of two is its own next power of two. */
  lemma PowerOf2Fixed32(p: bv32)
    requires IsPowerOf2U32(p)
    ensures NextPowerOf2U32(p) == p
  {
    PowerOf2Shape32(p);
    NextPowerOf2U32RoundsUp(p);
    RoundsUpUnique32(p, p, NextPowerOf2U32(p));
  }

  /** Rounding up is idempotent on every input, the wrapped ones included. */
  lemma NextPowerOf2Idempotent32(value: bv32)
    ensures NextPowerOf2U32(NextPowerOf2U32(value)) == NextPowerOf2U32(value)
  {
    NextPowerOf2U32RoundsUp(value);
    var r := NextPowerOf2U32(value);
    if r != 0 {
      if 1 <= value <= 0x8000_0000 {
        PowerOf2Fixed32(r);
      }
    } else {
      NextPowerOf2U32RoundsUp(0);
    }
  }
}

/** Bit-level facts about `bv64` words. Each is stated with bitwise
    hypotheses and at most one comparison, so that it is proved on its own. */
module Bits64 {

  predicate IsPowerOf2U64(x: bv64) { x != 0 && x & (x - 1) == 0 }

  /** A low mask: a run of ones from bit 0 up (possibly empty). */
  predicate IsLowMask64(s: bv64) { (s >> 1) & !s == 0 }

  /** The highest set bit of a low mask (0 for the empty mask). */
  function TopBit64(s: bv64): bv64 { s ^ (s >> 1) }

  lemma LowMaskSuccessor64(s: bv64)
    requires IsLowMask64(s) && s != 0xFFFF_FFFF_FFFF_FFFF
    ensures IsPowerOf2U64(s + 1)
    ensures (s + 1) >> 1 == TopBit64(s)
  {
  }

  lemma LowMaskWithTopBit64(s: bv64)
    requires IsLowMask64(s) && s & 0x8000_0000_0000_0000 != 0
    ensures s == 0xFFFF_FFFF_FFFF_FFFF
  {
  }

  lemma LowMaskBelowTop64(v: bv64, s: bv64)
    requires IsLowMask64(s)
    requires TopBit64(s) & !v == 0
    requires v < 0x8000_0000_0000_0000
    ensures s & 0x8000_0000_0000_0000 == 0
  {
  }

  lemma AboveTop64(value: bv64)
    requires value == 0 || value > 0x8000_0000_0000_0000
    ensures (value - 1) & 0x8000_0000_0000_0000 != 0
  {
  }

  /** A power of two is a low mask plus one, and fits in the range. */
  lemma PowerOf2Shape64(p: bv64)
    requires IsPowerOf2U64(p)
    ensures IsLowMask64(p - 1)
    ensures (p >> 1) & !(p - 1) == 0
    ensures 1 <= p <= 0x8000_0000_0000_0000
  {
  }

  /** `value - 1` fits below the power of two `r` exactly when `value <= r`. */
  lemma FitsBelow64(value: bv64, r: bv64)
    requires IsPowerOf2U64(r) && value != 0
    requires (value - 1) & !(r - 1) == 0
    ensures value <= r
  {
  }

  /** A word whose bits all lie in `b` is at most `b`. */
  lemma SubsetBelow64(a: bv64, b: bv64)
    requires a & !b == 0
    ensures a <= b
  {
  }

  /** Decrementing a nonzero word does not wrap. */
  lemma DecrementBelow64(v: bv64)
    requires v != 0
    ensures v - 1 < v
  {
  }

  /** `value - 1` holds half of the power of two `r`, so that half is below `value`. */
  lemma HalfBelow64(value: bv64, r: bv64)
    requires IsPowerOf2U64(r) && value != 0
    requires (r >> 1) & !(value - 1) == 0
    ensures r >> 1 < value
  {
    SubsetBelow64(r >> 1, value - 1);
    DecrementBelow64(value);
  }

  /** Two powers of two that both bracket `value - 1` this way are equal. */
  lemma BracketUnique64(value: bv64, p: bv64, q: bv64)
    requires IsPowerOf2U64(p) && IsPowerOf2U64(q)
    requires (value - 1) & !(p - 1) == 0 && (p >> 1) & !(value - 1) == 0
    requires (value - 1) & !(q - 1) == 0 && (q >> 1) & !(value - 1) == 0
    ensures p == q
  {
  }
}

/** `nextPowerOf2<uint64_t>` (utils/math.cpp). `uint64_t` is `bv64`, so the
    decrement of 0 and the increment of the all-ones word wrap around as in C++. */
module PowerOf2U64 {

  import opened Bits64

  /** The six `value |= value >> k` steps of `nextPowerOf2<uint64_t>`. */
  function Smear64(v0: bv64): bv64
  {
    var v1 := v0 | (v0 >> 1);
    var v2 := v1 | (v1 >> 2);
    var v3 := v2 | (v2 >> 4);
    var v4 := v3 | (v3 >> 8);
    var v5 := v4 | (v4 >> 16);
    v5 | (v5 >> 32)
  }

  /** `nextPowerOf2<uint64_t>`: decrement (wrapping), smear, increment (wrapping). */
  function NextPowerOf2U64(value: bv64): bv64
  {
    Smear64(value - 1) + 1
  }

  /** What rounding `value` up to a power of two means on 64 bits. On
      1..2^63 the result `r` is a power of two such that `value - 1` has
      no bit at or above `r` and has the bit of `r / 2`: that is,
      `r / 2 < value <= r` (see `RoundsUpToBounds64`). 0 and everything above
      2^63 give 0. */
  predicate RoundsUpTo64(value: bv64, r: bv64)
  {
    && (1 <= value <= 0x8000_0000_0000_0000 ==>
          && IsPowerOf2U64(r)
          && (value - 1) & !(r - 1) == 0
          && (r >> 1) & !(value - 1) == 0)
    && (value == 0 ==> r == 0)
    && (value > 0x8000_0000_0000_0000 ==> r == 0)
  }

  /** In range, the bitwise characterisation is the arithmetic one. */
  lemma RoundsUpToBounds64(value: bv64, r: bv64)
    requires RoundsUpTo64(value, r) && 1 <= value <= 0x8000_0000_0000_0000
    ensures IsPowerOf2U64(r) && r >> 1 < value && value <= r
  {
    FitsBelow64(value, r);
    HalfBelow64(value, r);
  }

  /** `s` is `v` with every bit below its highest set bit set as well: it
      holds `v`, it is a low mask, and its top bit is in `v`. */
  predicate SmearedFrom64(v: bv64, s: bv64)
  {
    && v & !s == 0
    && IsLowMask64(s)
    && TopBit64(s) & !v == 0
  }

  lemma SmearKeepsBits64(v: bv64)
    ensures v & !Smear64(v) == 0
  {
  }

  lemma SmearIsLowMask64(v: bv64)
    ensures IsLowMask64(Smear64(v))
  {
  }

  /** The top bit of the smear is already in `v`: given that the smear
      holds `v` and is a low mask, its top bit cannot lie above `v`'s. */
  lemma SmearKeepsTopBit64(v: bv64)
    ensures TopBit64(Smear64(v)) & !v == 0
  {
    SmearKeepsBits64(v);
    SmearIsLowMask64(v);
  }

  /** The smear fills in exactly the bits below the highest set bit. */
  lemma SmearFacts64(v: bv64)
    ensures SmearedFrom64(v, Smear64(v))
  {
    SmearKeepsBits64(v);
    SmearIsLowMask64(v);
    SmearKeepsTopBit64(v);
  }

  lemma RoundUpInRange64(value: bv64, s: bv64)
    requires SmearedFrom64(value - 1, s)
    requires 1 <= value <= 0x8000_0000_0000_0000
    ensures IsPowerOf2U64(s + 1)
    ensures (value - 1) & !((s + 1) - 1) == 0
    ensures ((s + 1) >> 1) & !(value - 1) == 0
  {
    LowMaskBelowTop64(value - 1, s);
    LowMaskSuccessor64(s);
  }

  lemma RoundUpWraps64(value: bv64, s: bv64)
    requires SmearedFrom64(value - 1, s)
    requires value == 0 || value > 0x8000_0000_0000_0000
    ensures s + 1 == 0
  {
    AboveTop64(value);
    LowMaskWithTopBit64(s);
  }

  /** Incrementing the smear of `value - 1` rounds `value` up. */
  lemma RoundUp64(value: bv64, s: bv64)
    requires SmearedFrom64(value - 1, s)
    ensures RoundsUpTo64(value, s + 1)
  {
    if 1 <= value <= 0x8000_0000_0000_0000 {
      RoundUpInRange64(value, s);
    } else {
      RoundUpWraps64(value, s);
    }
  }

  /** `nextPowerOf2<uint64_t>` rounds up to a power of two, or wraps to 0. */
  lemma NextPowerOf2U64RoundsUp(value: bv64)
    ensures RoundsUpTo64(value, NextPowerOf2U64(value))
  {
    var s := Smear64(value - 1);
    SmearFacts64(value - 1);
    RoundUp64(value, s);
  }

  /** At most one result rounds a given value up. */
  lemma RoundsUpUnique64(value: bv64, r1: bv64, r2: bv64)
    requires RoundsUpTo64(value, r1) && RoundsUpTo64(value, r2)
    ensures r1 == r2
  {
    if 1 <= value <= 0x8000_0000_0000_0000 {
      BracketUnique64(value, r1, r2);
    }
  }

  /** A power of two is its own next power of two. */
  lemma PowerOf2Fixed64(p: bv64)
    requires IsPowerOf2U64(p)
    ensures NextPowerOf2U64(p) == p
  {
    PowerOf2Shape64(p);
    NextPowerOf2U64RoundsUp(p);
    RoundsUpUnique64(p, p, NextPowerOf2U64(p));
  }

  /** Rounding up is idempotent on every input, the wrapped ones included. */
  lemma NextPowerOf2Idempotent64(value: bv64)
    ensures NextPowerOf2U64(NextPowerOf2U64(value)) == NextPowerOf2U64(value)
  {
    NextPowerOf2U64RoundsUp(value);
    var r := NextPowerOf2U64(value);
    if r != 0 {
      if 1 <= value <= 0x8000_0000_0000_0000 {
        PowerOf2Fixed64(r);
      }
    } else {
      NextPowerOf2U64RoundsUp(0);
    }
  }
}

