/** The hand-written conversions between binary16 and binary32, and the average of binary16 gradients.
    Bit patterns are integers; a finite number is an integer multiple of the smallest binary32 step, 2^-149. */
module HalfPrecision {
  function Pow2(n: nat): (p: nat)
    ensures p > 0
  {
    if n == 0 then 1 else 2 * Pow2(n - 1)
  }

  lemma {:induction false} Pow2Plus(m: nat, n: nat)
    ensures Pow2(m + n) == Pow2(m) * Pow2(n)
    decreases n
  {
    if n > 0 {
      Pow2Plus(m, n - 1);
    }
  }

  function Mul(a: nat, b: nat): nat {
    TimesMonotone(0, a, b);
    a * b
  }

  // ---------- bit patterns ----------

  type Bits32 = b: nat | b < 0x1_0000_0000
  type Bits16 = b: nat | b < 0x1_0000

  function Negative32(b: Bits32): bool { b >= 0x8000_0000 }
  function Exponent32(b: Bits32): nat { (b / 0x80_0000) % 256 }
  function Fraction32(b: Bits32): nat { b % 0x80_0000 }
  predicate Finite32(b: Bits32) { Exponent32(b) < 255 }

  function Negative16(b: Bits16): bool { b >= 0x8000 }
  function Exponent16(b: Bits16): nat { (b / 0x400) % 32 }
  function Fraction16(b: Bits16): nat { b % 0x400 }
  predicate Finite16(b: Bits16) { Exponent16(b) < 31 }
  predicate NaN16(b: Bits16) { Exponent16(b) == 31 && Fraction16(b) != 0 }
  function Magnitude16(b: Bits16): (h: nat) ensures h < 0x8000 { b % 0x8000 }

  const INFINITY: nat := 0x7c00
  const NAN: nat := 0x7e00

  /** The magnitude of a binary32 number with these fields. */
  function Size32(e: nat, f: nat): nat {
    if e == 0 then f else Mul(0x80_0000 + f, Pow2(e - 1))
  }

  /** The magnitude of the binary16 number with code h; infinity is read as the next value after the largest. */
  function Size16(h: nat): nat {
    var e, f := h / 0x400, h % 0x400;
    if e == 0 then Mul(f, Pow2(125)) else Mul(0x400 + f, Pow2(e + 124))
  }

  function Value32(b: Bits32): int {
    var size: int := Size32(Exponent32(b), Fraction32(b));
    if Negative32(b) then -size else size
  }

  function Value16(b: Bits16): int {
    var size: int := Size16(Magnitude16(b));
    if Negative16(b) then -size else size
  }

  // ---------- float32ToFloat16 ----------

  /** Half of the last bit is added before the bits below it are shifted out. */
  function ShiftedRight(g: nat, shift: nat): (h: nat)
    requires g < 0x100_0000 && shift >= 14
    ensures h <= 0x400
  {
    SubnormalSmall(g, shift);
    Shr(g + Pow2(shift - 1), shift)
  }

  function Shr(a: nat, n: nat): nat {
    if n == 0 then a else Shr(a / 2, n - 1)
  }

  /** Shifting right by n is the integer quotient by 2^n. */
  lemma {:induction false} ShrIs(a: nat, n: nat)
    ensures Shr(a, n) * Pow2(n) <= a < (Shr(a, n) + 1) * Pow2(n)
  {
    if n > 0 {
      ShrIs(a / 2, n - 1);
      HalfStep(a, Shr(a / 2, n - 1), Pow2(n - 1));
    }
  }

  lemma HalfStep(a: nat, q: nat, p: nat)
    requires q * p <= a / 2 < (q + 1) * p
    ensures q * (2 * p) <= a < (q + 1) * (2 * p)
  {
    Twice(q, p);
    Twice(q + 1, p);
  }

  lemma Twice(q: int, p: int)
    ensures q * (2 * p) == 2 * (q * p)
  {
  }

  /** The code of the magnitude that float32ToFloat16 returns for these fields. */
  function Narrowed(exponent: nat, fraction: nat): (h: nat)
    requires exponent < 256 && fraction < 0x80_0000
    ensures h <= NAN
  {
    if exponent == 255 then (if fraction == 0 then INFINITY else NAN)
    else
      var exponent16: int := exponent - 127 + 15;
      if exponent16 >= 31 then INFINITY
      else if exponent16 <= 0 then
        if exponent16 < -10 then 0
        else
          ShiftedRight(0x80_0000 + fraction, 14 - exponent16)
      else
        var rounded := fraction + 0x1000;
        if rounded >= 0x80_0000 then
          (if exponent16 + 1 >= 31 then INFINITY else (exponent16 + 1) * 0x400)
        else exponent16 * 0x400 + rounded / 0x2000
  }

  function Narrow(b: Bits32): Bits16 {
    (if Negative32(b) then 0x8000 else 0) + Narrowed(Exponent32(b), Fraction32(b))
  }

  lemma SubnormalSmall(g: nat, shift: nat)
    requires g < 0x100_0000 && shift >= 14
    ensures Shr(g + Pow2(shift - 1), shift) <= 0x400
  {
    var half := Pow2(shift - 1);
    Pow2AtLeast(shift);
    ShrIs(g + half, shift);
    LessFactor(Shr(g + half, shift), 0x401, Pow2(shift));
  }

  lemma {:induction false} Pow2AtLeast(n: nat)
    requires n >= 14
    ensures Pow2(n) >= 0x4000
  {
    if n == 14 {
      assert Pow2(4) == 16;
      assert Pow2(8) == 256;
      assert Pow2(12) == 4096;
    } else {
      Pow2AtLeast(n - 1);
    }
  }

  lemma LessFactor(a: int, b: int, d: int)
    requires d > 0 && a * d < b * d
    ensures a < b
  {
    Difference(b, a, d);
    PositiveFactor(b - a, d);
  }

  lemma Difference(a: int, b: int, d: int)
    ensures (a - b) * d == a * d - b * d
  {
  }

  lemma PositiveFactor(a: int, d: int)
    requires d > 0 && a * d > 0
    ensures a > 0
  {
  }

  lemma SumTimes(a: int, b: int, p: int)
    ensures (a + b) * p == a * p + b * p
  {
  }

  lemma TimesMonotone(a: int, b: int, p: int)
    requires a <= b && p >= 0
    ensures a * p <= b * p
  {
  }

  // ---------- correct rounding ----------

  /** v lies in the rounding interval of code h: at least half-way up from the code below, and less than
      half-way to the code above. A half-way value goes to the larger magnitude. */
  predicate RoundsTo(v: nat, h: nat) {
    && (h > 0 ==> Size16(h - 1) + Size16(h) <= 2 * v)
    && (h < INFINITY ==> 2 * v < Size16(h) + Size16(h + 1))
  }

  /** The codes from the first to the last of a normal exponent, and the first of the next, are evenly spaced. */
  lemma Size16Normal(e: nat, f: nat)
    requires 1 <= e <= 30 && f <= 0x400
    ensures Size16(e * 0x400 + f) == (0x400 + f) * Pow2(e + 124)
  {
    var h := e * 0x400 + f;
    if f == 0x400 {
      assert h / 0x400 == e + 1 && h % 0x400 == 0;
      assert Pow2(e + 125) == 2 * Pow2(e + 124);
      Doubled(0x400, Pow2(e + 124));
    } else {
      assert h / 0x400 == e && h % 0x400 == f;
    }
  }

  lemma Doubled(a: int, p: int)
    ensures a * (2 * p) == (a + a) * p
  {
  }

  lemma Size16Subnormal(f: nat)
    requires f <= 0x400
    ensures Size16(f) == f * Pow2(125)
  {
    if f == 0x400 {
      assert f / 0x400 == 1 && f % 0x400 == 0;
    }
  }

  /** The code below any normal code is at most half a step of 2^13 units lower. */
  lemma Size16Below(e: nat, f: nat)
    requires 1 <= e <= 30 && f <= 0x400 && e * 0x400 + f > 0
    ensures f > 0 ==> Size16(e * 0x400 + f - 1) == (0x400 + f - 1) * Pow2(e + 124)
    ensures f == 0 ==> Size16(e * 0x400 - 1) <= 0x400 * Pow2(e + 124)
  {
    if f > 0 {
      Size16Normal(e, f - 1);
    } else if e == 1 {
      Size16Subnormal(0x3ff);
      TimesMonotone(0x3ff, 0x400, Pow2(125));
    } else {
      Size16Normal(e - 1, 0x3ff);
      Doubled(0x400, Pow2(e + 123));
      TimesMonotone(0x7ff, 0x800, Pow2(e + 123));
    }
  }

  lemma Size16Above(e: nat, f: nat)
    requires 1 <= e <= 30 && f <= 0x400 && e * 0x400 + f < INFINITY
    ensures Size16(e * 0x400 + f + 1) >= (0x400 + f + 1) * Pow2(e + 124)
  {
    if f < 0x400 {
      Size16Normal(e, f + 1);
    } else {
      assert e * 0x400 + f + 1 == (e + 1) * 0x400 + 1;
      Size16Normal(e + 1, 1);
      Doubled(0x401, Pow2(e + 124));
      TimesMonotone(0x801, 0x802, Pow2(e + 124));
    }
  }

  lemma NormalInterval(fraction: nat, f: nat, p: nat, below: int, here: int, above: int)
    requires 0x2000 * f - 0x1000 <= fraction < 0x2000 * f + 0x1000 && p > 0
    requires here == (0x80_0000 + 0x2000 * f) * p
    requires above >= (0x80_0000 + 0x2000 * (f + 1)) * p
    requires f > 0 ==> below == (0x80_0000 + 0x2000 * (f - 1)) * p
    requires f == 0 ==> below <= 0x80_0000 * p
    ensures below + here <= 2 * ((0x80_0000 + fraction) * p) < here + above
  {
    var v := 0x80_0000 + fraction;
    assert 2 * (v * p) == (2 * v) * p;
    if f > 0 {
      assert below + here == (0x100_0000 + 0x4000 * f - 0x2000) * p;
      TimesMonotone(0x100_0000 + 0x4000 * f - 0x2000, 2 * v, p);
    } else {
      TimesMonotone(0x100_0000, 2 * v, p);
    }
    TimesMonotone(2 * v + 1, 0x100_0000 + 0x4000 * f + 0x2000, p);
    assert (2 * v + 1) * p == (2 * v) * p + p;
    assert here + (0x80_0000 + 0x2000 * (f + 1)) * p == (0x100_0000 + 0x4000 * f + 0x2000) * p;
  }

  lemma Scaled(a: int, p: int, q: int)
    requires q == p * 0x2000
    ensures (0x400 + a) * q == (0x80_0000 + 0x2000 * a) * p
  {
  }

  lemma Pow2At13()
    ensures Pow2(13) == 0x2000
  {
    assert Pow2(7) == 128;
  }

  lemma NormalCode(e: nat, fraction: nat)
    requires 1 <= e <= 30 && fraction < 0x80_0000
    ensures Narrowed(e + 112, fraction) == e * 0x400 + (fraction + 0x1000) / 0x2000
  {
  }

  lemma NormalRounds(e: nat, fraction: nat)
    requires 1 <= e <= 30 && fraction < 0x80_0000
    ensures RoundsTo(Size32(e + 112, fraction), e * 0x400 + (fraction + 0x1000) / 0x2000)
  {
    NormalRoundsTo(e, fraction, (fraction + 0x1000) / 0x2000);
  }

  lemma NormalRoundsTo(e: nat, fraction: nat, f: nat)
    requires 1 <= e <= 30 && f <= 0x400 && 0x2000 * f - 0x1000 <= fraction < 0x2000 * f + 0x1000
    ensures RoundsTo(Size32(e + 112, fraction), e * 0x400 + f)
  {
    var p := Pow2(e + 111);
    NormalCodes(e, f, p);
    var above := (0x80_0000 + 0x2000 * (f + 1)) * p;
    if e * 0x400 + f < INFINITY {
      above := Size16(e * 0x400 + f + 1);
    }
    NormalInterval(fraction, f, p, Size16(e * 0x400 + f - 1), Size16(e * 0x400 + f), above);
  }

  /** A normal code and its neighbours, in steps of the binary32 exponent. */
  lemma NormalCodes(e: nat, f: nat, p: nat)
    requires 1 <= e <= 30 && f <= 0x400 && p == Pow2(e + 111)
    ensures var h := e * 0x400 + f;
            && Size16(h) == (0x80_0000 + 0x2000 * f) * p
            && (f > 0 ==> Size16(h - 1) == (0x80_0000 + 0x2000 * (f - 1)) * p)
            && (f == 0 ==> Size16(h - 1) <= 0x80_0000 * p)
            && (h < INFINITY ==> Size16(h + 1) >= (0x80_0000 + 0x2000 * (f + 1)) * p)
  {
    Pow2Plus(e + 111, 13);
    Pow2At13();
    Size16Normal(e, f);
    Size16Below(e, f);
    Scaled(f, p, Pow2(e + 124));
    Scaled(f - 1, p, Pow2(e + 124));
    Scaled(f + 1, p, Pow2(e + 124));
    Scaled(0, p, Pow2(e + 124));
    if e * 0x400 + f < INFINITY {
      Size16Above(e, f);
    }
  }

  lemma Regroup(a: int, p: int, s: int)
    ensures (a * s) * p == a * (p * s)
  {
  }

  /** h is g / s rounded to the nearest, halves up. */
  lemma SubnormalInterval(g: nat, h: nat, half: nat, p: nat)
    requires p > 0 && half > 0 && h * (2 * half) <= g + half < (h + 1) * (2 * half)
    ensures h > 0 ==> (h - 1) * (p * (2 * half)) + h * (p * (2 * half)) <= 2 * (g * p)
    ensures 2 * (g * p) < h * (p * (2 * half)) + (h + 1) * (p * (2 * half))
  {
    var s := 2 * half;
    var x := h * s;
    ScaledCode(h, p, s, x);
    SumTimes(g, g, p);
    assert g + g == 2 * g;
    SumTimes(x - s, x, p);
    SumTimes(x, x + s, p);
    TimesMonotone(x - s + x, 2 * g, p);
    TimesMonotone(2 * g + 1, x + (x + s), p);
    SumTimes(2 * g, 1, p);
  }

  lemma ScaledCode(h: int, p: int, s: int, x: int)
    requires x == h * s
    ensures h * (p * s) == x * p && (h - 1) * (p * s) == (x - s) * p && (h + 1) * (p * s) == (x + s) * p
  {
    Regroup(h, p, s);
    Regroup(h - 1, p, s);
    Regroup(h + 1, p, s);
    assert (h - 1) * s == x - s && (h + 1) * s == x + s;
  }

  /** The codes up to one above the smallest normal one are evenly spaced. */
  lemma SubnormalNeighbours(h: nat)
    requires h <= 0x400
    ensures Size16(h) == h * Pow2(125) && Size16(h + 1) == (h + 1) * Pow2(125)
    ensures h > 0 ==> Size16(h - 1) == (h - 1) * Pow2(125)
  {
    Size16Subnormal(h);
    if h > 0 {
      Size16Subnormal(h - 1);
    }
    if h < 0x400 {
      Size16Subnormal(h + 1);
    } else {
      Size16Normal(1, 1);
    }
  }

  lemma SubnormalRounds(e: nat, fraction: nat)
    requires 102 <= e <= 112 && fraction < 0x80_0000
    ensures RoundsTo(Size32(e, fraction), Narrowed(e, fraction))
  {
    var g := 0x80_0000 + fraction;
    var shift := 126 - e;
    var h := Narrowed(e, fraction);
    SubnormalSmall(g, shift);
    ShrIs(g + Pow2(shift - 1), shift);
    Pow2Plus(e - 1, shift);
    SubnormalInterval(g, h, Pow2(shift - 1), Pow2(e - 1));
    SubnormalNeighbours(h);
  }

  lemma {:induction false} Pow2Monotone(m: nat, n: nat)
    requires m <= n
    ensures Pow2(m) <= Pow2(n)
    decreases n
  {
    if m < n {
      Pow2Monotone(m, n - 1);
    }
  }

  lemma Pow2At24()
    ensures Pow2(24) == 0x100_0000
  {
    Pow2Plus(12, 12);
    Pow2Plus(6, 6);
    assert Pow2(6) == 64;
  }

  lemma TinyRounds(e: nat, fraction: nat)
    requires e <= 101 && fraction < 0x80_0000
    ensures Narrowed(e, fraction) == 0 && RoundsTo(Size32(e, fraction), 0)
  {
    Pow2At24();
    Size16Subnormal(0);
    Size16Subnormal(1);
    if e == 0 {
      Pow2Monotone(24, 124);
    } else {
      TimesMonotone(0x80_0000 + fraction + 1, 0x100_0000, Pow2(e - 1));
      assert (0x80_0000 + fraction + 1) * Pow2(e - 1) == (0x80_0000 + fraction) * Pow2(e - 1) + Pow2(e - 1);
      Pow2Plus(24, e - 1);
      Pow2Monotone(23 + e, 124);
    }
  }

  lemma Pow2At12()
    ensures Pow2(12) == 0x1000
  {
    Pow2Plus(6, 6);
    assert Pow2(6) == 64;
  }

  lemma HugeSize(e: nat, fraction: nat)
    requires 143 <= e && fraction < 0x80_0000
    ensures Size32(e, fraction) >= 0x800 * Pow2(154)
  {
    Pow2Monotone(142, e - 1);
    TimesMonotone(0x80_0000, 0x80_0000 + fraction, Pow2(e - 1));
    Pow2Plus(142, 12);
    Pow2At12();
  }

  lemma HugeRounds(e: nat, fraction: nat)
    requires 143 <= e <= 254 && fraction < 0x80_0000
    ensures Narrowed(e, fraction) == INFINITY && RoundsTo(Size32(e, fraction), INFINITY)
  {
    TopSizes();
    HugeSize(e, fraction);
    assert Size16(INFINITY - 1) + Size16(INFINITY) <= 2 * Size32(e, fraction);
  }

  lemma TopSizes()
    ensures Size16(INFINITY - 1) + Size16(INFINITY) <= 2 * (0x800 * Pow2(154))
  {
    Size16Normal(30, 0x400);
    Size16Normal(30, 0x3ff);
  }

  /** Whatever the fields, the result is the binary16 code in whose rounding interval the number lies. */
  lemma NarrowedRounds(e: nat, fraction: nat)
    requires e < 255 && fraction < 0x80_0000
    ensures RoundsTo(Size32(e, fraction), Narrowed(e, fraction))
    ensures Narrowed(e, fraction) <= INFINITY
  {
    if e <= 101 {
      TinyRounds(e, fraction);
    } else if e <= 112 {
      SubnormalSmall(0x80_0000 + fraction, 126 - e);
      SubnormalRounds(e, fraction);
    } else if e <= 142 {
      NormalCode(e - 112, fraction);
      NormalRounds(e - 112, fraction);
    } else {
      HugeRounds(e, fraction);
    }
  }

  // ---------- consequences ----------

  lemma Size16Step(h: nat)
    requires h < INFINITY
    ensures Size16(h) < Size16(h + 1)
  {
    var e, f := h / 0x400, h % 0x400;
    if e == 0 {
      Size16Subnormal(h);
      Size16Subnormal(h + 1);
      SumTimes(h, 1, Pow2(125));
    } else {
      Size16Normal(e, f);
      Size16Normal(e, f + 1);
      SumTimes(0x400 + f, 1, Pow2(e + 124));
    }
  }

  lemma {:induction false} Size16Monotone(h: nat, k: nat)
    requires h <= k <= INFINITY
    ensures h < k ==> Size16(h) < Size16(k)
    decreases k
  {
    if h < k {
      Size16Monotone(h, k - 1);
      Size16Step(k - 1);
    }
  }

  /** No code is nearer, and one that is as near is smaller. */
  lemma RoundsToNearest(v: nat, h: nat, k: nat)
    requires h <= INFINITY && k <= INFINITY && RoundsTo(v, h)
    ensures Distance(v, Size16(h)) <= Distance(v, Size16(k))
    ensures k > h ==> Distance(v, Size16(h)) < Distance(v, Size16(k))
  {
    if k > h {
      Size16Monotone(h, h + 1);
      Size16Monotone(h + 1, k);
    } else if k < h {
      Size16Monotone(h - 1, h);
      Size16Monotone(k, h - 1);
    }
  }

  function Distance(a: int, b: int): int {
    if a < b then b - a else a - b
  }

  lemma IntervalAbove(size: nat -> nat, v: nat, h: nat, k: nat)
    requires forall i: nat, j: nat | i < j <= INFINITY :: size(i) < size(j)
    requires k < h <= INFINITY && size(h - 1) + size(h) <= 2 * v
    ensures size(k) + size(k + 1) <= 2 * v
  {
    assert k + 1 < h ==> size(k) < size(h - 1);
  }

  /** Rounding intervals between increasing sizes are in order. */
  lemma IntervalsInOrder(size: nat -> nat, v: nat, w: nat, h: nat, k: nat)
    requires forall i: nat, j: nat | i < j <= INFINITY :: size(i) < size(j)
    requires h <= INFINITY && k <= INFINITY && v <= w
    requires h > 0 ==> size(h - 1) + size(h) <= 2 * v
    requires k < INFINITY ==> 2 * w < size(k) + size(k + 1)
    ensures h <= k
  {
    if h > k {
      IntervalAbove(size, v, h, k);
    }
  }

  lemma RoundsToMonotone(v: nat, w: nat, h: nat, k: nat)
    requires h <= INFINITY && k <= INFINITY && RoundsTo(v, h) && RoundsTo(w, k) && v <= w
    ensures h <= k
  {
    forall i: nat, j: nat | i < j <= INFINITY ensures Size16(i) < Size16(j) {
      Size16Monotone(i, j);
    }
    IntervalsInOrder(Size16, v, w, h, k);
  }

  lemma RoundsToItself(h: nat)
    requires h <= INFINITY
    ensures RoundsTo(Size16(h), h)
  {
    if h > 0 {
      Size16Step(h - 1);
    }
    if h < INFINITY {
      Size16Step(h);
    }
  }

  /** Sign and magnitude of the result. */
  lemma NarrowFields(b: Bits32)
    requires Finite32(b)
    ensures Negative16(Narrow(b)) == Negative32(b)
    ensures Magnitude16(Narrow(b)) == Narrowed(Exponent32(b), Fraction32(b)) <= INFINITY
    ensures RoundsTo(Size32(Exponent32(b), Fraction32(b)), Magnitude16(Narrow(b)))
  {
    NarrowedRounds(Exponent32(b), Fraction32(b));
    SignedCode(Negative32(b), Narrowed(Exponent32(b), Fraction32(b)));
  }

  lemma SignedCode(negative: bool, h: nat)
    requires h < 0x8000
    ensures var c: Bits16 := (if negative then 0x8000 else 0) + h;
            Negative16(c) == negative && Magnitude16(c) == h
  {
  }

  lemma FiniteMagnitude(c: Bits16)
    ensures Finite16(c) <==> Magnitude16(c) < INFINITY
    ensures Magnitude16(c) == Exponent16(c) * 0x400 + Fraction16(c)
  {
  }

  lemma Size16Positive(h: nat)
    requires h <= INFINITY
    ensures Size16(h) >= Size16(0) == 0
  {
    Size16Subnormal(0);
    Size16Monotone(0, h);
  }

  /** For every finite binary32 number: no binary16 number is nearer than the result, and when another one is as
      near, the result has the larger magnitude (ties away from zero). */
  lemma NarrowNearest(b: Bits32, c: Bits16)
    requires Finite32(b) && Finite16(c)
    ensures Distance(Value32(b), Value16(Narrow(b))) <= Distance(Value32(b), Value16(c))
    ensures Value16(c) != Value16(Narrow(b)) && Distance(Value32(b), Value16(Narrow(b))) == Distance(Value32(b), Value16(c)) ==>
              Distance(0, Value16(c)) < Distance(0, Value16(Narrow(b)))
  {
    NarrowFields(b);
    FiniteMagnitude(c);
    var v := Size32(Exponent32(b), Fraction32(b));
    var h, k := Magnitude16(Narrow(b)), Magnitude16(c);
    Size16Positive(h);
    Size16Positive(k);
    if Negative32(b) == Negative16(c) {
      RoundsToNearest(v, h, k);
      if k < h {
        Size16Monotone(k, h);
      }
    } else {
      RoundsToNearest(v, h, 0);
    }
  }

  /** The result is infinite exactly from half-way between the largest binary16 number, 65504, and 65536 on. */
  lemma NarrowOverflows(b: Bits32)
    requires Finite32(b)
    ensures !Finite16(Narrow(b)) <==> Distance(0, Value32(b)) >= 65520 * Pow2(149)
  {
    NarrowFields(b);
    FiniteMagnitude(Narrow(b));
    SizeOf(b);
    OverflowsFrom(Size32(Exponent32(b), Fraction32(b)), Magnitude16(Narrow(b)));
  }

  lemma OverflowsFrom(v: nat, h: nat)
    requires h <= INFINITY && RoundsTo(v, h)
    ensures h == INFINITY <==> v >= 65520 * Pow2(149)
  {
    OverflowThreshold();
    if h < INFINITY {
      Size16Monotone(h, INFINITY - 1);
      Size16Monotone(h + 1, INFINITY);
    }
  }

  lemma SizeOf(b: Bits32)
    ensures Distance(0, Value32(b)) == Size32(Exponent32(b), Fraction32(b))
  {
  }

  lemma OverflowThreshold()
    ensures Size16(INFINITY - 1) + Size16(INFINITY) == 2 * (65520 * Pow2(149))
  {
    Size16Normal(30, 0x3ff);
    Size16Normal(30, 0x400);
    Pow2Plus(149, 5);
    assert Pow2(5) == 32;
  }

  /** Order is kept, with infinity beyond every finite number. */
  lemma NarrowMonotone(a: Bits32, b: Bits32)
    requires Finite32(a) && Finite32(b) && Value32(a) <= Value32(b)
    ensures Value16(Narrow(a)) <= Value16(Narrow(b))
  {
    NarrowFields(a);
    NarrowFields(b);
    var v, w := Size32(Exponent32(a), Fraction32(a)), Size32(Exponent32(b), Fraction32(b));
    var h, k := Magnitude16(Narrow(a)), Magnitude16(Narrow(b));
    if !Negative32(a) && !Negative32(b) {
      SizesMonotone(v, w, h, k);
    } else if Negative32(a) && Negative32(b) {
      SizesMonotone(w, v, k, h);
    } else {
      Size16Positive(h);
      Size16Positive(k);
      if !Negative32(a) {
        SizesMonotone(v, 0, h, 0);
        SizesMonotone(w, 0, k, 0);
      }
    }
  }

  lemma SizesMonotone(v: nat, w: nat, h: nat, k: nat)
    requires v <= w && h <= INFINITY && k <= INFINITY && RoundsTo(v, h) && RoundsTo(w, k)
    ensures h <= k && Size16(h) <= Size16(k)
  {
    RoundsToMonotone(v, w, h, k);
    Size16Monotone(h, k);
  }

  /** A binary32 number that is a binary16 number comes back as that number. */
  lemma NarrowExact(b: Bits32, c: Bits16)
    requires Finite32(b) && Finite16(c) && Negative32(b) == Negative16(c) && Value32(b) == Value16(c)
    ensures Narrow(b) == c
  {
    NarrowFields(b);
    FiniteMagnitude(c);
    SameSize(b, c);
    RoundsOnce(Magnitude16(Narrow(b)), Magnitude16(c));
    SameCode(Narrow(b), c);
  }

  lemma SameSize(b: Bits32, c: Bits16)
    requires Negative32(b) == Negative16(c) && Value32(b) == Value16(c)
    ensures Size32(Exponent32(b), Fraction32(b)) == Size16(Magnitude16(c))
  {
  }

  lemma SameCode(c: Bits16, d: Bits16)
    requires Negative16(c) == Negative16(d) && Magnitude16(c) == Magnitude16(d)
    ensures c == d
  {
  }

  lemma RoundsOnce(h: nat, k: nat)
    requires h <= INFINITY && k <= INFINITY && RoundsTo(Size16(k), h)
    ensures h == k
  {
    RoundsToItself(k);
    RoundsToMonotone(Size16(k), Size16(k), h, k);
    RoundsToMonotone(Size16(k), Size16(k), k, h);
  }

  // ---------- float16ToFloat32 ----------

  function Assemble(negative: bool, e: nat, f: nat): (b: Bits32)
    requires e < 256 && f < 0x80_0000
    ensures Negative32(b) == negative && Exponent32(b) == e && Fraction32(b) == f
  {
    AssembledFields(e, f);
    (if negative then 0x8000_0000 else 0) + e * 0x80_0000 + f
  }

  lemma AssembledFields(e: nat, f: nat)
    requires e < 256 && f < 0x80_0000
    ensures e * 0x80_0000 + f < 0x8000_0000
    ensures ((e * 0x80_0000 + f) / 0x80_0000) % 256 == e
    ensures ((0x8000_0000 + e * 0x80_0000 + f) / 0x80_0000) % 256 == e
    ensures (0x8000_0000 + e * 0x80_0000 + f) % 0x80_0000 == f
  {
    assert 0x8000_0000 + e * 0x80_0000 + f == (256 + e) * 0x80_0000 + f;
  }

  /** The fraction of a subnormal number after n doublings. */
  predicate Normalised(f: nat, n: nat, fraction: nat) {
    n <= 10 && fraction == f * Pow2(n)
  }

  lemma NormalisedSize(f: nat, n: nat, fraction: nat)
    requires Normalised(f, n, fraction) && 0x400 <= fraction < 0x800
    ensures Size32(113 - n, (fraction - 0x400) * 0x2000) == f * Pow2(125)
  {
    Pow2Plus(112 - n, n);
    Pow2Plus(112, 13);
    Pow2At13();
    ProductOrder(f, Pow2(112 - n), Pow2(n), fraction);
  }

  lemma ProductOrder(f: int, p: int, q: int, fraction: int)
    requires fraction == f * q
    ensures (0x80_0000 + (fraction - 0x400) * 0x2000) * p == f * (p * q * 0x2000)
  {
    assert fraction * p == f * (p * q);
    assert (0x80_0000 + (fraction - 0x400) * 0x2000) * p == (fraction * p) * 0x2000;
    assert f * (p * q * 0x2000) == (f * (p * q)) * 0x2000;
  }

  lemma NormalisedNext(f: nat, n: nat, fraction: nat)
    requires Normalised(f, n, fraction) && 0 < f && fraction < 0x400
    ensures Normalised(f, n + 1, 2 * fraction)
  {
    Doubled(f, Pow2(n));
    TimesMonotone(1, f, Pow2(n));
    Pow2At10();
  }

  lemma Pow2At10()
    ensures Pow2(10) == 0x400
  {
    Pow2Plus(5, 5);
    assert Pow2(5) == 32;
  }

  lemma WidenedNormal(e: nat, f: nat)
    requires 1 <= e <= 30 && f < 0x400
    ensures Size32(e + 112, f * 0x2000) == (0x400 + f) * Pow2(e + 124)
  {
    Pow2Plus(e + 111, 13);
    Pow2At13();
    Scaled(f, Pow2(e + 111), Pow2(e + 124));
  }

  /** Exact on every finite number; infinities and NaNs stay what they are. */
  method Widen(bits: Bits16) returns (r: Bits32)
    ensures Negative32(r) == Negative16(bits)
    ensures Finite16(bits) ==> Finite32(r) && Value32(r) == Value16(bits)
    ensures !Finite16(bits) ==> !Finite32(r) && Fraction32(r) == Fraction16(bits) * 0x2000
  {
    var exponent := Exponent16(bits);
    var fraction := Fraction16(bits);
    FiniteMagnitude(bits);
    if exponent == 0 {
      if fraction == 0 {
        Size16Subnormal(0);
        return Assemble(Negative16(bits), 0, 0);
      }
      r := WidenSubnormal(bits);
      return;
    }
    if exponent == 31 {
      return Assemble(Negative16(bits), 255, fraction * 0x2000);
    }
    Size16Normal(exponent, fraction);
    WidenedNormal(exponent, fraction);
    r := Assemble(Negative16(bits), exponent + 112, fraction * 0x2000);
  }

  /** The fraction is shifted until its leading one is where a normal number has it. */
  method WidenSubnormal(bits: Bits16) returns (r: Bits32)
    requires Exponent16(bits) == 0 && Fraction16(bits) != 0
    ensures Negative32(r) == Negative16(bits) && Finite32(r)
    ensures Value32(r) == Value16(bits)
  {
    var exponent: int := 0;
    var fraction := Fraction16(bits);
    ghost var n := 0;
    while fraction < 0x400
      invariant 0 < fraction < 0x800
      invariant exponent == -n && Normalised(Fraction16(bits), n, fraction)
      decreases 0x400 - fraction
    {
      NormalisedNext(Fraction16(bits), n, fraction);
      fraction := 2 * fraction;
      exponent := exponent - 1;
      n := n + 1;
    }
    NormalisedSize(Fraction16(bits), n, fraction);
    FiniteMagnitude(bits);
    Size16Subnormal(Fraction16(bits));
    r := Assemble(Negative16(bits), exponent + 113, (fraction - 0x400) * 0x2000);
  }

  /** Widening and narrowing gives back every binary16 number, infinities and both zeros included. */
  lemma RoundTrip(c: Bits16, wide: Bits32)
    requires !NaN16(c) && Negative32(wide) == Negative16(c)
    requires Finite16(c) ==> Finite32(wide) && Value32(wide) == Value16(c)
    requires !Finite16(c) ==> !Finite32(wide) && Fraction32(wide) == Fraction16(c) * 0x2000
    ensures Narrow(wide) == c
  {
    if Finite16(c) {
      NarrowExact(wide, c);
    } else {
      FiniteMagnitude(c);
      SignedCode(Negative32(wide), INFINITY);
    }
  }

  // ---------- averageFloat16 ----------

  /** A binary16 magnitude counted in the smallest binary16 steps, 2^-24. */
  function SizeSteps(h: nat): nat {
    var e, f := h / 0x400, h % 0x400;
    if e == 0 then f else Mul(0x400 + f, Pow2(e - 1))
  }

  function Steps(c: Bits16): int {
    var n: int := SizeSteps(Magnitude16(c));
    if Negative16(c) then -n else n
  }

  lemma SizeStepsValue(h: nat)
    requires h < INFINITY
    ensures Size16(h) == SizeSteps(h) * Pow2(125)
    ensures SizeSteps(h) <= 0x100_0000_0000
  {
    var e, f := h / 0x400, h % 0x400;
    if e > 0 {
      Pow2Plus(125, e - 1);
      Regroup(0x400 + f, Pow2(125), Pow2(e - 1));
      StepsBound(e, f);
    }
  }

  lemma Negated(n: int, p: int)
    ensures (-n) * p == -(n * p)
  {
  }

  lemma StepsValue(c: Bits16)
    requires Finite16(c)
    ensures Value16(c) == Steps(c) * Pow2(125)
    ensures -0x100_0000_0000 <= Steps(c) <= 0x100_0000_0000
  {
    FiniteMagnitude(c);
    SizeStepsValue(Magnitude16(c));
    Negated(SizeSteps(Magnitude16(c)), Pow2(125));
  }

  lemma StepsBound(e: nat, f: nat)
    requires 1 <= e <= 30 && f < 0x400
    ensures (0x400 + f) * Pow2(e - 1) <= 0x100_0000_0000
  {
    Pow2Monotone(e - 1, 29);
    TimesMonotone(0x400 + f, 0x800, Pow2(e - 1));
    Pow2At24();
    Pow2Plus(24, 5);
    assert Pow2(5) == 32;
  }

  /** What binary64 arithmetic is relied on for: rounding keeps order, and multiples of 2^-24 up to 2^53 steps are exact. */
  ghost predicate Rounds64(round64: real -> real) {
    && (forall x, y | x <= y :: round64(x) <= round64(y))
    && (forall k: int | -0x20_0000_0000_0000 <= k <= 0x20_0000_0000_0000 :: Exact64(round64, k))
  }

  /** A multiple of 2^-24 that is not rounded. */
  predicate Exact64(round64: real -> real, steps: int) {
    round64((steps * Pow2(125)) as real) == (steps * Pow2(125)) as real
  }

  /** The conversion to binary32 keeps order and is exact on binary16 numbers. */
  ghost predicate Rounds32(round32: real -> Bits32) {
    && (forall x, y | x <= y && Finite32(round32(x)) && Finite32(round32(y)) :: Value32(round32(x)) <= Value32(round32(y)))
    && (forall x, y, z | x <= y <= z && Finite32(round32(x)) && Finite32(round32(z)) :: Finite32(round32(y)))
    && (forall c: Bits16 | Finite16(c) :: Finite32(round32(Value16(c) as real)))
    && (forall c: Bits16 | Finite16(c) :: Value32(round32(Value16(c) as real)) == Value16(c))
  }

  function TotalSteps(codes: seq<Bits16>, n: nat): int
    requires n <= |codes|
  {
    if n == 0 then 0 else TotalSteps(codes, n - 1) + Steps(codes[n-1])
  }

  lemma {:induction false} TotalBound(codes: seq<Bits16>, n: nat)
    requires n <= |codes| && forall i | 0 <= i < |codes| :: Finite16(codes[i])
    ensures -(n * 0x100_0000_0000) <= TotalSteps(codes, n) <= n * 0x100_0000_0000
  {
    if n > 0 {
      TotalBound(codes, n - 1);
      StepsValue(codes[n-1]);
    }
  }

  /** The sum of the first n codes is exact. */
  lemma TotalExact(codes: seq<Bits16>, n: nat, round64: real -> real)
    requires n <= |codes| < 0x2000 && Rounds64(round64) && forall i | 0 <= i < |codes| :: Finite16(codes[i])
    ensures Exact64(round64, TotalSteps(codes, n))
  {
    TotalBound(codes, n);
    assert n * 0x100_0000_0000 <= 0x20_0000_0000_0000;
  }

  lemma NextSum(codes: seq<Bits16>, n: nat, round64: real -> real)
    requires n < |codes| && Finite16(codes[n]) && Exact64(round64, TotalSteps(codes, n + 1))
    ensures var sum := (TotalSteps(codes, n) * Pow2(125)) as real + Value16(codes[n]) as real;
            round64(sum) == sum == (TotalSteps(codes, n + 1) * Pow2(125)) as real
  {
    StepsValue(codes[n]);
    ExactSum(round64, TotalSteps(codes, n), Steps(codes[n]), Pow2(125), Value16(codes[n]));
  }

  lemma ExactSum(round64: real -> real, total: int, steps: int, unit: int, value: int)
    requires value == steps * unit && round64(((total + steps) * unit) as real) == ((total + steps) * unit) as real
    ensures var sum := (total * unit) as real + value as real;
            round64(sum) == sum == ((total + steps) * unit) as real
  {
    SumTimes(total, steps, unit);
  }

  lemma NothingSummed(codes: seq<Bits16>, unit: int)
    requires forall i | 0 <= i < |codes| :: Finite16(codes[i])
    ensures TotalSteps(codes, 0) * unit == 0
  {
  }

  /** The sum of the first n numbers. */
  function Total(codes: seq<Bits16>, n: nat): int
    requires n <= |codes| && forall i | 0 <= i < |codes| :: Finite16(codes[i])
  {
    if n == 0 then 0 else Total(codes, n - 1) + Value16(codes[n-1])
  }

  lemma {:induction false} TotalIs(codes: seq<Bits16>, n: nat)
    requires n <= |codes| && forall i | 0 <= i < |codes| :: Finite16(codes[i])
    ensures TotalSteps(codes, n) * Pow2(125) == Total(codes, n)
  {
    if n == 0 {
      NothingSummed(codes, Pow2(125));
    } else {
      TotalIs(codes, n - 1);
      StepsValue(codes[n-1]);
      SumTimes(TotalSteps(codes, n - 1), Steps(codes[n-1]), Pow2(125));
    }
  }

  /** The running sum is never rounded. */
  method SumHalves(codes: seq<Bits16>, round64: real -> real) returns (sum: real)
    requires Rounds64(round64) && |codes| < 0x2000
    requires forall i | 0 <= i < |codes| :: Finite16(codes[i])
    ensures sum == Total(codes, |codes|) as real
  {
    TotalIs(codes, |codes|);
    sum := 0.0;
    NothingSummed(codes, Pow2(125));
    for n := 0 to |codes|
      invariant sum == (TotalSteps(codes, n) * Pow2(125)) as real
    {
      var wide := Widen(codes[n]);
      TotalExact(codes, n + 1, round64);
      NextSum(codes, n, round64);
      sum := round64(sum + Value32(wide) as real);
    }
  }

  ghost predicate AllAtLeast(codes: seq<Bits16>, least: int) {
    forall i | 0 <= i < |codes| :: least <= Value16(codes[i])
  }

  ghost predicate AllAtMost(codes: seq<Bits16>, most: int) {
    forall i | 0 <= i < |codes| :: Value16(codes[i]) <= most
  }

  lemma {:induction false} TotalBetween(codes: seq<Bits16>, n: nat, least: int, most: int)
    requires n <= |codes| && forall i | 0 <= i < |codes| :: Finite16(codes[i])
    requires AllAtLeast(codes, least) && AllAtMost(codes, most)
    ensures n * least <= Total(codes, n) <= n * most
  {
    if n > 0 {
      TotalBetween(codes, n - 1, least, most);
      assert (n - 1) * least + least == n * least && (n - 1) * most + most == n * most;
    }
  }

  lemma ProductAsReal(a: int, b: int)
    ensures (a * b) as real == a as real * b as real
  {
  }

  lemma QuotientTimes(total: real, n: real)
    requires n > 0.0
    ensures n * (total / n) == total
  {
  }

  lemma FactorOrder(a: real, b: real, n: real)
    requires n > 0.0 && n * a <= n * b
    ensures a <= b
  {
    var d := b - a;
    assert n * d == n * b - n * a;
  }

  lemma QuotientAbove(total: int, n: nat, least: int)
    requires n > 0 && n * least <= total
    ensures least as real <= total as real / n as real
  {
    ProductAsReal(n, least);
    QuotientTimes(total as real, n as real);
    FactorOrder(least as real, total as real / n as real, n as real);
  }

  lemma QuotientBelow(total: int, n: nat, most: int)
    requires n > 0 && total <= n * most
    ensures total as real / n as real <= most as real
  {
    ProductAsReal(n, most);
    QuotientTimes(total as real, n as real);
    FactorOrder(total as real / n as real, most as real, n as real);
  }

  lemma NarrowValue(b: Bits32, c: Bits16)
    requires Finite32(b) && Finite16(c) && Value32(b) == Value16(c)
    ensures Value16(Narrow(b)) == Value16(c)
  {
    NarrowNearest(b, c);
  }

  lemma BetweenFinite(c: Bits16, lo: Bits16, hi: Bits16)
    requires Finite16(lo) && Finite16(hi) && Magnitude16(c) <= INFINITY && Value16(lo) <= Value16(c) <= Value16(hi)
    ensures Finite16(c)
  {
    FiniteMagnitude(c);
    FiniteMagnitude(lo);
    FiniteMagnitude(hi);
    Size16Positive(Magnitude16(lo));
    Size16Positive(Magnitude16(hi));
    Size16Monotone(Magnitude16(lo), INFINITY);
    Size16Monotone(Magnitude16(hi), INFINITY);
  }

  lemma HalfExact(round64: real -> real, c: Bits16)
    requires Rounds64(round64) && Finite16(c)
    ensures round64(Value16(c) as real) == Value16(c) as real
  {
    StepsValue(c);
    assert Exact64(round64, Steps(c));
  }

  /** The roundings keep binary16 numbers below and above where they are. */
  lemma RoundedBetween(round64: real -> real, round32: real -> Bits32, q: real, lo: Bits16, hi: Bits16)
    requires Rounds64(round64) && Rounds32(round32) && Finite16(lo) && Finite16(hi)
    requires Value16(lo) as real <= q <= Value16(hi) as real
    ensures var r := Narrow(round32(round64(q)));
            Finite32(round32(round64(q))) && Finite16(r) && Value16(lo) <= Value16(r) <= Value16(hi)
  {
    HalfExact(round64, lo);
    HalfExact(round64, hi);
    var low, high := Value16(lo) as real, Value16(hi) as real;
    var x := round64(q);
    assert low <= x <= high;
    assert Finite32(round32(low)) && Finite32(round32(high));
    NarrowValue(round32(low), lo);
    NarrowValue(round32(high), hi);
    NarrowMonotone(round32(low), round32(x));
    NarrowMonotone(round32(x), round32(high));
    NarrowFields(round32(x));
    BetweenFinite(Narrow(round32(x)), lo, hi);
  }

  /** A result with no binary16 number strictly between it and the mean of the numbers: the mean itself if that is one,
      otherwise one of its two neighbours. */
  ghost predicate NextToMean(codes: seq<Bits16>, r: Bits16)
    requires forall i | 0 <= i < |codes| :: Finite16(codes[i])
  {
    && Finite16(r)
    && (forall c: Bits16 | Finite16(c) && |codes| * Value16(c) <= Total(codes, |codes|) :: Value16(c) <= Value16(r))
    && (forall c: Bits16 | Finite16(c) && |codes| * Value16(c) >= Total(codes, |codes|) :: Value16(r) <= Value16(c))
  }

  /** A bound below and one above the mean are kept, given any bounds on both sides. */
  lemma KeepsBelow(codes: seq<Bits16>, round64: real -> real, round32: real -> Bits32, c: Bits16, hi: Bits16)
    requires Rounds64(round64) && Rounds32(round32) && codes != [] && forall i | 0 <= i < |codes| :: Finite16(codes[i])
    requires Finite16(c) && Finite16(hi) && |codes| * Value16(c) <= Total(codes, |codes|) <= |codes| * Value16(hi)
    ensures var r := Narrow(round32(round64(Total(codes, |codes|) as real / |codes| as real)));
            Finite16(r) && Value16(c) <= Value16(r) <= Value16(hi)
  {
    QuotientAbove(Total(codes, |codes|), |codes|, Value16(c));
    QuotientBelow(Total(codes, |codes|), |codes|, Value16(hi));
    RoundedBetween(round64, round32, Total(codes, |codes|) as real / |codes| as real, c, hi);
  }

  /** With fewer than 2^13 Workers, the average of finite contributions is finite, and no binary16 number lies strictly
      between it and their mean; it stays between any bounds that the contributions stay between. */
  method AverageHalf(codes: seq<Bits16>, round64: real -> real, round32: real -> Bits32) returns (r: Bits16)
    requires Rounds64(round64) && Rounds32(round32) && 0 < |codes| < 0x2000
    requires forall i | 0 <= i < |codes| :: Finite16(codes[i])
    ensures NextToMean(codes, r)
    ensures forall lo: Bits16 | Finite16(lo) && AllAtLeast(codes, Value16(lo)) :: Value16(lo) <= Value16(r)
    ensures forall hi: Bits16 | Finite16(hi) && AllAtMost(codes, Value16(hi)) :: Value16(r) <= Value16(hi)
  {
    var sum := SumHalves(codes, round64);
    r := Narrow(round32(round64(sum / |codes| as real)));
    var least, greatest := Extremes(codes);
    TotalBetween(codes, |codes|, Value16(least), Value16(greatest));
    forall c: Bits16 | Finite16(c) && |codes| * Value16(c) <= Total(codes, |codes|)
      ensures Finite16(r) && Value16(c) <= Value16(r)
    {
      KeepsBelow(codes, round64, round32, c, greatest);
    }
    forall c: Bits16 | Finite16(c) && |codes| * Value16(c) >= Total(codes, |codes|) ensures Value16(r) <= Value16(c) {
      KeepsBelow(codes, round64, round32, least, c);
    }
    forall lo: Bits16 | Finite16(lo) && AllAtLeast(codes, Value16(lo)) ensures Value16(lo) <= Value16(r) {
      TotalBetween(codes, |codes|, Value16(lo), Value16(greatest));
    }
    forall hi: Bits16 | Finite16(hi) && AllAtMost(codes, Value16(hi)) ensures Value16(r) <= Value16(hi) {
      TotalBetween(codes, |codes|, Value16(least), Value16(hi));
    }
  }

  lemma Extremes(codes: seq<Bits16>) returns (least: Bits16, greatest: Bits16)
    requires codes != []
    ensures least in codes && greatest in codes
    ensures AllAtLeast(codes, Value16(least)) && AllAtMost(codes, Value16(greatest))
  {
    least, greatest := codes[0], codes[0];
    for n := 1 to |codes|
      invariant least in codes && greatest in codes
      invariant forall i | 0 <= i < n :: Value16(least) <= Value16(codes[i]) <= Value16(greatest)
    {
      if Value16(codes[n]) < Value16(least) {
        least := codes[n];
      }
      if Value16(codes[n]) > Value16(greatest) {
        greatest := codes[n];
      }
    }
  }
}
