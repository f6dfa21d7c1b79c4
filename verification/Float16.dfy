/** The binary16 codec (section 3.4 of IEEE 754-2019), on bit patterns as integers: a shift is a product or quotient by a
    power of two, a mask a remainder. */
module Float16 {

  function Pow2(n: nat): (p: nat)
    ensures p > 0
  {
    if n == 0 then 1 else 2 * Pow2(n - 1)
  }

  lemma {:induction false} Pow2Sum(a: nat, b: nat)
    ensures Pow2(a + b) == Pow2(a) * Pow2(b)
  {
    if a > 0 {
      Pow2Sum(a - 1, b);
      assert Pow2(a) * Pow2(b) == 2 * (Pow2(a - 1) * Pow2(b));
    }
  }

  const HIDDEN16: nat := 0x400
  const HIDDEN32: nat := 0x800000
  const INFINITY16: nat := 0x7C00

  newtype uint16 = x: int | 0 <= x < 0x1_0000
  newtype uint32 = x: int | 0 <= x < 0x1_0000_0000

  /** The parts of a binary16 pattern. */
  datatype Half = Half(sign: nat, exp: nat, mant: nat)

  /** The parts of a binary32 pattern. */
  datatype Single = Single(sign: nat, exp: nat, mant: nat)

  predicate IsHalf(h: Half) {
    h.sign < 2 && h.exp < 32 && h.mant < HIDDEN16
  }

  predicate IsSingle(s: Single) {
    s.sign < 2 && s.exp < 256 && s.mant < HIDDEN32
  }

  function Parts16(h: uint16): (p: Half)
    ensures IsHalf(p)
  {
    var n := h as nat;
    Half(n / 0x8000, n / HIDDEN16 % 32, n % HIDDEN16)
  }

  function Bits16(h: Half): (b: uint16)
    requires IsHalf(h)
    ensures Parts16(b) == h
  {
    var n := h.sign * 0x8000 + h.exp * HIDDEN16 + h.mant;
    n as uint16
  }

  function Parts32(s: uint32): (p: Single)
    ensures IsSingle(p)
  {
    var n := s as nat;
    Single(n / 0x8000_0000, n / HIDDEN32 % 256, n % HIDDEN32)
  }

  function Bits32(s: Single): (b: uint32)
    requires IsSingle(s)
    ensures Parts32(b) == s
  {
    (s.sign * 0x8000_0000 + s.exp * HIDDEN32 + s.mant) as uint32
  }

  lemma Bits16OfParts(h: uint16)
    ensures Bits16(Parts16(h)) == h
  {
  }

  // ---- decoding ----

  /** A subnormal's mantissa shifted up until its leading bit is the hidden one, the exponent falling with it. */
  function Normalise(mant: nat, exp: nat): (r: (nat, nat))
    requires 0 < mant < 2 * HIDDEN16 && HIDDEN16 <= mant * Pow2(exp)
    ensures HIDDEN16 <= r.0 < 2 * HIDDEN16 && r.1 <= exp && r.0 * Pow2(r.1) == mant * Pow2(exp)
    decreases exp
  {
    if mant >= HIDDEN16 then (mant, exp)
    else
      assert exp > 0 && 2 * mant * Pow2(exp - 1) == mant * Pow2(exp);
      Normalise(2 * mant, exp - 1)
  }

  lemma SmallPowers()
    ensures Pow2(0) == 1 && Pow2(1) == 2 && Pow2(10) == 1024 && Pow2(11) == 2048 && Pow2(12) == 4096
    ensures Pow2(13) == 0x2000 && Pow2(14) == 0x4000
  {
  }

  lemma AtLeast(a: nat, b: nat)
    requires a > 0
    ensures a * b >= b
  {
  }

  lemma EnoughRoom(mant: nat)
    requires mant > 0
    ensures HIDDEN16 <= mant * Pow2(113)
  {
    hide Pow2;
    SmallPowers();
    Pow2Sum(10, 103);
    AtLeast(mant, Pow2(113));
  }

  /** float16ToFloat32. */
  function Decode(h: Half): (s: Single)
    requires IsHalf(h)
    ensures IsSingle(s)
  {
    if h.exp == 0 then
      if h.mant == 0 then Single(h.sign, 0, 0)
      else
        EnoughRoom(h.mant);
        var (mant, exp) := Normalise(h.mant, 113);
        Single(h.sign, exp, (mant - HIDDEN16) * 0x2000)
    else if h.exp == 31 then Single(h.sign, 255, h.mant * 0x2000)
    else Single(h.sign, h.exp - 15 + 127, h.mant * 0x2000)
  }

  /** float16ToFloat32 as it is written, with its loop. */
  method DecodeHalf(h: uint16) returns (s: uint32)
    ensures s == Bits32(Decode(Parts16(h)))
  {
    var p := Parts16(h);
    if p.exp == 0 {
      if p.mant == 0 {
        return Bits32(Single(p.sign, 0, 0));
      }
      EnoughRoom(p.mant);
      var mant, e := p.mant, 127 - 15 + 1;
      while mant < HIDDEN16
        invariant 0 < mant < 2 * HIDDEN16 && e >= 0 && HIDDEN16 <= mant * Pow2(e)
        invariant Normalise(mant, e) == Normalise(p.mant, 113)
        decreases e
      {
        assert e > 0 && 2 * mant * Pow2(e - 1) == mant * Pow2(e);
        mant, e := 2 * mant, e - 1;
      }
      return Bits32(Single(p.sign, e, (mant - HIDDEN16) * 0x2000));
    } else if p.exp == 31 {
      return Bits32(Single(p.sign, 255, p.mant * 0x2000));
    }
    return Bits32(Single(p.sign, p.exp - 15 + 127, p.mant * 0x2000));
  }

  // ---- encoding ----

  /** A quotient rounded to the nearest, and to the even one of two equally near. */
  function RoundedShift(mant: nat, shift: nat): (q: nat)
    requires shift >= 1
  {
    var q, rem, half := mant / Pow2(shift), mant % Pow2(shift), Pow2(shift - 1);
    if rem > half || (rem == half && q % 2 == 1) then q + 1 else q
  }

  /** A magnitude pattern: exponent and mantissa in one, so that a carry out of the mantissa lands in the exponent. */
  function FromMagnitude(sign: nat, m: nat): (h: Half)
    requires sign < 2 && m < 0x8000
    ensures IsHalf(h) && h.exp * HIDDEN16 + h.mant == m && h.sign == sign
  {
    Half(sign, m / HIDDEN16, m % HIDDEN16)
  }

  /** What a finite binary32's magnitude is encoded as. */
  function EncodeMagnitude(s: Single): (m: nat)
    requires IsSingle(s) && s.exp != 255
    ensures m <= INFINITY16
  {
    var exp := s.exp - 127;
    if exp > 15 then INFINITY16
    else if exp < -25 then 0
    else if exp < -14 then
      RoundsSmall(s.mant + HIDDEN32, -exp - 1);
      RoundedShift(s.mant + HIDDEN32, -exp - 1)
    else
      var lsb := s.mant / 0x2000 % 2;
      var rounded := s.mant + 0x0fff + lsb;
      if rounded >= HIDDEN32 then (if exp + 1 > 15 then INFINITY16 else (exp + 1 + 15) * HIDDEN16)
      else (exp + 15) * HIDDEN16 + rounded / 0x2000
  }

  lemma RoundsSmall(mant: nat, shift: nat)
    requires mant < 2 * HIDDEN32 && shift >= 14
    ensures RoundedShift(mant, shift) <= HIDDEN16
  {
    hide Pow2;
    SmallPowers();
    Pow2Sum(14, shift - 14);
    var q, rem, p := mant / Pow2(shift), mant % Pow2(shift), Pow2(shift);
    assert mant == q * p + rem;
  }

  /** float32ToFloat16. */
  function Encode(s: Single): (h: Half)
    requires IsSingle(s)
    ensures IsHalf(h)
  {
    if s.exp == 255 then
      if s.mant != 0 then
        var m := s.mant / 0x2000;
        Half(s.sign, 31, if m == 0 then 1 else m)
      else Half(s.sign, 31, 0)
    else FromMagnitude(s.sign, EncodeMagnitude(s))
  }

  // ---- values ----

  /** A finite binary32's magnitude in units of its smallest subnormal, 2^-149. */
  function Value32(s: Single): nat {
    if s.exp == 0 then s.mant else (HIDDEN32 + s.mant) * Pow2(s.exp - 1)
  }

  /** A binary16 magnitude pattern's value in the same units; infinity counts as the next value after the largest finite
      one. */
  function Value16(m: nat): nat {
    var exp, mant := m / HIDDEN16, m % HIDDEN16;
    (if exp == 0 then mant else (HIDDEN16 + mant) * Pow2(exp - 1)) * Pow2(125)
  }

  lemma DecodedValue(h: Half)
    requires IsHalf(h) && h.exp != 31
    ensures Decode(h).exp != 255 && Value32(Decode(h)) == Value16(h.exp * HIDDEN16 + h.mant)
  {
    var s := Decode(h);
    var m := h.exp * HIDDEN16 + h.mant;
    assert m / HIDDEN16 == h.exp && m % HIDDEN16 == h.mant;
    if h.exp == 0 && h.mant > 0 {
      EnoughRoom(h.mant);
      var (mant, exp) := Normalise(h.mant, 113);
      NormalisedValue(h.mant, mant, exp);
    } else if h.exp > 0 {
      NormalValue(h.mant, h.exp);
    }
  }

  lemma NormalisedValue(m: nat, mant: nat, exp: nat)
    requires 0 < m && HIDDEN16 <= mant < 2 * HIDDEN16 && mant * Pow2(exp) == m * Pow2(113)
    ensures 0 < exp && (HIDDEN32 + (mant - HIDDEN16) * 0x2000) * Pow2(exp - 1) == m * Pow2(125)
  {
    hide Pow2;
    SmallPowers();
    Pow2Sum(11, 102);
    Pow2Sum(113, 12);
    AtLeast(m, Pow2(113));
    Pow2Sum(1, exp - 1);
    Regroup(mant, Pow2(exp - 1), m, Pow2(113));
  }

  lemma Regroup(mant: nat, u: nat, m: nat, q: nat)
    requires mant * (2 * u) == m * q && mant >= HIDDEN16
    ensures (HIDDEN32 + (mant - HIDDEN16) * 0x2000) * u == m * (q * 4096)
  {
    assert (HIDDEN32 + (mant - HIDDEN16) * 0x2000) == mant * 0x2000;
    assert mant * 0x2000 * u == mant * (2 * u) * 4096;
    assert m * q * 4096 == m * (q * 4096);
  }

  lemma NormalValue(mant: nat, exp: nat)
    requires exp >= 1
    ensures (HIDDEN32 + mant * 0x2000) * Pow2(exp + 111) == (HIDDEN16 + mant) * Pow2(exp - 1) * Pow2(125)
  {
    hide Pow2;
    SmallPowers();
    Pow2Sum(exp - 1, 112);
    Pow2Sum(112, 13);
    Regroup2(HIDDEN16 + mant, Pow2(exp - 1), Pow2(112));
  }

  lemma Regroup2(m: nat, a: nat, b: nat)
    ensures (m * 0x2000) * (a * b) == m * a * (b * 0x2000)
  {
  }

  // ---- rounding ----

  function Dist(a: nat, b: nat): nat {
    if a <= b then b - a else a - b
  }

  /** No binary16 is nearer, and of two equally near ones this is the even one (section 4.3.1). */
  ghost predicate NearestEven(v: nat, m: nat) {
    && m <= INFINITY16
    && forall n: nat | n <= INFINITY16 ::
      Dist(v, Value16(m)) <= Dist(v, Value16(n)) && (n != m && Dist(v, Value16(m)) == Dist(v, Value16(n)) ==> m % 2 == 0)
  }

  /** The binades are laid end to end: this is also the value just past the end of one. */
  lemma BinadeValue(x: nat, k: nat)
    requires 1 <= x && k <= HIDDEN16
    ensures Value16(x * HIDDEN16 + k) == (HIDDEN16 + k) * Pow2(x - 1) * Pow2(125)
  {
    hide Pow2;
    if k == HIDDEN16 {
      SmallPowers();
      Pow2Sum(1, x - 1);
      assert (x * HIDDEN16 + k) / HIDDEN16 == x + 1 && (x * HIDDEN16 + k) % HIDDEN16 == 0;
      Doubled(HIDDEN16, Pow2(x - 1));
    } else {
      assert (x * HIDDEN16 + k) / HIDDEN16 == x && (x * HIDDEN16 + k) % HIDDEN16 == k;
    }
  }

  lemma Doubled(h: nat, p: nat)
    ensures h * (2 * p) == (h + h) * p
  {
  }

  lemma SmallValue(m: nat)
    requires m <= HIDDEN16
    ensures Value16(m) == m * Pow2(125)
  {
    hide Pow2;
    SmallPowers();
    assert m == HIDDEN16 ==> m / HIDDEN16 == 1 && m % HIDDEN16 == 0;
    assert m < HIDDEN16 ==> m / HIDDEN16 == 0 && m % HIDDEN16 == m;
  }

  lemma Scaled(a: nat, b: nat, p: nat, q: nat)
    requires a < b && p > 0 && q > 0
    ensures a * p * q < b * p * q
  {
    Grows(a, b, p);
    Grows(a * p, b * p, q);
  }

  lemma Grows(a: nat, b: nat, p: nat)
    requires a < b && p > 0
    ensures a * p < b * p
  {
  }

  lemma NextIsLarger(m: nat)
    ensures Value16(m) < Value16(m + 1)
  {
    hide Pow2, Value16;
    if m < HIDDEN16 {
      SmallValue(m);
      SmallValue(m + 1);
      Grows(m, m + 1, Pow2(125));
    } else {
      var x, k := m / HIDDEN16, m % HIDDEN16;
      BinadeValue(x, k);
      BinadeValue(x, k + 1);
      Scaled(HIDDEN16 + k, HIDDEN16 + k + 1, Pow2(x - 1), Pow2(125));
    }
  }

  lemma {:induction false} Larger(m: nat, n: nat)
    requires m < n
    ensures Value16(m) < Value16(n)
  {
    hide Value16;
    NextIsLarger(n - 1);
    if m < n - 1 {
      Larger(m, n - 1);
    }
  }

  /** Choosing between the two neighbours is choosing among all. */
  lemma Neighbours(v: nat, low: nat, m: nat)
    requires low < INFINITY16 && Value16(low) <= v < Value16(low + 1) && (m == low || m == low + 1)
    requires m == low ==> 2 * v <= Value16(low) + Value16(low + 1)
    requires m == low + 1 ==> 2 * v >= Value16(low) + Value16(low + 1)
    requires 2 * v == Value16(low) + Value16(low + 1) ==> m % 2 == 0
    ensures NearestEven(v, m)
  {
    hide Value16;
    forall n: nat | n <= INFINITY16
      ensures Dist(v, Value16(m)) <= Dist(v, Value16(n)) && (n != m && Dist(v, Value16(m)) == Dist(v, Value16(n)) ==> m % 2 == 0)
    {
      if n < low {
        Larger(n, low);
      } else if n > low + 1 {
        Larger(low + 1, n);
      }
    }
  }

  lemma BeyondAll(v: nat)
    requires v >= Value16(INFINITY16)
    ensures NearestEven(v, INFINITY16)
  {
    hide Value16;
    forall n: nat | n < INFINITY16
      ensures Value16(n) < Value16(INFINITY16)
    {
      Larger(n, INFINITY16);
    }
  }

  lemma TooLarge(s: Single)
    requires IsSingle(s) && s.exp != 255 && s.exp - 127 > 15
    ensures Value32(s) >= Value16(INFINITY16)
  {
    hide Pow2, Value16;
    BinadeValue(31, 0);
    SmallPowers();
    Pow2Sum(30, 125);
    Pow2Sum(13, 142);
    Pow2Sum(142, s.exp - 143);
    var top := Pow2(142);
    assert INFINITY16 == 31 * HIDDEN16 + 0;
    AtLeast(Pow2(s.exp - 143), top);
    TopFits(Pow2(30), Pow2(125), top, s.mant, Pow2(s.exp - 1));
  }

  lemma TopFits(a: nat, b: nat, top: nat, mant: nat, p: nat)
    requires a * b == 0x2000 * top && p >= top
    ensures (HIDDEN32 + mant) * p >= (HIDDEN16 + 0) * a * b
  {
    assert HIDDEN16 * a * b == HIDDEN16 * (a * b);
    assert (HIDDEN32 + mant) * p >= HIDDEN32 * p >= HIDDEN32 * top;
  }

  lemma TooSmall(s: Single)
    requires IsSingle(s) && s.exp - 127 < -25
    ensures 2 * Value32(s) < Pow2(125)
  {
    hide Pow2;
    SmallPowers();
    Pow2Sum(1, 124);
    Pow2Sum(11, 13);
    Pow2Sum(24, 100);
    AtLeast(Pow2(100), Pow2(24));
    if s.exp > 0 {
      Pow2Sum(s.exp - 1, 101 - s.exp);
      AtLeast(Pow2(101 - s.exp), Pow2(s.exp - 1));
      BottomFits(s.mant, Pow2(s.exp - 1), Pow2(100));
    }
  }

  lemma BottomFits(mant: nat, p: nat, q: nat)
    requires mant < HIDDEN32 && 0 < p <= q
    ensures (HIDDEN32 + mant) * p < 2 * HIDDEN32 * q
  {
    Grows(HIDDEN32 + mant, 2 * HIDDEN32, p);
    assert 2 * HIDDEN32 * p <= 2 * HIDDEN32 * q;
  }

  /** A value in the subnormal range: its quotient by the smallest step, rounded. */
  lemma SmallRounds(s: Single)
    requires IsSingle(s) && -25 <= s.exp - 127 < -14
    ensures NearestEven(Value32(s), EncodeMagnitude(s))
  {
    hide Pow2, Value16, Value32, EncodeMagnitude, NearestEven;
    var shift: nat, mant := 126 - s.exp, s.mant + HIDDEN32;
    var p, u := Pow2(shift), Pow2(s.exp - 1);
    var q, rem := mant / p, mant % p;
    SmallParts(s);
    QuotientSmall(mant, shift);
    Pow2Sum(shift, s.exp - 1);
    SmallPowers();
    Pow2Sum(1, shift - 1);
    SmallValue(q);
    SmallValue(q + 1);
    Split(mant, p);
    Between(q, rem, p, Pow2(shift - 1), u);
    Neighbours(Value32(s), q, EncodeMagnitude(s));
  }

  lemma SmallParts(s: Single)
    requires IsSingle(s) && -25 <= s.exp - 127 < -14
    ensures var shift: nat, mant := 126 - s.exp, s.mant + HIDDEN32;
      var q, rem, half := mant / Pow2(shift), mant % Pow2(shift), Pow2(shift - 1);
      && Value32(s) == mant * Pow2(s.exp - 1)
      && EncodeMagnitude(s) == if rem > half || (rem == half && q % 2 == 1) then q + 1 else q
  {
    hide Pow2;
  }

  lemma Split(mant: nat, p: nat)
    requires p > 0
    ensures mant == mant / p * p + mant % p && mant % p < p
  {
  }

  lemma QuotientSmall(mant: nat, shift: nat)
    requires mant < 2 * HIDDEN32 && shift >= 14
    ensures mant / Pow2(shift) < HIDDEN16
  {
    hide Pow2;
    SmallPowers();
    Pow2Sum(14, shift - 14);
    var q, rem, p := mant / Pow2(shift), mant % Pow2(shift), Pow2(shift);
    assert mant == q * p + rem;
  }

  /** Where a value stands between two multiples of a step, by its remainder. */
  lemma Between(q: nat, rem: nat, p: nat, half: nat, u: nat)
    requires p == 2 * half && rem < p && u > 0
    ensures var v, low, high := (q * p + rem) * u, q * (p * u), (q + 1) * (p * u);
      && low <= v < high
      && (rem < half ==> 2 * v < low + high) && (rem == half ==> 2 * v == low + high) && (rem > half ==> 2 * v > low + high)
  {
    assert (q * p + rem) * u == q * (p * u) + rem * u;
    assert (q + 1) * (p * u) == q * (p * u) + p * u;
    assert p * u == 2 * (half * u);
    Grows(rem, p, u);
    if rem < half {
      Grows(rem, half, u);
    } else if rem > half {
      Grows(half, rem, u);
    }
  }

  /** A value in the normal range and its two neighbours, in steps of the binade. */
  lemma NormalNeighbours(s: Single, x: nat, q: nat, rem: nat)
    requires IsSingle(s) && x + 112 == s.exp && 1 <= x && q == s.mant / 0x2000 && rem == s.mant % 0x2000
    ensures var u := Pow2(x + 111);
      && Value32(s) == ((HIDDEN16 + q) * 0x2000 + rem) * u
      && Value16(x * HIDDEN16 + q) == (HIDDEN16 + q) * (0x2000 * u)
      && Value16(x * HIDDEN16 + q + 1) == (HIDDEN16 + q + 1) * (0x2000 * u)
  {
    hide Pow2, Value16;
    BinadeValue(x, q);
    BinadeValue(x, q + 1);
    Pow2Sum(x - 1, 125);
    Pow2Sum(13, x + 111);
    SmallPowers();
    Factored(HIDDEN16 + q, Pow2(x - 1), Pow2(125));
    Factored(HIDDEN16 + q + 1, Pow2(x - 1), Pow2(125));
    assert HIDDEN32 + s.mant == (HIDDEN16 + q) * 0x2000 + rem;
  }

  /** A value in the normal range: its mantissa rounded at bit 13, with the carry taken into the exponent. */
  lemma NormalRounds(s: Single)
    requires IsSingle(s) && -14 <= s.exp - 127 <= 15
    ensures NearestEven(Value32(s), EncodeMagnitude(s))
  {
    hide *;
    var x: nat := s.exp - 112;
    var q, rem := s.mant / 0x2000, s.mant % 0x2000;
    NormalNeighbours(s, x, q, rem);
    Between(HIDDEN16 + q, rem, 0x2000, 0x1000, Pow2(x + 111));
    RoundedPattern(s, x, q, rem);
    Neighbours(Value32(s), x * HIDDEN16 + q, EncodeMagnitude(s));
  }

  lemma Factored(m: nat, a: nat, b: nat)
    ensures m * a * b == m * (a * b)
  {
  }

  lemma RoundedPattern(s: Single, x: nat, q: nat, rem: nat)
    requires IsSingle(s) && -14 <= s.exp - 127 <= 15 && x == s.exp - 112
    requires q == s.mant / 0x2000 && rem == s.mant % 0x2000
    ensures EncodeMagnitude(s) == x * HIDDEN16 + q + if rem > 0x1000 || (rem == 0x1000 && q % 2 == 1) then 1 else 0
    ensures x * HIDDEN16 + q < INFINITY16 && (rem == 0x1000 ==> EncodeMagnitude(s) % 2 == 0)
  {
    Even(x, q);
  }

  lemma Even(x: nat, q: nat)
    ensures (x * HIDDEN16 + q) % 2 == q % 2
  {
    assert x * HIDDEN16 == 2 * (x * 512);
  }

  /** float32ToFloat16 rounds every finite value to the nearest binary16, ties to even: subnormals, a carry out of the mantissa
      and overflow to infinity included. */
  lemma EncodesNearestEven(s: Single)
    requires IsSingle(s) && s.exp != 255
    ensures NearestEven(Value32(s), EncodeMagnitude(s))
    ensures Encode(s).sign == s.sign && Encode(s).exp * HIDDEN16 + Encode(s).mant == EncodeMagnitude(s)
  {
    hide Pow2, Value16;
    var exp := s.exp - 127;
    if exp > 15 {
      TooLarge(s);
      BeyondAll(Value32(s));
    } else if exp < -25 {
      TooSmall(s);
      SmallValue(0);
      SmallValue(1);
      Neighbours(Value32(s), 0, 0);
    } else if exp < -14 {
      SmallRounds(s);
    } else {
      NormalRounds(s);
    }
  }

  // ---- round trips ----

  /** Decoding then encoding gives back every one of the 65536 patterns: zeros, subnormals, normals, infinities and NaNs. */
  lemma RoundTrip(h: Half)
    requires IsHalf(h)
    ensures Encode(Decode(h)) == h
  {
    hide Pow2, Value16, Value32, EncodeMagnitude, Normalise;
    if h.exp == 31 {
      assert h.mant * 0x2000 / 0x2000 == h.mant;
    } else {
      var m := h.exp * HIDDEN16 + h.mant;
      DecodedValue(h);
      EncodesNearestEven(Decode(h));
      var m' := EncodeMagnitude(Decode(h));
      assert Dist(Value32(Decode(h)), Value16(m')) <= Dist(Value32(Decode(h)), Value16(m)) == 0;
      if m' < m {
        Larger(m', m);
      } else if m < m' {
        Larger(m, m');
      }
    }
  }

  function DecodeAll(payload: seq<uint16>): (v: seq<uint32>)
    ensures |v| == |payload|
  {
    seq(|payload|, i requires 0 <= i < |payload| => Bits32(Decode(Parts16(payload[i]))))
  }

  function EncodeAll(v: seq<uint32>): (payload: seq<uint16>)
    ensures |payload| == |v|
  {
    seq(|v|, i requires 0 <= i < |v| => Bits16(Encode(Parts32(v[i]))))
  }

  /** A payload of any length survives decoding and encoding bit for bit. */
  lemma PayloadRoundTrip(payload: seq<uint16>)
    ensures EncodeAll(DecodeAll(payload)) == payload
  {
    hide Decode, Encode, Parts16, Parts32, Bits16, Bits32;
    forall i | 0 <= i < |payload|
      ensures EncodeAll(DecodeAll(payload))[i] == payload[i]
    {
      RoundTrip(Parts16(payload[i]));
      Bits16OfParts(payload[i]);
    }
  }
}
