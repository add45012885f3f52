/** The linear congruential generator of Lab 2 (`rand.c`): 32-bit unsigned state, one
    multiplication and one addition per draw, all modulo 2^32. */
module Rand {
  import opened DivMod

  const A: nat := 1664525
  const C: nat := 1013904223
  /** One more than the mask 0xFFFFFFFF: the number of values a 32-bit `uint` can take. */
  const MODULUS: nat := 0x1_0000_0000

  type Uint32 = n: int | 0 <= n < 0x1_0000_0000

  /** One step of the generator on mathematical integers. */
  function Next(x: Uint32): Uint32 {
    (A * x + C) % MODULUS
  }

  /** The static variable `seed` and the three functions that read or overwrite it. */
  class Generator {
    var seed: Uint32

    constructor ()
      ensures seed == 1
    {
      seed := 1;
    }

    method RandInit()
      modifies this
      ensures seed == 1
    {
      seed := 1;
    }

    /** Multiplication and addition each wrap at 32 bits before the mask is applied. */
    method NextRand() returns (r: Uint32)
      modifies this
      ensures r == seed == Next(old(seed)) == (1664525 * old(seed) + 1013904223) % 0x1_0000_0000
    {
      var product: Uint32 := (A * seed) % MODULUS;
      var sum: Uint32 := (product + C) % MODULUS;
      assert sum == Next(seed) by { WrapTwice(A * seed, C); }
      seed := sum;
      r := seed;
    }

    /** `max + 1` wraps to a zero divisor when `max` is the largest `uint`, so callers must not pass it. */
    method RandomAtMost(max: Uint32) returns (r: Uint32)
      requires max < MODULUS - 1
      modifies this
      ensures max == 0 ==> r == 0 && seed == old(seed)
      ensures max > 0 ==> seed == Next(old(seed)) && r == seed % (max + 1)
      ensures r <= max
    {
      if max == 0 {
        return 0;
      }
      var x := NextRand();
      r := x % (max + 1);
    }
  }

  lemma WrapTwice(a: nat, b: nat)
    ensures (a % MODULUS + b) % MODULUS == (a + b) % MODULUS
  {
    assert a == MODULUS * (a / MODULUS) + a % MODULUS;
    ModAddMultiple(a % MODULUS + b, a / MODULUS, MODULUS);
  }

  lemma ModAddMultiple(r: nat, q: int, m: nat)
    requires m > 0 && r + q * m >= 0
    ensures (r + q * m) % m == r % m
  {
    var s := r + q * m;
    assert s - r == q * m;
    DivModUnique(s, m, r / m + q, r % m) by {
      assert r == m * (r / m) + r % m;
      assert m * (r / m + q) == m * (r / m) + m * q;
    }
  }

  // ---------------------------------------------------------------- iterates

  /** The state after `n` draws from state `x`. */
  ghost function Iter(n: nat, x: Uint32): Uint32 {
    if n == 0 then x else Next(Iter(n - 1, x))
  }

  lemma {:induction false} IterAdd(m: nat, n: nat, x: Uint32)
    ensures Iter(m + n, x) == Iter(m, Iter(n, x))
  {
    if m > 0 {
      IterAdd(m - 1, n, x);
    }
  }

  /** The iterate before any reduction. */
  ghost function Unwrapped(n: nat, x: nat): nat {
    if n == 0 then x else A * Unwrapped(n - 1, x) + C
  }

  /** The geometric sum 1 + A + ... + A^(n-1). */
  ghost function Geo(n: nat): nat {
    if n == 0 then 0 else A * Geo(n - 1) + 1
  }

  ghost function PowA(n: nat): nat {
    if n == 0 then 1 else A * PowA(n - 1)
  }

  lemma {:induction false} IterIsUnwrapped(n: nat, x: Uint32)
    ensures Iter(n, x) == Unwrapped(n, x) % MODULUS
  {
    if n > 0 {
      IterIsUnwrapped(n - 1, x);
      var u := Unwrapped(n - 1, x);
      assert A * u + C == A * (u % MODULUS) + C + A * (u / MODULUS) * MODULUS;
      ModAddMultiple(A * (u % MODULUS) + C, A * (u / MODULUS), MODULUS);
    }
  }

  lemma {:induction false} UnwrappedClosedForm(n: nat, x: nat)
    ensures Unwrapped(n, x) == x + Geo(n) * ((A - 1) * x + C)
  {
    if n > 0 {
      UnwrappedClosedForm(n - 1, x);
      var g, d := Geo(n - 1), (A - 1) * x + C;
      calc {
        A * (x + g * d) + C;
        x + d + A * (g * d);
        { assert A * (g * d) == (A * g) * d; }
        x + (A * g + 1) * d;
      }
    }
  }

  // ---------------------------------------------------------------- powers of two

  /** 2^k divides n. */
  ghost predicate TwoPowDivides(k: nat, n: nat) {
    k == 0 || (n % 2 == 0 && TwoPowDivides(k - 1, n / 2))
  }

  ghost function Pow2(k: nat): nat {
    if k == 0 then 1 else 2 * Pow2(k - 1)
  }

  lemma {:induction false} TwoPowDividesIsMod(k: nat, n: nat)
    ensures Pow2(k) > 0
    ensures TwoPowDivides(k, n) <==> n % Pow2(k) == 0
  {
    if k > 0 {
      TwoPowDividesIsMod(k - 1, n / 2);
      DoubleModulus(n, Pow2(k - 1));
    }
  }

  lemma DoubleModulus(n: nat, p: nat)
    requires p > 0
    ensures n % (2 * p) == 2 * ((n / 2) % p) + n % 2
  {
    var h := n / 2;
    DivModExists(h, p);
    assert 2 * p * (h / p) == 2 * (p * (h / p));
    DivModUnique(n, 2 * p, h / p, 2 * (h % p) + n % 2);
  }

  lemma Pow2Of32()
    ensures Pow2(32) == MODULUS
  {
    assert Pow2(8) == 256;
    assert Pow2(16) == 65536;
    assert Pow2(24) == 16777216;
  }

  lemma {:induction false} OddFactor(k: nat, s: nat, o: nat)
    requires o % 2 == 1
    ensures TwoPowDivides(k, s * o) <==> TwoPowDivides(k, s)
  {
    if k > 0 {
      var q := o / 2;
      assert s * o == 2 * (s * q) + s;
      if s % 2 == 0 {
        var t := s / 2;
        assert s * o == 2 * (t * o) by { assert s == 2 * t; }
        OddFactor(k - 1, t, o);
      }
    }
  }

  lemma {:induction false} PowAModFour(n: nat)
    ensures PowA(n) % 4 == 1
  {
    if n > 0 {
      PowAModFour(n - 1);
      TimesAModFour(PowA(n - 1));
    }
  }

  lemma {:induction false} GeoAdd(m: nat, n: nat)
    ensures Geo(m + n) == Geo(m) + PowA(m) * Geo(n)
  {
    if m > 0 {
      GeoAdd(m - 1, n);
      assert A * (PowA(m - 1) * Geo(n)) == (A * PowA(m - 1)) * Geo(n);
    }
  }

  lemma {:induction false} GeoParity(n: nat)
    ensures Geo(n) % 2 == n % 2
  {
    if n > 0 {
      GeoParity(n - 1);
      assert Geo(n) == 2 * (832262 * Geo(n - 1)) + Geo(n - 1) + 1;
    }
  }

  /** Doubling the number of terms multiplies the sum by twice an odd number. */
  lemma GeoDouble(m: nat) returns (o: nat)
    ensures o % 2 == 1 && Geo(m + m) == 2 * (Geo(m) * o)
  {
    o := TwiceAnOdd(m);
    GeoAdd(m, m);
    FactorOut(Geo(m), PowA(m), o);
  }

  lemma TwiceAnOdd(m: nat) returns (o: nat)
    ensures PowA(m) + 1 == 2 * o && o % 2 == 1
  {
    PowAModFour(m);
    o := OddHalf(PowA(m));
  }

  lemma OddHalf(a: nat) returns (o: nat)
    requires a % 4 == 1
    ensures a + 1 == 2 * o && o % 2 == 1
  {
    o := a / 4 * 2 + 1;
  }

  lemma TimesAModFour(a: nat)
    requires a % 4 == 1
    ensures (A * a) % 4 == 1
  {
    var q := a / 4;
    assert A * a == 4 * (A * q + 416131) + 1;
  }

  lemma FactorOut(g: nat, a: nat, o: nat)
    requires a + 1 == 2 * o
    ensures g + a * g == 2 * (g * o)
  {
    assert g + a * g == g * (a + 1) == g * (2 * o);
  }

  lemma HalvesDivide(k: nat, n: nat, h: nat)
    requires k > 0 && n == 2 * h
    ensures TwoPowDivides(k, n) <==> TwoPowDivides(k - 1, h)
  {
    assert n / 2 == h;
  }

  /** The geometric sum and its number of terms are divisible by the same powers of two. */
  lemma {:induction false} GeoTwoAdic(k: nat, n: nat)
    ensures TwoPowDivides(k, Geo(n)) <==> TwoPowDivides(k, n)
  {
    if k > 0 && n % 2 == 1 {
      GeoParity(n);
    } else if k > 0 {
      var m := n / 2;
      var o := GeoDouble(m);
      HalvesDivide(k, Geo(n), Geo(m) * o);
      HalvesDivide(k, n, m);
      OddFactor(k - 1, Geo(m), o);
      GeoTwoAdic(k - 1, m);
    }
  }

  // ---------------------------------------------------------------- full period

  ghost function Multiplier(x: Uint32): nat {
    (A - 1) * x + C
  }

  lemma ReturnsIff(n: nat, x: Uint32)
    ensures Iter(n, x) == x <==> (Geo(n) * Multiplier(x)) % MODULUS == 0
  {
    IterIsUnwrapped(n, x);
    UnwrappedClosedForm(n, x);
    SameResidue(x, Geo(n) * Multiplier(x));
  }

  lemma MultiplierIsOdd(x: Uint32)
    ensures Multiplier(x) % 2 == 1
  {
    assert Multiplier(x) == 2 * (832262 * x + 506952111) + 1;
  }

  lemma PeriodDivides(k: nat, n: nat, d: nat)
    requires d % 2 == 1
    ensures Pow2(k) > 0 && ((Geo(n) * d) % Pow2(k) == 0 <==> n % Pow2(k) == 0)
  {
    TwoPowDividesIsMod(k, Geo(n) * d);
    OddFactor(k, Geo(n), d);
    GeoTwoAdic(k, n);
    TwoPowDividesIsMod(k, n);
  }

  /** The generator returns to a state after n draws exactly when n is a multiple of 2^32. */
  lemma FullPeriod(n: nat, x: Uint32)
    ensures Iter(n, x) == x <==> n % MODULUS == 0
  {
    ReturnsIff(n, x);
    MultiplierIsOdd(x);
    Pow2Of32();
    PeriodDivides(32, n, Multiplier(x));
  }

  lemma SameResidue(x: Uint32, p: nat)
    ensures (x + p) % MODULUS == x <==> p % MODULUS == 0
  {
  }

  /** Two states of one run coincide exactly when they lie a multiple of 2^32 draws apart. */
  lemma RevisitIff(i: nat, j: nat, x: Uint32)
    requires i <= j
    ensures Iter(i, x) == Iter(j, x) <==> (j - i) % MODULUS == 0
  {
    IterAdd(j - i, i, x);
    FullPeriod(j - i, Iter(i, x));
  }

  /** The states met in the first n draws, the start included. */
  ghost function Orbit(x: Uint32, n: nat): set<Uint32> {
    if n == 0 then {} else Orbit(x, n - 1) + {Iter(n - 1, x)}
  }

  /** The integers 0, ..., n - 1. */
  ghost function Below(n: nat): set<int> {
    if n == 0 then {} else Below(n - 1) + {n - 1}
  }

  lemma {:induction false} BelowMembers(n: nat)
    ensures forall y :: y in Below(n) <==> 0 <= y < n
  {
    if n > 0 {
      BelowMembers(n - 1);
    }
  }

  lemma {:induction false} BelowSize(n: nat)
    ensures |Below(n)| == n
  {
    BelowMembers(n);
    if n > 0 {
      BelowSize(n - 1);
      BelowMembers(n - 1);
    }
  }

  lemma {:induction false} OrbitMembers(x: Uint32, n: nat, y: Uint32)
    ensures y in Orbit(x, n) ==> exists i: nat :: i < n && Iter(i, x) == y
  {
    if n > 0 && y in Orbit(x, n - 1) {
      OrbitMembers(x, n - 1, y);
    }
  }

  lemma {:induction false} OrbitFresh(x: Uint32, n: nat)
    requires n < MODULUS
    ensures Iter(n, x) !in Orbit(x, n)
  {
    OrbitMembers(x, n, Iter(n, x));
    forall i: nat | i < n
      ensures Iter(i, x) != Iter(n, x)
    {
      RevisitIff(i, n, x);
    }
  }

  lemma {:induction false} OrbitSize(x: Uint32, n: nat)
    requires n <= MODULUS
    ensures |Orbit(x, n)| == n
  {
    if n > 0 {
      OrbitSize(x, n - 1);
      OrbitFresh(x, n - 1);
    }
  }

  lemma OrbitIsEverything(x: Uint32, n: nat)
    requires n == MODULUS
    ensures Orbit(x, n) == Below(n)
  {
    OrbitSize(x, n);
    BelowSize(n);
    BelowMembers(n);
    SubsetOfSameSize(Orbit(x, n), Below(n));
  }

  lemma SubsetOfSameSize(a: set<int>, b: set<int>)
    requires a <= b && |a| == |b|
    ensures a == b
  {
    assert |b - a| == 0;
  }

  lemma OrbitInjective(x: Uint32, n: nat, i: nat, j: nat)
    requires n <= MODULUS && i < n && j < n && Iter(i, x) == Iter(j, x)
    ensures i == j
  {
    if i <= j {
      RevisitIff(i, j, x);
    } else {
      RevisitIff(j, i, x);
    }
  }

  lemma Reaches(x: Uint32, y: Uint32, n: nat) returns (i: nat)
    requires n == MODULUS
    ensures i < n && Iter(i, x) == y
  {
    OrbitIsEverything(x, n);
    BelowMembers(n);
    OrbitMembers(x, n, y);
    i :| i < n && Iter(i, x) == y;
  }

  /** From any seed, every 32-bit value is the state after exactly one number of draws below 2^32. */
  lemma VisitsEveryValueOnce(x: Uint32, y: Uint32)
    ensures exists i: nat :: i < MODULUS && Iter(i, x) == y && forall j: nat :: j < MODULUS && Iter(j, x) == y ==> j == i
  {
    var i := Reaches(x, y, MODULUS);
    forall j: nat | j < MODULUS && Iter(j, x) == y
      ensures j == i
    {
      OrbitInjective(x, MODULUS, j, i);
    }
  }

  // ---------------------------------------------------------------- counting draws

  /** Whether a draw with this new state, reduced modulo `total`, lands in [lo, hi). */
  ghost predicate Lands(y: int, total: nat, lo: nat, hi: nat)
    requires total > 0
  {
    lo <= y % total < hi
  }

  /** How many of the next n draws from state x land in [lo, hi). */
  ghost function Landings(x: Uint32, n: nat, total: nat, lo: nat, hi: nat): nat
    requires total > 0
  {
    if n == 0 then 0
    else Landings(x, n - 1, total, lo, hi) + if Lands(Iter(n, x), total, lo, hi) then 1 else 0
  }

  ghost function Filter(s: set<int>, total: nat, lo: nat, hi: nat): set<int>
    requires total > 0
  {
    set y | y in s && Lands(y, total, lo, hi)
  }

  lemma {:induction false} LandingsCountOrbit(x: Uint32, n: nat, total: nat, lo: nat, hi: nat)
    requires total > 0 && n <= MODULUS
    ensures Landings(x, n, total, lo, hi) == |Filter(Orbit(Next(x), n), total, lo, hi)|
  {
    if n > 0 {
      LandingsCountOrbit(x, n - 1, total, lo, hi);
      var y := Iter(n - 1, Next(x));
      IterAdd(n - 1, 1, x);
      assert Iter(1, x) == Next(x) by { assert Iter(0, x) == x; }
      assert y == Iter(n, x);
      OrbitFresh(Next(x), n - 1);
      var before := Filter(Orbit(Next(x), n - 1), total, lo, hi);
      assert y !in before;
      assert Filter(Orbit(Next(x), n), total, lo, hi) == if Lands(y, total, lo, hi) then before + {y} else before;
    } else {
      assert Filter(Orbit(Next(x), 0), total, lo, hi) == {};
    }
  }

  /** The part of [lo, hi) below r. */
  ghost function Clip(r: nat, lo: nat, hi: nat): nat
    requires lo <= hi
  {
    if r <= lo then 0 else if r >= hi then hi - lo else r - lo
  }

  lemma FilterStep(m: nat, total: nat, lo: nat, hi: nat)
    requires 0 < m && 0 < total
    ensures |Filter(Below(m), total, lo, hi)| == |Filter(Below(m - 1), total, lo, hi)| + if Lands(m - 1, total, lo, hi) then 1 else 0
  {
    BelowMembers(m - 1);
    var before := Filter(Below(m - 1), total, lo, hi);
    assert Filter(Below(m), total, lo, hi) == if Lands(m - 1, total, lo, hi) then before + {m - 1} else before;
  }

  /** The number of integers below m whose residue lies in [lo, hi), in closed form. */
  ghost function Share(m: nat, total: nat, lo: nat, hi: nat): nat
    requires 0 < total && lo <= hi
  {
    (hi - lo) * (m / total) + Clip(m % total, lo, hi)
  }

  lemma ShareStep(m: nat, total: nat, lo: nat, hi: nat)
    requires 0 < total && lo <= hi <= total
    ensures Share(m + 1, total, lo, hi) == Share(m, total, lo, hi) + if Lands(m, total, lo, hi) then 1 else 0
  {
    var t := hi - lo;
    var q, r := m / total, m % total;
    DivModExists(m, total);
    if r == total - 1 {
      DivModUnique(m + 1, total, q + 1, 0) by { assert total * (q + 1) == total * q + total; }
      assert t * (q + 1) == t * q + t;
    } else {
      DivModUnique(m + 1, total, q, r + 1);
    }
  }

  lemma {:induction false} ResiduesBelow(m: nat, total: nat, lo: nat, hi: nat)
    requires 0 < total && lo <= hi <= total
    ensures |Filter(Below(m), total, lo, hi)| == Share(m, total, lo, hi)
  {
    if m == 0 {
      assert Filter(Below(0), total, lo, hi) == {};
      DivModUnique(0, total, 0, 0);
    } else {
      ResiduesBelow(m - 1, total, lo, hi);
      FilterStep(m, total, lo, hi);
      ShareStep(m - 1, total, lo, hi);
    }
  }

  /** Over any 2^32 consecutive draws the landings in [lo, hi) are counted exactly, whatever the seed. */
  lemma LandingsOverFullPeriod(x: Uint32, total: nat, lo: nat, hi: nat)
    requires 0 < total && lo <= hi <= total
    ensures Landings(x, MODULUS, total, lo, hi) == Share(MODULUS, total, lo, hi)
  {
    LandingsCountOrbit(x, MODULUS, total, lo, hi);
    OrbitIsEverything(Next(x), MODULUS);
    ResiduesBelow(MODULUS, total, lo, hi);
  }
}
