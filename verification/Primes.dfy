/** What a chain of filters computes: each keeps its first number and passes on what that number does not divide. The
    first numbers are exactly the primes. */
module Primes {
  import opened DivMod

  predicate Divides(d: nat, n: nat) {
    d > 0 && n % d == 0
  }

  predicate IsPrime(n: nat) {
    n >= 2 && forall d: nat :: 2 <= d < n ==> !Divides(d, n)
  }

  function Range(lo: nat, hi: nat): (s: seq<nat>)
    ensures |s| == if lo <= hi then hi - lo + 1 else 0
    ensures forall i :: 0 <= i < |s| ==> s[i] == lo + i
  {
    seq(if lo <= hi then hi - lo + 1 else 0, i => lo + i)
  }

  /** The numbers of s that p does not divide, in order. */
  function Filter(s: seq<nat>, p: nat): (r: seq<nat>)
    requires p > 0
    ensures |r| <= |s|
  {
    if s == [] then [] else Filter(s[..|s| - 1], p) + if !Divides(p, s[|s| - 1]) then [s[|s| - 1]] else []
  }

  predicate Positive(s: seq<nat>) {
    forall i :: 0 <= i < |s| ==> s[i] > 0
  }

  lemma {:induction false} FilterPositive(s: seq<nat>, p: nat)
    requires p > 0 && Positive(s)
    ensures Positive(Filter(s, p))
  {
    if s != [] {
      FilterPositive(s[..|s| - 1], p);
    }
  }

  /** What one filter process passes on. */
  function Pass(s: seq<nat>): (r: seq<nat>)
    requires Positive(s)
    ensures Positive(r) && (s != [] ==> |r| < |s|)
  {
    if s == [] then [] else
      FilterPositive(s[1..], s[0]);
      Filter(s[1..], s[0])
  }

  /** What a chain of filters prints, one number a process. */
  function Heads(s: seq<nat>): (r: seq<nat>)
    requires Positive(s)
    decreases |s|
  {
    if s == [] then [] else [s[0]] + Heads(Pass(s))
  }

  function PrimesFrom(m: nat, n: nat): (r: seq<nat>)
    decreases n + 1 - m
  {
    if m > n then [] else (if IsPrime(m) then [m] else []) + PrimesFrom(m + 1, n)
  }

  // ---------------------------------------------------------------- rough numbers

  /** No number from 2 up to but without m divides x. */
  predicate Rough(x: nat, m: nat) {
    forall d: nat :: 2 <= d < m ==> !Divides(d, x)
  }

  /** The numbers from lo to n that no smaller candidate than m divides. */
  function RoughFrom(lo: nat, m: nat, n: nat): (r: seq<nat>)
    requires lo > 0
    ensures Positive(r)
    decreases n + 1 - lo
  {
    if lo > n then [] else (if Rough(lo, m) then [lo] else []) + RoughFrom(lo + 1, m, n)
  }

  lemma DividesTrans(e: nat, d: nat, x: nat)
    requires Divides(e, d) && Divides(d, x)
    ensures Divides(e, x)
  {
    var a, b := d / e, x / d;
    DivModExists(d, e);
    DivModExists(x, d);
    assert x == e * (a * b) + 0 by {
      assert (e * a) * b == e * (a * b);
    }
    DivModUnique(x, e, a * b, 0);
  }

  /** A number from m on that no smaller number than m divides is prime unless one such number below it divides it. */
  lemma {:induction false} RoughDivisor(x: nat, m: nat, d: nat)
    requires m >= 2 && Rough(x, m) && 2 <= d && Divides(d, x)
    ensures d >= m && Rough(d, m)
  {
    forall e: nat | 2 <= e < m
      ensures !Divides(e, d)
    {
      if Divides(e, d) {
        DividesTrans(e, d, x);
      }
    }
  }

  /** Up to the first rough number there is nothing; that one is prime. */
  lemma {:induction false} FirstRoughIsPrime(lo: nat, m: nat, n: nat)
    requires 2 <= m <= lo && (forall y: nat :: m <= y < lo ==> !Rough(y, m)) && lo <= n && Rough(lo, m)
    ensures IsPrime(lo)
  {
    forall d: nat | 2 <= d < lo
      ensures !Divides(d, lo)
    {
      if Divides(d, lo) {
        RoughDivisor(lo, m, d);
      }
    }
  }

  /** A number before the first rough number is not prime. */
  lemma NotRoughNotPrime(x: nat, m: nat)
    requires 2 <= m <= x && !Rough(x, m)
    ensures !IsPrime(x)
  {
  }

  /** With the first rough number h known, being rough up to h means not being divided by h. */
  lemma RoughNext(x: nat, m: nat, h: nat)
    requires 2 <= m <= h < x && (forall y: nat :: m <= y < h ==> !Rough(y, m))
    ensures Rough(x, h + 1) <==> Rough(x, m) && !Divides(h, x)
  {
    hide Divides;
    if Rough(x, m) && !Divides(h, x) {
      forall d: nat | 2 <= d < h + 1
        ensures !Divides(d, x)
      {
        if Divides(d, x) && d != h {
          RoughDivisor(x, m, d);
        }
      }
    }
  }

  lemma {:induction false} FilterCons(x: nat, s: seq<nat>, p: nat)
    requires p > 0
    ensures Filter([x] + s, p) == (if !Divides(p, x) then [x] else []) + Filter(s, p)
  {
    hide Divides;
    if s == [] {
      assert ([x] + s)[..0] == [];
    } else {
      assert ([x] + s)[..|s|] == [x] + s[..|s| - 1];
      FilterCons(x, s[..|s| - 1], p);
    }
  }

  lemma {:induction false} FilterRough(lo: nat, m: nat, h: nat, n: nat)
    requires 2 <= m <= h < lo && (forall y: nat :: m <= y < h ==> !Rough(y, m))
    ensures Filter(RoughFrom(lo, m, n), h) == RoughFrom(lo, h + 1, n)
    decreases n + 1 - lo
  {
    hide Divides, Rough, Filter;
    if lo <= n {
      FilterRough(lo + 1, m, h, n);
      RoughNext(lo, m, h);
      var rest, passed := RoughFrom(lo + 1, m, n), RoughFrom(lo + 1, h + 1, n);
      if Rough(lo, m) {
        FilterCons(lo, rest, h);
        assert RoughFrom(lo, m, n) == [lo] + rest;
      } else {
        assert RoughFrom(lo, m, n) == [] + rest == rest;
      }
      assert RoughFrom(lo, h + 1, n) == (if Rough(lo, h + 1) then [lo] else []) + passed;
      assert [] + passed == passed;
    }
  }

  lemma {:induction false} HeadsArePrimes(lo: nat, m: nat, n: nat)
    requires 2 <= m <= lo && (forall y: nat :: m <= y < lo ==> !Rough(y, m))
    ensures Heads(RoughFrom(lo, m, n)) == PrimesFrom(lo, n)
    decreases n + 1 - lo
  {
    hide Divides, Rough, IsPrime, Filter;
    if lo <= n {
      if Rough(lo, m) {
        FirstRoughIsPrime(lo, m, n);
        var s, rest := RoughFrom(lo, m, n), RoughFrom(lo + 1, m, n);
        assert s == [lo] + rest;
        assert s[1..] == rest;
        FilterRough(lo + 1, m, lo, n);
        HeadsArePrimes(lo + 1, lo + 1, n);
        assert Heads(s) == [lo] + Heads(RoughFrom(lo + 1, lo + 1, n));
      } else {
        NotRoughNotPrime(lo, m);
        HeadsArePrimes(lo + 1, m, n);
        assert RoughFrom(lo, m, n) == [] + RoughFrom(lo + 1, m, n) == RoughFrom(lo + 1, m, n);
        assert [] + PrimesFrom(lo + 1, n) == PrimesFrom(lo + 1, n);
      }
    }
  }

  lemma {:induction false} AllRough(lo: nat, n: nat)
    requires lo >= 2
    ensures RoughFrom(lo, 2, n) == Range(lo, n)
    decreases n + 1 - lo
  {
    if lo <= n {
      AllRough(lo + 1, n);
      assert Range(lo, n) == [lo] + Range(lo + 1, n);
    }
  }

  /** The sieve of Eratosthenes: fed with 2 to n, the chain prints exactly the primes up to n, in ascending order. */
  lemma Eratosthenes(n: nat)
    ensures Positive(Range(2, n)) && Heads(Range(2, n)) == PrimesFrom(2, n)
  {
    AllRough(2, n);
    HeadsArePrimes(2, 2, n);
  }
}
