/** The ticket draw of the Lab 2 scheduler, as a function of the weight of every process slot
    (its tickets when RUNNABLE, otherwise 0) and of the generator's seed. */
module Lottery {
  import opened Rand

  /** The tickets held by the slots below k: the value `counter` has when the scan reaches slot k. */
  ghost function Before(weights: seq<nat>, k: nat): nat
    requires k <= |weights|
  {
    if k == 0 then 0 else Before(weights, k - 1) + weights[k - 1]
  }

  ghost function Total(weights: seq<nat>): nat {
    Before(weights, |weights|)
  }

  lemma {:induction false} BeforeMonotone(weights: seq<nat>, j: nat, k: nat)
    requires j <= k <= |weights|
    ensures Before(weights, j) <= Before(weights, k)
  {
    if j < k {
      BeforeMonotone(weights, j, k - 1);
    }
  }

  /** Slot i owns the tickets from Before(i) up to, but not including, Before(i + 1). */
  ghost predicate Owns(weights: seq<nat>, i: nat, ticket: nat) {
    i < |weights| && Before(weights, i) <= ticket < Before(weights, i + 1)
  }

  lemma OwnerUnique(weights: seq<nat>, i: nat, j: nat, ticket: nat)
    requires Owns(weights, i, ticket) && Owns(weights, j, ticket)
    ensures i == j
  {
    if i < j {
      BeforeMonotone(weights, i + 1, j);
    } else if j < i {
      BeforeMonotone(weights, j + 1, i);
    }
  }

  lemma {:induction false} OwnerExists(weights: seq<nat>, k: nat, ticket: nat) returns (i: nat)
    requires k <= |weights| && ticket < Before(weights, k)
    ensures i < k && Owns(weights, i, ticket)
  {
    if ticket < Before(weights, k - 1) {
      i := OwnerExists(weights, k - 1, ticket);
    } else {
      i := k - 1;
    }
  }

  /** `random_at_most(total - 1)`: the winning ticket. With a single ticket no number is drawn. */
  ghost function Ticket(total: nat, seed: Uint32): nat
    requires total > 0
  {
    if total == 1 then 0 else Next(seed) % total
  }

  ghost function SeedAfter(total: nat, seed: Uint32): Uint32 {
    if total <= 1 then seed else Next(seed)
  }

  /** Whether slot i wins the draw made with this seed. */
  ghost predicate WinsDraw(weights: seq<nat>, seed: Uint32, i: nat) {
    Total(weights) > 0 && Owns(weights, i, Ticket(Total(weights), seed))
  }

  /** Every draw with a ticket in play has exactly one winner, and that winner holds a ticket. */
  lemma ExactlyOneWinner(weights: seq<nat>, seed: Uint32)
    requires Total(weights) > 0
    ensures exists i: nat :: WinsDraw(weights, seed, i) && weights[i] > 0
    ensures forall i: nat, j: nat :: WinsDraw(weights, seed, i) && WinsDraw(weights, seed, j) ==> i == j
  {
    var ticket := Ticket(Total(weights), seed);
    var i := OwnerExists(weights, |weights|, ticket);
    assert WinsDraw(weights, seed, i) && weights[i] > 0;
    forall i: nat, j: nat | WinsDraw(weights, seed, i) && WinsDraw(weights, seed, j)
      ensures i == j
    {
      OwnerUnique(weights, i, j, ticket);
    }
  }

  // ---------------------------------------------------------------- proportional share

  /** The seed before draw number k of a run of draws that all see `total` tickets. */
  ghost function SeedAt(total: nat, seed: Uint32, k: nat): Uint32 {
    if k == 0 then seed else SeedAfter(total, SeedAt(total, seed, k - 1))
  }

  /** How many of the first n draws slot i wins, when draw k sees the weights history[k]. */
  ghost function Wins(history: seq<seq<nat>>, seed: Uint32, n: nat, i: nat): nat
    requires n <= |history|
  {
    if n == 0 then 0
    else Wins(history, seed, n - 1, i)
         + if WinsDraw(history[n - 1], SeedAt(Total(history[n - 1]), seed, n - 1), i) then 1 else 0
  }

  lemma {:induction false} SeedAtIsIter(total: nat, seed: Uint32, k: nat)
    requires total >= 2
    ensures SeedAt(total, seed, k) == Iter(k, seed)
  {
    if k > 0 {
      SeedAtIsIter(total, seed, k - 1);
    }
  }

  lemma {:induction false} WinsAreLandings(history: seq<seq<nat>>, weights: seq<nat>, seed: Uint32, n: nat, i: nat)
    requires n <= |history| && forall k :: 0 <= k < n ==> history[k] == weights
    requires i < |weights| && Total(weights) >= 2
    ensures Wins(history, seed, n, i) == Landings(seed, n, Total(weights), Before(weights, i), Before(weights, i + 1))
  {
    if n > 0 {
      WinsAreLandings(history, weights, seed, n - 1, i);
      SeedAtIsIter(Total(weights), seed, n - 1);
    }
  }

  /** Over 2^32 consecutive draws that see the same tickets, the wins of slot i are counted exactly: its tickets
      times the whole rounds, plus what its interval gets of the last incomplete round. */
  lemma ExactShare(history: seq<seq<nat>>, weights: seq<nat>, seed: Uint32, i: nat)
    requires |history| == MODULUS && forall k :: 0 <= k < |history| ==> history[k] == weights
    requires i < |weights| && 2 <= Total(weights)
    ensures Wins(history, seed, MODULUS, i) == Share(MODULUS, Total(weights), Before(weights, i), Before(weights, i + 1))
  {
    BeforeMonotone(weights, i + 1, |weights|);
    WinsAreLandings(history, weights, seed, MODULUS, i);
    LandingsOverFullPeriod(seed, Total(weights), Before(weights, i), Before(weights, i + 1));
  }

  /** Proportional share: a slot wins its tickets times 2^32 / total, rounded down or up for every ticket, so a
      runnable process never starves. */
  lemma ProportionalShare(history: seq<seq<nat>>, weights: seq<nat>, seed: Uint32, i: nat)
    requires |history| == MODULUS && forall k :: 0 <= k < |history| ==> history[k] == weights
    requires i < |weights| && 2 <= Total(weights) < 0x8000_0000
    ensures weights[i] * (MODULUS / Total(weights)) <= Wins(history, seed, MODULUS, i)
    ensures Wins(history, seed, MODULUS, i) <= weights[i] * (MODULUS / Total(weights) + 1)
    ensures weights[i] > 0 ==> Wins(history, seed, MODULUS, i) > 0
  {
    var total, lo, hi := Total(weights), Before(weights, i), Before(weights, i + 1);
    ExactShare(history, weights, seed, i);
    BeforeMonotone(weights, i + 1, |weights|);
    RoundsAreMany(total);
    ShareBounds(MODULUS / total, MODULUS % total, lo, hi);
  }

  lemma RoundsAreMany(total: nat)
    requires 0 < total < 0x8000_0000
    ensures MODULUS / total >= 1
  {
  }

  lemma ShareBounds(q: nat, r: nat, lo: nat, hi: nat)
    requires lo <= hi
    ensures (hi - lo) * q <= (hi - lo) * q + Clip(r, lo, hi) <= (hi - lo) * (q + 1)
    ensures hi > lo && q >= 1 ==> (hi - lo) * q > 0
  {
    assert (hi - lo) * (q + 1) == (hi - lo) * q + (hi - lo);
  }
}
