/** What every interleaving of the buffer cache keeps: reference counts, one buffer a block, lists that match the
    used flags, and cached contents that agree with a flat block store. */
module BufInvariant {
  import opened BufProtocol

  // ---------------------------------------------------------------- what a position means

  /** The bucket lock the process holds. */
  function HeldBucket(pc: Pc): Option<nat> {
    match pc
    case GetScan(blk, _) => Some(Hash(blk))
    case GetFound(blk, _) => Some(Hash(blk))
    case GetFree(blk, _) => Some(Hash(blk))
    case GetTas(blk, _) => Some(Hash(blk))
    case GetInit(blk, _) => Some(Hash(blk))
    case GetInsert(blk, _) => Some(Hash(blk))
    case GetRelease(blk, _) => Some(Hash(blk))
    case PinHeld(_, _, v, _) => Some(v)
    case PinRelease(_, _, v) => Some(v)
    case RelHeld(_, _, v) => Some(v)
    case RelUnlink(_, v) => Some(v)
    case RelClear(_, v) => Some(v)
    case RelRelease(v) => Some(v)
    case Panicked(v) => Some(v)
    case _ => None
  }

  /** The buffer the process is waiting for, holding, or still releasing: it is counted in refcnt. */
  function Ref(pc: Pc): Option<nat> {
    match pc
    case GetInsert(_, b) => Some(b)
    case GetRelease(_, b) => Some(b)
    case GetSleep(_, b) => Some(b)
    case ReadTest(_, b) => Some(b)
    case ReadDisk(_, b) => Some(b)
    case ReadDone(_, b) => Some(b)
    case Hold(_, b) => Some(b)
    case PinHash(_, b, _) => Some(b)
    case PinLock(_, b, _, _) => Some(b)
    case PinHeld(_, b, _, _) => Some(b)
    case PinRelease(_, b, _) => Some(b)
    case RelHash(_, b) => Some(b)
    case RelLock(_, b, _) => Some(b)
    case RelHeld(_, b, _) => Some(b)
    case _ => None
  }

  /** The buffer whose sleep-lock the process holds. */
  function Holds(pc: Pc): Option<nat> {
    match pc
    case ReadTest(_, b) => Some(b)
    case ReadDisk(_, b) => Some(b)
    case ReadDone(_, b) => Some(b)
    case Hold(_, b) => Some(b)
    case PinHash(_, b, _) => Some(b)
    case PinLock(_, b, _, _) => Some(b)
    case PinHeld(_, b, _, _) => Some(b)
    case PinRelease(_, b, _) => Some(b)
    case _ => None
  }

  /** The used buffer that is in no list because the process is putting it in or has just taken it out. */
  function Claims(pc: Pc): Option<nat> {
    match pc
    case GetInit(_, b) => Some(b)
    case GetInsert(_, b) => Some(b)
    case RelClear(b, _) => Some(b)
    case _ => None
  }

  // ---------------------------------------------------------------- locks

  /** A process inside a bucket's critical section holds its lock. */
  ghost predicate Buckets(s: State) {
    && Sized(s)
    && (forall p :: 0 <= p < |s.pc| && HeldBucket(s.pc[p]).Some? ==>
          HeldBucket(s.pc[p]).value < NBUCKETS && s.bucketLock[HeldBucket(s.pc[p]).value] == Some(p))
  }

  /** The holder of a sleep-lock is exactly the process between acquiresleep and releasesleep. */
  ghost predicate Owners(s: State) {
    && (forall p :: 0 <= p < |s.pc| && Holds(s.pc[p]).Some? ==>
          Holds(s.pc[p]).value < |s.bufs| && s.bufs[Holds(s.pc[p]).value].owner == Some(p))
    && (forall b :: 0 <= b < |s.bufs| && s.bufs[b].owner.Some? ==>
          s.bufs[b].owner.value < |s.pc| && Holds(s.pc[s.bufs[b].owner.value]) == Some(b))
  }

  ghost predicate Locks(s: State) {
    Buckets(s) && Owners(s)
  }

  /** The buffer whose fields the next step of a process may store to. */
  function Target(pc: Pc): Option<nat> {
    match pc
    case GetFound(_, b) => Some(b)
    case GetTas(_, i) => Some(i)
    case GetInit(_, b) => Some(b)
    case GetSleep(_, b) => Some(b)
    case ReadDisk(_, b) => Some(b)
    case ReadDone(_, b) => Some(b)
    case Hold(_, b) => Some(b)
    case PinHeld(_, b, _, _) => Some(b)
    case RelHeld(_, b, _) => Some(b)
    case RelClear(b, _) => Some(b)
    case _ => None
  }

  /** Only process p moved and only its target buffer changed. */
  ghost predicate Touches(s: State, t: State, p: nat) {
    && Sized(s) && Sized(t) && p < |s.pc| == |t.pc| && |t.bufs| == |s.bufs|
    && t.pc == s.pc[p := t.pc[p]]
    && (match Target(s.pc[p])
        case None => t.bufs == s.bufs
        case Some(b) => b < |s.bufs| && t.bufs == s.bufs[b := t.bufs[b]])
  }

  ghost predicate BucketMove(s: State, t: State, p: nat)
    requires Sized(s) && Sized(t) && p < |s.pc| == |t.pc|
  {
    var before, after := HeldBucket(s.pc[p]), HeldBucket(t.pc[p]);
    || (before == after && t.bucketLock == s.bucketLock)
    || (before.None? && after.Some? && after.value < NBUCKETS && s.bucketLock[after.value].None?
        && t.bucketLock == s.bucketLock[after.value := Some(p)])
    || (before.Some? && after.None? && before.value < NBUCKETS && t.bucketLock == s.bucketLock[before.value := None])
  }

  ghost predicate OwnerMove(s: State, t: State, p: nat)
    requires Touches(s, t, p)
  {
    var before, after := Holds(s.pc[p]), Holds(t.pc[p]);
    var b := Target(s.pc[p]);
    || (before == after && (b.Some? ==> t.bufs[b.value].owner == s.bufs[b.value].owner))
    || (before.None? && after.Some? && b == after && s.bufs[b.value].owner.None? && t.bufs[b.value].owner == Some(p))
    || (before.Some? && after.None? && b == before && t.bufs[b.value].owner.None?)
  }

  ghost predicate Fits(s: State, t: State, p: nat) {
    Touches(s, t, p) && BucketMove(s, t, p) && OwnerMove(s, t, p)
  }

  lemma GetFits(s: State, p: nat, ch: Choice)
    requires Enabled(s, p, ch) && Getting(s.pc[p])
    ensures Fits(s, GetStep(s, p, ch), p)
  {
  }

  lemma HoldFits(s: State, p: nat, ch: Choice)
    requires Enabled(s, p, ch) && s.pc[p].Hold?
    ensures Fits(s, HoldStep(s, p, ch), p)
  {
  }

  lemma PinFits(s: State, p: nat, ch: Choice)
    requires Enabled(s, p, ch) && Pinning(s.pc[p])
    ensures Fits(s, PinStep(s, p, ch), p)
  {
  }

  lemma RelFits(s: State, p: nat, ch: Choice)
    requires Enabled(s, p, ch) && !Getting(s.pc[p]) && !s.pc[p].Hold? && !Pinning(s.pc[p])
    ensures Fits(s, RelStep(s, p, ch), p)
  {
  }

  lemma StepFits(s: State, p: nat, ch: Choice)
    requires Enabled(s, p, ch)
    ensures Fits(s, Step(s, p, ch), p)
  {
    if Getting(s.pc[p]) {
      GetFits(s, p, ch);
    } else if s.pc[p].Hold? {
      HoldFits(s, p, ch);
    } else if Pinning(s.pc[p]) {
      PinFits(s, p, ch);
    } else {
      RelFits(s, p, ch);
    }
  }

  lemma MoveKeepsLocks(s: State, t: State, p: nat)
    requires Locks(s) && Fits(s, t, p)
    ensures Locks(t)
  {
    MoveKeepsBuckets(s, t, p);
    MoveKeepsOwners(s, t, p);
  }

  lemma MoveKeepsBuckets(s: State, t: State, p: nat)
    requires Buckets(s) && Fits(s, t, p)
    ensures Buckets(t)
  {
  }

  lemma MoveKeepsOwners(s: State, t: State, p: nat)
    requires Owners(s) && Fits(s, t, p)
    ensures Owners(t)
  {
  }

  // ---------------------------------------------------------------- reference counts

  ghost function Count(pcs: seq<Pc>, b: nat): nat {
    if pcs == [] then 0 else (if Ref(pcs[0]) == Some(b) then 1 else 0) + Count(pcs[1..], b)
  }

  lemma {:induction false} CountMove(pcs: seq<Pc>, p: nat, pc: Pc, b: nat)
    requires p < |pcs|
    ensures Count(pcs[p := pc], b) ==
            Count(pcs, b) - (if Ref(pcs[p]) == Some(b) then 1 else 0) + (if Ref(pc) == Some(b) then 1 else 0)
  {
    if p == 0 {
      assert pcs[0 := pc][1..] == pcs[1..];
    } else {
      CountMove(pcs[1..], p - 1, pc, b);
      assert pcs[p := pc][1..] == pcs[1..][p - 1 := pc];
    }
  }

  lemma {:induction false} CountOne(pcs: seq<Pc>, p: nat, b: nat)
    requires p < |pcs| && Ref(pcs[p]) == Some(b)
    ensures Count(pcs, b) >= 1
  {
    if p > 0 {
      CountOne(pcs[1..], p - 1, b);
    }
  }

  /** The reference count of a buffer is its pins plus the processes waiting for, holding or releasing it. */
  ghost predicate Counted(s: State) {
    forall b :: 0 <= b < |s.bufs| ==> s.bufs[b].refcnt == s.bufs[b].pins + Count(s.pc, b)
  }

  lemma MoveKeepsCount(s: State, t: State, p: nat)
    requires Counted(s) && p < |s.pc| == |t.pc| && |t.bufs| == |s.bufs| && t.pc == s.pc[p := t.pc[p]]
    requires forall b :: 0 <= b < |s.bufs| ==>
               t.bufs[b].refcnt - t.bufs[b].pins == s.bufs[b].refcnt - s.bufs[b].pins
               - (if Ref(s.pc[p]) == Some(b) then 1 else 0) + (if Ref(t.pc[p]) == Some(b) then 1 else 0)
    ensures Counted(t)
  {
    forall b | 0 <= b < |t.bufs|
      ensures t.bufs[b].refcnt == t.bufs[b].pins + Count(t.pc, b)
    {
      CountMove(s.pc, p, t.pc[p], b);
    }
  }

  /** How a step of p changes the counts: only its target's, and by as much as p starts or stops counting. */
  ghost predicate CountShift(s: State, t: State, p: nat)
    requires Touches(s, t, p)
  {
    var before, after, target := Ref(s.pc[p]), Ref(t.pc[p]), Target(s.pc[p]);
    && (before != after ==> target.Some? && (before == None || before == target) && (after == None || after == target))
    && (target.Some? ==>
          var b := target.value;
          t.bufs[b].refcnt - t.bufs[b].pins == s.bufs[b].refcnt - s.bufs[b].pins
            - (if before == target then 1 else 0) + (if after == target then 1 else 0))
  }

  lemma GetShift(s: State, p: nat, ch: Choice)
    requires Enabled(s, p, ch) && Getting(s.pc[p]) && Touches(s, GetStep(s, p, ch), p)
    requires s.pc[p].GetInit? ==> s.bufs[s.pc[p].b].refcnt == 0 == s.bufs[s.pc[p].b].pins
    ensures CountShift(s, GetStep(s, p, ch), p)
  {
  }

  lemma StepShift(s: State, p: nat, ch: Choice)
    requires Enabled(s, p, ch) && Touches(s, Step(s, p, ch), p)
    requires s.pc[p].GetInit? ==> s.bufs[s.pc[p].b].refcnt == 0 == s.bufs[s.pc[p].b].pins
    ensures CountShift(s, Step(s, p, ch), p)
  {
    if Getting(s.pc[p]) {
      GetShift(s, p, ch);
    } else {
      OtherShift(s, p, ch);
    }
  }

  lemma OtherShift(s: State, p: nat, ch: Choice)
    requires Enabled(s, p, ch) && !Getting(s.pc[p]) && Touches(s, Step(s, p, ch), p)
    ensures CountShift(s, Step(s, p, ch), p)
  {
  }

  lemma StepKeepsCount(s: State, p: nat, ch: Choice)
    requires Counted(s) && Enabled(s, p, ch)
    requires s.pc[p].GetInit? ==> s.bufs[s.pc[p].b].refcnt == 0 == s.bufs[s.pc[p].b].pins
    ensures Counted(Step(s, p, ch))
  {
    StepFits(s, p, ch);
    StepShift(s, p, ch);
    MoveKeepsCount(s, Step(s, p, ch), p);
  }
}
