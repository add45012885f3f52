/** What the operations of the buffer cache achieve in every interleaving: writes reach the disk, pins are counted, bget
    looks at every buffer before it panics, and nobody waits in a circle or scans for ever. */
module BufProgress {
  import opened BufProtocol
  import opened BufInvariant
  import opened BufStructure
  import opened BufContents

  // ---------------------------------------------------------------- the holder's writes

  /** bwrite reaches the disk: the block's copy there is the buffer's, which is what was last written to the block; no
      other block on disk changes; and the holder may now release the buffer. */
  lemma BwriteReachesDisk(s: State, p: nat)
    requires Reachable(s) && Enabled(s, p, Write) && s.pc[p].Hold?
    ensures var t, blk, b := Step(s, p, Write), s.pc[p].blk, s.pc[p].b;
            && b < |s.bufs| && t.disk(blk) == s.bufs[b].data == s.store(blk)
            && (forall x :: x != blk ==> t.disk(x) == s.disk(x))
            && t.bufs == s.bufs && t.store == s.store && t.pc == s.pc && Enabled(t, p, Release)
  {
    hide Locks, Counted, Lists, Bufs;
    ReachableInv(s);
    assert PcOk(s, p) && PcData(s, p) && DataOk(s, s.pc[p].b);
  }

  /** What the holder of a buffer writes to it becomes the contents of its block, and of no other. */
  lemma ModifyTakesEffect(s: State, p: nat, d: Data)
    requires Reachable(s) && Enabled(s, p, Modify(d)) && s.pc[p].Hold?
    ensures var t, blk, b := Step(s, p, Modify(d)), s.pc[p].blk, s.pc[p].b;
            && Sized(t) && b < |t.bufs| && t.bufs[b].data == d && t.store(blk) == d && ContentsOf(t, blk) == d
            && t.pc == s.pc && t.disk == s.disk
            && forall x :: x != blk ==> t.store(x) == s.store(x)
  {
    hide Inv, ContentsOf;
    ReachableInv(s);
    StepKeeps(s, p, Modify(d));
    CacheAgreesWithStore(Step(s, p, Modify(d)), s.pc[p].blk);
    HolderFacts(s, p);
  }

  lemma HolderFacts(s: State, p: nat)
    requires Inv(s) && p < |s.pc| && s.pc[p].Hold?
    ensures Sized(s) && s.pc[p].b < |s.bufs| && s.bufs[s.pc[p].b].blk == s.pc[p].blk
    ensures s.bufs[s.pc[p].b].owner == Some(p)
  {
    hide Counted, Lists, Bufs, Contents, Buckets;
    assert PcOk(s, p) && Holds(s.pc[p]) == Some(s.pc[p].b);
  }

  /** What the holder of a buffer may do: write to it, write it to disk and pin it at any time, unpin it when it is pinned,
      and release it when it is pinned or equal to the disk; releasing gives up the sleep-lock at once. */
  lemma HoldersChoices(s: State, p: nat, d: Data)
    requires Reachable(s) && p < |s.pc| && s.pc[p].Hold?
    ensures Enabled(s, p, Modify(d)) && Enabled(s, p, Write) && Enabled(s, p, Pin)
    ensures s.pc[p].b < |s.bufs|
    ensures var buf := s.bufs[s.pc[p].b];
            && (Enabled(s, p, Unpin) <==> buf.pins > 0)
            && (Enabled(s, p, Release) <==> buf.pins > 0 || buf.data == s.disk(s.pc[p].blk))
    ensures Enabled(s, p, Release) ==>
              var t, b := Step(s, p, Release), s.pc[p].b;
              p < |t.pc| && t.pc[p] == RelHash(s.pc[p].blk, b) && b < |t.bufs| && t.bufs[b].owner == None
  {
    hide Inv;
    ReachableInv(s);
    HolderFacts(s, p);
  }

  // ---------------------------------------------------------------- the block asked for

  /** The block a process asked bread for, until it has given the buffer back. */
  function AskedFor(pc: Pc): Option<Block> {
    match pc
    case Idle => None
    case RelUnlink(_, _) => None
    case RelClear(_, _) => None
    case RelRelease(_) => None
    case Panicked(_) => None
    case _ => Some(pc.blk)
  }

  ghost predicate KeepsRequest(s: State, t: State, p: nat, ch: Choice)
    requires p < |s.pc|
  {
    && |t.pc| == |s.pc| && t.pc == s.pc[p := t.pc[p]]
    && var was, now := AskedFor(s.pc[p]), AskedFor(t.pc[p]);
       && (s.pc[p].Idle? ==> ch.Read? && now == Some(ch.blk))
       && (was.Some? && now.None? ==> s.pc[p].RelHeld? || s.pc[p].GetFree?)
       && (was.Some? && now.Some? ==> now == was)
       && (was.None? && !s.pc[p].Idle? ==> now.None?)
  }

  lemma GetKeepsRequest(s: State, p: nat, ch: Choice)
    requires Enabled(s, p, ch) && Getting(s.pc[p])
    ensures KeepsRequest(s, GetStep(s, p, ch), p, ch)
  {
  }

  lemma HoldKeepsRequest(s: State, p: nat, ch: Choice)
    requires Enabled(s, p, ch) && s.pc[p].Hold?
    ensures KeepsRequest(s, HoldStep(s, p, ch), p, ch)
  {
  }

  lemma PinKeepsRequest(s: State, p: nat, ch: Choice)
    requires Enabled(s, p, ch) && Pinning(s.pc[p])
    ensures KeepsRequest(s, PinStep(s, p, ch), p, ch)
  {
  }

  lemma RelKeepsRequest(s: State, p: nat, ch: Choice)
    requires Enabled(s, p, ch) && !Getting(s.pc[p]) && !s.pc[p].Hold? && !Pinning(s.pc[p])
    ensures KeepsRequest(s, RelStep(s, p, ch), p, ch)
  {
  }

  /** A process asks for the block bread is called with, and keeps it through bread, its work with the buffer and brelse;
      no other process's step changes it. */
  lemma RequestIsKept(s: State, p: nat, ch: Choice)
    requires Enabled(s, p, ch)
    ensures KeepsRequest(s, Step(s, p, ch), p, ch)
  {
    hide KeepsRequest, GetStep, HoldStep, PinStep, RelStep;
    if Getting(s.pc[p]) {
      GetKeepsRequest(s, p, ch);
    } else if s.pc[p].Hold? {
      HoldKeepsRequest(s, p, ch);
    } else if Pinning(s.pc[p]) {
      PinKeepsRequest(s, p, ch);
    } else {
      RelKeepsRequest(s, p, ch);
    }
  }

  /** Different blocks of a device less than thirteen apart are in different buckets. */
  lemma HashSpreads(x: Block, y: Block)
    requires x.dev == y.dev && x.blockno < y.blockno < x.blockno + 13
    ensures Hash(x) != Hash(y)
  {
  }

  // ---------------------------------------------------------------- pins are counted

  /** bpin (up) or bunpin is under way in process p, on a buffer that had n pins when it began. */
  ghost predicate PinUnderWay(s: State, p: nat, b: nat, up: bool, n: nat) {
    && p < |s.pc| && b < |s.bufs|
    && match s.pc[p] {
         case PinHash(_, x, u) => x == b && u == up && s.bufs[b].pins == n
         case PinLock(_, x, _, u) => x == b && u == up && s.bufs[b].pins == n
         case PinHeld(_, x, _, u) => x == b && u == up && s.bufs[b].pins == n
         case PinRelease(_, x, _) => x == b && s.bufs[b].pins == if up then n + 1 else n - 1
         case _ => false
       }
  }

  lemma PinStarts(s: State, p: nat, ch: Choice)
    requires Enabled(s, p, ch) && s.pc[p].Hold? && (ch == Pin || ch == Unpin)
    ensures PinUnderWay(Step(s, p, ch), p, s.pc[p].b, ch == Pin, s.bufs[s.pc[p].b].pins)
    ensures Step(s, p, ch).bufs == s.bufs
  {
  }

  ghost predicate SamePins(s: State, t: State, p: nat)
    requires p < |s.pc|
  {
    && |t.bufs| == |s.bufs| && |t.pc| == |s.pc| && t.pc == s.pc[p := t.pc[p]]
    && forall b :: 0 <= b < |s.bufs| && !(s.pc[p].PinHeld? && s.pc[p].b == b) ==> t.bufs[b].pins == s.bufs[b].pins
  }

  lemma GetSamePins(s: State, p: nat, ch: Choice)
    requires Enabled(s, p, ch) && Getting(s.pc[p])
    ensures SamePins(s, GetStep(s, p, ch), p)
  {
  }

  lemma HoldSamePins(s: State, p: nat, ch: Choice)
    requires Enabled(s, p, ch) && s.pc[p].Hold?
    ensures SamePins(s, HoldStep(s, p, ch), p)
  {
  }

  lemma PinSamePins(s: State, p: nat, ch: Choice)
    requires Enabled(s, p, ch) && Pinning(s.pc[p])
    ensures SamePins(s, PinStep(s, p, ch), p)
  {
  }

  lemma RelSamePins(s: State, p: nat, ch: Choice)
    requires Enabled(s, p, ch) && !Getting(s.pc[p]) && !s.pc[p].Hold? && !Pinning(s.pc[p])
    ensures SamePins(s, RelStep(s, p, ch), p)
  {
  }

  lemma StepSamePins(s: State, p: nat, ch: Choice)
    requires Enabled(s, p, ch)
    ensures SamePins(s, Step(s, p, ch), p)
  {
    hide SamePins, GetStep, HoldStep, PinStep, RelStep;
    if Getting(s.pc[p]) {
      GetSamePins(s, p, ch);
    } else if s.pc[p].Hold? {
      HoldSamePins(s, p, ch);
    } else if Pinning(s.pc[p]) {
      PinSamePins(s, p, ch);
    } else {
      RelSamePins(s, p, ch);
    }
  }

  /** Only the holder of a buffer pins or unpins it. */
  lemma PinsStay(s: State, q: nat, ch: Choice, p: nat, b: nat)
    requires Inv(s) && Enabled(s, q, ch) && p < |s.pc| && q != p && Holds(s.pc[p]) == Some(b) && b < |s.bufs|
    ensures var t := Step(s, q, ch);
            |t.bufs| == |s.bufs| && |t.pc| == |s.pc| && t.pc[p] == s.pc[p] && t.bufs[b].pins == s.bufs[b].pins
  {
    hide Counted, Struct, Contents, Buckets, Step;
    StepSamePins(s, q, ch);
    OnePinner(s, p, q, b);
  }

  lemma OnePinner(s: State, p: nat, q: nat, b: nat)
    requires Owners(s) && p < |s.pc| && q < |s.pc| && q != p && Holds(s.pc[p]) == Some(b)
    ensures !(s.pc[q].PinHeld? && s.pc[q].b == b)
  {
  }

  lemma PinMoves(s: State, q: nat, ch: Choice, p: nat, b: nat, up: bool, n: nat)
    requires Inv(s) && Enabled(s, q, ch) && PinUnderWay(s, p, b, up, n)
    ensures var t := Step(s, q, ch);
            || PinUnderWay(t, p, b, up, n)
            || (p < |t.pc| && b < |t.bufs| && t.pc[p].Hold? && t.pc[p].b == b
                && t.bufs[b].pins == if up then n + 1 else n - 1)
  {
    hide Inv, GetStep, HoldStep, RelStep;
    if q != p {
      PinsStay(s, q, ch, p, b);
    } else {
      assert Step(s, q, ch) == PinStep(s, q, ch);
    }
  }

  /** When process p is next back from bpin or bunpin, its buffer has this many pins. */
  ghost predicate NextHoldHas(s: State, steps: seq<(nat, Choice)>, p: nat, b: nat, n: int)
    requires Run(s, steps)
    decreases |steps|
  {
    if p < |s.pc| && s.pc[p].Hold? then s.pc[p].b == b && b < |s.bufs| && s.bufs[b].pins == n
    else steps != [] ==> NextHoldHas(Step(s, steps[0].0, steps[0].1), steps[1..], p, b, n)
  }

  lemma {:induction false} PinRun(s: State, steps: seq<(nat, Choice)>, p: nat, b: nat, up: bool, n: nat)
    requires Inv(s) && Run(s, steps)
    requires PinUnderWay(s, p, b, up, n) || (p < |s.pc| && b < |s.bufs| && s.pc[p].Hold? && s.pc[p].b == b
               && s.bufs[b].pins == if up then n + 1 else n - 1)
    ensures NextHoldHas(s, steps, p, b, if up then n + 1 else n - 1)
    decreases |steps|
  {
    hide Inv, Step, Enabled;
    if steps != [] && !s.pc[p].Hold? {
      PinMoves(s, steps[0].0, steps[0].1, p, b, up, n);
      StepKeeps(s, steps[0].0, steps[0].1);
      PinRun(Step(s, steps[0].0, steps[0].1), steps[1..], p, b, up, n);
    }
  }

  /** bpin adds exactly one pin and bunpin takes exactly one away, whatever the other processes do meanwhile; the
      reference count goes up and down with the pins (RefcntIsExact). */
  lemma PinsAreCounted(s: State, p: nat, ch: Choice, steps: seq<(nat, Choice)>)
    requires Reachable(s) && Enabled(s, p, ch) && s.pc[p].Hold? && (ch == Pin || ch == Unpin)
    requires Run(Step(s, p, ch), steps)
    ensures s.pc[p].b < |s.bufs|
    ensures var b := s.pc[p].b;
            NextHoldHas(Step(s, p, ch), steps, p, b, if ch == Pin then s.bufs[b].pins + 1 else s.bufs[b].pins - 1)
  {
    hide Inv;
    ReachableInv(s);
    StepKeeps(s, p, ch);
    PinStarts(s, p, ch);
    PinRun(Step(s, p, ch), steps, p, s.pc[p].b, ch == Pin, s.bufs[s.pc[p].b].pins);
  }

  // ---------------------------------------------------------------- bget looks everywhere before it panics

  /** The search for a free buffer is past buffer j. */
  predicate Past(pc: Pc, j: nat) {
    match pc
    case GetFree(_, i) => i > j
    case GetTas(_, i) => i > j
    case Panicked(_) => true
    case _ => false
  }

  /** Process p finds buffer j in use. */
  ghost predicate FindsUsed(s: State, p: nat, j: nat) {
    && p < |s.pc| && j < |s.bufs| && s.bufs[j].used
    && (s.pc[p].GetFree? || s.pc[p].GetTas?) && s.pc[p].i == j
  }

  lemma StepFinds(s: State, q: nat, ch: Choice, p: nat, j: nat)
    requires Enabled(s, q, ch) && p < |s.pc| && j < |s.bufs|
    ensures var t := Step(s, q, ch);
            && |t.pc| == |s.pc| && |t.bufs| == |s.bufs| && (q != p ==> t.pc[p] == s.pc[p])
            && (Past(t.pc[p], j) ==> Past(s.pc[p], j) || FindsUsed(s, p, j))
  {
    hide Past, FindsUsed;
    StepSamePins(s, q, ch);
    if q == p {
      MoverFinds(s, p, ch, j);
    }
  }

  lemma GetFinds(s: State, p: nat, ch: Choice, j: nat)
    requires Enabled(s, p, ch) && Getting(s.pc[p]) && j < |s.bufs|
    ensures |GetStep(s, p, ch).pc| == |s.pc|
    ensures Past(GetStep(s, p, ch).pc[p], j) ==> Past(s.pc[p], j) || FindsUsed(s, p, j)
  {
  }

  lemma OthersFindNothing(s: State, p: nat, ch: Choice, j: nat)
    requires Enabled(s, p, ch)
    ensures s.pc[p].Hold? ==> |HoldStep(s, p, ch).pc| == |s.pc| && !Past(HoldStep(s, p, ch).pc[p], j)
    ensures Pinning(s.pc[p]) ==> |PinStep(s, p, ch).pc| == |s.pc| && !Past(PinStep(s, p, ch).pc[p], j)
  {
  }

  lemma RelFindsNothing(s: State, p: nat, ch: Choice, j: nat)
    requires Enabled(s, p, ch) && !Getting(s.pc[p]) && !s.pc[p].Hold? && !Pinning(s.pc[p])
    ensures |RelStep(s, p, ch).pc| == |s.pc| && !Past(RelStep(s, p, ch).pc[p], j)
  {
  }

  lemma MoverFinds(s: State, p: nat, ch: Choice, j: nat)
    requires Enabled(s, p, ch) && j < |s.bufs|
    ensures |Step(s, p, ch).pc| == |s.pc|
    ensures Past(Step(s, p, ch).pc[p], j) ==> Past(s.pc[p], j) || FindsUsed(s, p, j)
  {
    hide Past, FindsUsed, GetStep, HoldStep, PinStep, RelStep;
    if Getting(s.pc[p]) {
      GetFinds(s, p, ch, j);
    } else {
      OthersFindNothing(s, p, ch, j);
      if !s.pc[p].Hold? && !Pinning(s.pc[p]) {
        RelFindsNothing(s, p, ch, j);
      }
    }
  }

  ghost predicate SometimeFindsUsed(s: State, steps: seq<(nat, Choice)>, p: nat, j: nat)
    requires Run(s, steps)
    decreases |steps|
  {
    FindsUsed(s, p, j) || (steps != [] && SometimeFindsUsed(Step(s, steps[0].0, steps[0].1), steps[1..], p, j))
  }

  /** bget panics only when it has found every buffer in use: between any earlier moment at which the process was not
      searching past buffer j and its panic, it has looked at buffer j and found it used. */
  lemma {:induction false} PanicsOnlyWhenAllUsed(s: State, steps: seq<(nat, Choice)>, p: nat, j: nat)
    requires Run(s, steps) && p < |s.pc| && j < |s.bufs| && !Past(s.pc[p], j)
    requires p < |After(s, steps).pc| && After(s, steps).pc[p].Panicked?
    ensures SometimeFindsUsed(s, steps, p, j)
    decreases |steps|
  {
    hide Step, Enabled, FindsUsed;
    if steps != [] {
      StepFinds(s, steps[0].0, steps[0].1, p, j);
      var t := Step(s, steps[0].0, steps[0].1);
      if !Past(t.pc[p], j) {
        PanicsOnlyWhenAllUsed(t, steps[1..], p, j);
      }
    }
  }

  // ---------------------------------------------------------------- no call goes round for ever

  datatype Rank = Rank(phase: nat, left: nat)

  predicate Less(a: Rank, b: Rank) {
    a.phase < b.phase || (a.phase == b.phase && a.left < b.left)
  }

  function Minus(n: nat, k: nat): nat {
    if k < n then n - k else 0
  }

  /** How far a process is from the end of bread, bpin, bunpin or brelse. */
  ghost function RankOf(s: State, pc: Pc): Rank
    requires Sized(s)
  {
    match pc
    case GetLock(_) => Rank(20, 0)
    case GetScan(blk, k) => Rank(19, Minus(|s.lists[Hash(blk)]|, k))
    case GetFound(_, _) => Rank(14, 0)
    case GetFree(_, i) => Rank(18, 2 * Minus(|s.bufs|, i) + 1)
    case GetTas(_, i) => Rank(18, 2 * Minus(|s.bufs|, i))
    case GetInit(_, _) => Rank(16, 0)
    case GetInsert(_, _) => Rank(15, 0)
    case GetRelease(_, _) => Rank(13, 0)
    case GetSleep(_, _) => Rank(12, 0)
    case ReadTest(_, _) => Rank(11, 0)
    case ReadDisk(_, _) => Rank(10, 0)
    case ReadDone(_, _) => Rank(9, 0)
    case PinHash(_, _, _) => Rank(8, 0)
    case PinLock(_, _, _, _) => Rank(7, 0)
    case PinHeld(_, _, _, _) => Rank(6, 0)
    case PinRelease(_, _, _) => Rank(5, 0)
    case RelHash(_, _) => Rank(8, 0)
    case RelLock(_, _, _) => Rank(7, 0)
    case RelHeld(_, _, _) => Rank(6, 0)
    case RelUnlink(_, _) => Rank(5, 0)
    case RelClear(_, _) => Rank(4, 0)
    case RelRelease(_) => Rank(3, 0)
    case _ => Rank(0, 0)
  }

  lemma GetEnds(s: State, p: nat, ch: Choice)
    requires Enabled(s, p, ch) && Getting(s.pc[p]) && !s.pc[p].Idle?
    ensures var t := GetStep(s, p, ch);
            |t.pc| == |s.pc| && Sized(t) && Less(RankOf(t, t.pc[p]), RankOf(s, s.pc[p]))
  {
  }

  lemma PinEnds(s: State, p: nat, ch: Choice)
    requires Enabled(s, p, ch) && Pinning(s.pc[p])
    ensures var t := PinStep(s, p, ch);
            |t.pc| == |s.pc| && Sized(t) && Less(RankOf(t, t.pc[p]), RankOf(s, s.pc[p]))
  {
  }

  lemma RelEnds(s: State, p: nat, ch: Choice)
    requires Enabled(s, p, ch) && !Getting(s.pc[p]) && !s.pc[p].Hold? && !Pinning(s.pc[p])
    ensures var t := RelStep(s, p, ch);
            |t.pc| == |s.pc| && Sized(t) && Less(RankOf(t, t.pc[p]), RankOf(s, s.pc[p]))
  {
  }

  /** Every step inside bread, bpin, bunpin or brelse brings the call nearer its end, and only the holder of its lock
      changes the list it scans: no bucket lock is held for more than a bounded number of its holder's steps. */
  lemma CallsEnd(s: State, p: nat, ch: Choice)
    requires Enabled(s, p, ch) && !s.pc[p].Idle? && !s.pc[p].Hold?
    ensures var t := Step(s, p, ch);
            |t.pc| == |s.pc| && Sized(t) && Less(RankOf(t, t.pc[p]), RankOf(s, s.pc[p]))
  {
    hide Less, GetStep, PinStep, RelStep;
    if Getting(s.pc[p]) {
      GetEnds(s, p, ch);
    } else if Pinning(s.pc[p]) {
      PinEnds(s, p, ch);
    } else {
      RelEnds(s, p, ch);
    }
  }

  /** No other process's step changes how far a scanning process has to go. */
  lemma RankStays(s: State, q: nat, ch: Choice, p: nat)
    requires Reachable(s) && Enabled(s, q, ch) && p < |s.pc| && q != p
    ensures var t := Step(s, q, ch); |t.pc| == |s.pc| && Sized(t) && RankOf(t, s.pc[p]) == RankOf(s, s.pc[p])
  {
    hide Counted, Contents, Bufs, Lists;
    ReachableInv(s);
    assert PcOk(s, q);
    ListsStay(s, q, ch);
    if s.pc[p].GetScan? {
      assert HeldBucket(s.pc[p]) == Some(Hash(s.pc[p].blk));
    }
  }

  /** A step changes no list but that of the bucket whose lock the process holds. */
  ghost predicate OwnList(s: State, t: State, p: nat)
    requires p < |s.pc|
  {
    && Sized(s) && Sized(t)
    && forall v :: 0 <= v < NBUCKETS && HeldBucket(s.pc[p]) != Some(v) ==> t.lists[v] == s.lists[v]
  }

  lemma GetOwnList(s: State, p: nat, ch: Choice)
    requires Enabled(s, p, ch) && Getting(s.pc[p])
    ensures OwnList(s, GetStep(s, p, ch), p)
  {
  }

  lemma RelOwnList(s: State, p: nat, ch: Choice)
    requires Enabled(s, p, ch) && !Getting(s.pc[p]) && !s.pc[p].Hold? && !Pinning(s.pc[p])
    ensures OwnList(s, RelStep(s, p, ch), p)
  {
  }

  lemma OtherOwnList(s: State, p: nat, ch: Choice)
    requires Enabled(s, p, ch)
    ensures s.pc[p].Hold? ==> OwnList(s, HoldStep(s, p, ch), p)
    ensures Pinning(s.pc[p]) ==> OwnList(s, PinStep(s, p, ch), p)
  {
  }

  lemma ListsStay(s: State, p: nat, ch: Choice)
    requires Enabled(s, p, ch)
    ensures SamePins(s, Step(s, p, ch), p) && OwnList(s, Step(s, p, ch), p)
  {
    hide OwnList, SamePins, GetStep, HoldStep, PinStep, RelStep;
    StepSamePins(s, p, ch);
    OtherOwnList(s, p, ch);
    if Getting(s.pc[p]) {
      GetOwnList(s, p, ch);
    } else if !s.pc[p].Hold? && !Pinning(s.pc[p]) {
      RelOwnList(s, p, ch);
    }
  }

  // ---------------------------------------------------------------- no deadlock

  /** The bucket lock the process is about to take. */
  function WantsBucket(pc: Pc): Option<nat> {
    match pc
    case GetLock(blk) => Some(Hash(blk))
    case PinLock(_, _, v, _) => Some(v)
    case RelLock(_, _, v) => Some(v)
    case _ => None
  }

  ghost predicate CanStep(s: State, p: nat) {
    exists ch :: Enabled(s, p, ch)
  }

  /** Process p waits for a bucket lock that process q holds. */
  ghost predicate WaitsForBucket(s: State, p: nat, q: nat) {
    && Sized(s) && p < |s.pc| && q < |s.pc| && WantsBucket(s.pc[p]).Some? && WantsBucket(s.pc[p]).value < NBUCKETS
    && s.bucketLock[WantsBucket(s.pc[p]).value] == Some(q) && HeldBucket(s.pc[q]) == WantsBucket(s.pc[p])
  }

  /** Process p waits for a sleep-lock that process q holds. */
  ghost predicate WaitsForBuffer(s: State, p: nat, q: nat) {
    && p < |s.pc| && q < |s.pc| && s.pc[p].GetSleep? && s.pc[p].b < |s.bufs|
    && s.bufs[s.pc[p].b].owner == Some(q) && Holds(s.pc[q]) == Some(s.pc[p].b)
  }

  /** A bucket lock that is taken is held by the code of some process; bunpin is under way only on a buffer with a pin;
      the test-and-set is on a buffer there is. */
  ghost predicate Sane(s: State) {
    && Sized(s)
    && (forall v :: 0 <= v < NBUCKETS && s.bucketLock[v].Some? ==>
          s.bucketLock[v].value < |s.pc| && HeldBucket(s.pc[s.bucketLock[v].value]) == Some(v))
    && (forall p :: 0 <= p < |s.pc| ==> PlaceSane(s, p))
  }

  ghost predicate PlaceSane(s: State, p: nat)
    requires p < |s.pc|
  {
    match s.pc[p]
    case PinHash(_, b, up) => !up ==> b < |s.bufs| && s.bufs[b].pins > 0
    case PinLock(_, b, _, up) => !up ==> b < |s.bufs| && s.bufs[b].pins > 0
    case PinHeld(_, b, _, up) => !up ==> b < |s.bufs| && s.bufs[b].pins > 0
    case GetTas(_, i) => i < |s.bufs|
    case _ => true
  }

  lemma BucketsSane(s: State, t: State, p: nat)
    requires Buckets(s) && Sane(s) && Fits(s, t, p)
    ensures forall v :: 0 <= v < NBUCKETS && t.bucketLock[v].Some? ==>
              t.bucketLock[v].value < |t.pc| && HeldBucket(t.pc[t.bucketLock[v].value]) == Some(v)
  {
    hide PlaceSane, OwnerMove;
  }

  lemma GetPlaceSane(s: State, p: nat, ch: Choice)
    requires Enabled(s, p, ch) && Getting(s.pc[p])
    ensures p < |GetStep(s, p, ch).pc| && PlaceSane(GetStep(s, p, ch), p)
  {
  }

  lemma PinPlaceSane(s: State, p: nat, ch: Choice)
    requires Enabled(s, p, ch) && PlaceSane(s, p)
    ensures s.pc[p].Hold? ==> p < |HoldStep(s, p, ch).pc| && PlaceSane(HoldStep(s, p, ch), p)
    ensures Pinning(s.pc[p]) ==> p < |PinStep(s, p, ch).pc| && PlaceSane(PinStep(s, p, ch), p)
  {
  }

  lemma RelPlaceSane(s: State, p: nat, ch: Choice)
    requires Enabled(s, p, ch) && !Getting(s.pc[p]) && !s.pc[p].Hold? && !Pinning(s.pc[p])
    ensures p < |RelStep(s, p, ch).pc| && PlaceSane(RelStep(s, p, ch), p)
  {
  }

  lemma OwnPlaceSane(s: State, p: nat, ch: Choice)
    requires Enabled(s, p, ch) && PlaceSane(s, p)
    ensures p < |Step(s, p, ch).pc| && PlaceSane(Step(s, p, ch), p)
  {
    hide PlaceSane, GetStep, HoldStep, PinStep, RelStep;
    PinPlaceSane(s, p, ch);
    if Getting(s.pc[p]) {
      GetPlaceSane(s, p, ch);
    } else if !s.pc[p].Hold? && !Pinning(s.pc[p]) {
      RelPlaceSane(s, p, ch);
    }
  }

  lemma StepKeepsSane(s: State, p: nat, ch: Choice)
    requires Inv(s) && Sane(s) && Enabled(s, p, ch)
    ensures Sane(Step(s, p, ch))
  {
    hide Counted, Struct, Contents, Step, Fits, Buckets;
    var t := Step(s, p, ch);
    StepFits(s, p, ch);
    BucketsSane(s, t, p);
    OwnPlaceSane(s, p, ch);
    StepSamePins(s, p, ch);
    FitsSized(s, t, p);
    forall q | 0 <= q < |t.pc| && q != p
      ensures PlaceSane(t, q)
    {
      assert PlaceSane(s, q);
      if Holds(s.pc[q]).Some? {
        OnePinner(s, q, p, Holds(s.pc[q]).value);
      }
    }
  }

  lemma FitsSized(s: State, t: State, p: nat)
    requires Fits(s, t, p)
    ensures Sized(t) && |t.pc| == |s.pc|
  {
  }

  lemma BootSane(nbuf: nat, nproc: nat, disk: Block -> Data)
    ensures Sane(Boot(nbuf, nproc, disk))
  {
  }

  lemma {:induction false} RunKeepsSane(s: State, steps: seq<(nat, Choice)>)
    requires Inv(s) && Sane(s) && Run(s, steps)
    ensures Inv(After(s, steps)) && Sane(After(s, steps))
    decreases |steps|
  {
    hide Inv, Sane, Step, Enabled;
    if steps != [] {
      StepKeeps(s, steps[0].0, steps[0].1);
      StepKeepsSane(s, steps[0].0, steps[0].1);
      RunKeepsSane(Step(s, steps[0].0, steps[0].1), steps[1..]);
    }
  }

  lemma ReachableSane(s: State)
    requires Reachable(s)
    ensures Inv(s) && Sane(s)
  {
    hide Inv, Sane;
    var nbuf: nat, nproc: nat, disk: Block -> Data, steps: seq<(nat, Choice)> :|
      Run(Boot(nbuf, nproc, disk), steps) && s == After(Boot(nbuf, nproc, disk), steps);
    BootOk(nbuf, nproc, disk);
    BootSane(nbuf, nproc, disk);
    RunKeepsSane(Boot(nbuf, nproc, disk), steps);
  }

  /** The choice that lets a process step: asking for a block when idle, and any when it holds a buffer. */
  function SomeChoice(pc: Pc): Choice {
    if pc.Idle? then Read(Block(0, 0)) else if pc.Hold? then Write else Go
  }

  lemma PlaceEnabled(s: State, p: nat)
    requires Sized(s) && p < |s.pc| && PcOk(s, p) && PlaceSane(s, p) && Lists(s) && !s.pc[p].Panicked?
    requires HeldBucket(s.pc[p]).Some? ==> HeldBucket(s.pc[p]).value < NBUCKETS
    requires WantsBucket(s.pc[p]).Some? ==> s.bucketLock[WantsBucket(s.pc[p]).value].None?
    requires s.pc[p].GetSleep? ==> s.bufs[s.pc[p].b].owner.None?
    ensures Enabled(s, p, SomeChoice(s.pc[p]))
  {
    hide Distinct, Absent;
    if s.pc[p].GetScan? {
      var list, k := s.lists[Hash(s.pc[p].blk)], s.pc[p].k;
      assert ListOk(s, Hash(s.pc[p].blk));
      assert k < |list| ==> list[k] in list;
    }
  }

  lemma WantsRealBucket(s: State, p: nat)
    requires Sized(s) && p < |s.pc| && PcOk(s, p)
    ensures WantsBucket(s.pc[p]).Some? ==> WantsBucket(s.pc[p]).value < NBUCKETS
    ensures s.pc[p].GetSleep? ==> s.pc[p].b < |s.bufs|
  {
    hide Absent;
  }

  /** A process can step unless it has panicked or waits for a lock that another process holds. */
  lemma StepsUnlessWaiting(s: State, p: nat)
    requires Inv(s) && Sane(s) && p < |s.pc|
    ensures || s.pc[p].Panicked? || CanStep(s, p)
            || (exists q :: 0 <= q < |s.pc| && (WaitsForBucket(s, p, q) || WaitsForBuffer(s, p, q)))
  {
    hide Counted, Contents, Bufs, PlaceSane, PcOk, Enabled, Lists;
    assert PcOk(s, p) && PlaceSane(s, p);
    WantsRealBucket(s, p);
    if WantsBucket(s.pc[p]).Some? && s.bucketLock[WantsBucket(s.pc[p]).value].Some? {
      assert WaitsForBucket(s, p, s.bucketLock[WantsBucket(s.pc[p]).value].value);
    } else if s.pc[p].GetSleep? && s.bufs[s.pc[p].b].owner.Some? {
      assert WaitsForBuffer(s, p, s.bufs[s.pc[p].b].owner.value);
    } else if !s.pc[p].Panicked? {
      PlaceEnabled(s, p);
    }
  }

  lemma HoldersDoNotWait(s: State, p: nat, q: nat)
    ensures WaitsForBucket(s, p, q) ==> forall r :: !WaitsForBucket(s, q, r) && !WaitsForBuffer(s, q, r)
    ensures WaitsForBuffer(s, p, q) ==> (forall r :: !WaitsForBuffer(s, q, r)) && !s.pc[q].Panicked?
  {
  }

  predicate Dead(s: State, p: nat) {
    p < |s.pc| && s.pc[p].Panicked?
  }

  /** No deadlock. In every reachable state every process can step, or has panicked, or waits for a bucket lock whose
      holder can step or has panicked, or waits for a sleep-lock whose holder can step or waits for such a bucket lock. */
  lemma NoDeadlock(s: State, p: nat)
    requires Reachable(s) && p < |s.pc|
    ensures || CanStep(s, p) || Dead(s, p)
            || (exists q :: WaitsForBucket(s, p, q) && (CanStep(s, q) || Dead(s, q)))
            || (exists q :: WaitsForBuffer(s, p, q) && CanStep(s, q))
            || (exists q, r :: WaitsForBuffer(s, p, q) && WaitsForBucket(s, q, r) && (CanStep(s, r) || Dead(s, r)))
  {
    hide Inv, Sane, CanStep, WaitsForBucket, WaitsForBuffer;
    ReachableSane(s);
    StepsUnlessWaiting(s, p);
    if !CanStep(s, p) && !Dead(s, p) {
      var q :| 0 <= q < |s.pc| && (WaitsForBucket(s, p, q) || WaitsForBuffer(s, p, q));
      HoldersDoNotWait(s, p, q);
      StepsUnlessWaiting(s, q);
      if WaitsForBuffer(s, p, q) && !WaitsForBucket(s, p, q) && !CanStep(s, q) {
        var r :| 0 <= r < |s.pc| && (WaitsForBucket(s, q, r) || WaitsForBuffer(s, q, r));
        HoldersDoNotWait(s, q, r);
        StepsUnlessWaiting(s, r);
      }
    }
  }
}
