/** The buffer cache agrees with a flat block store in every interleaving. */
module BufContents {
  import opened BufProtocol
  import opened BufInvariant
  import opened BufStructure

  /** What a process knows about the data of its buffer. */
  ghost predicate PcData(s: State, p: nat)
    requires p < |s.pc|
  {
    match s.pc[p]
    case GetInsert(_, b) => b < |s.bufs| && !s.bufs[b].valid
    case ReadDisk(_, b) => b < |s.bufs| && !s.bufs[b].valid
    case ReadDone(_, b) => b < |s.bufs| && !s.bufs[b].valid && s.bufs[b].data == s.store(s.bufs[b].blk)
    case Hold(_, b) => b < |s.bufs| && s.bufs[b].valid
    case PinHash(_, b, _) => b < |s.bufs| && s.bufs[b].valid
    case PinLock(_, b, _, _) => b < |s.bufs| && s.bufs[b].valid
    case PinHeld(_, b, _, _) => b < |s.bufs| && s.bufs[b].valid
    case PinRelease(_, b, _) => b < |s.bufs| && s.bufs[b].valid
    case _ => true
  }

  ghost predicate DataOk(s: State, b: nat)
    requires Sized(s) && b < |s.bufs|
  {
    Listed(s, b) && s.bufs[b].valid ==> s.bufs[b].data == s.store(s.bufs[b].blk)
  }

  /** A valid copy of the block that will not leave the cache before it is written: held or pinned. */
  ghost predicate Guards(s: State, b: nat, blk: Block)
    requires Sized(s)
  {
    Listed(s, b) && s.bufs[b].blk == blk && s.bufs[b].valid && (s.bufs[b].owner.Some? || s.bufs[b].pins > 0)
  }

  ghost predicate DiskOk(s: State, blk: Block)
    requires Sized(s)
  {
    s.store(blk) != s.disk(blk) ==> exists b: nat :: Guards(s, b, blk)
  }

  ghost predicate Contents(s: State) {
    && Sized(s)
    && (forall p :: 0 <= p < |s.pc| ==> PcData(s, p))
    && (forall b :: 0 <= b < |s.bufs| ==> DataOk(s, b))
    && (forall blk :: DiskOk(s, blk))
  }

  /** Two listed buffers for the same block are the same buffer. */
  lemma OneBufferPerBlock(s: State, b: nat, c: nat)
    requires Lists(s) && Listed(s, b) && Listed(s, c) && s.bufs[b].blk == s.bufs[c].blk
    ensures b == c
  {
    var list := s.lists[Hash(s.bufs[b].blk)];
    assert ListOk(s, Hash(s.bufs[b].blk));
    var i :| 0 <= i < |list| && list[i] == b;
    var j :| 0 <= j < |list| && list[j] == c;
    SamePlace(s.bufs, list, i, j);
  }

  lemma SamePlace(bufs: seq<Buf>, list: seq<nat>, i: nat, j: nat)
    requires Distinct(bufs, list) && i < |list| && j < |list| && list[i] < |bufs| && list[j] < |bufs|
    requires bufs[list[i]].blk == bufs[list[j]].blk
    ensures i == j
  {
  }

  /** Contents survive a step that keeps, for every buffer, what DataOk and Guards look at. */
  ghost predicate Still(s: State, t: State, p: nat) {
    && Sized(s) && Sized(t) && p < |s.pc| == |t.pc| && |t.bufs| == |s.bufs|
    && t.pc == s.pc[p := t.pc[p]] && t.lists == s.lists && t.store == s.store && t.disk == s.disk
    && (forall b :: 0 <= b < |s.bufs| ==>
          && t.bufs[b].blk == s.bufs[b].blk && t.bufs[b].valid == s.bufs[b].valid && t.bufs[b].data == s.bufs[b].data
          && (s.bufs[b].owner.Some? ==> t.bufs[b].owner.Some?)
          && (s.bufs[b].pins > 0 ==> t.bufs[b].pins > 0 || t.bufs[b].owner.Some?))
  }

  lemma StillKeeps(s: State, t: State, p: nat)
    requires Contents(s) && Still(s, t, p) && PcData(t, p)
    ensures Contents(t)
  {
    forall q | 0 <= q < |t.pc|
      ensures PcData(t, q)
    {
      assert PcData(s, q);
    }
    forall b | 0 <= b < |t.bufs|
      ensures DataOk(t, b)
    {
      assert DataOk(s, b);
    }
    forall blk
      ensures DiskOk(t, blk)
    {
      assert DiskOk(s, blk);
      if t.store(blk) != t.disk(blk) {
        var b: nat :| Guards(s, b, blk);
        assert Guards(t, b, blk);
      }
    }
  }

  predicate Changes(pc: Pc, ch: Choice) {
    pc.GetInit? || pc.GetInsert? || pc.ReadDisk? || pc.ReadDone? || pc.RelUnlink?
    || (pc.Hold? && (ch.Modify? || ch == Write || ch == Release))
  }

  lemma GetStill(s: State, p: nat, ch: Choice)
    requires Enabled(s, p, ch) && Getting(s.pc[p]) && !Changes(s.pc[p], ch) && PcData(s, p)
    ensures Still(s, GetStep(s, p, ch), p) && PcData(GetStep(s, p, ch), p)
  {
  }

  lemma HoldStill(s: State, p: nat, ch: Choice)
    requires Enabled(s, p, ch) && s.pc[p].Hold? && !Changes(s.pc[p], ch) && PcData(s, p)
    ensures Still(s, HoldStep(s, p, ch), p) && PcData(HoldStep(s, p, ch), p)
  {
  }

  lemma PinStill(s: State, p: nat, ch: Choice)
    requires Enabled(s, p, ch) && Pinning(s.pc[p]) && PcData(s, p)
    requires s.pc[p].PinHeld? ==> s.bufs[s.pc[p].b].owner.Some?
    ensures Still(s, PinStep(s, p, ch), p) && PcData(PinStep(s, p, ch), p)
  {
  }

  lemma RelStill(s: State, p: nat, ch: Choice)
    requires Enabled(s, p, ch) && !Getting(s.pc[p]) && !s.pc[p].Hold? && !Pinning(s.pc[p]) && !s.pc[p].RelUnlink?
    ensures Still(s, RelStep(s, p, ch), p) && PcData(RelStep(s, p, ch), p)
  {
  }

  lemma StillSteps(s: State, p: nat, ch: Choice)
    requires Locks(s) && Contents(s) && Enabled(s, p, ch) && !Changes(s.pc[p], ch)
    ensures Contents(Step(s, p, ch))
  {
    assert PcData(s, p);
    if Getting(s.pc[p]) {
      GetStill(s, p, ch);
    } else if s.pc[p].Hold? {
      HoldStill(s, p, ch);
    } else if Pinning(s.pc[p]) {
      assert Holds(s.pc[p]) == Some(s.pc[p].b);
      PinStill(s, p, ch);
    } else {
      RelStill(s, p, ch);
    }
    StillKeeps(s, Step(s, p, ch), p);
  }

  /** Other processes' knowledge survives changes to a buffer none of them holds or is inserting. */
  lemma OtherPcData(s: State, t: State, p: nat, b: nat, q: nat)
    requires Sized(s) && Sized(t) && p < |s.pc| == |t.pc| && t.pc == s.pc[p := t.pc[p]] && q < |s.pc| && q != p && PcData(s, q)
    requires b < |s.bufs| == |t.bufs| && forall x :: 0 <= x < |s.bufs| && x != b ==> t.bufs[x] == s.bufs[x]
    requires Holds(s.pc[q]) != Some(b) && Claims(s.pc[q]) != Some(b)
    requires s.pc[q].ReadDone? && s.pc[q].b < |s.bufs| ==> t.store(s.bufs[s.pc[q].b].blk) == s.store(s.bufs[s.pc[q].b].blk)
    ensures PcData(t, q)
  {
  }

  /** The holder of a buffer's sleep-lock is its only holder, and a listed buffer is claimed by nobody. */
  lemma HeldAlone(s: State, p: nat, b: nat, q: nat)
    requires Locks(s) && p < |s.pc| && q < |s.pc| && q != p && Holds(s.pc[p]) == Some(b) && b < |s.bufs| && Listed(s, b) && PcOk(s, q)
    ensures Holds(s.pc[q]) != Some(b) && Claims(s.pc[q]) != Some(b)
  {
  }

  // ---------------------------------------------------------------- filling a buffer from disk

  /** While no valid copy of a block is cached, disk and store agree on it. */
  lemma DiskIsCurrent(s: State, b: nat)
    requires Lists(s) && Contents(s) && Listed(s, b) && !s.bufs[b].valid
    ensures s.disk(s.bufs[b].blk) == s.store(s.bufs[b].blk)
  {
    var blk := s.bufs[b].blk;
    assert DiskOk(s, blk);
    if s.store(blk) != s.disk(blk) {
      var c: nat :| Guards(s, c, blk);
      OneBufferPerBlock(s, b, c);
    }
  }

  lemma ReadKeeps(s: State, p: nat, ch: Choice)
    requires Locks(s) && Struct(s) && Contents(s) && Enabled(s, p, ch) && (s.pc[p].ReadDisk? || s.pc[p].ReadDone?)
    ensures Contents(GetStep(s, p, ch))
  {
    var t, b := GetStep(s, p, ch), s.pc[p].b;
    assert PcOk(s, p) && PcData(s, p);
    DiskIsCurrent(s, b);
    ReadPcs(s, p, ch);
    forall x | 0 <= x < |t.bufs|
      ensures DataOk(t, x)
    {
      assert DataOk(s, x);
    }
    ReadDisks(s, t, b);
  }

  lemma ReadShape(s: State, p: nat, ch: Choice)
    requires Enabled(s, p, ch) && (s.pc[p].ReadDisk? || s.pc[p].ReadDone?) && PcData(s, p)
    requires s.pc[p].ReadDisk? ==> s.disk(s.bufs[s.pc[p].b].blk) == s.store(s.bufs[s.pc[p].b].blk)
    ensures var t, b := GetStep(s, p, ch), s.pc[p].b;
            && Sized(t) && |t.pc| == |s.pc| && |t.bufs| == |s.bufs| && t.pc == s.pc[p := t.pc[p]] && t.store == s.store
            && t.bufs == s.bufs[b := t.bufs[b]] && PcData(t, p) && Holds(s.pc[p]) == Some(b)
  {
  }

  lemma ReadPcs(s: State, p: nat, ch: Choice)
    requires Locks(s) && Pcs(s) && Enabled(s, p, ch) && (s.pc[p].ReadDisk? || s.pc[p].ReadDone?)
    requires forall q :: 0 <= q < |s.pc| ==> PcData(s, q)
    requires s.pc[p].ReadDisk? ==> s.disk(s.bufs[s.pc[p].b].blk) == s.store(s.bufs[s.pc[p].b].blk)
    ensures forall q :: 0 <= q < |s.pc| ==> PcData(GetStep(s, p, ch), q)
  {
    var t, b := GetStep(s, p, ch), s.pc[p].b;
    assert PcOk(s, p) && PcData(s, p);
    ReadShape(s, p, ch);
    forall q | 0 <= q < |t.pc| && q != p
      ensures PcData(t, q)
    {
      assert PcOk(s, q) && PcData(s, q);
      HeldAlone(s, p, b, q);
      OtherPcData(s, t, p, b, q);
    }
  }

  lemma ReadDisks(s: State, t: State, b: nat)
    requires Contents(s) && Sized(t) && b < |s.bufs| == |t.bufs| && t.lists == s.lists && t.store == s.store && t.disk == s.disk
    requires !s.bufs[b].valid && t.bufs == s.bufs[b := t.bufs[b]] && t.bufs[b].blk == s.bufs[b].blk
    ensures forall blk :: DiskOk(t, blk)
  {
    forall blk
      ensures DiskOk(t, blk)
    {
      assert DiskOk(s, blk);
      if t.store(blk) != t.disk(blk) {
        var c: nat :| Guards(s, c, blk);
        assert Guards(t, c, blk);
      }
    }
  }

  // ---------------------------------------------------------------- the holder's steps

  lemma ModifyKeeps(s: State, p: nat, ch: Choice)
    requires Locks(s) && Struct(s) && Contents(s) && Enabled(s, p, ch) && s.pc[p].Hold? && ch.Modify?
    ensures Contents(HoldStep(s, p, ch))
  {
    var t, b := HoldStep(s, p, ch), s.pc[p].b;
    assert PcOk(s, p) && PcData(s, p);
    assert Holds(s.pc[p]) == Some(b);
    forall q | 0 <= q < |t.pc|
      ensures PcData(t, q)
    {
      assert PcOk(s, q) && PcData(s, q);
      if q != p {
        HeldAlone(s, p, b, q);
        if s.pc[q].ReadDone? && s.bufs[s.pc[q].b].blk == s.bufs[b].blk {
          OneBufferPerBlock(s, b, s.pc[q].b);
        }
        OtherPcData(s, t, p, b, q);
      }
    }
    forall x | 0 <= x < |t.bufs|
      ensures DataOk(t, x)
    {
      assert DataOk(s, x);
      if x != b && Listed(s, x) && s.bufs[x].blk == s.bufs[b].blk {
        OneBufferPerBlock(s, b, x);
      }
    }
    ModifyDisks(s, t, b);
  }

  lemma ModifyDisks(s: State, t: State, b: nat)
    requires Contents(s) && Sized(t) && Listed(s, b) && s.bufs[b].valid && s.bufs[b].owner.Some? && |t.bufs| == |s.bufs|
    requires t.bufs == s.bufs[b := s.bufs[b].(data := t.bufs[b].data)] && t.lists == s.lists && t.disk == s.disk
    requires t.store == Put(s.store, s.bufs[b].blk, t.bufs[b].data)
    ensures forall blk :: DiskOk(t, blk)
  {
    forall blk
      ensures DiskOk(t, blk)
    {
      assert DiskOk(s, blk);
      if blk == s.bufs[b].blk {
        assert Guards(t, b, blk);
      } else if t.store(blk) != t.disk(blk) {
        var c: nat :| Guards(s, c, blk);
        assert Guards(t, c, blk);
      }
    }
  }

  lemma WriteKeeps(s: State, p: nat, ch: Choice)
    requires Struct(s) && Contents(s) && Enabled(s, p, ch) && s.pc[p].Hold? && ch == Write
    ensures Contents(HoldStep(s, p, ch))
  {
    var t, b := HoldStep(s, p, ch), s.pc[p].b;
    assert PcOk(s, p) && PcData(s, p) && DataOk(s, b);
    forall q | 0 <= q < |t.pc|
      ensures PcData(t, q)
    {
      assert PcData(s, q);
    }
    forall x | 0 <= x < |t.bufs|
      ensures DataOk(t, x)
    {
      assert DataOk(s, x);
    }
    forall blk
      ensures DiskOk(t, blk)
    {
      assert DiskOk(s, blk);
      if t.store(blk) != t.disk(blk) {
        var c: nat :| Guards(s, c, blk);
        assert Guards(t, c, blk);
      }
    }
  }

  lemma ReleaseKeeps(s: State, p: nat, ch: Choice)
    requires Struct(s) && Contents(s) && Enabled(s, p, ch) && s.pc[p].Hold? && ch == Release
    ensures Contents(HoldStep(s, p, ch))
  {
    var t, b := HoldStep(s, p, ch), s.pc[p].b;
    assert PcOk(s, p) && PcData(s, p) && DataOk(s, b);
    forall q | 0 <= q < |t.pc|
      ensures PcData(t, q)
    {
      assert PcData(s, q);
    }
    forall x | 0 <= x < |t.bufs|
      ensures DataOk(t, x)
    {
      assert DataOk(s, x);
    }
    forall blk
      ensures DiskOk(t, blk)
    {
      assert DiskOk(s, blk);
      if t.store(blk) != t.disk(blk) {
        var c: nat :| Guards(s, c, blk);
        assert Guards(t, c, blk);
      }
    }
  }

  // ---------------------------------------------------------------- entering and leaving the cache

  lemma InitKeeps(s: State, p: nat, ch: Choice)
    requires Struct(s) && Contents(s) && Enabled(s, p, ch) && s.pc[p].GetInit?
    ensures Contents(GetStep(s, p, ch))
  {
    var t, b := GetStep(s, p, ch), s.pc[p].b;
    assert PcOk(s, p);
    assert !Listed(s, b) && !Listed(t, b);
    forall q | 0 <= q < |t.pc| && q != p
      ensures PcData(t, q)
    {
      assert PcOk(s, q) && PcData(s, q);
      OtherPcData(s, t, p, b, q);
    }
    forall x | 0 <= x < |t.bufs|
      ensures DataOk(t, x)
    {
      assert DataOk(s, x);
    }
    forall blk
      ensures DiskOk(t, blk)
    {
      assert DiskOk(s, blk);
      if t.store(blk) != t.disk(blk) {
        var c: nat :| Guards(s, c, blk);
        assert Guards(t, c, blk);
      }
    }
  }

  lemma InsertKeeps(s: State, p: nat, ch: Choice)
    requires Struct(s) && Contents(s) && Enabled(s, p, ch) && s.pc[p].GetInsert?
    ensures Contents(GetStep(s, p, ch))
  {
    var t, b := GetStep(s, p, ch), s.pc[p].b;
    assert PcOk(s, p) && PcData(s, p);
    forall q | 0 <= q < |t.pc|
      ensures PcData(t, q)
    {
      assert PcData(s, q);
    }
    forall x | 0 <= x < |t.bufs|
      ensures DataOk(t, x)
    {
      assert DataOk(s, x);
    }
    forall blk
      ensures DiskOk(t, blk)
    {
      assert DiskOk(s, blk);
      if t.store(blk) != t.disk(blk) {
        var c: nat :| Guards(s, c, blk);
        assert Guards(t, c, blk);
      }
    }
  }

  /** A buffer leaves the cache unpinned and unheld, so its block's contents are on disk. */
  lemma UnlinkKeeps(s: State, p: nat, ch: Choice)
    requires Locks(s) && Counted(s) && Struct(s) && Contents(s) && Enabled(s, p, ch) && s.pc[p].RelUnlink?
    ensures Contents(RelStep(s, p, ch))
  {
    var t, b := RelStep(s, p, ch), s.pc[p].b;
    assert PcOk(s, p);
    if s.bufs[b].owner.Some? {
      NobodyRefers(s, b, s.bufs[b].owner.value);
    }
    UnlinkDisks(s, t, b, s.pc[p].v);
    forall q | 0 <= q < |t.pc|
      ensures PcData(t, q)
    {
      assert PcData(s, q);
    }
    forall x | 0 <= x < |t.bufs|
      ensures DataOk(t, x)
    {
      assert DataOk(s, x);
    }
  }

  lemma UnlinkDisks(s: State, t: State, b: nat, v: nat)
    requires Contents(s) && Sized(t) && t.bufs == s.bufs && t.disk == s.disk && t.store == s.store
    requires v < NBUCKETS && t.lists == s.lists[v := Without(s.lists[v], b)]
    requires b < |s.bufs| && s.bufs[b].owner.None? && s.bufs[b].pins == 0
    ensures forall blk :: DiskOk(t, blk)
  {
    forall blk
      ensures DiskOk(t, blk)
    {
      assert DiskOk(s, blk);
      if t.store(blk) != t.disk(blk) {
        var c: nat :| Guards(s, c, blk);
        assert Guards(t, c, blk);
      }
    }
  }

  lemma StepKeepsContents(s: State, p: nat, ch: Choice)
    requires Locks(s) && Counted(s) && Struct(s) && Contents(s) && Enabled(s, p, ch)
    ensures Contents(Step(s, p, ch))
  {
    if !Changes(s.pc[p], ch) {
      StillSteps(s, p, ch);
    } else if s.pc[p].GetInit? {
      InitKeeps(s, p, ch);
    } else if s.pc[p].GetInsert? {
      InsertKeeps(s, p, ch);
    } else if s.pc[p].RelUnlink? {
      UnlinkKeeps(s, p, ch);
    } else if s.pc[p].Hold? {
      if ch.Modify? {
        ModifyKeeps(s, p, ch);
      } else if ch == Write {
        WriteKeeps(s, p, ch);
      } else {
        ReleaseKeeps(s, p, ch);
      }
    } else {
      ReadKeeps(s, p, ch);
    }
  }

  // ---------------------------------------------------------------- every run

  ghost predicate Inv(s: State) {
    Locks(s) && Counted(s) && Struct(s) && Contents(s)
  }

  lemma {:induction false} CountIdle(pcs: seq<Pc>, b: nat)
    requires forall p :: 0 <= p < |pcs| ==> pcs[p] == Idle
    ensures Count(pcs, b) == 0
  {
    if pcs != [] {
      CountIdle(pcs[1..], b);
    }
  }

  lemma BootOk(nbuf: nat, nproc: nat, disk: Block -> Data)
    ensures Inv(Boot(nbuf, nproc, disk))
  {
    var s := Boot(nbuf, nproc, disk);
    forall b | 0 <= b < |s.bufs|
      ensures s.bufs[b].refcnt == s.bufs[b].pins + Count(s.pc, b)
    {
      CountIdle(s.pc, b);
    }
    assert forall b :: 0 <= b < |s.bufs| ==> !Listed(s, b) && BufOk(s, b);
    assert Struct(s) && Contents(s);
  }

  lemma StepKeeps(s: State, p: nat, ch: Choice)
    requires Inv(s) && Enabled(s, p, ch)
    ensures Inv(Step(s, p, ch))
  {
    StepFits(s, p, ch);
    MoveKeepsLocks(s, Step(s, p, ch), p);
    assert PcOk(s, p);
    StepKeepsCount(s, p, ch);
    StepKeepsStruct(s, p, ch);
    StepKeepsContents(s, p, ch);
  }

  lemma {:induction false} RunKeeps(s: State, steps: seq<(nat, Choice)>)
    requires Inv(s) && Run(s, steps)
    ensures Inv(After(s, steps))
    decreases |steps|
  {
    if steps != [] {
      StepKeeps(s, steps[0].0, steps[0].1);
      RunKeeps(Step(s, steps[0].0, steps[0].1), steps[1..]);
    }
  }

  ghost predicate Reachable(s: State) {
    exists nbuf: nat, nproc: nat, disk: Block -> Data, steps: seq<(nat, Choice)> ::
      Run(Boot(nbuf, nproc, disk), steps) && s == After(Boot(nbuf, nproc, disk), steps)
  }

  lemma ReachableInv(s: State)
    requires Reachable(s)
    ensures Inv(s)
  {
    var nbuf: nat, nproc: nat, disk: Block -> Data, steps: seq<(nat, Choice)> :|
      Run(Boot(nbuf, nproc, disk), steps) && s == After(Boot(nbuf, nproc, disk), steps);
    BootOk(nbuf, nproc, disk);
    RunKeeps(Boot(nbuf, nproc, disk), steps);
  }

  // ---------------------------------------------------------------- what holds in every reachable state

  /** The cached copy of a block: listed and filled. */
  ghost predicate Caches(s: State, b: nat, blk: Block)
    requires Sized(s)
  {
    Listed(s, b) && s.bufs[b].blk == blk && s.bufs[b].valid
  }

  /** A block's contents: the cached copy when there is one, otherwise the disk's. */
  ghost function ContentsOf(s: State, blk: Block): Data
    requires Sized(s)
  {
    if exists b: nat :: Caches(s, b, blk) then var b: nat :| Caches(s, b, blk); s.bufs[b].data else s.disk(blk)
  }

  /** The contents of every block are what its holders last wrote. */
  lemma CacheAgreesWithStore(s: State, blk: Block)
    requires Inv(s)
    ensures ContentsOf(s, blk) == s.store(blk)
  {
    assert DiskOk(s, blk);
    if exists b: nat :: Caches(s, b, blk) {
      var b: nat :| Caches(s, b, blk) && ContentsOf(s, blk) == s.bufs[b].data;
      assert DataOk(s, b);
    } else if s.store(blk) != s.disk(blk) {
      var b: nat :| Guards(s, b, blk);
      assert Caches(s, b, blk);
    }
  }

  /** bread returns, locked for its caller alone, the buffer of the block it was asked for with that block's contents. */
  lemma BreadReturnsContents(s: State, p: nat)
    requires Reachable(s) && p < |s.pc| && s.pc[p].Hold?
    ensures Sized(s) && s.pc[p].b < |s.bufs|
    ensures s.bufs[s.pc[p].b].blk == s.pc[p].blk && s.bufs[s.pc[p].b].owner == Some(p)
    ensures s.bufs[s.pc[p].b].data == ContentsOf(s, s.pc[p].blk) == s.store(s.pc[p].blk)
    ensures forall q :: 0 <= q < |s.pc| && q != p ==> Holds(s.pc[q]) != Some(s.pc[p].b)
  {
    ReachableInv(s);
    assert PcOk(s, p) && PcData(s, p) && DataOk(s, s.pc[p].b);
    assert Holds(s.pc[p]) == Some(s.pc[p].b);
    CacheAgreesWithStore(s, s.pc[p].blk);
  }

  /** Only a holder writing to its buffer changes any block's contents; bget, bread, bwrite, brelse, bpin and bunpin,
      and a buffer leaving the cache, change none. */
  lemma OnlyHoldersChangeContents(s: State, p: nat, ch: Choice, blk: Block)
    requires Reachable(s) && Enabled(s, p, ch)
    requires !(s.pc[p].Hold? && ch.Modify? && s.pc[p].blk == blk)
    ensures Sized(s) && Sized(Step(s, p, ch))
    ensures ContentsOf(Step(s, p, ch), blk) == ContentsOf(s, blk)
  {
    ReachableInv(s);
    StepKeeps(s, p, ch);
    CacheAgreesWithStore(s, blk);
    CacheAgreesWithStore(Step(s, p, ch), blk);
    assert PcOk(s, p);
    StoreStays(s, p, ch, blk);
  }

  lemma StoreStays(s: State, p: nat, ch: Choice, blk: Block)
    requires Enabled(s, p, ch) && PcOk(s, p) && !(s.pc[p].Hold? && ch.Modify? && s.pc[p].blk == blk)
    ensures Step(s, p, ch).store(blk) == s.store(blk)
  {
  }

  /** A buffer's reference count is exactly its pins plus the processes waiting for, holding or still releasing it. */
  lemma RefcntIsExact(s: State, b: nat)
    requires Reachable(s) && b < |s.bufs|
    ensures s.bufs[b].refcnt == s.bufs[b].pins + Count(s.pc, b)
  {
    ReachableInv(s);
  }

  /** While a process waits for, holds or releases a buffer, no step of anyone gives it another identity. */
  lemma IdentityIsStable(s: State, p: nat, ch: Choice, q: nat)
    requires Reachable(s) && Enabled(s, p, ch) && q < |s.pc| && Ref(s.pc[q]).Some?
    ensures Ref(s.pc[q]).value < |s.bufs| == |Step(s, p, ch).bufs|
    ensures Step(s, p, ch).bufs[Ref(s.pc[q]).value].blk == s.bufs[Ref(s.pc[q]).value].blk
  {
    ReachableInv(s);
    assert PcOk(s, q) && PcOk(s, p);
    StepFits(s, p, ch);
    if s.pc[p].GetInit? {
      NobodyRefers(s, s.pc[p].b, q);
    }
    IdentityStays(s, p, ch);
  }

  lemma IdentityStays(s: State, p: nat, ch: Choice)
    requires Enabled(s, p, ch) && Touches(s, Step(s, p, ch), p)
    ensures forall b :: 0 <= b < |s.bufs| && !(s.pc[p].GetInit? && s.pc[p].b == b) ==> Step(s, p, ch).bufs[b].blk == s.bufs[b].blk
  {
  }

  /** No block is cached twice, and when a bucket's lock is free every buffer in its list is referenced and its list is
      exactly the used buffers hashing to it, except those that a bget under another bucket's lock has marked used and
      is about to give a new identity. */
  lemma ListsAreExact(s: State, v: nat, b: nat)
    requires Reachable(s) && v < NBUCKETS && b < |s.bufs|
    ensures Sized(s)
    ensures forall c: nat :: Listed(s, b) && Listed(s, c) && s.bufs[c].blk == s.bufs[b].blk ==> c == b
    ensures b in s.lists[v] && s.bucketLock[v].None? ==> s.bufs[b].refcnt > 0
    ensures s.bucketLock[v].None? ==>
              (b in s.lists[v] <==>
               s.bufs[b].used && Hash(s.bufs[b].blk) == v &&
               forall p :: 0 <= p < |s.pc| && s.pc[p].GetInit? ==> s.pc[p].b != b)
  {
    ReachableInv(s);
    assert ListOk(s, v) && BufOk(s, b);
    forall c: nat | Listed(s, b) && Listed(s, c) && s.bufs[c].blk == s.bufs[b].blk
      ensures c == b
    {
      OneBufferPerBlock(s, b, c);
    }
    if s.bucketLock[v].None? {
      FreeBucket(s, v, b);
    }
  }

  lemma FreeBucket(s: State, v: nat, b: nat)
    requires Locks(s) && Struct(s) && v < NBUCKETS && b < |s.bufs| && s.bucketLock[v].None?
    ensures b in s.lists[v] ==> s.bufs[b].refcnt != 0
    ensures b in s.lists[v] <==>
            s.bufs[b].used && Hash(s.bufs[b].blk) == v && forall p :: 0 <= p < |s.pc| && s.pc[p].GetInit? ==> s.pc[p].b != b
  {
    if b in s.lists[v] {
      FreeBucketListed(s, v, b);
    } else if s.bufs[b].used && Hash(s.bufs[b].blk) == v {
      FreeBucketUnlisted(s, v, b);
    }
  }

  lemma NotHeld(s: State, v: nat, p: nat)
    requires Locks(s) && v < NBUCKETS && s.bucketLock[v].None? && p < |s.pc|
    ensures HeldBucket(s.pc[p]) != Some(v)
  {
  }

  lemma NobodyUnlinks(s: State, v: nat, b: nat)
    requires Locks(s) && v < NBUCKETS && s.bucketLock[v].None?
    ensures forall p :: 0 <= p < |s.pc| ==> s.pc[p] != RelUnlink(b, v)
  {
    forall p | 0 <= p < |s.pc|
      ensures s.pc[p] != RelUnlink(b, v)
    {
      assert HeldBucket(s.pc[p]) != Some(v);
    }
  }

  lemma FreeBucketListed(s: State, v: nat, b: nat)
    requires Locks(s) && Struct(s) && v < NBUCKETS && b < |s.bufs| && s.bucketLock[v].None? && b in s.lists[v]
    ensures s.bufs[b].refcnt != 0 && s.bufs[b].used && Hash(s.bufs[b].blk) == v
    ensures forall p :: 0 <= p < |s.pc| && s.pc[p].GetInit? ==> s.pc[p].b != b
  {
    assert ListOk(s, v) && BufOk(s, b);
    NobodyUnlinks(s, v, b);
    forall p | 0 <= p < |s.pc| && s.pc[p].GetInit?
      ensures s.pc[p].b != b
    {
      assert PcOk(s, p);
    }
  }

  lemma FreeBucketUnlisted(s: State, v: nat, b: nat)
    requires Locks(s) && Struct(s) && v < NBUCKETS && b < |s.bufs| && s.bucketLock[v].None? && b !in s.lists[v]
    requires s.bufs[b].used && Hash(s.bufs[b].blk) == v
    ensures exists p :: 0 <= p < |s.pc| && s.pc[p].GetInit? && s.pc[p].b == b
  {
    assert BufOk(s, b);
    var p :| 0 <= p < |s.pc| && Claims(s.pc[p]) == Some(b);
    assert PcOk(s, p);
    NotHeld(s, v, p);
  }

  /** The panics of bwrite and brelse (lines 115 and 125) never fire for the caller of bread. */
  lemma HoldersHoldTheSleepLock(s: State, p: nat)
    requires Reachable(s) && p < |s.pc| && s.pc[p].Hold?
    ensures s.pc[p].b < |s.bufs| && s.bufs[s.pc[p].b].owner == Some(p)
  {
    ReachableInv(s);
    assert Holds(s.pc[p]) == Some(s.pc[p].b);
  }

  /** The exception in ListsAreExact is real: the first step of a run can leave buffer 0 used, hashing to the free
      bucket 0 by its stale block number, and in no list, while it is being given to bucket 1. */
  lemma StaleIdentityOccurs(disk: Block -> Data) returns (s: State)
    ensures Reachable(s) && Sized(s) && |s.bufs| == 1
    ensures s.bucketLock[0].None? && s.bufs[0].used && Hash(s.bufs[0].blk) == 0 && 0 !in s.lists[0]
  {
    var blk := Block(0, 1);
    assert Hash(blk) == 1;
    var s0 := Boot(1, 1, disk);
    var s1 := Step(s0, 0, Read(blk));
    var s2 := Step(s1, 0, Go);
    var s3 := Step(s2, 0, Go);
    var s4 := Step(s3, 0, Go);
    s := Step(s4, 0, Go);
    var steps: seq<(nat, Choice)> := [(0, Read(blk)), (0, Go), (0, Go), (0, Go), (0, Go)];
    assert s1.pc[0] == GetLock(blk) && s1.lists == s0.lists && s1.bufs == s0.bufs;
    assert s2.pc[0] == GetScan(blk, 0) && s2.lists[1] == [] && s2.bufs == s0.bufs;
    assert s3.pc[0] == GetFree(blk, 0) && s3.bufs == s0.bufs;
    assert s4.pc[0] == GetTas(blk, 0) && s4.bufs == s0.bufs;
    assert Run(s4, steps[4..]) && After(s4, steps[4..]) == s by { assert steps[4..][1..] == []; }
    assert Run(s3, steps[3..]) && After(s3, steps[3..]) == s by { assert steps[3..][1..] == steps[4..]; }
    assert Run(s2, steps[2..]) && After(s2, steps[2..]) == s by { assert steps[2..][1..] == steps[3..]; }
    assert Run(s1, steps[1..]) && After(s1, steps[1..]) == s by { assert steps[1..][1..] == steps[2..]; }
    assert Run(s0, steps) && After(s0, steps) == s;
  }
}
