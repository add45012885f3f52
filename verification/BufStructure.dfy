/** The hash lists of the buffer cache: which buffers are listed, one per block, in every interleaving. */
module BufStructure {
  import opened BufProtocol
  import opened BufInvariant

  /** No listed buffer holds this block. */
  ghost predicate Absent(s: State, blk: Block)
    requires Sized(s)
  {
    forall x :: x in s.lists[Hash(blk)] && x < |s.bufs| ==> s.bufs[x].blk != blk
  }

  /** Used, unreferenced, and in no list. */
  ghost predicate Detached(s: State, b: nat)
    requires Sized(s)
  {
    && b < |s.bufs| && s.bufs[b].used
    && forall v :: 0 <= v < NBUCKETS ==> b !in s.lists[v]
  }

  ghost predicate Unreferenced(s: State, b: nat) {
    b < |s.bufs| && s.bufs[b].refcnt == 0 && s.bufs[b].pins == 0
  }

  /** The buffer a process was given is listed and still holds the block it asked for. */
  ghost predicate Given(s: State, blk: Block, b: nat)
    requires Sized(s)
  {
    b < |s.bufs| && s.bufs[b].blk == blk && b in s.lists[Hash(blk)]
  }

  ghost predicate PcOk(s: State, p: nat)
    requires Sized(s) && p < |s.pc|
  {
    match s.pc[p]
    case Idle => true
    case GetLock(_) => true
    case GetScan(blk, k) =>
      forall i :: 0 <= i < k && i < |s.lists[Hash(blk)]| && s.lists[Hash(blk)][i] < |s.bufs| ==>
        s.bufs[s.lists[Hash(blk)][i]].blk != blk
    case GetFound(blk, b) => Given(s, blk, b)
    case GetFree(blk, _) => Absent(s, blk)
    case GetTas(blk, _) => Absent(s, blk)
    case GetInit(blk, b) => Absent(s, blk) && Detached(s, b) && Unreferenced(s, b)
    case GetInsert(blk, b) => Absent(s, blk) && Detached(s, b) && s.bufs[b].blk == blk && s.bufs[b].pins == 0
    case GetRelease(blk, b) => Given(s, blk, b)
    case GetSleep(blk, b) => Given(s, blk, b)
    case ReadTest(blk, b) => Given(s, blk, b)
    case ReadDisk(blk, b) => Given(s, blk, b)
    case ReadDone(blk, b) => Given(s, blk, b)
    case Hold(blk, b) => Given(s, blk, b)
    case PinHash(blk, b, _) => Given(s, blk, b)
    case PinLock(blk, b, v, _) => Given(s, blk, b) && v == Hash(blk)
    case PinHeld(blk, b, v, _) => Given(s, blk, b) && v == Hash(blk)
    case PinRelease(blk, b, v) => Given(s, blk, b) && v == Hash(blk)
    case RelHash(blk, b) => Given(s, blk, b)
    case RelLock(blk, b, v) => Given(s, blk, b) && v == Hash(blk)
    case RelHeld(blk, b, v) => Given(s, blk, b) && v == Hash(blk)
    case RelUnlink(b, v) => Listed(s, b) && Unreferenced(s, b) && v == Hash(s.bufs[b].blk)
    case RelClear(b, v) => Detached(s, b) && Unreferenced(s, b) && v == Hash(s.bufs[b].blk)
    case RelRelease(_) => true
    case Panicked(_) => true
  }

  ghost predicate Pcs(s: State) {
    Sized(s) && forall p :: 0 <= p < |s.pc| ==> PcOk(s, p)
  }

  /** No duplicates and no two buffers for the same block. */
  ghost predicate Distinct(bufs: seq<Buf>, list: seq<nat>) {
    forall i, j :: 0 <= i < j < |list| && list[i] < |bufs| && list[j] < |bufs| ==>
      list[i] != list[j] && bufs[list[i]].blk != bufs[list[j]].blk
  }

  /** Every list holds used buffers of its bucket, each once, and no two for the same block. */
  ghost predicate ListOk(s: State, v: nat)
    requires Sized(s) && v < NBUCKETS
  {
    var list := s.lists[v];
    && (forall x :: x in list ==> x < |s.bufs| && s.bufs[x].used && Hash(s.bufs[x].blk) == v)
    && Distinct(s.bufs, list)
  }

  ghost predicate Lists(s: State) {
    Sized(s) && forall v :: 0 <= v < NBUCKETS ==> ListOk(s, v)
  }

  ghost predicate Claimed(s: State, b: nat) {
    exists p :: 0 <= p < |s.pc| && Claims(s.pc[p]) == Some(b)
  }

  /** A used buffer is listed unless some process is moving it in or out; an unlisted one has no pins, a free one no
      reference; a listed one without references is just being unlinked. */
  ghost predicate BufOk(s: State, b: nat)
    requires Sized(s) && b < |s.bufs|
  {
    && (s.bufs[b].used ==> Listed(s, b) || Claimed(s, b))
    && (!s.bufs[b].used ==> Unreferenced(s, b))
    && (s.bufs[b].pins > 0 ==> Listed(s, b))
    && (Listed(s, b) && s.bufs[b].refcnt == 0 ==>
          exists p :: 0 <= p < |s.pc| && s.pc[p] == RelUnlink(b, Hash(s.bufs[b].blk)))
  }

  ghost predicate Bufs(s: State) {
    && Sized(s)
    && (forall b :: 0 <= b < |s.bufs| ==> BufOk(s, b))
    && (forall p, q :: 0 <= p < |s.pc| && 0 <= q < |s.pc| && p != q && Claims(s.pc[p]).Some? ==> Claims(s.pc[p]) != Claims(s.pc[q]))
  }

  // ---------------------------------------------------------------- mutual exclusion, as used below

  lemma OneHolder(s: State, p: nat, q: nat)
    requires Locks(s) && p < |s.pc| && q < |s.pc| && HeldBucket(s.pc[p]).Some? && HeldBucket(s.pc[p]) == HeldBucket(s.pc[q])
    ensures p == q
  {
  }

  // ---------------------------------------------------------------- other processes

  /** No list changed, and no buffer's identity or counts; a free buffer may have been marked used. */
  ghost predicate Quiet(s: State, t: State, p: nat) {
    && Touches(s, t, p) && t.lists == s.lists
    && (match Target(s.pc[p])
        case None => true
        case Some(b) =>
          && t.bufs[b].blk == s.bufs[b].blk && t.bufs[b].refcnt == s.bufs[b].refcnt && t.bufs[b].pins == s.bufs[b].pins
          && (s.bufs[b].used ==> t.bufs[b].used))
  }

  lemma QuietOther(s: State, t: State, p: nat, q: nat)
    requires Sized(s) && Quiet(s, t, p) && q < |s.pc| && q != p && PcOk(s, q)
    ensures PcOk(t, q)
  {
  }

  lemma QuietPcs(s: State, t: State, p: nat)
    requires Pcs(s) && Quiet(s, t, p) && PcOk(t, p)
    ensures Pcs(t)
  {
    forall q | 0 <= q < |t.pc|
      ensures PcOk(t, q)
    {
      assert PcOk(s, q);
      if q != p {
        QuietOther(s, t, p, q);
      }
    }
  }

  lemma QuietLists(s: State, t: State, p: nat)
    requires Lists(s) && Quiet(s, t, p)
    ensures Lists(t)
  {
    forall v | 0 <= v < NBUCKETS
      ensures ListOk(t, v)
    {
      assert ListOk(s, v);
    }
  }

  // ---------------------------------------------------------------- the plain steps

  /** The steps that change no list, identity, count or used flag. */
  predicate Plain(pc: Pc) {
    !pc.GetFound? && !pc.GetTas? && !pc.GetInit? && !pc.GetInsert? && !pc.PinHeld? && !pc.RelHeld? && !pc.RelUnlink? && !pc.RelClear?
  }

  lemma PlainQuiet(s: State, p: nat, ch: Choice)
    requires Enabled(s, p, ch) && Plain(s.pc[p]) && Touches(s, Step(s, p, ch), p)
    ensures Quiet(s, Step(s, p, ch), p)
    ensures Claims(s.pc[p]).None? && Claims(Step(s, p, ch).pc[p]).None?
    ensures Target(s.pc[p]).Some? ==> Step(s, p, ch).bufs[Target(s.pc[p]).value].used == s.bufs[Target(s.pc[p]).value].used
  {
  }

  lemma GetPlainPc(s: State, p: nat, ch: Choice)
    requires Enabled(s, p, ch) && Plain(s.pc[p]) && Getting(s.pc[p]) && PcOk(s, p) && Lists(s)
    ensures PcOk(GetStep(s, p, ch), p)
  {
    if s.pc[p].GetScan? {
      var blk, k := s.pc[p].blk, s.pc[p].k;
      assert ListOk(s, Hash(blk));
      if k < |s.lists[Hash(blk)]| {
        assert s.lists[Hash(blk)][k] in s.lists[Hash(blk)];
      }
    }
  }

  lemma OtherPlainPc(s: State, p: nat, ch: Choice)
    requires Enabled(s, p, ch) && Plain(s.pc[p]) && !Getting(s.pc[p]) && PcOk(s, p)
    ensures PcOk(Step(s, p, ch), p)
  {
  }

  /** BufOk survives when counts, flags and lists stay and no claim or unlinking in progress ends. */
  lemma PlainBufs(s: State, t: State, p: nat)
    requires Bufs(s) && Quiet(s, t, p) && Plain(s.pc[p]) && Claims(t.pc[p]).None?
    requires Target(s.pc[p]).Some? ==> t.bufs[Target(s.pc[p]).value].used == s.bufs[Target(s.pc[p]).value].used
    ensures Bufs(t)
  {
    forall b | 0 <= b < |t.bufs|
      ensures BufOk(t, b)
    {
      BufKept(s, t, p, b);
    }
  }

  /** BufOk of one buffer survives when its counts, flags and listing stay, and p neither claims nor unlinks it. */
  lemma BufKept(s: State, t: State, p: nat, b: nat)
    requires Sized(s) && Sized(t) && p < |s.pc| == |t.pc| && t.pc == s.pc[p := t.pc[p]] && b < |s.bufs| == |t.bufs| && BufOk(s, b)
    requires t.bufs[b].blk == s.bufs[b].blk && t.bufs[b].refcnt == s.bufs[b].refcnt && t.bufs[b].pins == s.bufs[b].pins
    requires t.bufs[b].used == s.bufs[b].used && (Listed(t, b) <==> Listed(s, b))
    requires Claims(s.pc[p]) == Some(b) ==> Claims(t.pc[p]) == Some(b)
    requires s.pc[p].RelUnlink? ==> s.pc[p].b != b
    ensures BufOk(t, b)
  {
    if Claimed(s, b) {
      var q :| 0 <= q < |s.pc| && Claims(s.pc[q]) == Some(b);
      assert Claims(t.pc[q]) == Some(b);
    }
    if Listed(s, b) && s.bufs[b].refcnt == 0 {
      var q :| 0 <= q < |s.pc| && s.pc[q] == RelUnlink(b, Hash(s.bufs[b].blk));
      assert t.pc[q] == RelUnlink(b, Hash(t.bufs[b].blk));
    }
  }

  ghost predicate Struct(s: State) {
    Pcs(s) && Lists(s) && Bufs(s)
  }

  lemma PlainKeeps(s: State, p: nat, ch: Choice)
    requires Struct(s) && Enabled(s, p, ch) && Plain(s.pc[p])
    ensures Struct(Step(s, p, ch))
  {
    var t := Step(s, p, ch);
    StepFits(s, p, ch);
    PlainQuiet(s, p, ch);
    assert PcOk(s, p);
    if Getting(s.pc[p]) {
      GetPlainPc(s, p, ch);
    } else {
      OtherPlainPc(s, p, ch);
    }
    QuietPcs(s, t, p);
    QuietLists(s, t, p);
    PlainBufs(s, t, p);
  }

  // ---------------------------------------------------------------- taking a free buffer

  lemma TasPcs(s: State, p: nat, ch: Choice)
    requires Struct(s) && Enabled(s, p, ch) && s.pc[p].GetTas?
    ensures Pcs(GetStep(s, p, ch)) && Lists(GetStep(s, p, ch))
  {
    var t := GetStep(s, p, ch);
    GetFits(s, p, ch);
    assert PcOk(s, p) && BufOk(s, s.pc[p].i);
    forall v | 0 <= v < NBUCKETS
      ensures !s.bufs[s.pc[p].i].used ==> s.pc[p].i !in s.lists[v]
    {
      assert ListOk(s, v);
    }
    QuietPcs(s, t, p);
    QuietLists(s, t, p);
  }

  /** Test-and-set succeeds for one process only: nobody else can be claiming a buffer that was free. */
  lemma TasBufs(s: State, p: nat, ch: Choice)
    requires Pcs(s) && Bufs(s) && Enabled(s, p, ch) && s.pc[p].GetTas?
    ensures Bufs(GetStep(s, p, ch))
  {
    var t, i := GetStep(s, p, ch), s.pc[p].i;
    GetFits(s, p, ch);
    assert BufOk(s, i);
    forall q | 0 <= q < |s.pc| && !s.bufs[i].used
      ensures Claims(s.pc[q]) != Some(i)
    {
      assert PcOk(s, q);
    }
    forall b | 0 <= b < |t.bufs|
      ensures BufOk(t, b)
    {
      if b == i && !s.bufs[i].used {
        assert Claims(t.pc[p]) == Some(i);
        assert s.bufs[i].pins == 0;
        TasTarget(s, p, ch);
      } else {
        BufKept(s, t, p, b);
      }
    }
  }

  lemma TasTarget(s: State, p: nat, ch: Choice)
    requires Sized(s) && Enabled(s, p, ch) && s.pc[p].GetTas? && !s.bufs[s.pc[p].i].used && BufOk(s, s.pc[p].i)
    ensures BufOk(GetStep(s, p, ch), s.pc[p].i)
  {
    var t, i := GetStep(s, p, ch), s.pc[p].i;
    assert Claims(t.pc[p]) == Some(i);
    if Listed(s, i) {
      var q :| 0 <= q < |s.pc| && s.pc[q] == RelUnlink(i, Hash(s.bufs[i].blk));
      assert t.pc[q] == RelUnlink(i, Hash(t.bufs[i].blk));
    }
  }

  // ---------------------------------------------------------------- giving it an identity and linking it

  /** A buffer in no list is nobody else's: not given to them, not scanned by them, not claimed by them. */
  lemma InitOther(s: State, p: nat, ch: Choice, q: nat)
    requires Sized(s) && Enabled(s, p, ch) && s.pc[p].GetInit? && PcOk(s, p) && q < |s.pc| && q != p && PcOk(s, q)
    requires Claims(s.pc[q]) != Claims(s.pc[p])
    ensures PcOk(GetStep(s, p, ch), q)
  {
  }

  lemma InitPcs(s: State, p: nat, ch: Choice)
    requires Struct(s) && Enabled(s, p, ch) && s.pc[p].GetInit?
    ensures Pcs(GetStep(s, p, ch))
  {
    var t := GetStep(s, p, ch);
    assert PcOk(s, p);
    forall q | 0 <= q < |t.pc|
      ensures PcOk(t, q)
    {
      assert PcOk(s, q);
      if q != p {
        InitOther(s, p, ch, q);
      }
    }
  }

  lemma InitLists(s: State, p: nat, ch: Choice)
    requires Struct(s) && Enabled(s, p, ch) && s.pc[p].GetInit?
    ensures Lists(GetStep(s, p, ch))
  {
    var t := GetStep(s, p, ch);
    assert PcOk(s, p);
    forall v | 0 <= v < NBUCKETS
      ensures ListOk(t, v)
    {
      assert ListOk(s, v);
      assert forall x :: x in s.lists[v] ==> x != s.pc[p].b;
    }
  }

  lemma InitBufs(s: State, p: nat, ch: Choice)
    requires Struct(s) && Enabled(s, p, ch) && s.pc[p].GetInit?
    ensures Bufs(GetStep(s, p, ch))
  {
    var t, b := GetStep(s, p, ch), s.pc[p].b;
    assert PcOk(s, p);
    forall x | 0 <= x < |t.bufs|
      ensures BufOk(t, x)
    {
      if x == b {
        assert Claims(t.pc[p]) == Some(b);
      } else {
        BufKept(s, t, p, x);
      }
    }
  }

  lemma InsertOther(s: State, p: nat, ch: Choice, q: nat)
    requires Locks(s) && Enabled(s, p, ch) && s.pc[p].GetInsert? && PcOk(s, p) && q < |s.pc| && q != p && PcOk(s, q)
    requires Claims(s.pc[q]) != Claims(s.pc[p])
    ensures PcOk(GetStep(s, p, ch), q)
  {
    if HeldBucket(s.pc[q]) == HeldBucket(s.pc[p]) {
      OneHolder(s, p, q);
    }
  }

  lemma InsertPcs(s: State, p: nat, ch: Choice)
    requires Locks(s) && Struct(s) && Enabled(s, p, ch) && s.pc[p].GetInsert?
    ensures Pcs(GetStep(s, p, ch))
  {
    var t := GetStep(s, p, ch);
    assert PcOk(s, p);
    forall q | 0 <= q < |t.pc|
      ensures PcOk(t, q)
    {
      assert PcOk(s, q);
      if q != p {
        InsertOther(s, p, ch, q);
      }
    }
  }

  lemma InsertLists(s: State, p: nat, ch: Choice)
    requires Struct(s) && Enabled(s, p, ch) && s.pc[p].GetInsert?
    ensures Lists(GetStep(s, p, ch))
  {
    var t := GetStep(s, p, ch);
    assert PcOk(s, p);
    forall v | 0 <= v < NBUCKETS
      ensures ListOk(t, v)
    {
      assert ListOk(s, v);
      if v == Hash(s.pc[p].blk) {
        PrependOk(s, t, s.pc[p].b, v);
      }
    }
  }

  lemma PrependOk(s: State, t: State, b: nat, v: nat)
    requires Sized(s) && Sized(t) && v < NBUCKETS && ListOk(s, v) && t.bufs == s.bufs && t.lists[v] == [b] + s.lists[v]
    requires Detached(s, b) && Hash(s.bufs[b].blk) == v && Absent(s, s.bufs[b].blk)
    ensures ListOk(t, v)
  {
    var rest := s.lists[v];
    forall i, j | 0 <= i < j < |t.lists[v]| && t.lists[v][i] < |t.bufs| && t.lists[v][j] < |t.bufs|
      ensures t.lists[v][i] != t.lists[v][j] && t.bufs[t.lists[v][i]].blk != t.bufs[t.lists[v][j]].blk
    {
      assert t.lists[v][j] == rest[j - 1] && rest[j - 1] in rest;
      if i > 0 {
        assert t.lists[v][i] == rest[i - 1];
      }
    }
  }

  lemma InsertBufs(s: State, p: nat, ch: Choice)
    requires Counted(s) && Struct(s) && Enabled(s, p, ch) && s.pc[p].GetInsert?
    ensures Bufs(GetStep(s, p, ch))
  {
    var t, b := GetStep(s, p, ch), s.pc[p].b;
    assert PcOk(s, p);
    CountOne(s.pc, p, b);
    forall x | 0 <= x < |t.bufs|
      ensures BufOk(t, x)
    {
      if x != b {
        BufKept(s, t, p, x);
      }
    }
  }

  // ---------------------------------------------------------------- counting references

  predicate Recounts(pc: Pc) {
    pc.GetFound? || pc.PinHeld? || pc.RelHeld?
  }

  /** Process p changed the count of buffer b and nothing else but its own position. */
  ghost predicate CountOnly(s: State, t: State, p: nat, b: nat) {
    && Sized(s) && Sized(t) && p < |s.pc| == |t.pc| && b < |s.bufs|
    && t.pc == s.pc[p := t.pc[p]] && t.lists == s.lists
    && |t.bufs| == |s.bufs| && t.bufs == s.bufs[b := s.bufs[b].(refcnt := t.bufs[b].refcnt, pins := t.bufs[b].pins)]
  }

  lemma RecountShape(s: State, p: nat, ch: Choice)
    requires Enabled(s, p, ch) && Recounts(s.pc[p]) && PcOk(s, p)
    ensures CountOnly(s, Step(s, p, ch), p, s.pc[p].b)
    ensures Given(s, s.pc[p].blk, s.pc[p].b) && HeldBucket(s.pc[p]) == Some(Hash(s.bufs[s.pc[p].b].blk))
    ensures Claims(Step(s, p, ch).pc[p]).None? && Claims(s.pc[p]).None?
  {
  }

  /** The count of a listed buffer changes only under its bucket's lock, so nobody is unlinking it meanwhile. */
  lemma RecountOther(s: State, t: State, p: nat, b: nat, q: nat)
    requires Sized(s) && CountOnly(s, t, p, b) && Listed(s, b) && q < |s.pc| && q != p && PcOk(s, q)
    requires HeldBucket(s.pc[q]) != Some(Hash(s.bufs[b].blk))
    ensures PcOk(t, q)
  {
  }

  lemma RecountPcs(s: State, p: nat, ch: Choice)
    requires Locks(s) && Counted(s) && Pcs(s) && Enabled(s, p, ch) && Recounts(s.pc[p])
    ensures Pcs(Step(s, p, ch))
  {
    var t, b := Step(s, p, ch), s.pc[p].b;
    assert PcOk(s, p);
    RecountShape(s, p, ch);
    RecountOwn(s, p, ch);
    forall q | 0 <= q < |t.pc|
      ensures PcOk(t, q)
    {
      if q != p {
        assert PcOk(s, q);
        if HeldBucket(s.pc[q]) == HeldBucket(s.pc[p]) {
          OneHolder(s, p, q);
        }
        RecountOther(s, t, p, b, q);
      }
    }
  }

  lemma RecountOwn(s: State, p: nat, ch: Choice)
    requires Counted(s) && Sized(s) && Enabled(s, p, ch) && Recounts(s.pc[p]) && PcOk(s, p)
    ensures PcOk(Step(s, p, ch), p)
  {
    if s.pc[p].RelHeld? {
      CountOne(s.pc, p, s.pc[p].b);
    }
  }

  lemma RecountLists(s: State, t: State, p: nat, b: nat)
    requires Lists(s) && CountOnly(s, t, p, b)
    ensures Lists(t)
  {
    forall v | 0 <= v < NBUCKETS
      ensures ListOk(t, v)
    {
      assert ListOk(s, v);
    }
  }

  lemma RecountTarget(s: State, p: nat, ch: Choice)
    requires Counted(s) && Sized(s) && Enabled(s, p, ch) && Recounts(s.pc[p]) && PcOk(s, p) && BufOk(s, s.pc[p].b)
    requires s.bufs[s.pc[p].b].used
    ensures BufOk(Step(s, p, ch), s.pc[p].b)
  {
    var t, b := Step(s, p, ch), s.pc[p].b;
    if !s.pc[p].GetFound? {
      CountOne(s.pc, p, b);
    }
    if s.pc[p].RelHeld? && s.bufs[b].refcnt - 1 == 0 {
      assert t.pc[p] == RelUnlink(b, Hash(t.bufs[b].blk));
    }
  }

  lemma RecountBufs(s: State, t: State, p: nat, b: nat)
    requires Sized(s) && Bufs(s) && CountOnly(s, t, p, b) && BufOk(t, b) && Claims(s.pc[p]).None? && Claims(t.pc[p]).None?
    requires !s.pc[p].RelUnlink?
    ensures Bufs(t)
  {
    forall x | 0 <= x < |t.bufs|
      ensures BufOk(t, x)
    {
      if x != b {
        BufKept(s, t, p, x);
      }
    }
  }

  lemma RecountKeeps(s: State, p: nat, ch: Choice)
    requires Locks(s) && Counted(s) && Struct(s) && Enabled(s, p, ch) && Recounts(s.pc[p])
    ensures Struct(Step(s, p, ch))
  {
    var t, b := Step(s, p, ch), s.pc[p].b;
    assert PcOk(s, p) && BufOk(s, b);
    RecountShape(s, p, ch);
    assert ListOk(s, Hash(s.bufs[b].blk));
    RecountPcs(s, p, ch);
    RecountLists(s, t, p, b);
    RecountTarget(s, p, ch);
    RecountBufs(s, t, p, b);
  }

  // ---------------------------------------------------------------- unlinking and freeing

  lemma {:induction false} WithoutDistinct(bufs: seq<Buf>, list: seq<nat>, b: nat)
    requires Distinct(bufs, list)
    ensures Distinct(bufs, Without(list, b))
  {
    if list != [] {
      WithoutDistinct(bufs, list[1..], b);
      if list[0] != b {
        PrependDistinct(bufs, list, Without(list[1..], b));
      }
    }
  }

  lemma PrependDistinct(bufs: seq<Buf>, list: seq<nat>, tail: seq<nat>)
    requires list != [] && Distinct(bufs, list) && Distinct(bufs, tail) && forall x :: x in tail ==> x in list[1..]
    ensures Distinct(bufs, [list[0]] + tail)
  {
    var r := [list[0]] + tail;
    forall i, j | 0 <= i < j < |r| && r[i] < |bufs| && r[j] < |bufs|
      ensures r[i] != r[j] && bufs[r[i]].blk != bufs[r[j]].blk
    {
      assert r[j] == tail[j - 1] && tail[j - 1] in tail;
      if i == 0 {
        var k :| 0 <= k < |list[1..]| && list[1..][k] == r[j];
        assert list[k + 1] == r[j];
      } else {
        assert r[i] == tail[i - 1];
      }
    }
  }

  lemma UnlinkList(s: State, t: State, b: nat, v: nat)
    requires Sized(s) && Sized(t) && v < NBUCKETS && ListOk(s, v) && t.bufs == s.bufs && t.lists[v] == Without(s.lists[v], b)
    ensures ListOk(t, v)
  {
    WithoutDistinct(s.bufs, s.lists[v], b);
  }

  lemma UnlinkLists(s: State, p: nat, ch: Choice)
    requires Lists(s) && Enabled(s, p, ch) && s.pc[p].RelUnlink?
    ensures Lists(RelStep(s, p, ch))
  {
    var t := RelStep(s, p, ch);
    forall v | 0 <= v < NBUCKETS
      ensures ListOk(t, v)
    {
      assert ListOk(s, v);
      if v == s.pc[p].v {
        UnlinkList(s, t, s.pc[p].b, v);
      }
    }
  }

  /** No process refers to a buffer whose count reached 0. */
  lemma NobodyRefers(s: State, b: nat, q: nat)
    requires Counted(s) && Unreferenced(s, b) && q < |s.pc|
    ensures Ref(s.pc[q]) != Some(b)
  {
    if Ref(s.pc[q]) == Some(b) {
      CountOne(s.pc, q, b);
    }
  }

  lemma UnlinkOther(s: State, p: nat, ch: Choice, q: nat)
    requires Locks(s) && Enabled(s, p, ch) && s.pc[p].RelUnlink? && PcOk(s, p) && q < |s.pc| && q != p && PcOk(s, q)
    requires Ref(s.pc[q]) != Some(s.pc[p].b)
    ensures PcOk(RelStep(s, p, ch), q)
  {
    if HeldBucket(s.pc[q]) == HeldBucket(s.pc[p]) {
      OneHolder(s, p, q);
    }
  }

  lemma UnlinkPcs(s: State, p: nat, ch: Choice)
    requires Locks(s) && Counted(s) && Struct(s) && Enabled(s, p, ch) && s.pc[p].RelUnlink?
    ensures Pcs(RelStep(s, p, ch))
  {
    var t, b := RelStep(s, p, ch), s.pc[p].b;
    assert PcOk(s, p);
    assert Detached(t, b) by {
      forall v | 0 <= v < NBUCKETS
        ensures b !in t.lists[v]
      {
        assert ListOk(s, v);
      }
      assert ListOk(s, s.pc[p].v);
    }
    forall q | 0 <= q < |t.pc|
      ensures PcOk(t, q)
    {
      assert PcOk(s, q);
      if q != p {
        NobodyRefers(s, b, q);
        UnlinkOther(s, p, ch, q);
      }
    }
  }

  lemma UnlinkBufs(s: State, p: nat, ch: Choice)
    requires Struct(s) && Enabled(s, p, ch) && s.pc[p].RelUnlink?
    ensures Bufs(RelStep(s, p, ch))
  {
    var t, b := RelStep(s, p, ch), s.pc[p].b;
    assert PcOk(s, p) && ListOk(s, s.pc[p].v);
    forall q | 0 <= q < |s.pc| && q != p
      ensures Claims(s.pc[q]) != Some(b)
    {
      assert PcOk(s, q);
    }
    forall x | 0 <= x < |t.bufs|
      ensures BufOk(t, x)
    {
      if x == b {
        assert Claims(t.pc[p]) == Some(b);
      } else {
        BufKept(s, t, p, x);
      }
    }
  }

  lemma ClearOther(s: State, p: nat, ch: Choice, q: nat)
    requires Sized(s) && Enabled(s, p, ch) && s.pc[p].RelClear? && PcOk(s, p) && q < |s.pc| && q != p && PcOk(s, q)
    requires Claims(s.pc[q]) != Claims(s.pc[p])
    ensures PcOk(RelStep(s, p, ch), q)
  {
  }

  lemma ClearKeeps(s: State, p: nat, ch: Choice)
    requires Struct(s) && Enabled(s, p, ch) && s.pc[p].RelClear?
    ensures Struct(RelStep(s, p, ch))
  {
    var t, b := RelStep(s, p, ch), s.pc[p].b;
    assert PcOk(s, p);
    forall q | 0 <= q < |t.pc|
      ensures PcOk(t, q)
    {
      assert PcOk(s, q);
      if q != p {
        ClearOther(s, p, ch, q);
      }
    }
    forall v | 0 <= v < NBUCKETS
      ensures ListOk(t, v)
    {
      assert ListOk(s, v);
    }
    forall x | 0 <= x < |t.bufs|
      ensures BufOk(t, x)
    {
      if x != b {
        BufKept(s, t, p, x);
      }
    }
  }

  // ---------------------------------------------------------------- every step

  lemma StepKeepsStruct(s: State, p: nat, ch: Choice)
    requires Locks(s) && Counted(s) && Struct(s) && Enabled(s, p, ch)
    ensures Struct(Step(s, p, ch))
  {
    if Plain(s.pc[p]) {
      PlainKeeps(s, p, ch);
    } else if s.pc[p].GetTas? {
      TasPcs(s, p, ch);
      TasBufs(s, p, ch);
    } else if s.pc[p].GetInit? {
      InitPcs(s, p, ch);
      InitLists(s, p, ch);
      InitBufs(s, p, ch);
    } else if s.pc[p].GetInsert? {
      InsertPcs(s, p, ch);
      InsertLists(s, p, ch);
      InsertBufs(s, p, ch);
    } else if Recounts(s.pc[p]) {
      RecountKeeps(s, p, ch);
    } else if s.pc[p].RelUnlink? {
      UnlinkPcs(s, p, ch);
      UnlinkLists(s, p, ch);
      UnlinkBufs(s, p, ch);
    } else {
      ClearKeeps(s, p, ch);
    }
  }
}
