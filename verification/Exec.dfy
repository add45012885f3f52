/** exec (`exec.c`): a new program in a new address space, or no change at all. */
module Exec {
  import opened PageTable
  import opened Memory
  import opened Paging
  import opened Uvm
  import opened UserMemory
  import opened UserCopy
  import opened ProcMem
  import opened ProcSlots
  import opened ExecImage
  import opened ExecStack

  /** Where the trapframe keeps the registers exec sets. */
  const EPC: nat := 24
  const SP: nat := 48
  const A1: nat := 120

  /** root stands for the same map in a and b, and user code finds the same bytes. */
  ghost predicate SameSpace(a: Mem, b: Mem, root: Frame) {
    SameMap(a, b, root) && forall va: nat :: UserByte(b, root, va) == UserByte(a, root, va)
  }

  /** The new program's memory: its image with the permissions of its segments, its guard page and its stack. */
  ghost predicate Program(m: Mem, root: Frame, exe: Executable, imagesz: nat, argv: seq<seq<Byte>>, ptrs: seq<nat>, sp: nat,
      sz: nat) {
    && imagesz == ImageSize(exe, |exe.headers|) && sz == PgRoundUp(imagesz) + 2 * PGSIZE
    && StackUse(argv) <= PGSIZE && sp == sz - StackUse(argv)
    && Permitted(m, root, exe, |exe.headers|) && StackEntries(m, root, sz)
    && (forall va: nat :: va < PgRoundUp(imagesz) ==> UserByte(m, root, va) == Some(ImageByte(exe, |exe.headers|, va)))
    && Guarded(m, root, sz) && StackHolds(m, root, argv, ptrs, sp, sz)
  }

  lemma ProgramMoves(a: Mem, b: Mem, root: Frame, exe: Executable, imagesz: nat, argv: seq<seq<Byte>>, ptrs: seq<nat>,
      sp: nat, sz: nat)
    requires Program(a, root, exe, imagesz, argv, ptrs, sp, sz) && SameSpace(a, b, root)
    ensures Program(b, root, exe, imagesz, argv, ptrs, sp, sz)
  {
    hide UserByte, Words, Flat, ImageSize, StackUse, Permitted, StackEntries;
    SameSpaceEntries(a, b, root, Pages(ImageSize(exe, |exe.headers|)));
    PermittedMoves(a, b, root, exe, |exe.headers|);
    StackEntriesMove(a, b, root, sz);
  }

  lemma SameSpaceEntries(a: Mem, b: Mem, root: Frame, n: nat)
    requires SameSpace(a, b, root)
    ensures SameEntries(a, b, root, n)
  {
    hide Flat, UserByte;
  }

  lemma StackEntriesMove(a: Mem, b: Mem, root: Frame, top: nat)
    requires SameSpace(a, b, root) && StackEntries(a, root, top)
    ensures StackEntries(b, root, top)
  {
    hide Flat, UserByte;
  }

  lemma IsProgram(a: Mem, b: Mem, root: Frame, exe: Executable, imagesz: nat, argv: seq<seq<Byte>>, ptrs: seq<nat>, sp: nat,
      sz: nat)
    requires Loaded(a, root, exe, |exe.headers|, imagesz) && SameBelow(a, b, root, PgRoundUp(imagesz))
    requires sz == PgRoundUp(imagesz) + 2 * PGSIZE && Guarded(b, root, sz) && StackHolds(b, root, argv, ptrs, sp, sz)
    requires imagesz == ImageSize(exe, |exe.headers|) && StackUse(argv) <= PGSIZE && sp == sz - StackUse(argv)
    requires Permitted(a, root, exe, |exe.headers|) && SameEntries(a, b, root, Pages(imagesz)) && StackEntries(b, root, sz)
    ensures Program(b, root, exe, imagesz, argv, ptrs, sp, sz)
  {
    hide UserByte, Words, ImageByte, Guarded, StackHolds, Flat, ImageSize, StackUse, Permitted, StackEntries;
    PermittedMoves(a, b, root, exe, |exe.headers|);
    assert Addr(Pages(imagesz)) == PgRoundUp(imagesz);
  }

  // ---------------------------------------------------------------- the commit

  /** Writing the trapframe is not seen through any user page. */
  lemma TrapframeUnseen(a: Mem, root: Frame, sz: nat, shown: Shown, f: Frame, page: Page)
    requires Space(a, root, sz, shown) && f in a.own && a.own[f].Kernel? && f != shown.usyscall
    ensures SameSpace(a, Fill(a, f, page), root)
  {
    hide Flat, Pages, Valid;
    var b := Fill(a, f, page);
    forall va: nat
      ensures UserByte(b, root, va) == UserByte(a, root, va)
    {
      var e := Flat(a.tables, root, va / PGSIZE);
      assert UserEntry(e) ==> va / PGSIZE < Pages(sz) || va / PGSIZE == MAXVPN - 3;
    }
  }

  /** What a process sees is also what user code sees. */
  lemma SparesSpace(a: Mem, b: Mem, trampoline: Frame, q: Proc)
    requires SlotOk(a, trampoline, q) && !q.state.Unused? && Spares(a, b, q)
    ensures SameSpace(a, b, q.pagetable)
  {
    hide Flat, Pages;
    forall va: nat
      ensures UserByte(b, q.pagetable, va) == UserByte(a, q.pagetable, va)
    {
      var e := Flat(a.tables, q.pagetable, va / PGSIZE);
      assert UserEntry(e) ==> va / PGSIZE < Pages(q.sz) || va / PGSIZE == MAXVPN - 3;
      assert va / PGSIZE < Pages(q.sz) ==> e.ppn in a.own && a.own[e.ppn] == User(q.pagetable, va / PGSIZE);
    }
  }

  /** The trapframe after exec: of its eight-byte words, number 3 (epc) holds the entry point, and numbers 6 (sp) and 15
      (a1) the stack pointer, where the argument vector is. The others are as they were. */
  ghost predicate Started(was: Page, now: Page, entry: nat, sp: nat) {
    && |was| == PGSIZE && |now| == PGSIZE
    && FromLe64(now[24..32]) == entry && FromLe64(now[48..56]) == sp && FromLe64(now[120..128]) == sp
    && forall i :: 0 <= i < PGSIZE && i / 8 !in {3, 6, 15} ==> now[i] == was[i]
  }

  lemma RegistersSet(was: Page, entry: Word64, sp: Word64)
    requires |was| == PGSIZE
    ensures var x := Splice(was, A1, Le64(sp));
            var y := Splice(x, EPC, Le64(entry));
            Started(was, Splice(y, SP, Le64(sp)), entry, sp)
  {
    hide Le64, FromLe64;
    var x := Splice(was, A1, Le64(sp));
    var y := Splice(x, EPC, Le64(entry));
    var now := Splice(y, SP, Le64(sp));
    assert now[24..32] == Le64(entry);
    assert now[48..56] == Le64(sp);
    assert now[120..128] == Le64(sp);
    Le64RoundTrip(entry);
    Le64RoundTrip(sp);
  }

  lemma FilledThrice(m: Mem, f: Frame, x: Page, y: Page, z: Page)
    ensures Fill(Fill(Fill(m, f, x), f, y), f, z) == Fill(m, f, z)
    ensures f in Fill(m, f, x).data && Fill(m, f, x).data[f] == x
    ensures f in Fill(Fill(m, f, x), f, y).data && Fill(Fill(m, f, x), f, y).data[f] == y
    ensures f in Fill(m, f, z).data && Fill(m, f, z).data[f] == z
  {
  }

  /** Everyone but process cur, while its new address space is built and its trapframe written. */
  lemma OthersAside(a: Mem, b: Mem, proc: seq<Proc>, cur: nat, root: Frame, page: Page, trampoline: Frame)
    requires Valid(a) && Valid(b) && Slots(a, trampoline, proc) && cur < NPROC && !proc[cur].state.Unused?
    requires OnlyRoot(a, b, root) && !IsRoot(a.lab, root) && |page| == PGSIZE
    ensures var c := Fill(b, proc[cur].trapframe, page);
            && Valid(c) && AllFrames(c) == AllFrames(a) && KernelFrame(c, proc[cur].trapframe)
            && forall j :: 0 <= j < NPROC && j != cur && !proc[j].state.Unused? ==> Spares(a, c, proc[j])
    ensures var p := proc[cur];
            && Layout(Fill(b, p.trapframe, page), p.pagetable, p.sz, ALL_SPECIAL)
            && KernelFrame(b, p.trapframe) && KernelFrame(b, p.usyscall)
            && b.data[p.trapframe] == a.data[p.trapframe] && |a.data[p.trapframe]| == PGSIZE
  {
    hide Valid, OnlyRoot, Layout, SpecialEntries, Spares, AllFrames;
    var p := proc[cur];
    var c := Fill(b, p.trapframe, page);
    assert SlotOk(a, trampoline, p);
    KernelFramesStay(a, b, root);
    DataSizes(a);
    FillValid(b, p.trapframe, page, 0);
    FilledFrames(b, p.trapframe, page);
    FramesConserved(a, b, root);
    LayoutRoot(a, p.pagetable, p.sz, ALL_SPECIAL);
    OnlySpares(a, b, root, trampoline, p);
    SparedSlot(a, b, trampoline, p);
    FilledLayout(b, p.trapframe, page, p.pagetable, p.sz);
    forall j | 0 <= j < NPROC && j != cur && !proc[j].state.Unused?
      ensures Spares(a, c, proc[j])
    {
      assert SlotOk(a, trampoline, proc[j]);
      SlotsApart(a, trampoline, proc, j, cur);
      LayoutRoot(a, proc[j].pagetable, proc[j].sz, ALL_SPECIAL);
      OnlySpares(a, b, root, trampoline, proc[j]);
      FillSpares(b, p.trapframe, page, proc[j]);
      SparesTrans(a, b, c, proc[j]);
    }
  }

  /** The commit: the old address space is given back, and every slot is in order with the new one in place. */
  lemma Committed(a: Mem, c: Mem, d: Mem, proc: seq<Proc>, cur: nat, q: Proc, trampoline: Frame)
    requires Valid(a) && Valid(c) && Valid(d) && SmallMachine(a) && Slots(a, trampoline, proc)
    requires cur < NPROC && !proc[cur].state.Unused? && q == proc[cur].(pagetable := q.pagetable, sz := q.sz)
    requires !IsRoot(a.lab, q.pagetable) && AllFrames(c) == AllFrames(a)
    requires forall j :: 0 <= j < NPROC && j != cur && !proc[j].state.Unused? ==> Spares(a, c, proc[j])
    requires SlotOk(c, trampoline, q) && OnlyRoot(c, d, proc[cur].pagetable)
    ensures SmallMachine(d) && Slots(d, trampoline, proc[cur := q]) && SameSpace(c, d, q.pagetable)
    ensures d.data.Keys >= {q.trapframe} && c.data.Keys >= {q.trapframe} && d.data[q.trapframe] == c.data[q.trapframe]
    ensures forall j :: 0 <= j < NPROC && j != cur && !proc[j].state.Unused? ==> Spares(a, d, proc[j])
  {
    hide Valid, OnlyRoot, Layout, SpecialEntries, Spares, AllFrames, SameSpace;
    var p := proc[cur];
    assert SlotOk(a, trampoline, p);
    LayoutRoot(a, p.pagetable, p.sz, ALL_SPECIAL);
    FramesConserved(c, d, p.pagetable);
    forall j | 0 <= j < NPROC && j != cur && !proc[j].state.Unused?
      ensures Spares(a, d, proc[j]) && SlotOk(d, trampoline, proc[j]) && proc[j].pagetable != q.pagetable
    {
      assert SlotOk(a, trampoline, proc[j]);
      SlotsApart(a, trampoline, proc, j, cur);
      LayoutRoot(a, proc[j].pagetable, proc[j].sz, ALL_SPECIAL);
      SparedSlot(a, c, trampoline, proc[j]);
      OnlySpares(c, d, p.pagetable, trampoline, proc[j]);
      SparesTrans(a, c, d, proc[j]);
      SparedSlot(a, d, trampoline, proc[j]);
    }
    OnlySpares(c, d, p.pagetable, trampoline, q);
    SparedSlot(c, d, trampoline, q);
    SparesSpace(c, d, trampoline, q);
    KernelFramesStay(c, d, p.pagetable);
    CommittedSlots(a, d, proc, cur, q, trampoline);
  }

  lemma CommittedSlots(a: Mem, d: Mem, proc: seq<Proc>, cur: nat, q: Proc, trampoline: Frame)
    requires Slots(a, trampoline, proc) && cur < NPROC && !proc[cur].state.Unused?
    requires q == proc[cur].(pagetable := q.pagetable, sz := q.sz) && SlotOk(d, trampoline, q)
    requires forall j :: 0 <= j < NPROC && j != cur && !proc[j].state.Unused? ==>
               SlotOk(d, trampoline, proc[j]) && proc[j].pagetable != q.pagetable
    ensures Slots(d, trampoline, proc[cur := q])
  {
    hide Layout, SpecialEntries;
    var now := proc[cur := q];
    forall i | 0 <= i < NPROC
      ensures SlotOk(d, trampoline, now[i])
    {
      assert SlotOk(a, trampoline, proc[i]);
    }
    forall i, j | 0 <= i < j < NPROC && !now[i].state.Unused? && !now[j].state.Unused?
      ensures Apart(now[i], now[j])
    {
      assert Apart(proc[i], proc[j]);
    }
  }

  lemma SlotIsOk(a: Mem, trampoline: Frame, proc: seq<Proc>, cur: nat)
    requires Slots(a, trampoline, proc) && cur < NPROC && !proc[cur].state.Unused?
    ensures |proc| == NPROC && var p := proc[cur];
            && KernelFrame(a, p.trapframe) && KernelFrame(a, p.usyscall) && p.trapframe != p.usyscall
            && IsRoot(a.lab, p.pagetable)
  {
    hide Layout, SpecialEntries;
    assert SlotOk(a, trampoline, proc[cur]);
    LayoutRoot(a, proc[cur].pagetable, proc[cur].sz, ALL_SPECIAL);
  }

  lemma NewSpace(a: Mem, b: Mem, root: Frame, shown: Shown)
    requires Valid(b) && b.own == a.own && b.data == a.data && Layout(b, root, 0, ALL_SPECIAL)
    requires SpecialEntries(b, root, shown.trampoline, shown.trapframe, shown.usyscall) && KernelFrame(a, shown.usyscall)
    ensures Space(b, root, 0, shown)
  {
    hide Valid, Layout, SpecialEntries;
  }

  lemma SpaceSlot(m: Mem, c: Mem, root: Frame, sz: nat, shown: Shown, q: Proc, page: Page)
    requires Space(m, root, sz, shown) && c == Fill(m, shown.trapframe, page) && KernelFrame(m, shown.trapframe)
    requires !q.state.Unused? && q.pagetable == root && q.sz == sz && q.trapframe == shown.trapframe
    requires q.usyscall == shown.usyscall && q.trapframe != q.usyscall
    ensures SlotOk(c, shown.trampoline, q)
  {
    hide Valid, Layout, SpecialEntries;
    FilledLayout(m, shown.trapframe, page, root, sz);
    FilledSpecial(m, shown.trapframe, page, root, shown.trampoline, shown.trapframe, shown.usyscall);
  }

  // ---------------------------------------------------------------- exec

  /** What a successful exec has done to process cur, and to no other. */
  ghost predicate Replaced(a: Mem, b: Mem, was: seq<Proc>, now: seq<Proc>, cur: nat, exe: Executable,
      argv: seq<seq<Byte>>, imagesz: nat, ptrs: seq<nat>, sp: nat) {
    && |was| == |now| && cur < |was|
    && var p, q := was[cur], now[cur];
       && now == was[cur := p.(pagetable := q.pagetable, sz := q.sz)]
       && !IsRoot(a.lab, q.pagetable) && Owned(b, p.pagetable) == {}
       && Program(b, q.pagetable, exe, imagesz, argv, ptrs, sp, q.sz)
       && p.trapframe in a.data && p.trapframe in b.data
       && Started(a.data[p.trapframe], b.data[p.trapframe], exe.entry, sp)
  }

  /** Runs a new program in process cur. The file is None when it does not exist, cannot be read or has no good ELF
      header. exec succeeds exactly when the file is well formed, there are fewer than MAXARG arguments, the stack they
      need fits in a page, and no allocation is refused; the new program then finds its image and its arguments. In any
      other case memory and every slot are as they were. */
  method Exec(kernel: Kernel, cur: nat, file: Option<Executable>, argv: seq<seq<Byte>>)
    returns (r: int, ghost imagesz: nat, ghost ptrs: seq<nat>, ghost stack: nat)
    requires kernel.Inv() && cur < NPROC && !kernel.proc[cur].state.Unused?
    requires |argv| != MAXARG && forall j :: 0 <= j < |argv| ==> |argv[j]| < PGSIZE
    modifies kernel`proc, kernel.k
    ensures kernel.Inv() && (r == -1 || r == |argv| < MAXARG)
    ensures r == -1 ==> kernel.k.View() == old(kernel.k.View()) && kernel.proc == old(kernel.proc)
    ensures r != -1 <==>
              && file.Some? && WellFormed(file.value) && |argv| < 32 && StackUse(argv) <= 4096
              && kernel.k.refusals == old(kernel.k.refusals)
    ensures r != -1 ==>
              && file.Some?
              && Replaced(old(kernel.k.View()), kernel.k.View(), old(kernel.proc), kernel.proc, cur, file.value, argv,
                          imagesz, ptrs, stack)
    ensures r != -1 ==>
              forall j :: 0 <= j < NPROC && j != cur && !kernel.proc[j].state.Unused? ==>
                Spares(old(kernel.k.View()), kernel.k.View(), kernel.proc[j])
  {
    hide Valid, OnlyRoot, Layout, SmallMachine, Slots, SlotOk, SpecialEntries, Spares, AllFrames, Flat, Pages, Owned, Space,
      Loaded, StackHolds, Guarded, SameBelow, Program, Started, Le64, PgRoundUp, Splice, Fill, KernelFrame, SameSpace, Pids,
      Permitted, ImageSize, StackUse, StackEntries, SameEntries, WellFormed;
    var k := kernel.k;
    ghost var a, was := k.View(), kernel.proc;
    imagesz, ptrs, stack := 0, [], 0;
    if file.None? {
      return -1, imagesz, ptrs, stack;
    }
    var exe := file.value;
    SlotIsOk(a, kernel.trampoline, kernel.proc, cur);
    var p := kernel.proc[cur];
    var pagetable := ProcPagetable(k, kernel.trampoline, p.trapframe, p.usyscall);
    if pagetable == 0 {
      return -1, imagesz, ptrs, stack;
    }
    ghost var shown := Shown(kernel.trampoline, p.trapframe, p.usyscall);
    ghost var m1 := k.View();
    OwnedNone(a, pagetable);
    NewSpace(a, m1, pagetable, shown);
    FramesConserved(a, m1, pagetable);
    StillSmall(a, m1);
    var ok, sz := LoadProgram(k, pagetable, exe, shown);
    ghost var m2 := k.View();
    OnlyRootTrans(a, m1, m2, pagetable);
    SpaceLayout(m2, pagetable, sz, shown);
    if !ok {
      ProcFreepagetable(k, pagetable, sz);
      OnlyRootTrans(a, m2, k.View(), pagetable);
      Restored(a, k.View(), pagetable);
      return -1, imagesz, ptrs, stack;
    }
    FramesConserved(a, m2, pagetable);
    StillSmall(a, m2);
    imagesz := sz;
    var oldsz, sp := p.sz, 0;
    ok, sz, sp, ptrs := BuildStack(k, pagetable, sz, argv, shown);
    ghost var m3 := k.View();
    OnlyRootTrans(a, m2, m3, pagetable);
    SpaceLayout(m3, pagetable, sz, shown);
    if !ok {
      ProcFreepagetable(k, pagetable, sz);
      OnlyRootTrans(a, m3, k.View(), pagetable);
      Restored(a, k.View(), pagetable);
      return -1, imagesz, ptrs, stack;
    }
    LayoutSize(m3, pagetable, sz, ALL_SPECIAL);
    SizeBound(sz);
    IsProgram(m2, m3, pagetable, exe, imagesz, argv, ptrs, sp, sz);
    Commit(kernel, cur, exe.entry, pagetable, sz, sp, a, m3, shown);
    ProgramMoves(m3, k.View(), pagetable, exe, imagesz, argv, ptrs, sp, sz);
    return |argv|, imagesz, ptrs, sp;
  }

  /** exec, lines 115-129: the registers, the switch to the new address space, and the end of the old one. */
  method Commit(kernel: Kernel, cur: nat, entry: Word64, pagetable: Frame, sz: nat, sp: Word64, ghost a: Mem, ghost m: Mem,
      ghost shown: Shown)
    requires cur < NPROC && |kernel.proc| == NPROC && !kernel.proc[cur].state.Unused? && kernel.k.View() == m
    requires Valid(a) && SmallMachine(a) && Slots(a, kernel.trampoline, kernel.proc)
    requires Pids(kernel.proc, kernel.nextpid) && kernel.nextpid >= 1
    requires OnlyRoot(a, m, pagetable) && !IsRoot(a.lab, pagetable) && Space(m, pagetable, sz, shown)
    requires shown == Shown(kernel.trampoline, kernel.proc[cur].trapframe, kernel.proc[cur].usyscall)
    modifies kernel`proc, kernel.k
    ensures kernel.Inv() && SameSpace(m, kernel.k.View(), pagetable) && kernel.k.refusals == old(kernel.k.refusals)
    ensures kernel.proc == old(kernel.proc)[cur := old(kernel.proc[cur]).(pagetable := pagetable, sz := sz)]
    ensures Owned(kernel.k.View(), old(kernel.proc[cur]).pagetable) == {}
    ensures var f := old(kernel.proc[cur]).trapframe;
            && f in a.data && f in kernel.k.data && Started(a.data[f], kernel.k.data[f], entry, sp)
    ensures forall j :: 0 <= j < NPROC && j != cur && !kernel.proc[j].state.Unused? ==>
              Spares(a, kernel.k.View(), kernel.proc[j])
  {
    hide Valid, OnlyRoot, Layout, SmallMachine, Slots, SlotOk, SpecialEntries, Spares, AllFrames, Flat, Pages, Owned, Space,
      Started, Le64, Splice, Fill, SameSpace, Pids;
    var k, p := kernel.k, kernel.proc[cur];
    ghost var was := kernel.proc;
    var f := p.trapframe;
    SlotIsOk(a, kernel.trampoline, kernel.proc, cur);
    SpaceLayout(m, pagetable, sz, shown);
    KernelFramesStay(a, m, pagetable);
    DataSizes(m);
    ghost var x := Splice(m.data[f], A1, Le64(sp));
    ghost var y := Splice(x, EPC, Le64(entry));
    ghost var z := Splice(y, SP, Le64(sp));
    RegistersSet(m.data[f], entry, sp);
    FilledThrice(m, f, x, y, z);
    OthersAside(a, m, kernel.proc, cur, pagetable, z, kernel.trampoline);
    TrapframeUnseen(m, pagetable, sz, shown, f, z);
    k.StoreBytes(f, A1, Le64(sp));
    k.StoreBytes(f, EPC, Le64(entry));
    k.StoreBytes(f, SP, Le64(sp));
    ghost var c := k.View();
    ghost var q := p.(pagetable := pagetable, sz := sz);
    SpaceSlot(m, c, pagetable, sz, shown, q, z);
    PidsKept(kernel.proc, kernel.nextpid, cur, q);
    kernel.proc := kernel.proc[cur := p.(pagetable := pagetable, sz := sz)];
    ProcFreepagetable(k, p.pagetable, p.sz);
    Committed(a, c, k.View(), was, cur, q, kernel.trampoline);
    SameSpaceTrans(m, c, k.View(), pagetable);
  }

  lemma SameSpaceTrans(a: Mem, b: Mem, c: Mem, root: Frame)
    requires SameSpace(a, b, root) && SameSpace(b, c, root)
    ensures SameSpace(a, c, root)
  {
    hide UserByte;
  }
}
