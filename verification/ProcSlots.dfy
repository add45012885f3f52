/** The memory side of the process table (`proc.c`): allocproc, freeproc, growproc and fork, each all or nothing. */
module ProcSlots {
  import opened PageTable
  import opened Memory
  import opened Paging
  import opened Uvm
  import opened UserMemory
  import opened ProcMem

  const NPROC: nat := 64
  /** sizeof(struct trapframe), and where its register a0 is. */
  const TRAPFRAME_SIZE: nat := 288
  const A0: nat := 112

  datatype State = Unused | Used | Sleeping | Runnable | Running | Zombie

  datatype Proc = Proc(state: State, pid: nat, sz: nat, pagetable: Frame, trapframe: Frame, usyscall: Frame,
                       parent: Option<nat>)

  const EMPTY: Proc := Proc(Unused, 0, 0, 0, 0, 0, None)

  // ---------------------------------------------------------------- the invariant

  ghost predicate KernelFrame(m: Mem, f: Frame) {
    f in m.own && m.own[f].Kernel? && f in m.data
  }

  /** An unused slot owns nothing and has size 0; any other has its two kernel frames and its address space. */
  ghost predicate SlotOk(m: Mem, trampoline: Frame, p: Proc) {
    if p.state.Unused? then p == EMPTY
    else
      && Layout(m, p.pagetable, p.sz, ALL_SPECIAL)
      && SpecialEntries(m, p.pagetable, trampoline, p.trapframe, p.usyscall)
      && KernelFrame(m, p.trapframe) && KernelFrame(m, p.usyscall) && p.trapframe != p.usyscall
  }

  predicate Apart(p: Proc, q: Proc) {
    && p.pagetable != q.pagetable
    && p.trapframe != q.trapframe && p.trapframe != q.usyscall
    && p.usyscall != q.trapframe && p.usyscall != q.usyscall
  }

  ghost predicate Slots(m: Mem, trampoline: Frame, proc: seq<Proc>) {
    && |proc| == NPROC
    && (forall i :: 0 <= i < NPROC ==> SlotOk(m, trampoline, proc[i]))
    && (forall i, j :: 0 <= i < j < NPROC && !proc[i].state.Unused? && !proc[j].state.Unused? ==> Apart(proc[i], proc[j]))
  }

  /** Every process has a pid of its own, below the next one to be handed out. */
  ghost predicate Pids(proc: seq<Proc>, nextpid: nat) {
    && (forall i :: 0 <= i < |proc| && !proc[i].state.Unused? ==> 1 <= proc[i].pid < nextpid)
    && (forall i, j :: 0 <= i < j < |proc| && !proc[i].state.Unused? && !proc[j].state.Unused? ==>
          proc[i].pid != proc[j].pid)
  }

  /** Some slot is free. */
  predicate HasRoom(proc: seq<Proc>) {
    exists i :: 0 <= i < |proc| && proc[i].state.Unused?
  }

  lemma RoomAt(proc: seq<Proc>, i: nat)
    requires i < |proc| && proc[i].state.Unused?
    ensures HasRoom(proc)
  {
  }

  lemma NoRoom(proc: seq<Proc>)
    requires forall i :: 0 <= i < |proc| ==> !proc[i].state.Unused?
    ensures !HasRoom(proc)
  {
  }

  lemma PidsAdded(proc: seq<Proc>, nextpid: nat, i: nat, p: Proc)
    requires Pids(proc, nextpid) && nextpid >= 1 && i < |proc| && proc[i].state.Unused? && p.pid == nextpid
    ensures Pids(proc[i := p], nextpid + 1)
  {
    var now := proc[i := p];
    forall a, b | 0 <= a < b < |now| && !now[a].state.Unused? && !now[b].state.Unused?
      ensures now[a].pid != now[b].pid
    {
      assert a != i ==> now[a] == proc[a];
      assert b != i ==> now[b] == proc[b];
    }
  }

  /** A slot that is freed, or keeps its pid, disturbs nothing. */
  lemma PidsKept(proc: seq<Proc>, nextpid: nat, i: nat, p: Proc)
    requires Pids(proc, nextpid) && i < |proc| && (p.state.Unused? || (!proc[i].state.Unused? && p.pid == proc[i].pid))
    ensures Pids(proc[i := p], nextpid) && Pids(proc, nextpid + 1)
  {
    var now := proc[i := p];
    forall a, b | 0 <= a < b < |now| && !now[a].state.Unused? && !now[b].state.Unused?
      ensures now[a].pid != now[b].pid
    {
      assert proc[a].pid == now[a].pid && proc[b].pid == now[b].pid;
    }
  }

  lemma SlotsApart(m: Mem, trampoline: Frame, proc: seq<Proc>, i: nat, j: nat)
    requires Slots(m, trampoline, proc) && i < NPROC && j < NPROC && i != j
    requires !proc[i].state.Unused? && !proc[j].state.Unused?
    ensures Apart(proc[i], proc[j])
  {
    hide SlotOk;
    if i < j {
      assert Apart(proc[i], proc[j]);
    } else {
      assert Apart(proc[j], proc[i]);
    }
  }

  /** A process sees no difference between a and b: the same map, the same frames, the same bytes in them and in its
      trapframe and usyscall pages. */
  ghost predicate Spares(a: Mem, b: Mem, p: Proc) {
    && (IsRoot(a.lab, p.pagetable) ==> IsRoot(b.lab, p.pagetable)) && SameMap(a, b, p.pagetable)
    && (forall f :: f in b.own && Owns(b.own[f], p.pagetable) ==> f in a.own && b.own[f] == a.own[f])
    && (forall f :: f in a.own && (Owns(a.own[f], p.pagetable) || f == p.trapframe || f == p.usyscall) ==>
          f in b.own && b.own[f] == a.own[f] && f in a.data && f in b.data && b.data[f] == a.data[f])
  }

  lemma SparedSlot(a: Mem, b: Mem, trampoline: Frame, p: Proc)
    requires SlotOk(a, trampoline, p) && Spares(a, b, p)
    ensures SlotOk(b, trampoline, p)
  {
    hide Flat, Pages;
  }

  lemma SparesTrans(a: Mem, b: Mem, c: Mem, p: Proc)
    requires Spares(a, b, p) && Spares(b, c, p)
    ensures Spares(a, c, p)
  {
    hide Flat;
  }

  /** Work on one address space spares every process with another. */
  lemma OnlySpares(a: Mem, b: Mem, root: Frame, trampoline: Frame, p: Proc)
    requires Valid(a) && Valid(b) && OnlyRoot(a, b, root) && SlotOk(a, trampoline, p) && !p.state.Unused?
    requires p.pagetable != root
    ensures Spares(a, b, p)
  {
    hide OnlyRoot, Valid, Flat, SpecialEntries, Pages;
    LayoutRoot(a, p.pagetable, p.sz, ALL_SPECIAL);
    OthersUnchanged(a, b, root, p.pagetable);
    ForeignFrames(a, b, root);
  }

  lemma ForeignFrames(a: Mem, b: Mem, root: Frame)
    requires OnlyRoot(a, b, root) && Valid(a) && Valid(b)
    ensures forall f :: f in a.own && !Owns(a.own[f], root) ==>
              f in b.own && b.own[f] == a.own[f] && f in a.data && f in b.data && b.data[f] == a.data[f]
    ensures forall f :: f in b.own && !Owns(b.own[f], root) ==> f in a.own && b.own[f] == a.own[f]
  {
    hide Valid;
    KeysAgree(a);
    KeysAgree(b);
    forall f | f in a.own && !Owns(a.own[f], root)
      ensures f in b.own && b.own[f] == a.own[f] && f in a.data && f in b.data && b.data[f] == a.data[f]
    {
      assert f in a.own.Keys;
      assert f in ForeignData(a, root) && f in ForeignData(b, root);
      assert ForeignData(a, root)[f] == ForeignData(b, root)[f];
    }
    forall f | f in b.own && !Owns(b.own[f], root)
      ensures f in a.own && b.own[f] == a.own[f]
    {
      assert f in b.own.Keys;
      assert f in ForeignData(b, root) && f in ForeignData(a, root);
      assert ForeignData(a, root)[f] == ForeignData(b, root)[f];
    }
  }

  lemma FillSpares(a: Mem, f: Frame, page: Page, p: Proc)
    requires Valid(a) && KernelFrame(a, f) && f != p.trapframe && f != p.usyscall
    ensures Spares(a, Fill(a, f, page), p)
  {
    hide Valid, Flat;
    KeysAgree(a);
    assert forall g :: g in a.own ==> g in a.own.Keys;
  }

  lemma GiveSpares(a: Mem, f: Frame, p: Proc)
    requires Valid(a) && KernelFrame(a, f) && f != p.trapframe && f != p.usyscall
    ensures Spares(a, Give(a, f), p)
  {
    hide Valid, Flat;
    KeysAgree(a);
    assert forall g :: g in a.own ==> g in a.own.Keys;
  }

  // ---------------------------------------------------------------- taking back what allocproc took

  /** Giving a kernel frame back commutes with work on an address space. */
  lemma GiveBoth(a: Mem, b: Mem, root: Frame, f: Frame)
    requires OnlyRoot(a, b, root) && KernelFrame(a, f) && KernelFrame(b, f)
    ensures OnlyRoot(Give(a, f), Give(b, f), root)
  {
    assert ForeignData(Give(a, f), root) == ForeignData(a, root) - {f};
    assert ForeignData(Give(b, f), root) == ForeignData(b, root) - {f};
    assert Owned(Give(a, f), root) == Owned(a, root);
    assert Owned(Give(b, f), root) == Owned(b, root);
    assert Give(a, f).free + Owned(a, root) == Give(b, f).free + Owned(b, root);
  }

  /** base is m with two kernel frames taken from the pool. */
  ghost predicate TwoMore(m: Mem, base: Mem, trapframe: Frame, usyscall: Frame) {
    && Valid(base) && KernelFrame(base, trapframe) && KernelFrame(base, usyscall) && trapframe != usyscall
    && Give(Give(base, usyscall), trapframe) == m
  }

  ghost function GiveIf(m: Mem, f: Frame): Mem {
    if f == 0 then m else Give(m, f)
  }

  /** What a slot may hold when freeproc is called, at any stage of allocproc or later. */
  ghost predicate Partial(m: Mem, p: Proc) {
    && (p.trapframe == 0 || KernelFrame(m, p.trapframe)) && (p.usyscall == 0 || KernelFrame(m, p.usyscall))
    && (p.trapframe != 0 ==> p.trapframe != p.usyscall)
    && (p.pagetable == 0 || Layout(m, p.pagetable, p.sz, ALL_SPECIAL))
  }

  lemma IsPartial(m: Mem, p: Proc)
    requires p.trapframe == 0 || KernelFrame(m, p.trapframe)
    requires p.usyscall == 0 || KernelFrame(m, p.usyscall)
    requires p.trapframe != 0 ==> p.trapframe != p.usyscall
    requires p.pagetable == 0
    ensures Partial(m, p)
  {
  }

  lemma TwoMoreGiven(m: Mem, base: Mem, f: Frame, g: Frame)
    requires TwoMore(m, base, f, g) && f != 0 && g != 0
    ensures GiveIf(GiveIf(base, g), f) == m && f != g && KernelFrame(base, f) && KernelFrame(base, g)
  {
    hide Valid;
  }

  lemma GiveTwo(m: Mem, f: Frame, g: Frame)
    ensures f == 0 && g == 0 ==> GiveIf(GiveIf(m, g), f) == m
    ensures f != 0 && g == 0 ==> GiveIf(GiveIf(m, g), f) == Give(m, f)
    ensures f != 0 && g != 0 ==> GiveIf(GiveIf(m, g), f) == Give(Give(m, g), f)
  {
  }

  lemma GiveLayout(m: Mem, f: Frame, root: Frame, sz: nat)
    requires Valid(m) && KernelFrame(m, f) && Layout(m, root, sz, ALL_SPECIAL)
    ensures Layout(Give(m, f), root, sz, ALL_SPECIAL)
  {
    hide Flat, Pages, Valid;
  }

  lemma GivePartial(m: Mem, f: Frame, p: Proc, q: Proc)
    requires Valid(m) && Partial(m, p) && KernelFrame(m, f) && f != q.trapframe && f != q.usyscall
    requires q.trapframe == 0 || q.trapframe == p.trapframe
    requires q.usyscall == 0 || q.usyscall == p.usyscall
    requires q.pagetable == p.pagetable && q.sz == p.sz
    ensures Valid(Give(m, f)) && Partial(Give(m, f), q)
  {
    hide Valid, Layout;
    GiveValid(m, f, 0);
    if p.pagetable != 0 {
      GiveLayout(m, f, p.pagetable, p.sz);
    }
  }

  lemma OneTaken(m: Mem, f: Frame, p: Page)
    requires Valid(m) && f in m.free && |p| == PGSIZE
    ensures var a := Take(m, f, Kernel, p); Valid(a) && KernelFrame(a, f) && Give(a, f) == m && a.free == m.free - {f}
  {
    hide Tree, Flat, OnlyRoot, Frames;
    NotFree(m, f);
    TakeValid(m, f, Kernel, p);
    assert m.data[f := p] - {f} == m.data;
    assert m.own[f := Kernel] - {f} == m.own;
    assert m.free - {f} + {f} == m.free;
  }

  lemma TwoTaken(m: Mem, f: Frame, p: Page, g: Frame, q: Page, page: Page)
    requires Valid(m) && f in m.free && g in m.free && f != g && |p| == PGSIZE && |q| == PGSIZE && |page| == PGSIZE
    ensures var base := Fill(Take(Take(m, f, Kernel, p), g, Kernel, q), g, page);
            && TwoMore(m, base, f, g) && Valid(base) && base.tables == m.tables && base.lab == m.lab
            && g in base.data && base.data[g] == page && KernelFrame(base, f) && KernelFrame(base, g)
            && Give(Give(base, g), f) == m
  {
    hide Tree, Flat, OnlyRoot, Frames, Valid;
    var a := Take(m, f, Kernel, p);
    var b := Take(a, g, Kernel, q);
    OneTaken(m, f, p);
    OneTaken(a, g, q);
    FillValid(b, g, page, 0);
    GiveFilled(b, g, page);
  }

  lemma GiveFilled(m: Mem, f: Frame, page: Page)
    ensures Give(Fill(m, f, page), f) == Give(m, f)
  {
  }

  lemma TwoMoreSpares(m: Mem, base: Mem, f: Frame, g: Frame, trampoline: Frame, p: Proc)
    requires TwoMore(m, base, f, g) && Valid(m) && SlotOk(m, trampoline, p) && !p.state.Unused?
    ensures Spares(m, base, p) && p.trapframe !in {f, g} && p.usyscall !in {f, g}
  {
    hide Flat, Layout, SpecialEntries, Valid;
    KeysAgree(m);
    assert forall h :: h in m.own ==> h in m.own.Keys;
    assert forall h :: h in m.own ==> h in base.own - {g} - {f};
    assert forall h :: h in m.data ==> h in base.data - {g} - {f};
    assert forall h :: h in base.own && h != g && h != f ==> h in base.own - {g} - {f};
  }

  lemma TwoMoreFrames(m: Mem, base: Mem, f: Frame, g: Frame)
    requires TwoMore(m, base, f, g)
    ensures AllFrames(base) == AllFrames(m)
  {
    hide Valid;
    KeysAgree(base);
    assert f in base.data.Keys && g in base.data.Keys;
    assert m.data.Keys == base.data.Keys - {g} - {f};
    assert m.free == base.free + {g} + {f};
    assert m.tables == base.tables;
  }

  /** The whole of a failed attempt: two kernel frames taken, work on a new address space, everything given back. */
  lemma RolledBack(m: Mem, base: Mem, b: Mem, c: Mem, f: Frame, g: Frame, root: Frame)
    requires Valid(m) && TwoMore(m, base, f, g) && OnlyRoot(base, b, root) && Valid(b) && !IsRoot(base.lab, root)
    requires Valid(c) && OnlyRoot(Give(Give(b, g), f), c, root) && Owned(c, root) == {}
    ensures c == m
  {
    hide OnlyRoot, Tree, Frames, MappedWhereItSays, Owned;
    ForeignFrames(base, b, root);
    GiveBoth(base, b, root, g);
    GiveBoth(Give(base, g), Give(b, g), root, f);
    OnlyRootTrans(m, Give(Give(b, g), f), c, root);
    OwnedNone(m, root);
    Restored(m, c, root);
  }

  lemma TakenPage(m: Mem, f: Frame, page: Page)
    ensures var a := Take(m, f, Memory.Kernel, page); f in a.data && a.data[f] == page
  {
  }

  lemma SpliceRead(p: Page, off: nat, bytes: seq<Byte>)
    requires off + |bytes| <= |p|
    ensures Splice(p, off, bytes)[off..off + |bytes|] == bytes
  {
  }

  function Le32(n: nat): (b: seq<Byte>)
    ensures |b| == 4
  {
    [n % 256, n / 0x100 % 256, n / 0x1_0000 % 256, n / 0x100_0000 % 256]
  }

  function FromLe32(b: seq<Byte>): nat
    requires |b| == 4
  {
    b[0] as int + 0x100 * b[1] as int + 0x1_0000 * b[2] as int + 0x100_0000 * b[3] as int
  }

  /** Four bytes keep a number's low 32 bits. */
  lemma Le32RoundTrip(n: nat)
    ensures FromLe32(Le32(n)) == n % 0x1_0000_0000
  {
    assert n / 0x1_0000 == n / 0x100 / 0x100;
    assert n / 0x100_0000 == n / 0x1_0000 / 0x100;
  }

  const WRITE := Perm(false, true, false, false)

  /** What growproc does to the map and the frames of one address space. */
  ghost predicate Resized(a: Mem, b: Mem, root: Frame, sz: nat, n: int, r: int, newsz: nat) {
    && OnlyRoot(a, b, root)
    && (r == -1 ==> n > 0 && newsz == sz && Grown(a, b, root))
    && (r == 0 && n > 0 ==>
          && newsz == sz + n && Pages(sz) <= Pages(newsz)
          && Populated(a, b, root, Pages(sz), Pages(newsz) - Pages(sz))
          && HeapPages(b, root, Pages(sz), Pages(newsz), true, false))
    && (n == 0 || sz + n < 0 ==> newsz == sz && b == a)
    && (n < 0 <= sz + n ==>
          && newsz == sz + n && Pages(newsz) <= Pages(sz)
          && Unmapped(a, b, root, Pages(newsz), Pages(sz) - Pages(newsz))
          && Gives(a, b, root, FramesOf(a, root, Pages(newsz), Pages(sz) - Pages(newsz))))
  }

  lemma SizeBound(sz: nat)
    requires Pages(sz) <= USER_TOP
    ensures sz < MAXVA
  {
  }

  lemma GrownSpecial(a: Mem, b: Mem, root: Frame, trampoline: Frame, trapframe: Frame, usyscall: Frame)
    requires SpecialEntries(a, root, trampoline, trapframe, usyscall) && Grown(a, b, root)
    ensures SpecialEntries(b, root, trampoline, trapframe, usyscall)
  {
    hide OnlyRoot, Flat, Table0;
  }

  lemma PopulatedSpecial(a: Mem, b: Mem, root: Frame, first: nat, n: nat, trampoline: Frame, trapframe: Frame, usyscall: Frame)
    requires SpecialEntries(a, root, trampoline, trapframe, usyscall) && Populated(a, b, root, first, n)
    requires first + n <= USER_TOP
    ensures SpecialEntries(b, root, trampoline, trapframe, usyscall)
  {
    hide OnlyRoot, Flat, Table0;
  }

  lemma ShrunkSpecial(a: Mem, b: Mem, root: Frame, first: nat, n: nat, trampoline: Frame, trapframe: Frame, usyscall: Frame)
    requires SpecialEntries(a, root, trampoline, trapframe, usyscall) && Unmapped(a, b, root, first, n)
    requires first + n <= USER_TOP
    ensures SpecialEntries(b, root, trampoline, trapframe, usyscall)
  {
    hide OnlyRoot, Flat, Table0;
  }

  /** Work on one process's address space leaves all the slots in order. */
  lemma SlotsAfter(a: Mem, b: Mem, trampoline: Frame, proc: seq<Proc>, i: nat, p: Proc)
    requires Valid(a) && Valid(b) && SmallMachine(a) && Slots(a, trampoline, proc)
    requires i < NPROC && !proc[i].state.Unused? && OnlyRoot(a, b, proc[i].pagetable)
    requires !p.state.Unused? && p == proc[i].(sz := p.sz) && Layout(b, p.pagetable, p.sz, ALL_SPECIAL)
    requires SpecialEntries(b, p.pagetable, trampoline, p.trapframe, p.usyscall)
    ensures SmallMachine(b) && Slots(b, trampoline, proc[i := p])
    ensures forall j :: 0 <= j < NPROC && j != i && !proc[j].state.Unused? ==> Spares(a, b, proc[j])
  {
    hide Valid, OnlyRoot, Layout, SpecialEntries, AllFrames, Spares;
    FramesConserved(a, b, p.pagetable);
    assert SlotOk(a, trampoline, proc[i]);
    KernelFramesStay(a, b, p.pagetable);
    forall j | 0 <= j < NPROC && j != i && !proc[j].state.Unused?
      ensures Spares(a, b, proc[j]) && SlotOk(b, trampoline, proc[j])
    {
      assert SlotOk(a, trampoline, proc[j]);
      SlotsApart(a, trampoline, proc, j, i);
      OnlySpares(a, b, p.pagetable, trampoline, proc[j]);
      SparedSlot(a, b, trampoline, proc[j]);
    }
    var now := proc[i := p];
    forall j | 0 <= j < NPROC
      ensures SlotOk(b, trampoline, now[j])
    {
      assert SlotOk(a, trampoline, proc[j]);
    }
  }

  lemma KernelFramesStay(a: Mem, b: Mem, root: Frame)
    requires Valid(a) && Valid(b) && OnlyRoot(a, b, root)
    ensures forall f :: KernelFrame(a, f) ==> KernelFrame(b, f) && b.data[f] == a.data[f]
  {
    hide OnlyRoot, Valid;
    ForeignFrames(a, b, root);
  }

  /** What a successful allocproc leaves: a slot with a pid, two kernel frames and an empty address space. */
  ghost predicate Allocated(m: Mem, was: seq<Proc>, base: Mem, b: Mem, proc: seq<Proc>, i: nat, trampoline: Frame) {
    && i < |was| && |was| == |proc| && was[i] == EMPTY
    && var p := proc[i];
       && proc == was[i := p] && p.state == Used && p.sz == 0 && p.parent == None
       && p.pagetable != 0 && p.trapframe != 0 && p.usyscall != 0
       && TwoMore(m, base, p.trapframe, p.usyscall)
       && OnlyRoot(base, b, p.pagetable) && !IsRoot(base.lab, p.pagetable)
       && b.data == base.data && b.own == base.own
       && Layout(b, p.pagetable, 0, ALL_SPECIAL)
       && SpecialEntries(b, p.pagetable, trampoline, p.trapframe, p.usyscall)
       && p.usyscall in b.data && |b.data[p.usyscall]| == PGSIZE && b.data[p.usyscall][..4] == Le32(p.pid)
  }

  lemma SlotCount(m: Mem, trampoline: Frame, proc: seq<Proc>)
    requires Slots(m, trampoline, proc)
    ensures |proc| == NPROC
  {
  }

  lemma UnusedSlot(m: Mem, trampoline: Frame, proc: seq<Proc>, i: nat)
    requires Slots(m, trampoline, proc) && i < |proc| && proc[i].state.Unused?
    ensures proc[i] == EMPTY
    ensures EMPTY.trapframe == EMPTY.usyscall == EMPTY.pagetable == EMPTY.sz == 0 && EMPTY.parent == None
    ensures EMPTY.state.Unused?
  {
    assert SlotOk(m, trampoline, proc[i]);
  }

  lemma IsAllocated(m: Mem, was: seq<Proc>, base: Mem, b: Mem, i: nat, p: Proc, trampoline: Frame)
    requires i < |was| && was[i] == EMPTY && p.state == Used && p.sz == 0 && p.parent == None
    requires p.pagetable != 0 && p.trapframe != 0 && p.usyscall != 0 && TwoMore(m, base, p.trapframe, p.usyscall)
    requires OnlyRoot(base, b, p.pagetable) && !IsRoot(base.lab, p.pagetable) && b.data == base.data && b.own == base.own
    requires Layout(b, p.pagetable, 0, ALL_SPECIAL)
    requires SpecialEntries(b, p.pagetable, trampoline, p.trapframe, p.usyscall)
    requires p.usyscall in b.data && |b.data[p.usyscall]| == PGSIZE && b.data[p.usyscall][..4] == Le32(p.pid)
    ensures Allocated(m, was, base, b, was[i := p], i, trampoline)
  {
    hide OnlyRoot, Layout, SpecialEntries, TwoMore, Le32;
  }

  lemma AllocatedPage(m: Mem, was: seq<Proc>, base: Mem, b: Mem, proc: seq<Proc>, i: nat, trampoline: Frame, r: Option<nat>)
    requires r.Some? ==> Allocated(m, was, base, b, proc, i, trampoline)
    ensures r.Some? ==>
              && i < |proc| && proc[i].usyscall in b.data && |b.data[proc[i].usyscall]| == PGSIZE
              && b.data[proc[i].usyscall][..4] == Le32(proc[i].pid)
  {
    hide OnlyRoot, Layout, SpecialEntries, TwoMore, Le32;
  }

  // ---------------------------------------------------------------- fork

  ghost predicate AllSpared(a: Mem, b: Mem, proc: seq<Proc>) {
    forall j :: 0 <= j < |proc| && !proc[j].state.Unused? ==> Spares(a, b, proc[j])
  }

  /** The child's 36 saved registers are the parent's, except that the one at place 14, a0, is 0. */
  ghost predicate SameRegisters(parent: Page, child: Page) {
    && |parent| == PGSIZE && |child| == PGSIZE
    && forall i :: 0 <= i < 36 * 8 ==> child[i] == if i / 8 == 14 then 0 else parent[i]
  }

  /** The slot child, unused before, now holds a runnable copy of process cur. */
  ghost predicate Forked(a: Mem, b: Mem, was: seq<Proc>, now: seq<Proc>, cur: nat, child: nat, pid: int) {
    && |was| == |now| && cur < |was| && child < |was| && child != cur && was[child] == EMPTY
    && now == was[child := now[child]]
    && var p, c := was[cur], now[child];
       && c.state == Runnable && c.parent == Some(cur) && c.sz == p.sz && c.pid == pid
       && Copied(a, b, p.pagetable, c.pagetable, Pages(p.sz))
       && KernelFrame(a, p.trapframe) && KernelFrame(b, c.trapframe) && KernelFrame(b, c.usyscall)
       && SameRegisters(a.data[p.trapframe], b.data[c.trapframe])
       && |b.data[c.usyscall]| == PGSIZE && b.data[c.usyscall][..4] == Le32(c.pid)
  }

  lemma AllocatedSpares(m: Mem, base: Mem, b: Mem, was: seq<Proc>, now: seq<Proc>, i: nat, trampoline: Frame, j: nat)
    requires Valid(m) && Valid(b) && Slots(m, trampoline, was) && Allocated(m, was, base, b, now, i, trampoline)
    requires j < NPROC && !was[j].state.Unused?
    ensures Spares(m, b, was[j]) && SlotOk(b, trampoline, was[j]) && Apart(was[j], now[i])
    ensures IsRoot(b.lab, was[j].pagetable)
  {
    hide Valid, OnlyRoot, Layout, SpecialEntries, Spares;
    var c := now[i];
    assert SlotOk(m, trampoline, was[j]);
    TwoMoreSpares(m, base, c.trapframe, c.usyscall, trampoline, was[j]);
    SparedSlot(m, base, trampoline, was[j]);
    LayoutRoot(base, was[j].pagetable, was[j].sz, ALL_SPECIAL);
    OnlySpares(base, b, c.pagetable, trampoline, was[j]);
    SparesTrans(m, base, b, was[j]);
    SparedSlot(base, b, trampoline, was[j]);
    LayoutRoot(b, was[j].pagetable, was[j].sz, ALL_SPECIAL);
  }

  lemma LayoutPages(m: Mem, root: Frame, sz: nat, special: set<nat>)
    requires Layout(m, root, sz, special)
    ensures UserPages(m, root, 0, Pages(sz)) && IsRoot(m.lab, root) && Pages(sz) <= USER_TOP
  {
  }

  lemma EmptyNotMapped(m: Mem, root: Frame, top: nat)
    requires Layout(m, root, 0, ALL_SPECIAL) && top <= USER_TOP
    ensures NotMapped(m, root, 0, top)
  {
    hide Flat;
    assert Pages(0) == 0;
  }

  lemma ForkStart(m: Mem, base: Mem, b: Mem, was: seq<Proc>, now: seq<Proc>, cur: nat, i: nat, trampoline: Frame)
    requires Valid(m) && Valid(b) && Slots(m, trampoline, was) && Allocated(m, was, base, b, now, i, trampoline)
    requires cur < NPROC && !was[cur].state.Unused?
    ensures i != cur && |now| == |was| == NPROC && now[cur] == was[cur] && now[i].pagetable != now[cur].pagetable
    ensures UserPages(b, now[cur].pagetable, 0, Pages(now[cur].sz))
    ensures NotMapped(b, now[i].pagetable, 0, Pages(now[cur].sz))
    ensures IsRoot(b.lab, now[cur].pagetable) && IsRoot(b.lab, now[i].pagetable)
  {
    hide Valid, OnlyRoot, Layout, SpecialEntries, Spares, TwoMore, Pages, NotMapped, UserPages;
    AllocatedSpares(m, base, b, was, now, i, trampoline, cur);
    LayoutPages(b, was[cur].pagetable, was[cur].sz, ALL_SPECIAL);
    LayoutRoot(b, now[i].pagetable, 0, ALL_SPECIAL);
    EmptyNotMapped(b, now[i].pagetable, Pages(was[cur].sz));
  }

  lemma ForkFailed(m: Mem, base: Mem, b: Mem, c: Mem, was: seq<Proc>, now: seq<Proc>, i: nat, trampoline: Frame)
    requires Allocated(m, was, base, b, now, i, trampoline) && Grown(b, c, now[i].pagetable)
    ensures Partial(c, now[i]) && OnlyRoot(base, c, now[i].pagetable) && TwoMore(m, base, now[i].trapframe, now[i].usyscall)
    ensures !IsRoot(base.lab, now[i].pagetable) && now[i := EMPTY] == was
  {
    hide OnlyRoot, Layout, SpecialEntries, Flat, Table0, Valid;
    var p := now[i];
    GrownLayout(b, c, p.pagetable, 0, ALL_SPECIAL);
    OnlyRootTrans(base, b, c, p.pagetable);
  }

  /** The copy of memory is done. */
  ghost predicate ForkMiddle(m: Mem, base: Mem, c: Mem, was: seq<Proc>, cur: nat, i: nat, q: Proc, trampoline: Frame) {
    && Valid(c) && |was| == NPROC && cur < NPROC && i < NPROC && was[i] == EMPTY
    && Layout(c, q.pagetable, q.sz, ALL_SPECIAL) && q.sz == was[cur].sz
    && SpecialEntries(c, q.pagetable, trampoline, q.trapframe, q.usyscall)
    && KernelFrame(c, q.trapframe) && KernelFrame(c, q.usyscall) && q.trapframe != q.usyscall
    && |c.data[q.usyscall]| == PGSIZE && c.data[q.usyscall][..4] == Le32(q.pid)
    && AllFrames(c) == AllFrames(m) && AllSpared(m, c, was)
    && (forall j :: 0 <= j < NPROC && !was[j].state.Unused? ==> Apart(was[j], q))
    && Copied(m, c, was[cur].pagetable, q.pagetable, Pages(q.sz))
  }

  lemma ForkCopied(m: Mem, base: Mem, b: Mem, c: Mem, was: seq<Proc>, now: seq<Proc>, cur: nat, i: nat, trampoline: Frame)
    requires Valid(m) && Valid(b) && Valid(c) && Slots(m, trampoline, was)
    requires Allocated(m, was, base, b, now, i, trampoline) && cur < NPROC && !was[cur].state.Unused?
    requires Populated(b, c, now[i].pagetable, 0, Pages(was[cur].sz))
    requires Copied(b, c, was[cur].pagetable, now[i].pagetable, Pages(was[cur].sz))
    ensures ForkMiddle(m, base, c, was, cur, i, now[i].(sz := was[cur].sz), trampoline)
    ensures KernelFrame(c, was[cur].trapframe) && KernelFrame(m, was[cur].trapframe)
    ensures c.data[was[cur].trapframe] == m.data[was[cur].trapframe] && |c.data[was[cur].trapframe]| == PGSIZE
    ensures |c.data[now[i].trapframe]| == PGSIZE
  {
    hide Valid, OnlyRoot, Layout, SpecialEntries, Spares, TwoMore, Populated, Copied, AllFrames, Pages, Le32,
      UserPages;
    var q, p := now[i], was[cur];
    assert SlotOk(m, trampoline, p);
    LayoutPages(m, p.pagetable, p.sz, ALL_SPECIAL);
    ForkChild(m, base, b, c, was, now, i, p.sz, trampoline);
    ForkOthers(m, base, b, c, was, now, i, Pages(p.sz), trampoline);
    AllocatedSpares(m, base, b, was, now, i, trampoline, cur);
    CopiedSince(m, b, c, p, q.pagetable, Pages(p.sz));
    SparedTrapframe(m, c, p);
    DataSizes(c);
  }

  lemma DataSizes(m: Mem)
    requires Valid(m)
    ensures forall f :: f in m.data ==> |m.data[f]| == PGSIZE
  {
  }

  lemma SparedTrapframe(m: Mem, c: Mem, p: Proc)
    requires Spares(m, c, p) && KernelFrame(m, p.trapframe)
    ensures KernelFrame(c, p.trapframe) && c.data[p.trapframe] == m.data[p.trapframe]
  {
    hide Flat;
  }

  /** The parent's pages are the same after allocproc as before it. */
  lemma CopiedSince(m: Mem, b: Mem, c: Mem, p: Proc, to: Frame, n: nat)
    requires Spares(m, b, p) && Copied(b, c, p.pagetable, to, n) && UserPages(m, p.pagetable, 0, n)
    ensures Copied(m, c, p.pagetable, to, n)
  {
    hide Flat;
    forall vpn: nat | vpn < n
      ensures PageIs(c, to, vpn, PermOf(Flat(m.tables, p.pagetable, vpn)), BytesAt(m, p.pagetable, vpn))
    {
      var f := Flat(m.tables, p.pagetable, vpn).ppn;
      assert f in m.own && m.own[f] == User(p.pagetable, vpn);
      assert PageIs(c, to, vpn, PermOf(Flat(b.tables, p.pagetable, vpn)), BytesAt(b, p.pagetable, vpn));
    }
  }

  lemma ForkChild(m: Mem, base: Mem, b: Mem, c: Mem, was: seq<Proc>, now: seq<Proc>, i: nat, sz: nat, trampoline: Frame)
    requires Valid(c) && Allocated(m, was, base, b, now, i, trampoline) && Pages(sz) <= USER_TOP
    requires Populated(b, c, now[i].pagetable, 0, Pages(sz))
    ensures var q := now[i];
            && Layout(c, q.pagetable, sz, ALL_SPECIAL)
            && SpecialEntries(c, q.pagetable, trampoline, q.trapframe, q.usyscall)
            && KernelFrame(c, q.trapframe) && KernelFrame(c, q.usyscall) && q.trapframe != q.usyscall
            && c.data[q.usyscall] == b.data[q.usyscall]
  {
    hide Valid, OnlyRoot, Layout, SpecialEntries, Flat, Table0;
    assert Pages(0) == 0;
    PopulatedLayout(b, c, now[i].pagetable, 0, sz, ALL_SPECIAL);
    PopulatedSpecial(b, c, now[i].pagetable, 0, Pages(sz), trampoline, now[i].trapframe, now[i].usyscall);
  }

  lemma ForkOthers(m: Mem, base: Mem, b: Mem, c: Mem, was: seq<Proc>, now: seq<Proc>, i: nat, n: nat, trampoline: Frame)
    requires Valid(m) && Valid(b) && Valid(c) && Slots(m, trampoline, was)
    requires Allocated(m, was, base, b, now, i, trampoline) && Populated(b, c, now[i].pagetable, 0, n)
    ensures AllSpared(m, c, was) && AllFrames(c) == AllFrames(m)
    ensures forall j :: 0 <= j < NPROC && !was[j].state.Unused? ==> Apart(was[j], now[i])
  {
    hide Valid, OnlyRoot, Layout, SpecialEntries, Spares, Populated, AllFrames, SlotOk, Apart;
    var q := now[i];
    PopulatedOnly(b, c, q.pagetable, 0, n);
    forall j: nat | j < NPROC && !was[j].state.Unused?
      ensures Spares(m, c, was[j]) && Apart(was[j], q)
    {
      AllocatedSpares(m, base, b, was, now, i, trampoline, j);
      ApartTables(was[j], q);
      OnlySpares(b, c, q.pagetable, trampoline, was[j]);
      SparesTrans(m, b, c, was[j]);
    }
    TwoMoreFrames(m, base, q.trapframe, q.usyscall);
    TwoMoreValid(m, base, q.trapframe, q.usyscall);
    FramesConserved(base, b, q.pagetable);
    FramesConserved(b, c, q.pagetable);
  }

  lemma ApartTables(p: Proc, q: Proc)
    requires Apart(p, q)
    ensures p.pagetable != q.pagetable
  {
  }

  lemma TwoMoreValid(m: Mem, base: Mem, f: Frame, g: Frame)
    requires TwoMore(m, base, f, g)
    ensures Valid(base)
  {
    hide Valid;
  }

  /** Copying the trapframe and then clearing a0 in it. */
  lemma RegistersCopied(m: Mem, from: Frame, to: Frame)
    requires from in m.data && to in m.data && |m.data[from]| == PGSIZE && |m.data[to]| == PGSIZE
    ensures var x := Splice(m.data[to], 0, m.data[from][..TRAPFRAME_SIZE]);
            var y := Splice(x, A0, [0, 0, 0, 0, 0, 0, 0, 0]);
            && SameRegisters(m.data[from], y) && Fill(Fill(m, to, x), to, y) == Fill(m, to, y)
            && to in Fill(m, to, x).data && Fill(m, to, x).data[to] == x
            && to in Fill(m, to, y).data && Fill(m, to, y).data[to] == y
  {
  }

  lemma FilledCopy(m: Mem, c: Mem, from: Frame, to: Frame, n: nat, f: Frame, page: Page)
    requires Copied(m, c, from, to, n) && KernelFrame(c, f) && UserPages(c, to, 0, n)
    ensures Copied(m, Fill(c, f, page), from, to, n)
  {
    hide Flat, BytesAt;
    var d := Fill(c, f, page);
    forall vpn: nat | vpn < n
      ensures PageIs(d, to, vpn, PermOf(Flat(m.tables, from, vpn)), BytesAt(m, from, vpn))
    {
      assert PageIs(c, to, vpn, PermOf(Flat(m.tables, from, vpn)), BytesAt(m, from, vpn));
      assert c.own[Flat(c.tables, to, vpn).ppn] == User(to, vpn);
    }
  }

  lemma FilledLayout(c: Mem, f: Frame, page: Page, root: Frame, sz: nat)
    requires Layout(c, root, sz, ALL_SPECIAL)
    ensures Layout(Fill(c, f, page), root, sz, ALL_SPECIAL)
  {
    hide Flat, Pages;
  }

  lemma FilledFrames(c: Mem, f: Frame, page: Page)
    requires f in c.data
    ensures AllFrames(Fill(c, f, page)) == AllFrames(c)
  {
    assert Fill(c, f, page).data.Keys == c.data.Keys;
  }

  lemma ForkFinish(m: Mem, base: Mem, c: Mem, d: Mem, was: seq<Proc>, cur: nat, i: nat, q: Proc, trampoline: Frame)
    requires Valid(m) && SmallMachine(m) && Slots(m, trampoline, was) && cur < NPROC && !was[cur].state.Unused?
    requires ForkMiddle(m, base, c, was, cur, i, q.(state := Used, parent := None), trampoline)
    requires q.state == Runnable && q.parent == Some(cur)
    requires q.trapframe in d.data && d == Fill(c, q.trapframe, d.data[q.trapframe])
    requires |d.data[q.trapframe]| == PGSIZE && KernelFrame(m, was[cur].trapframe)
    requires SameRegisters(m.data[was[cur].trapframe], d.data[q.trapframe])
    ensures Valid(d) && SmallMachine(d) && Slots(d, trampoline, was[i := q]) && AllSpared(m, d, was)
    ensures Forked(m, d, was, was[i := q], cur, i, q.pid)
  {
    hide Valid, Layout, SpecialEntries, Spares, Copied, Pages, AllFrames, Le32, SameRegisters;
    var page := d.data[q.trapframe];
    FillValid(c, q.trapframe, page, 0);
    FilledFrames(c, q.trapframe, page);
    FilledLayout(c, q.trapframe, page, q.pagetable, q.sz);
    LayoutPages(c, q.pagetable, q.sz, ALL_SPECIAL);
    FilledCopy(m, c, was[cur].pagetable, q.pagetable, Pages(q.sz), q.trapframe, page);
    FilledSpecial(c, q.trapframe, page, q.pagetable, trampoline, q.trapframe, q.usyscall);
    forall j | 0 <= j < NPROC && !was[j].state.Unused?
      ensures Spares(m, d, was[j]) && SlotOk(d, trampoline, was[j])
    {
      FillSpares(c, q.trapframe, page, was[j]);
      SparesTrans(m, c, d, was[j]);
      SparedSlot(m, d, trampoline, was[j]);
    }
  }

  lemma FilledSpecial(c: Mem, f: Frame, page: Page, root: Frame, trampoline: Frame, trapframe: Frame, usyscall: Frame)
    requires SpecialEntries(c, root, trampoline, trapframe, usyscall)
    ensures SpecialEntries(Fill(c, f, page), root, trampoline, trapframe, usyscall)
  {
    hide Flat;
  }

  // ---------------------------------------------------------------- a dead child's slot

  lemma SlotPartial(m: Mem, trampoline: Frame, p: Proc)
    requires Valid(m) && SlotOk(m, trampoline, p) && !p.state.Unused?
    ensures Partial(m, p) && p.trapframe != 0 && p.usyscall != 0 && p.pagetable != 0
  {
    hide Tree, MappedWhereItSays, Flat, Pages, SpecialEntries;
    KeysAgree(m);
    assert p.pagetable in m.lab.Keys;
  }

  lemma GiveOwned(m: Mem, f: Frame, root: Frame)
    requires KernelFrame(m, f)
    ensures Owned(Give(m, f), root) == Owned(m, root) && Give(m, f).free == m.free + {f}
  {
  }

  lemma GiveFrames(m: Mem, f: Frame)
    requires KernelFrame(m, f)
    ensures AllFrames(Give(m, f)) == AllFrames(m)
  {
    assert f in m.data.Keys;
    assert Give(m, f).data.Keys == m.data.Keys - {f};
  }

  lemma KernelStays(m: Mem, f: Frame, g: Frame)
    requires KernelFrame(m, g) && f != g
    ensures KernelFrame(Give(m, f), g)
  {
  }

  lemma ReapedSlots(m: Mem, c: Mem, trampoline: Frame, proc: seq<Proc>, i: nat)
    requires Valid(m) && SmallMachine(m) && Slots(m, trampoline, proc) && i < NPROC && !proc[i].state.Unused?
    requires var p := proc[i];
             && p.trapframe != 0 && p.usyscall != 0 && Valid(c) && Owned(c, p.pagetable) == {}
             && OnlyRoot(GiveIf(GiveIf(m, p.usyscall), p.trapframe), c, p.pagetable)
    ensures SmallMachine(c) && Slots(c, trampoline, proc[i := EMPTY])
    ensures c.free == m.free + Owned(m, proc[i].pagetable) + {proc[i].trapframe, proc[i].usyscall}
    ensures forall j :: 0 <= j < NPROC && j != i && !proc[j].state.Unused? ==> Spares(m, c, proc[j])
  {
    hide Valid, OnlyRoot, Owned, Layout, SpecialEntries, Spares, AllFrames, Give;
    var p := proc[i];
    assert SlotOk(m, trampoline, p);
    var a := Give(m, p.usyscall);
    var b := Give(a, p.trapframe);
    KernelStays(m, p.usyscall, p.trapframe);
    GiveValid(m, p.usyscall, 0);
    GiveValid(a, p.trapframe, 0);
    GiveOwned(m, p.usyscall, p.pagetable);
    GiveOwned(a, p.trapframe, p.pagetable);
    GiveFrames(m, p.usyscall);
    GiveFrames(a, p.trapframe);
    FramesConserved(b, c, p.pagetable);
    PoolOf(b, c, p.pagetable);
    assert m.free + {p.usyscall} + {p.trapframe} + Owned(m, p.pagetable) ==
           m.free + Owned(m, p.pagetable) + {p.trapframe, p.usyscall};
    forall j | 0 <= j < NPROC && j != i && !proc[j].state.Unused?
      ensures Spares(m, c, proc[j]) && SlotOk(c, trampoline, proc[j])
    {
      assert SlotOk(m, trampoline, proc[j]);
      SlotsApart(m, trampoline, proc, j, i);
      GiveSpares(m, p.usyscall, proc[j]);
      SparedSlot(m, a, trampoline, proc[j]);
      GiveSpares(a, p.trapframe, proc[j]);
      SparedSlot(a, b, trampoline, proc[j]);
      OnlySpares(b, c, p.pagetable, trampoline, proc[j]);
      SparesTrans(m, a, b, proc[j]);
      SparesTrans(m, b, c, proc[j]);
      SparedSlot(m, c, trampoline, proc[j]);
    }
  }

  // ---------------------------------------------------------------- the process table

  class Kernel {
    const k: Kmem
    const trampoline: Frame
    var proc: seq<Proc>
    var nextpid: nat

    ghost predicate Inv()
      reads this, k
    {
      Valid(k.View()) && SmallMachine(k.View()) && Slots(k.View(), trampoline, proc) && Pids(proc, nextpid) && nextpid >= 1
    }

    /** procinit, on a machine whose trampoline code is at a given frame. */
    constructor (k: Kmem, trampoline: Frame)
      requires Valid(k.View()) && SmallMachine(k.View())
      ensures this.k == k && this.trampoline == trampoline && Inv()
      ensures nextpid == 1 && |proc| == NPROC == 64 && forall i :: 0 <= i < NPROC ==> proc[i].state.Unused?
    {
      this.k := k;
      this.trampoline := trampoline;
      proc := seq(NPROC, _ => EMPTY);
      nextpid := 1;
    }

    /** Gives back everything the slot holds, whatever stage it reached, and marks it unused with size 0. */
    method Freeproc(i: nat)
      requires i < |proc| && Valid(k.View()) && Partial(k.View(), proc[i])
      modifies k, this`proc
      ensures proc == old(proc)[i := EMPTY] && Valid(k.View()) && k.refusals == old(k.refusals)
      ensures proc[i].state.Unused? && proc[i].pid == 0 && proc[i].sz == 0 && proc[i].parent.None?
      ensures proc[i].pagetable == 0 && proc[i].trapframe == 0 && proc[i].usyscall == 0
      ensures var p := old(proc)[i];
              var a := GiveIf(GiveIf(old(k.View()), p.usyscall), p.trapframe);
              if p.pagetable == 0 then k.View() == a
              else OnlyRoot(a, k.View(), p.pagetable) && Owned(k.View(), p.pagetable) == {}
    {
      hide Valid, OnlyRoot, Owned, Layout;
      var p := proc[i];
      ghost var m := k.View();
      if p.usyscall != 0 {
        GivePartial(m, p.usyscall, p, p.(usyscall := 0));
        k.Kfree(p.usyscall);
      }
      ghost var q := p.(usyscall := 0);
      if p.trapframe != 0 {
        GivePartial(k.View(), p.trapframe, q, q.(trapframe := 0));
        k.Kfree(p.trapframe);
      }
      if p.pagetable != 0 {
        ProcFreepagetable(k, p.pagetable, p.sz);
      }
      proc := proc[i := EMPTY];
    }

    /** The failure exit of allocproc: whatever the new process has got so far goes back. */
    method Abandon(i: nat, p: Proc, ghost m: Mem)
      requires i < |proc| && proc[i] == EMPTY && Valid(k.View()) && p.pagetable == 0
      requires p.trapframe == 0 || KernelFrame(k.View(), p.trapframe)
      requires p.usyscall == 0 || KernelFrame(k.View(), p.usyscall)
      requires p.trapframe != 0 ==> p.trapframe != p.usyscall
      requires m == GiveIf(GiveIf(k.View(), p.usyscall), p.trapframe)
      modifies k, this`proc
      ensures proc == old(proc) && k.View() == m && k.refusals == old(k.refusals)
    {
      hide Valid, Partial, GiveIf, EMPTY, KernelFrame;
      ghost var was := proc;
      IsPartial(k.View(), p);
      proc := proc[i := p];
      Freeproc(i);
      assert proc == was;
    }

    /** A new process in the first unused slot, with the next pid; or None with memory and every slot as they were,
        because no slot is unused or an allocation was refused. */
    method Allocproc() returns (r: Option<nat>, ghost base: Mem)
      requires Inv()
      modifies k, this
      ensures Valid(k.View()) && Pids(proc, nextpid)
      ensures r.None? ==> k.View() == old(k.View()) && proc == old(proc)
      ensures r.Some? ==> Allocated(old(k.View()), old(proc), base, k.View(), proc, r.value, trampoline)
      ensures r.Some? ==> r.value < NPROC && forall j :: 0 <= j < r.value ==> !old(proc)[j].state.Unused?
      ensures r.Some? ==>
                var p := proc[r.value];
                && p.pid == old(nextpid)
                && p.usyscall in k.data && |k.data[p.usyscall]| == PGSIZE
                && FromLe32(k.data[p.usyscall][..4]) == old(nextpid) % 0x1_0000_0000
      ensures nextpid == old(nextpid) + if HasRoom(old(proc)) then 1 else 0
      ensures k.refusals == old(k.refusals) + if HasRoom(old(proc)) && r.None? then 1 else 0
    {
      hide Valid, SmallMachine, Slots, Pids, HasRoom, Allocated, FromLe32, Le32;
      SlotCount(k.View(), trampoline, proc);
      var i := 0;
      while i < NPROC && !proc[i].state.Unused?
        invariant i <= NPROC && forall j :: 0 <= j < i ==> !proc[j].state.Unused?
      {
        i := i + 1;
      }
      if i == NPROC {
        NoRoom(proc);
        return None, k.View();
      }
      RoomAt(proc, i);
      Le32RoundTrip(nextpid);
      r, base := Found(i);
      AllocatedPage(old(k.View()), old(proc), base, k.View(), proc, i, trampoline, r);
    }

    /** allocproc's two kernel pages: the trapframe, and the usyscall page that shows the pid. */
    method TwoPages(i: nat, p: Proc) returns (ok: bool, q: Proc, ghost base: Mem)
      requires Valid(k.View()) && i < |proc| && proc[i] == EMPTY
      requires p.pagetable == 0 && p.trapframe == 0 && p.usyscall == 0
      modifies k, this`proc
      ensures proc == old(proc) && k.View() == base && Valid(base)
      ensures k.refusals == old(k.refusals) + if ok then 0 else 1
      ensures !ok ==> base == old(k.View())
      ensures ok ==>
                && q == p.(trapframe := q.trapframe, usyscall := q.usyscall) && q.trapframe != 0 && q.usyscall != 0
                && TwoMore(old(k.View()), base, q.trapframe, q.usyscall) && base.lab == old(k.View()).lab
                && q.usyscall in base.data && |base.data[q.usyscall]| == PGSIZE
                && base.data[q.usyscall][..4] == Le32(p.pid)
    {
      hide Valid, Give, Take, TwoMore, Le32, Splice, EMPTY, KernelFrame, Fill, GiveIf;
      ghost var m := k.View();
      q := p;
      var trapframe := k.Kalloc(Memory.Kernel);
      if trapframe == 0 {
        GiveTwo(m, 0, 0);
        Abandon(i, q, m);
        return false, q, m;
      }
      q := q.(trapframe := trapframe);
      ghost var p1 :| |p1| == PGSIZE && k.View() == Take(m, trapframe, Memory.Kernel, p1);
      ghost var a := k.View();
      OneTaken(m, trapframe, p1);
      var usyscall := k.Kalloc(Memory.Kernel);
      if usyscall == 0 {
        GiveTwo(a, trapframe, 0);
        Abandon(i, q, m);
        return false, q, m;
      }
      q := q.(usyscall := usyscall);
      ghost var p2 :| |p2| == PGSIZE && k.View() == Take(a, usyscall, Memory.Kernel, p2);
      TakenPage(a, usyscall, p2);
      k.StoreBytes(usyscall, 0, Le32(p.pid));
      TwoTaken(m, trapframe, p1, usyscall, p2, Splice(p2, 0, Le32(p.pid)));
      SpliceRead(p2, 0, Le32(p.pid));
      return true, q, k.View();
    }

    /** allocproc from its label `found` on. */
    method Found(i: nat) returns (r: Option<nat>, ghost base: Mem)
      requires Inv() && i < |proc| && proc[i].state.Unused?
      modifies k, this
      ensures Valid(k.View()) && Pids(proc, nextpid)
      ensures r.None? ==> k.View() == old(k.View()) && proc == old(proc)
      ensures r.Some? ==> r.value == i && Allocated(old(k.View()), old(proc), base, k.View(), proc, i, trampoline)
      ensures r.Some? ==> proc[i].pid == old(nextpid)
      ensures nextpid == old(nextpid) + 1
      ensures k.refusals == old(k.refusals) + if r.None? then 1 else 0
    {
      hide Valid, OnlyRoot, Owned, Layout, SpecialEntries, SmallMachine, Flat, Give, TwoMore, Le32, Pids, Slots, SlotOk,
        Allocated, EMPTY, KernelFrame, GiveIf, AllFrames, Vpn;
      ghost var m, was := k.View(), proc;
      UnusedSlot(m, trampoline, proc, i);
      PidsKept(proc, nextpid, i, EMPTY);
      var p, ok := proc[i].(pid := nextpid, state := Used), false;
      nextpid := nextpid + 1;
      ok, p, base := TwoPages(i, p);
      if !ok {
        return None, base;
      }
      var pagetable := ProcPagetable(k, trampoline, p.trapframe, p.usyscall);
      if pagetable == 0 {
        TwoMoreGiven(m, base, p.trapframe, p.usyscall);
        Abandon(i, p, m);
        return None, base;
      }
      p := p.(pagetable := pagetable);
      PidsAdded(proc, p.pid, i, p);
      proc := proc[i := p];
      NonZero(base, pagetable);
      IsAllocated(m, was, base, k.View(), i, p, trampoline);
      return Some(i), base;
    }

    /** wait, line 459: the slot of a dead child is freed. Every frame it had goes back to the pool, each once, and no
        other process sees a difference. */
    method Reap(i: nat)
      requires Inv() && i < NPROC && !proc[i].state.Unused?
      modifies k, this`proc
      ensures Inv() && proc == old(proc)[i := EMPTY]
      ensures var p := old(proc)[i];
              && k.free == old(k.free) + Owned(old(k.View()), p.pagetable) + {p.trapframe, p.usyscall}
              && Owned(k.View(), p.pagetable) == {}
      ensures forall j :: 0 <= j < NPROC && j != i && !proc[j].state.Unused? ==> Spares(old(k.View()), k.View(), proc[j])
    {
      hide Valid, OnlyRoot, Owned, Layout, SpecialEntries, SmallMachine, Spares, AllFrames, Give, GiveIf, Pids;
      ghost var m, was := k.View(), proc;
      ghost var p := proc[i];
      assert SlotOk(m, trampoline, p);
      SlotPartial(m, trampoline, p);
      PidsKept(proc, nextpid, i, EMPTY);
      Freeproc(i);
      ReapedSlots(m, k.View(), trampoline, was, i);
    }

    /** Grows or shrinks the process by n bytes, or fails and changes nothing but the set of its page tables. Shrinking
        below 0 wraps around and changes nothing. */
    method Growproc(cur: nat, n: int) returns (r: int)
      requires Inv() && cur < NPROC && !proc[cur].state.Unused? && -0x8000_0000 <= n < 0x8000_0000
      modifies k, this`proc
      ensures Inv() && k.refusals == old(k.refusals) + if r == 0 then 0 else 1
      ensures r == 0 || r == -1
      ensures var p, q := old(proc)[cur], proc[cur]; proc == old(proc)[cur := p.(sz := q.sz)]
      ensures var p, q := old(proc)[cur], proc[cur];
              Resized(old(k.View()), k.View(), p.pagetable, p.sz, n, r, q.sz)
      ensures forall j :: 0 <= j < NPROC && j != cur && !proc[j].state.Unused? ==> Spares(old(k.View()), k.View(), proc[j])
    {
      hide Valid, OnlyRoot, Layout, SmallMachine, NotMapped, Populated, Zeroed, Grown, Unmapped, Gives, FramesOf, UserPages,
        SpecialEntries, Spares, AllFrames, Flat, Pages, Pids, HeapPages;
      ghost var a, was := k.View(), proc;
      var p := proc[cur];
      ghost var root := p.pagetable;
      assert SlotOk(a, trampoline, p);
      LayoutRoot(a, root, p.sz, ALL_SPECIAL);
      LayoutSize(a, root, p.sz, ALL_SPECIAL);
      SizeBound(p.sz);
      var sz := p.sz;
      if n > 0 {
        RoomToGrow(a, root, sz, ALL_SPECIAL);
        LayoutNotMapped(a, root, sz);
        sz := Uvmalloc(k, p.pagetable, sz, (sz + n) % 0x1_0000_0000_0000_0000, WRITE);
        if sz == 0 {
          GrownLayout(a, k.View(), root, p.sz, ALL_SPECIAL);
          GrownOnly(a, k.View(), root);
          GrownSpecial(a, k.View(), root, trampoline, p.trapframe, p.usyscall);
          SlotsAfter(a, k.View(), trampoline, proc, cur, p);
          assert proc == proc[cur := p];
          return -1;
        }
        PopulatedLayout(a, k.View(), root, p.sz, sz, ALL_SPECIAL);
        PopulatedOnly(a, k.View(), root, Pages(p.sz), Pages(sz) - Pages(p.sz));
        PopulatedSpecial(a, k.View(), root, Pages(p.sz), Pages(sz) - Pages(p.sz), trampoline, p.trapframe, p.usyscall);
      } else if n < 0 {
        var newsz := (sz + n) % 0x1_0000_0000_0000_0000;
        if newsz < sz {
          TailPages(a, root, sz, newsz, ALL_SPECIAL);
        }
        sz := Uvmdealloc(k, p.pagetable, sz, newsz);
        if newsz < p.sz {
          ShrunkLayout(a, k.View(), root, p.sz, newsz, ALL_SPECIAL);
          GivesOnly(a, k.View(), root, FramesOf(a, root, Pages(newsz), Pages(p.sz) - Pages(newsz)));
          ShrunkSpecial(a, k.View(), root, Pages(newsz), Pages(p.sz) - Pages(newsz), trampoline, p.trapframe, p.usyscall);
        } else {
          ReflOnly(a, root);
        }
      } else {
        ReflOnly(a, root);
      }
      SlotsAfter(a, k.View(), trampoline, proc, cur, p.(sz := sz));
      PidsKept(proc, nextpid, cur, p.(sz := sz));
      proc := proc[cur := p.(sz := sz)];
      return 0;
    }

    /** A child that is a copy of process cur, or no change at all: neither to memory nor to any slot. */
    method Fork(cur: nat) returns (r: int, ghost child: nat)
      requires Inv() && cur < NPROC && !proc[cur].state.Unused?
      modifies k, this
      ensures Inv() && r >= -1
      ensures r == -1 ==> k.View() == old(k.View()) && proc == old(proc)
      ensures r >= 0 ==> Forked(old(k.View()), k.View(), old(proc), proc, cur, child, r)
      ensures r >= 0 ==> AllSpared(old(k.View()), k.View(), old(proc))
      ensures r >= 0 ==> r == old(nextpid) && FromLe32(k.data[proc[child].usyscall][..4]) == r % 0x1_0000_0000
      ensures r >= 0 ==> forall j :: 0 <= j < NPROC && !old(proc)[j].state.Unused? ==> old(proc)[j].pid != r
      ensures nextpid == old(nextpid) + if HasRoom(old(proc)) then 1 else 0
      ensures k.refusals == old(k.refusals) + if HasRoom(old(proc)) && r == -1 then 1 else 0
    {
      hide Valid, OnlyRoot, Owned, Layout, SmallMachine, NotMapped, Populated, Copied, Grown, UserPages, Slots, SlotOk,
        SpecialEntries, Spares, AllFrames, Flat, Pages, TwoMore, AllSpared, Partial, Give, Fill, Splice, Le32, SameRegisters,
        Pids, FromLe32, HasRoom;
      ghost var m0, was := k.View(), proc;
      PidsBelow(proc, nextpid);
      Le32RoundTrip(nextpid);
      var np, base := Allocproc();
      child := 0;
      if np.None? {
        return -1, child;
      }
      var i := np.value;
      child := i;
      ghost var m4 := k.View();
      RoomAt(was, i);
      ForkStart(m0, base, m4, was, proc, cur, i, trampoline);
      var p, c := proc[cur], proc[i];
      PidsAdded(was, old(nextpid), i, c.(sz := p.sz, state := Runnable, parent := Some(cur)));
      PidsKept(was, old(nextpid), i, EMPTY);
      var ok := Uvmcopy(k, p.pagetable, c.pagetable, p.sz);
      ghost var m5 := k.View();
      if ok < 0 {
        ForkFailed(m0, base, m4, m5, was, proc, i, trampoline);
        Freeproc(i);
        RolledBack(m0, base, m5, k.View(), c.trapframe, c.usyscall, c.pagetable);
        assert proc == was;
        return -1, child;
      }
      ForkCopied(m0, base, m4, m5, was, proc, cur, i, trampoline);
      RegistersCopied(m5, p.trapframe, c.trapframe);
      proc := proc[i := c.(sz := p.sz)];
      k.StoreBytes(c.trapframe, 0, k.data[p.trapframe][..TRAPFRAME_SIZE]);
      k.StoreBytes(c.trapframe, A0, [0, 0, 0, 0, 0, 0, 0, 0]);
      ForkFinish(m0, base, m5, k.View(), was, cur, i, c.(sz := p.sz, state := Runnable, parent := Some(cur)), trampoline);
      proc := proc[i := proc[i].(parent := Some(cur))];
      proc := proc[i := proc[i].(state := Runnable)];
      assert proc == was[i := c.(sz := p.sz, state := Runnable, parent := Some(cur))];
      return c.pid, child;
    }
  }

  lemma PidsBelow(proc: seq<Proc>, nextpid: nat)
    requires Pids(proc, nextpid)
    ensures forall j :: 0 <= j < |proc| && !proc[j].state.Unused? ==> proc[j].pid < nextpid
  {
  }

  lemma NonZero(m: Mem, f: Frame)
    requires Valid(m) && f in m.free
    ensures f != 0
  {
  }
}
