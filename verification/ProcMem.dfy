/** A process's page table over its life (`proc.c`): the three special pages, growing and shrinking, and giving every
    frame back. */
module ProcMem {
  import opened PageTable
  import opened Memory
  import opened Paging
  import opened Uvm
  import opened UserMemory

  const TRAMPOLINE: nat := MAXVA - PGSIZE
  const TRAPFRAME: nat := TRAMPOLINE - PGSIZE
  const USYSCALL: nat := TRAPFRAME - PGSIZE

  lemma SpecialPages()
    ensures Vpn(TRAMPOLINE) == MAXVPN - 1 && Vpn(TRAPFRAME) == MAXVPN - 2 && Vpn(USYSCALL) == MAXVPN - 3 == USER_TOP
    ensures (MAXVPN - 1) / PTES == (MAXVPN - 2) / PTES == (MAXVPN - 3) / PTES
    ensures TRAMPOLINE % PGSIZE == 0 && TRAPFRAME % PGSIZE == 0 && USYSCALL % PGSIZE == 0
    ensures Vpn(TRAMPOLINE + PGSIZE - 1) == MAXVPN - 1 && Vpn(TRAPFRAME + PGSIZE - 1) == MAXVPN - 2
    ensures Vpn(USYSCALL + PGSIZE - 1) == MAXVPN - 3
  {
  }

  predicate Special(vpn: nat) {
    vpn == MAXVPN - 1 || vpn == MAXVPN - 2 || vpn == MAXVPN - 3
  }

  /** What a process's address space consists of: the pages below sz, each on a frame of its own, and some of the
      special pages, which show frames it does not own. */
  ghost predicate Layout(m: Mem, root: Frame, sz: nat, special: set<nat>) {
    && IsRoot(m.lab, root) && Pages(sz) <= USER_TOP && UserPages(m, root, 0, Pages(sz))
    && (forall vpn: nat :: vpn >= Pages(sz) ==> (Flat(m.tables, root, vpn).v <==> vpn in special))
    && (forall f :: f in m.own && Owns(m.own[f], root) ==> m.own[f].User? && m.own[f].vpn < Pages(sz))
  }

  const ALL_SPECIAL: set<nat> := {MAXVPN - 1, MAXVPN - 2, MAXVPN - 3}

  /** The special pages show the trampoline code, the trapframe and the usyscall page. */
  ghost predicate SpecialEntries(m: Mem, root: Frame, trampoline: Frame, trapframe: Frame, usyscall: Frame) {
    && Flat(m.tables, root, MAXVPN - 1) == Entry(Perm(true, false, true, false), trampoline)
    && Flat(m.tables, root, MAXVPN - 2) == Entry(Perm(true, true, false, false), trapframe)
    && Flat(m.tables, root, MAXVPN - 3) == Entry(Perm(true, false, false, true), usyscall)
  }

  // ---------------------------------------------------------------- nothing left behind

  lemma SameTablesIfForeign(a: Mem, b: Mem, root: Frame)
    requires Valid(a) && Valid(b) && OnlyRoot(a, b, root) && Owned(a, root) == {} && Owned(b, root) == {}
    ensures a.tables == b.tables && a.lab == b.lab
  {
    hide TableOk, MappedWhereItSays, Frames;
    assert forall f :: f in a.lab ==> f !in Owned(a, root);
    assert forall f :: f in b.lab ==> f !in Owned(b, root);
    assert forall f :: f in a.lab <==> f in ForeignTables(a, root);
    assert forall f :: f in b.lab <==> f in ForeignTables(b, root);
    assert forall f :: f in a.lab ==> ForeignTables(a, root)[f] == (a.tables[f], a.lab[f]);
    assert forall f :: f in b.lab ==> ForeignTables(b, root)[f] == (b.tables[f], b.lab[f]);
    assert a.lab.Keys == b.lab.Keys;
  }

  lemma SameDataIfForeign(a: Mem, b: Mem, root: Frame)
    requires Valid(a) && Valid(b) && OnlyRoot(a, b, root) && Owned(a, root) == {} && Owned(b, root) == {}
    ensures a.data == b.data && a.own == b.own
  {
    hide TableOk, MappedWhereItSays, Tree;
    assert forall f :: f in a.own ==> f !in Owned(a, root);
    assert forall f :: f in b.own ==> f !in Owned(b, root);
    assert forall f :: f in a.own <==> f in ForeignData(a, root);
    assert forall f :: f in b.own <==> f in ForeignData(b, root);
    assert forall f :: f in a.own ==> ForeignData(a, root)[f] == (a.data[f], a.own[f]);
    assert forall f :: f in b.own ==> ForeignData(b, root)[f] == (b.data[f], b.own[f]);
    assert a.own.Keys == b.own.Keys;
  }

  /** When root owned nothing before and owns nothing after, memory is exactly as it was. */
  lemma Restored(a: Mem, b: Mem, root: Frame)
    requires Valid(a) && Valid(b) && OnlyRoot(a, b, root) && Owned(a, root) == {} && Owned(b, root) == {}
    ensures a == b
  {
    hide Valid;
    SameTablesIfForeign(a, b, root);
    SameDataIfForeign(a, b, root);
  }

  // ---------------------------------------------------------------- proc_pagetable

  lemma NewLayout(a: Mem, b: Mem, root: Frame)
    requires Valid(b) && Created(a, b, root) && IsRoot(b.lab, root)
    ensures Layout(b, root, 0, {})
  {
    hide OnlyRoot, Tree, Flat;
    assert Pages(0) == 0;
    forall f | f in b.own
      ensures !Owns(b.own[f], root)
    {
      OwnedIsNoData(b, root, f);
    }
  }

  lemma OwnedIsNoData(b: Mem, root: Frame, f: Frame)
    requires Valid(b) && Owned(b, root) == {root} && f in b.own && IsRoot(b.lab, root)
    ensures !Owns(b.own[f], root)
  {
    hide Tree, MappedWhereItSays;
    assert root in b.lab.Keys && b.lab.Keys == b.tables.Keys by { KeysAgree(b); }
    assert Owns(b.own[f], root) ==> f in Owned(b, root);
  }

  /** One more special page is mapped, by no table of its own. */
  lemma SpecialMapped(a: Mem, b: Mem, root: Frame, sz: nat, special: set<nat>, vpn: nat, f: Frame, perm: Perm)
    requires Layout(a, root, sz, special) && Extends(a, b, root) && Mapped(a, b, root, vpn, 1, f, perm)
    requires Special(vpn) && vpn !in special
    ensures Layout(b, root, sz, special + {vpn}) && IsRoot(b.lab, root)
  {
    hide OnlyRoot, Flat, Table0;
  }

  lemma StillExactly(m: Mem, b: Mem, root: Frame)
    requires Layout(m, root, 0, {}) && Extends(m, b, root) && Mapped(m, b, root, MAXVPN - 1, 0, 0, USER_READ)
    ensures Exactly(b, root, Pages(0)) && IsRoot(b.lab, root)
  {
    hide OnlyRoot, Flat, Table0;
    assert Pages(0) == 0;
  }

  lemma MappedNoneIs(a: Mem, b: Mem, root: Frame, vpn: nat, f: Frame, perm: Perm)
    requires Mapped(a, b, root, vpn, 0, f, perm)
    ensures Mapped(a, b, root, MAXVPN - 1, 0, 0, USER_READ)
  {
    hide Flat;
  }

  lemma TableOfMapped(m: Mem, root: Frame, vpn: nat, w: nat)
    requires Flat(m.tables, root, vpn).v && vpn / PTES == w / PTES
    ensures TableFor(m.tables, root, w).Some?
  {
  }

  lemma SpecialFree(m: Mem, root: Frame, sz: nat, special: set<nat>, vpn: nat)
    requires Layout(m, root, sz, special) && Special(vpn)
    ensures Flat(m.tables, root, vpn).v <==> vpn in special
  {
    hide Flat;
  }

  /** 0 with memory exactly as it was, or a table with just the three special pages. Once TRAMPOLINE is mapped the
      other two cannot fail: they share its level-0 table. */
  method ProcPagetable(k: Kmem, trampoline: Frame, trapframe: Frame, usyscall: Frame) returns (pagetable: Frame)
    requires Valid(k.View())
    modifies k
    ensures Valid(k.View()) && k.refusals == old(k.refusals) + if pagetable == 0 then 1 else 0
    ensures pagetable == 0 ==> k.View() == old(k.View())
    ensures pagetable != 0 ==>
              && pagetable in old(k.free) && !IsRoot(old(k.lab), pagetable) && OnlyRoot(old(k.View()), k.View(), pagetable)
              && k.data == old(k.data) && k.own == old(k.own)
              && Layout(k.View(), pagetable, 0, ALL_SPECIAL)
              && SpecialEntries(k.View(), pagetable, trampoline, trapframe, usyscall)
    ensures pagetable != 0 ==>
              var e := Flat(k.tables, pagetable, Vpn(TRAMPOLINE));
              e.v && e.r && !e.w && e.x && !e.u && e.ppn == trampoline
    ensures pagetable != 0 ==>
              var e := Flat(k.tables, pagetable, Vpn(TRAPFRAME));
              e.v && e.r && e.w && !e.x && !e.u && e.ppn == trapframe
    ensures pagetable != 0 ==>
              var e := Flat(k.tables, pagetable, Vpn(USYSCALL));
              e.v && e.r && !e.w && !e.x && e.u && e.ppn == usyscall
  {
    hide Valid, OnlyRoot, Layout, Extends, Mapped, Owned, Flat, Table0, TableFor, Created, Exactly, Vpn;
    ghost var m0 := k.View();
    pagetable := Uvmcreate(k);
    if pagetable == 0 {
      return 0;
    }
    ghost var m1 := k.View();
    SpecialPages();
    NewLayout(m0, m1, pagetable);
    FreshRoot(m0, m1, pagetable);
    SpecialFree(m1, pagetable, 0, {}, MAXVPN - 1);
    AddrFacts(trampoline, 0);
    PageAddr(trampoline);
    PageAddr(trapframe);
    PageAddr(usyscall);
    var ok, n := Mappages(k, pagetable, TRAMPOLINE, PGSIZE, trampoline * PGSIZE, Perm(true, false, true, false));
    ghost var m2 := k.View();
    if ok < 0 {
      MappedNoneIs(m1, m2, pagetable, MAXVPN - 1, trampoline, Perm(true, false, true, false));
      StillExactly(m1, m2, pagetable);
      Uvmfree(k, pagetable, 0);
      ExtendsOnly(m1, m2, pagetable);
      OnlyRootTrans(m0, m1, m2, pagetable);
      OnlyRootTrans(m0, m2, k.View(), pagetable);
      Restored(m0, k.View(), pagetable);
      return 0;
    }
    SpecialMapped(m1, m2, pagetable, 0, {}, MAXVPN - 1, trampoline, Perm(true, false, true, false));
    var one := {} + {MAXVPN - 1};
    SpecialStep(m1, m2, pagetable, MAXVPN - 1, trampoline, Perm(true, false, true, false));
    SpecialFree(m2, pagetable, 0, one, MAXVPN - 1);
    SpecialFree(m2, pagetable, 0, one, MAXVPN - 2);
    TableOfMapped(m2, pagetable, MAXVPN - 1, MAXVPN - 2);
    ok, n := Mappages(k, pagetable, TRAPFRAME, PGSIZE, trapframe * PGSIZE, Perm(true, true, false, false));
    if ok < 0 {
      assert false;
    }
    ghost var m3 := k.View();
    SpecialMapped(m2, m3, pagetable, 0, one, MAXVPN - 2, trapframe, Perm(true, true, false, false));
    SpecialStep(m2, m3, pagetable, MAXVPN - 2, trapframe, Perm(true, true, false, false));
    var two := one + {MAXVPN - 2};
    SpecialFree(m3, pagetable, 0, two, MAXVPN - 1);
    SpecialFree(m3, pagetable, 0, two, MAXVPN - 3);
    TableOfMapped(m3, pagetable, MAXVPN - 1, MAXVPN - 3);
    ok, n := Mappages(k, pagetable, USYSCALL, PGSIZE, usyscall * PGSIZE, Perm(true, false, false, true));
    if ok < 0 {
      assert false;
    }
    ghost var m4 := k.View();
    SpecialMapped(m3, m4, pagetable, 0, two, MAXVPN - 3, usyscall, Perm(true, false, false, true));
    SpecialStep(m3, m4, pagetable, MAXVPN - 3, usyscall, Perm(true, false, false, true));
    assert two + {MAXVPN - 3} == ALL_SPECIAL;
    OnlyRootTrans(m0, m1, m2, pagetable);
    OnlyRootTrans(m0, m2, m3, pagetable);
    OnlyRootTrans(m0, m3, m4, pagetable);
    return pagetable;
  }

  lemma PageAddr(f: Frame)
    ensures Vpn(f * PGSIZE) == f
  {
  }

  lemma ExtendsOnly(a: Mem, b: Mem, root: Frame)
    requires Extends(a, b, root)
    ensures OnlyRoot(a, b, root) && b.data == a.data && b.own == a.own
  {
  }

  lemma FreshRoot(a: Mem, b: Mem, root: Frame)
    requires Valid(a) && Created(a, b, root) && !IsRoot(a.lab, root)
    ensures OnlyRoot(a, b, root) && Owned(a, root) == {} && b.data == a.data && b.own == a.own
  {
    OwnedNone(a, root);
  }

  lemma SpecialStep(a: Mem, b: Mem, root: Frame, vpn: nat, f: Frame, perm: Perm)
    requires Extends(a, b, root) && Mapped(a, b, root, vpn, 1, f, perm)
    ensures OnlyRoot(a, b, root) && b.data == a.data && b.own == a.own
    ensures Flat(b.tables, root, vpn) == Entry(perm, f)
    ensures forall v: nat :: v != vpn ==> Flat(b.tables, root, v) == Flat(a.tables, root, v)
  {
    hide OnlyRoot, Flat, Table0;
  }

  // ---------------------------------------------------------------- proc_freepagetable

  lemma SpecialUnmapped(a: Mem, b: Mem, root: Frame, sz: nat, special: set<nat>, vpn: nat)
    requires Layout(a, root, sz, special) && Special(vpn) && Unmapped(a, b, root, vpn, 1) && Gives(a, b, root, {})
    ensures Layout(b, root, sz, special - {vpn})
  {
    hide OnlyRoot, Flat;
    assert b.own == a.own;
  }

  lemma SpecialMayUnmap(m: Mem, root: Frame, sz: nat, special: set<nat>, vpn: nat)
    requires Layout(m, root, sz, special) && Special(vpn) && vpn in special
    ensures MayUnmap(m, root, vpn, 1, false)
  {
    hide Flat;
  }

  lemma LayoutExactly(m: Mem, root: Frame, sz: nat)
    requires Layout(m, root, sz, {})
    ensures Exactly(m, root, Pages(sz)) && IsRoot(m.lab, root)
  {
    hide Flat;
  }

  /** Takes the special pages out, whose frames stay, and gives back everything the address space owns. */
  method ProcFreepagetable(k: Kmem, root: Frame, sz: nat)
    requires Valid(k.View()) && Layout(k.View(), root, sz, ALL_SPECIAL)
    modifies k
    ensures Valid(k.View()) && OnlyRoot(old(k.View()), k.View(), root) && k.refusals == old(k.refusals)
    ensures k.free == old(k.free) + Owned(old(k.View()), root) && Owned(k.View(), root) == {}
  {
    hide Valid, OnlyRoot, Layout, Owned, Unmapped, MayUnmap, Exactly, Vpn, Flat, FramesOf;
    ghost var m0 := k.View();
    SpecialPages();
    LayoutRoot(m0, root, sz, ALL_SPECIAL);
    SpecialMayUnmap(m0, root, sz, ALL_SPECIAL, MAXVPN - 3);
    Uvmunmap(k, root, USYSCALL, 1, false);
    ghost var m1 := k.View();
    SpecialUnmapped(m0, m1, root, sz, ALL_SPECIAL, MAXVPN - 3);
    ghost var two := ALL_SPECIAL - {MAXVPN - 3};
    SpecialMayUnmap(m1, root, sz, two, MAXVPN - 1);
    LayoutRoot(m1, root, sz, two);
    Uvmunmap(k, root, TRAMPOLINE, 1, false);
    ghost var m2 := k.View();
    SpecialUnmapped(m1, m2, root, sz, two, MAXVPN - 1);
    ghost var one := two - {MAXVPN - 1};
    SpecialMayUnmap(m2, root, sz, one, MAXVPN - 2);
    LayoutRoot(m2, root, sz, one);
    Uvmunmap(k, root, TRAPFRAME, 1, false);
    ghost var m3 := k.View();
    SpecialUnmapped(m2, m3, root, sz, one, MAXVPN - 2);
    assert one - {MAXVPN - 2} == {};
    LayoutExactly(m3, root, sz);
    Uvmfree(k, root, sz);
    OnlyRootTrans(m0, m1, m2, root);
    OnlyRootTrans(m0, m2, m3, root);
    OnlyRootTrans(m0, m3, k.View(), root);
    PoolOf(m0, k.View(), root);
  }

  lemma LayoutRoot(m: Mem, root: Frame, sz: nat, special: set<nat>)
    requires Layout(m, root, sz, special)
    ensures IsRoot(m.lab, root)
  {
  }

  // ---------------------------------------------------------------- growing and shrinking

  /** Every frame of the machine that the allocator manages. */
  ghost function AllFrames(m: Mem): set<Frame> {
    m.free + m.tables.Keys + m.data.Keys
  }

  ghost predicate SmallMachine(m: Mem) {
    |AllFrames(m)| <= USER_TOP
  }

  /** An operation on one address space neither makes frames nor loses any. */
  lemma FramesConserved(a: Mem, b: Mem, root: Frame)
    requires Valid(a) && Valid(b) && OnlyRoot(a, b, root)
    ensures AllFrames(a) == AllFrames(b)
  {
    SubsetConserved(a, b, root);
    SubsetConserved(b, a, root);
  }

  lemma SubsetConserved(a: Mem, b: Mem, root: Frame)
    requires Valid(a) && Valid(b) && OnlyRoot(a, b, root)
    ensures AllFrames(a) <= AllFrames(b)
  {
    hide Valid;
    KeysAgree(a);
    KeysAgree(b);
    forall f | f in AllFrames(a)
      ensures f in AllFrames(b)
    {
      FrameStays(a, b, root, f);
    }
  }

  lemma FrameStays(a: Mem, b: Mem, root: Frame, f: Frame)
    requires OnlyRoot(a, b, root) && f in AllFrames(a)
    requires a.tables.Keys == a.lab.Keys && a.own.Keys == a.data.Keys
    requires b.tables.Keys == b.lab.Keys && b.own.Keys == b.data.Keys
    ensures f in AllFrames(b)
  {
    if f in a.free || f in Owned(a, root) {
      assert f in b.free + Owned(b, root);
      assert f in b.lab ==> f in b.lab.Keys;
      assert f in b.own ==> f in b.own.Keys;
    } else if f in a.tables {
      assert f in a.lab.Keys;
      assert f in ForeignTables(a, root);
      assert f in ForeignTables(b, root);
    } else {
      assert f in a.own.Keys;
      assert f in ForeignData(a, root);
      assert f in ForeignData(b, root);
    }
  }

  lemma PageFrames(m: Mem, root: Frame, n: nat)
    requires UserPages(m, root, 0, n)
    ensures |FramesOf(m, root, 0, n)| == n && FramesOf(m, root, 0, n) <= m.own.Keys
  {
    hide Flat;
    if n == 0 {
      assert FramesOf(m, root, 0, 0) == {};
    } else {
      PageFrames(m, root, n - 1);
      FramesOfNext(m, root, 0, n - 1);
      NewFrame(m, root, n);
    }
  }

  lemma NewFrame(m: Mem, root: Frame, n: nat)
    requires UserPages(m, root, 0, n) && n > 0
    ensures Flat(m.tables, root, n - 1).ppn !in FramesOf(m, root, 0, n - 1)
    ensures Flat(m.tables, root, n - 1).ppn in m.own
  {
    hide Flat;
    var f := Flat(m.tables, root, n - 1).ppn;
    forall v: nat | v < n - 1
      ensures Flat(m.tables, root, v).ppn != f
    {
      assert m.own[Flat(m.tables, root, v).ppn] == User(root, v);
    }
  }

  /** On a small machine memory runs out before the heap can reach the special pages. */
  lemma RoomToGrow(m: Mem, root: Frame, sz: nat, special: set<nat>)
    requires Valid(m) && SmallMachine(m) && Layout(m, root, sz, special)
    ensures Pages(sz) + |m.free| <= USER_TOP
  {
    hide Tree, MappedWhereItSays, Pages;
    var pages := FramesOf(m, root, 0, Pages(sz));
    PageFrames(m, root, Pages(sz));
    assert pages !! m.free;
    assert |pages + m.free| == |pages| + |m.free|;
    SmallerPool(pages + m.free, AllFrames(m));
  }

  lemma LayoutNotMapped(m: Mem, root: Frame, sz: nat)
    requires Layout(m, root, sz, ALL_SPECIAL)
    ensures NotMapped(m, root, Pages(sz), USER_TOP)
  {
    hide Flat, Pages;
  }

  lemma GrownLayout(a: Mem, b: Mem, root: Frame, sz: nat, special: set<nat>)
    requires Layout(a, root, sz, special) && Grown(a, b, root)
    ensures Layout(b, root, sz, special)
  {
    hide OnlyRoot, Flat, Table0, Pages;
  }

  lemma PopulatedLayout(a: Mem, b: Mem, root: Frame, sz: nat, newsz: nat, special: set<nat>)
    requires Valid(b) && Layout(a, root, sz, special) && Pages(sz) <= Pages(newsz) <= USER_TOP
    requires Populated(a, b, root, Pages(sz), Pages(newsz) - Pages(sz))
    requires special <= ALL_SPECIAL
    ensures Layout(b, root, newsz, special)
  {
    hide OnlyRoot, Flat, Table0, Pages, Tree;
  }

  lemma ShrunkLayout(a: Mem, b: Mem, root: Frame, sz: nat, newsz: nat, special: set<nat>)
    requires Valid(a) && Layout(a, root, sz, special) && newsz < sz && special <= ALL_SPECIAL
    requires Unmapped(a, b, root, Pages(newsz), Pages(sz) - Pages(newsz))
    requires Gives(a, b, root, FramesOf(a, root, Pages(newsz), Pages(sz) - Pages(newsz)))
    ensures Layout(b, root, newsz, special)
  {
    hide OnlyRoot, Flat, Table0, Pages, Tree;
    PagesOrder(newsz, sz);
    var first, n := Pages(newsz), Pages(sz) - Pages(newsz);
    forall f | f in a.own && Owns(a.own[f], root) && first <= a.own[f].vpn
      ensures f in FramesOf(a, root, first, n)
    {
      assert MappedWhereItSays(a, f);
      assert Flat(a.tables, root, a.own[f].vpn).ppn == f;
    }
    forall vpn: nat | vpn < first
      ensures Flat(b.tables, root, vpn).ppn in b.own && b.own[Flat(b.tables, root, vpn).ppn] == User(root, vpn)
    {
      KeptPage(a, root, vpn, first, n);
    }
  }

  lemma KeptPage(m: Mem, root: Frame, vpn: nat, first: nat, n: nat)
    requires UserPages(m, root, 0, first + n) && vpn < first
    ensures Flat(m.tables, root, vpn).ppn !in FramesOf(m, root, first, n)
  {
    hide Flat;
    forall w: nat | first <= w < first + n
      ensures Flat(m.tables, root, w).ppn != Flat(m.tables, root, vpn).ppn
    {
      assert m.own[Flat(m.tables, root, w).ppn] == User(root, w);
      assert m.own[Flat(m.tables, root, vpn).ppn] == User(root, vpn);
    }
  }

  lemma TailPages(m: Mem, root: Frame, sz: nat, newsz: nat, special: set<nat>)
    requires Layout(m, root, sz, special) && newsz < sz
    ensures Pages(newsz) <= Pages(sz) && UserPages(m, root, Pages(newsz), Pages(sz) - Pages(newsz))
  {
    hide Flat, Pages;
    PagesOrder(newsz, sz);
  }

  // ---------------------------------------------------------------- a whole life

  /** A change of size asked for: by exec or a growing sbrk, or by a shrinking sbrk. */
  datatype Request = Grow(newsz: nat, xperm: Perm) | Shrink(newsz: nat)

  /** Serves one request the way growproc and exec do, keeping the size it is told. */
  method Resize(k: Kmem, root: Frame, sz: nat, req: Request) returns (newsz: nat)
    requires Valid(k.View()) && SmallMachine(k.View()) && Layout(k.View(), root, sz, ALL_SPECIAL)
    modifies k
    ensures Valid(k.View()) && OnlyRoot(old(k.View()), k.View(), root) && Layout(k.View(), root, newsz, ALL_SPECIAL)
    ensures req.Grow? ==> newsz == if req.newsz > sz && k.refusals == old(k.refusals) then req.newsz else sz
    ensures req.Shrink? ==> newsz == if req.newsz < sz then req.newsz else sz
  {
    hide Valid, OnlyRoot, SmallMachine, Layout, NotMapped, Populated, Zeroed, Grown, Unmapped, Gives, FramesOf, UserPages;
    ghost var a := k.View();
    LayoutRoot(a, root, sz, ALL_SPECIAL);
    ReflOnly(a, root);
    match req
    case Grow(wanted, xperm) =>
      RoomToGrow(a, root, sz, ALL_SPECIAL);
      LayoutNotMapped(a, root, sz);
      LayoutSize(a, root, sz, ALL_SPECIAL);
      var r := Uvmalloc(k, root, sz, wanted, xperm);
      newsz := if r == 0 then sz else r;
      if wanted >= sz {
        if r == wanted {
          PopulatedLayout(a, k.View(), root, sz, wanted, ALL_SPECIAL);
          PopulatedOnly(a, k.View(), root, Pages(sz), Pages(wanted) - Pages(sz));
        } else {
          GrownLayout(a, k.View(), root, sz, ALL_SPECIAL);
          GrownOnly(a, k.View(), root);
        }
      }
    case Shrink(wanted) =>
      if wanted < sz {
        TailPages(a, root, sz, wanted, ALL_SPECIAL);
      }
      newsz := Uvmdealloc(k, root, sz, wanted);
      if wanted < sz {
        ShrunkLayout(a, k.View(), root, sz, wanted, ALL_SPECIAL);
        GivesOnly(a, k.View(), root, FramesOf(a, root, Pages(wanted), Pages(sz) - Pages(wanted)));
      }
  }

  lemma ReflOnly(a: Mem, root: Frame)
    ensures OnlyRoot(a, a, root)
  {
  }

  lemma LayoutSize(m: Mem, root: Frame, sz: nat, special: set<nat>)
    requires Layout(m, root, sz, special)
    ensures Pages(sz) <= USER_TOP
  {
  }

  lemma PopulatedOnly(a: Mem, b: Mem, root: Frame, first: nat, n: nat)
    requires Populated(a, b, root, first, n)
    ensures OnlyRoot(a, b, root)
  {
    hide OnlyRoot;
  }

  lemma GrownOnly(a: Mem, b: Mem, root: Frame)
    requires Grown(a, b, root)
    ensures OnlyRoot(a, b, root)
  {
    hide OnlyRoot;
  }

  lemma GivesOnly(a: Mem, b: Mem, root: Frame, gone: set<Frame>)
    requires Gives(a, b, root, gone)
    ensures OnlyRoot(a, b, root)
  {
    hide OnlyRoot;
  }

  /** Frames are conserved over the whole life of a page table: whichever allocations fail on the way, memory ends
      exactly as it began, the pool included. That every call's precondition is met is the absence of panics. */
  method Life(k: Kmem, trampoline: Frame, trapframe: Frame, usyscall: Frame, requests: seq<Request>)
    requires Valid(k.View()) && SmallMachine(k.View())
    modifies k
    ensures k.View() == old(k.View())
  {
    hide Valid, OnlyRoot, SmallMachine, AllFrames, Layout, Owned, SpecialEntries;
    ghost var m0 := k.View();
    var pagetable := ProcPagetable(k, trampoline, trapframe, usyscall);
    if pagetable == 0 {
      return;
    }
    OwnedNone(m0, pagetable);
    var sz := 0;
    for i := 0 to |requests|
      invariant Valid(k.View()) && OnlyRoot(m0, k.View(), pagetable) && Layout(k.View(), pagetable, sz, ALL_SPECIAL)
    {
      ghost var m := k.View();
      FramesConserved(m0, m, pagetable);
      StillSmall(m0, m);
      sz := Resize(k, pagetable, sz, requests[i]);
      OnlyRootTrans(m0, m, k.View(), pagetable);
    }
    ghost var m := k.View();
    ProcFreepagetable(k, pagetable, sz);
    OnlyRootTrans(m0, m, k.View(), pagetable);
    Restored(m0, k.View(), pagetable);
  }

  lemma StillSmall(a: Mem, b: Mem)
    requires SmallMachine(a) && AllFrames(a) == AllFrames(b)
    ensures SmallMachine(b)
  {
  }
}
