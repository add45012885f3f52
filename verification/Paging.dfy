/** walk, walkaddr, mappages and uvmunmap (`vm.c`) on the three-level tree, proved against the flat map; and the
    hardware's own reading of the same tree. */
module Paging {
  import opened PageTable
  import opened Memory

  // ---------------------------------------------------------------- addresses

  /** The page that holds address a. */
  function Vpn(a: nat): nat {
    a / PGSIZE
  }

  /** The first address of a page. */
  function Addr(vpn: nat): nat {
    vpn * PGSIZE
  }

  lemma AddrFacts(vpn: nat, a: nat)
    ensures Vpn(Addr(vpn)) == vpn && Addr(vpn + 1) == Addr(vpn) + PGSIZE && Addr(0) == 0
    ensures Addr(vpn) < MAXVA <==> vpn < MAXVPN
    ensures PgRoundDown(a) == Addr(Vpn(a))
    ensures a % PGSIZE == 0 ==> a == Addr(Vpn(a))
    ensures Vpn(a + Addr(vpn)) == Vpn(a) + vpn
  {
  }

  lemma AddrOrder(v: nat, w: nat)
    ensures Addr(v) < Addr(w) <==> v < w
    ensures Addr(v) == Addr(w) <==> v == w
    ensures Addr(v) + w * PGSIZE == Addr(v + w)
  {
  }

  lemma VpnOrder(a: nat, b: nat)
    ensures a <= b ==> Vpn(a) <= Vpn(b)
    ensures b < MAXVA <==> Vpn(b) < MAXVPN
  {
  }

  function PgRoundDown(a: nat): nat {
    a / PGSIZE * PGSIZE
  }

  function PgRoundUp(a: nat): nat {
    (a + PGSIZE - 1) / PGSIZE * PGSIZE
  }

  /** The number of pages that hold the addresses below a. */
  function Pages(a: nat): nat {
    (a + PGSIZE - 1) / PGSIZE
  }

  /** The nine bits of va that index the table at a level. */
  function Px(level: nat, va: nat): (k: nat)
    requires level <= 2
    ensures k < PTES
  {
    if level == 0 then va / 0x1000 % PTES else if level == 1 then va / 0x20_0000 % PTES else va / 0x4000_0000 % PTES
  }

  lemma PxOfPage(va: nat)
    requires va < MAXVA
    ensures Vpn(va) < MAXVPN
    ensures Px(0, va) == Vpn(va) % PTES
    ensures Px(1, va) == Vpn(va) / PTES % PTES
    ensures Px(2, va) == Vpn(va) / PTES / PTES < ROOT_USED
  {
  }

  // ---------------------------------------------------------------- what the hardware sees

  /** Address translation as sections 4.3.2 and 4.4 of the RISC-V Privileged Architecture define it: the entry that
      maps va and the level it was found at, or a page fault. In an entry that leads to a table U is reserved, and it
      faults when set. */
  ghost function Translate(tables: Tables, t: Frame, level: nat, va: nat): Option<(Pte, nat)>
    requires level <= 2
    decreases level
  {
    if t !in tables || Px(level, va) >= |tables[t]| then None
    else
      var e := tables[t][Px(level, va)];
      if !e.v || (!e.r && e.w) then None
      else if e.r || e.x then Some((e, level))
      else if level == 0 || e.u then None
      else Translate(tables, e.ppn, level - 1, va)
  }

  /** The hardware finds exactly what the flat map says, and only 4096-byte pages; addresses from MAXVA up to the end
      of the 39-bit space are never mapped. */
  lemma TranslateIsFlat(m: Mem, root: Frame, va: nat)
    requires Valid(m) && IsRoot(m.lab, root) && va < 2 * MAXVA
    ensures va >= MAXVA ==> Translate(m.tables, root, 2, va) == None
    ensures va < MAXVA ==>
              var e := Flat(m.tables, root, Vpn(va));
              Translate(m.tables, root, 2, va) == if e.v && (e.r || !e.w) then Some((e, 0)) else None
  {
    assert TableOk(m.tables, m.lab, root);
    if va < MAXVA {
      PxOfPage(va);
      var vpn := Vpn(va);
      if Table1(m.tables, root, vpn / PTES / PTES).Some? {
        Table1Label(m.tables, m.lab, root, vpn / PTES / PTES);
        var t1 := Table1(m.tables, root, vpn / PTES / PTES).value;
        assert TableOk(m.tables, m.lab, t1);
        assert Translate(m.tables, root, 2, va) == Translate(m.tables, t1, 1, va);
        TranslateLow(m, root, va, t1);
      }
    } else {
      assert Px(2, va) >= ROOT_USED;
    }
  }

  lemma TranslateLow(m: Mem, root: Frame, va: nat, t1: Frame)
    requires Valid(m) && IsRoot(m.lab, root) && va < MAXVA
    requires Table1(m.tables, root, Vpn(va) / PTES / PTES) == Some(t1)
    ensures var e := Flat(m.tables, root, Vpn(va));
            Translate(m.tables, t1, 1, va) == if e.v && (e.r || !e.w) then Some((e, 0)) else None
  {
    PxOfPage(va);
    var vpn := Vpn(va);
    Table1Label(m.tables, m.lab, root, vpn / PTES / PTES);
    assert TableOk(m.tables, m.lab, t1);
    if Table0(m.tables, root, vpn / PTES).Some? {
      Table0Label(m.tables, m.lab, root, vpn / PTES);
      var t0 := Table0(m.tables, root, vpn / PTES).value;
      assert TableOk(m.tables, m.lab, t0);
      assert Translate(m.tables, t1, 1, va) == Translate(m.tables, t0, 0, va);
    }
  }

  // ---------------------------------------------------------------- how operations change an address space

  /** Only root's address space changed, and of it only page tables: no data frame changed its bytes or its owner, the
      pool did not grow, and no part of the tree went away. */
  ghost predicate Extends(a: Mem, b: Mem, root: Frame) {
    && OnlyRoot(a, b, root) && b.data == a.data && b.own == a.own && b.free <= a.free
    && (IsRoot(a.lab, root) ==> IsRoot(b.lab, root))
    && forall p: nat :: Table0(a.tables, root, p).Some? ==> Table0(b.tables, root, p) == Table0(a.tables, root, p)
  }

  ghost predicate SameMap(a: Mem, b: Mem, root: Frame) {
    forall vpn: nat :: Flat(b.tables, root, vpn) == Flat(a.tables, root, vpn)
  }

  /** Tables may have been added to root's tree, but it stands for the same map. */
  ghost predicate Grown(a: Mem, b: Mem, root: Frame) {
    Extends(a, b, root) && SameMap(a, b, root)
  }

  /** No other address space changed. */
  lemma OthersUnchanged(a: Mem, b: Mem, root: Frame, r: Frame)
    requires Valid(a) && Valid(b) && OnlyRoot(a, b, root) && r != root && IsRoot(a.lab, r)
    ensures IsRoot(b.lab, r) && SameMap(a, b, r)
    ensures forall f :: f in a.own && Owns(a.own[f], r) ==>
              f in b.own && b.own[f] == a.own[f] && f in a.data && f in b.data && b.data[f] == a.data[f]
  {
    assert r in a.lab && a.lab[r].root == r;
    assert r in a.tables by { assert a.lab.Keys == a.tables.Keys; }
    forall vpn: nat
      ensures Flat(b.tables, r, vpn) == Flat(a.tables, r, vpn)
    {
      ForeignFlat(a, b, root, r, vpn);
    }
    ForeignFlat(a, b, root, r, 0);
    forall f | f in a.own && Owns(a.own[f], r)
      ensures f in b.own && b.own[f] == a.own[f] && f in a.data && f in b.data && b.data[f] == a.data[f]
    {
      assert f in ForeignData(a, root) && f in ForeignData(b, root);
      assert ForeignData(a, root)[f] == ForeignData(b, root)[f];
    }
  }

  lemma LinkGrown(m: Mem, t: Frame, k: nat, f: Frame, root: Frame)
    requires Valid(m) && t in m.lab && !m.lab[t].L0? && k < PTES && (m.lab[t].L2? ==> k < ROOT_USED)
    requires IsRoot(m.lab, root) && m.lab[t].root == root
    requires !m.tables[t][k].v && f in m.own
    ensures forall p: nat :: Table0(m.tables, root, p).Some? ==>
              Table0(Link(m, t, k, f).tables, root, p) == Table0(m.tables, root, p)
  {
    assert TableOk(m.tables, m.lab, t);
    forall p: nat | Table0(m.tables, root, p).Some?
      ensures Table0(Link(m, t, k, f).tables, root, p) == Table0(m.tables, root, p)
    {
      assert p * PTES / PTES == p;
      if m.lab[t].L2? {
        Grow1Flat(m.tables, m.lab, t, k, f, root, p * PTES);
      } else {
        Grow0Flat(m.tables, m.lab, t, k, f, root, p * PTES);
        if p == m.lab[t].i * PTES + k {
          Table0Label(m.tables, m.lab, root, p);
        }
      }
    }
  }

  lemma OnlyRootTrans(a: Mem, b: Mem, c: Mem, root: Frame)
    requires OnlyRoot(a, b, root) && OnlyRoot(b, c, root)
    ensures OnlyRoot(a, c, root)
  {
  }

  lemma GrownRefl(m: Mem, root: Frame)
    ensures OnlyRoot(m, m, root) && Grown(m, m, root)
  {
  }

  lemma GrownTrans(a: Mem, b: Mem, c: Mem, root: Frame)
    requires Grown(a, b, root) && Grown(b, c, root)
    ensures Grown(a, c, root)
  {
    hide OnlyRoot;
    OnlyRootTrans(a, b, c, root);
  }

  ghost function ZeroedPage(m: Mem, f: Frame, page: Page, root: Frame): Mem {
    Fill(Take(m, f, Held(root), page), f, ZeroPage())
  }

  lemma ZeroedPageValid(m: Mem, f: Frame, page: Page, root: Frame)
    requires Valid(m) && f in m.free && IsRoot(m.lab, root) && |page| == PGSIZE
    ensures var z := ZeroedPage(m, f, page, root);
            && Valid(z) && OnlyRoot(m, z, root) && f in z.own && z.own[f] == Held(root) && z.free == m.free - {f}
            && z.tables == m.tables && z.lab == m.lab && f !in m.data && f !in m.own
  {
    TakeValid(m, f, Held(root), page);
    var a := Take(m, f, Held(root), page);
    FillValid(a, f, ZeroPage(), root);
    OnlyRootTrans(m, a, Fill(a, f, ZeroPage()), root);
  }

  /** A page becomes a table: taken from the pool, zeroed, and linked. */
  lemma NewTableGrown(m: Mem, t: Frame, k: nat, f: Frame, page: Page, root: Frame)
    requires Valid(m) && t in m.lab && !m.lab[t].L0? && k < PTES && (m.lab[t].L2? ==> k < ROOT_USED)
    requires IsRoot(m.lab, root) && m.lab[t].root == root && !m.tables[t][k].v
    requires f in m.free && |page| == PGSIZE
    ensures var b := Link(ZeroedPage(m, f, page, root), t, k, f);
            Valid(b) && Grown(m, b, root)
  {
    ZeroedPageValid(m, f, page, root);
    var z := ZeroedPage(m, f, page, root);
    LinkedPage(m, z, t, k, f, root);
  }

  lemma LinkedPage(m: Mem, z: Mem, t: Frame, k: nat, f: Frame, root: Frame)
    requires Valid(z) && t in z.lab && !z.lab[t].L0? && k < PTES && (z.lab[t].L2? ==> k < ROOT_USED)
    requires IsRoot(z.lab, root) && z.lab[t].root == root && !z.tables[t][k].v
    requires f in z.own && z.own[f] == Held(root) && f !in m.data
    requires z.tables == m.tables && z.lab == m.lab && z.data - {f} == m.data && z.own - {f} == m.own
    requires z.free <= m.free && OnlyRoot(m, z, root)
    ensures var b := Link(z, t, k, f); Valid(b) && Grown(m, b, root)
  {
    hide OnlyRoot;
    var b := Link(z, t, k, f);
    forall vpn: nat
      ensures Flat(b.tables, root, vpn) == Flat(m.tables, root, vpn)
    {
      LinkFlat(z, t, k, f, root, vpn);
    }
    LinkValid(z, t, k, f);
    LinkOnly(z, t, k, f);
    LinkGrown(z, t, k, f, root);
    OnlyRootTrans(m, z, b, root);
  }

  // ---------------------------------------------------------------- walk

  /** The level-0 table with the place for a page's entry, if the tree has grown that far. */
  ghost function TableFor(tables: Tables, root: Frame, vpn: nat): Option<Frame> {
    Table0(tables, root, vpn / PTES)
  }

  /** The place of an entry: a table and an index. */
  datatype Slot = Slot(table: Frame, index: nat)

  /** s is the place of the page's entry in root's tree. */
  ghost predicate SlotOf(m: Mem, root: Frame, vpn: nat, s: Slot) {
    && TableFor(m.tables, root, vpn) == Some(s.table) && s.index == vpn % PTES
    && s.table in m.lab && m.lab[s.table] == L0(root, vpn / PTES)
  }

  /** t is root's table at a level on the way to the pages with address bits p. */
  ghost predicate OnPath(m: Mem, root: Frame, p: nat, level: nat, t: Frame) {
    && t in m.tables && t in m.lab && |m.tables[t]| == PTES
    && (level >= 2 ==> t == root && m.lab[t] == L2(root))
    && (level == 1 ==> Table1(m.tables, root, p / PTES) == Some(t) && m.lab[t] == L1(root, p / PTES))
    && (level == 0 ==> Table0(m.tables, root, p) == Some(t) && m.lab[t] == L0(root, p))
  }

  lemma Descend(m: Mem, root: Frame, va: nat, level: nat, t: Frame)
    requires Valid(m) && IsRoot(m.lab, root) && va < MAXVA && 1 <= level <= 2
    requires OnPath(m, root, Vpn(va) / PTES, level, t)
    ensures m.tables[t][Px(level, va)].v ==>
              OnPath(m, root, Vpn(va) / PTES, level - 1, m.tables[t][Px(level, va)].ppn)
    ensures !m.tables[t][Px(level, va)].v ==> Table0(m.tables, root, Vpn(va) / PTES).None?
  {
    PxOfPage(va);
    var p := Vpn(va) / PTES;
    assert TableOk(m.tables, m.lab, t);
    if m.tables[t][Px(level, va)].v {
      if level == 2 {
        Table1Label(m.tables, m.lab, root, p / PTES);
      } else {
        Table0Label(m.tables, m.lab, root, p);
      }
    }
  }

  lemma DescendNew(m: Mem, z: Mem, root: Frame, va: nat, level: nat, t: Frame, f: Frame)
    requires Valid(m) && IsRoot(m.lab, root) && va < MAXVA && 1 <= level <= 2
    requires OnPath(m, root, Vpn(va) / PTES, level, t)
    requires f !in m.tables && z.tables == m.tables && z.lab == m.lab
    ensures OnPath(Link(z, t, Px(level, va), f), root, Vpn(va) / PTES, level - 1, f)
  {
    PxOfPage(va);
    var p := Vpn(va) / PTES;
    if level == 1 {
      Table1Label(m.tables, m.lab, root, p / PTES);
      assert p / PTES * PTES + p % PTES == p;
    }
  }

  /** Everything that happens when walk adds a table: where the frame comes from and what it serves as afterwards. */
  lemma TableAdded(m: Mem, root: Frame, va: nat, level: nat, t: Frame, f: Frame, was: Page)
    requires Valid(m) && IsRoot(m.lab, root) && va < MAXVA && 1 <= level <= 2
    requires OnPath(m, root, Vpn(va) / PTES, level, t) && !m.tables[t][Px(level, va)].v
    requires f in m.free && |was| == PGSIZE
    ensures !m.lab[t].L0?
    ensures var z := ZeroedPage(m, f, was, root);
            var b := Link(z, t, Px(level, va), f);
            && Valid(b) && IsRoot(b.lab, root) && Grown(m, b, root) && OnPath(b, root, Vpn(va) / PTES, level - 1, f)
  {
    hide OnlyRoot, Grown, Flat, Table0, Table1;
    PxOfPage(va);
    ZeroedPageValid(m, f, was, root);
    PathTable(m, root, Vpn(va) / PTES, level, t);
    NewTableGrown(m, t, Px(level, va), f, was, root);
    DescendNew(m, ZeroedPage(m, f, was, root), root, va, level, t, f);
  }

  lemma PathTable(m: Mem, root: Frame, p: nat, level: nat, t: Frame)
    requires Valid(m) && IsRoot(m.lab, root) && OnPath(m, root, p, level, t) && level <= 2
    ensures t in m.tables && |m.tables[t]| == PTES && t in m.lab && m.lab[t].root == root
    ensures level >= 1 ==> !m.lab[t].L0? && (m.lab[t].L2? ==> level == 2)
    ensures t !in m.free
  {
  }

  lemma PathEnds(m: Mem, root: Frame, va: nat, t: Frame)
    requires va < MAXVA && OnPath(m, root, Vpn(va) / PTES, 0, t)
    ensures SlotOf(m, root, Vpn(va), Slot(t, Px(0, va))) && t in m.tables && Px(0, va) < |m.tables[t]|
    ensures m.tables[t][Px(0, va)] == Flat(m.tables, root, Vpn(va))
  {
    PxOfPage(va);
  }

  lemma PathStarts(m: Mem, root: Frame, p: nat)
    requires Valid(m) && IsRoot(m.lab, root)
    ensures OnPath(m, root, p, 2, root)
  {
  }

  /** The entry for va's page in the level-0 table, or None. */
  method Walk(k: Kmem, root: Frame, va: nat, alloc: bool) returns (pte: Option<Slot>)
    requires Valid(k.View()) && IsRoot(k.lab, root)
    requires va < MAXVA
    modifies k
    ensures Valid(k.View()) && Grown(old(k.View()), k.View(), root)
    ensures !alloc ==> k.View() == old(k.View())
    ensures k.refusals == old(k.refusals) + if alloc && pte.None? then 1 else 0
    ensures pte.Some? <==> TableFor(k.tables, root, Vpn(va)).Some?
    ensures pte.Some? ==>
              && SlotOf(k.View(), root, Vpn(va), pte.value) && pte.value.table in k.tables
              && pte.value.index < |k.tables[pte.value.table]|
              && k.tables[pte.value.table][pte.value.index] == Flat(k.tables, root, Vpn(va))
  {
    hide Valid, Grown, OnPath, SlotOf, Flat, Table0, TableFor, Vpn, Px;
    ghost var p := Vpn(va) / PTES;
    var pagetable, level := root, 2;
    PathStarts(k.View(), root, p);
    GrownRefl(k.View(), root);
    while level > 0
      invariant 0 <= level <= 2
      invariant Valid(k.View()) && Grown(old(k.View()), k.View(), root) && IsRoot(k.lab, root)
      invariant !alloc ==> k.View() == old(k.View())
      invariant k.refusals == old(k.refusals)
      invariant OnPath(k.View(), root, p, level, pagetable)
    {
      ghost var m := k.View();
      var i := Px(level, va);
      PathTable(m, root, p, level, pagetable);
      Descend(m, root, va, level, pagetable);
      if k.tables[pagetable][i].v {
        pagetable := k.tables[pagetable][i].ppn;
      } else {
        if !alloc {
          NoTable(m, root, Vpn(va));
          return None;
        }
        var page := k.Kalloc(Held(root));
        if page == 0 {
          NoTable(m, root, Vpn(va));
          return None;
        }
        ghost var was :| |was| == PGSIZE && k.View() == Take(m, page, Held(root), was);
        TableAdded(m, root, va, level, pagetable, page, was);
        k.Memset(page);
        k.StorePointer(pagetable, i, page);
        GrownTrans(old(k.View()), m, k.View(), root);
        pagetable := page;
      }
      level := level - 1;
    }
    PathEnds(k.View(), root, va, pagetable);
    SlotTable(k.View(), root, Vpn(va), Slot(pagetable, Px(0, va)));
    return Some(Slot(pagetable, Px(0, va)));
  }

  lemma NoTable(m: Mem, root: Frame, vpn: nat)
    ensures TableFor(m.tables, root, vpn) == Table0(m.tables, root, vpn / PTES)
  {
  }

  lemma SlotTable(m: Mem, root: Frame, vpn: nat, s: Slot)
    requires SlotOf(m, root, vpn, s)
    ensures TableFor(m.tables, root, vpn).Some?
  {
  }

  /** The address of the frame a user access to va may touch, or 0. */
  method Walkaddr(k: Kmem, root: Frame, va: nat) returns (pa: nat)
    requires Valid(k.View()) && IsRoot(k.lab, root)
    modifies k
    ensures k.View() == old(k.View()) && k.refusals == old(k.refusals)
    ensures pa == if va < MAXVA && Flat(k.tables, root, Vpn(va)).v && Flat(k.tables, root, Vpn(va)).u
                  then Flat(k.tables, root, Vpn(va)).ppn * PGSIZE else 0
  {
    if va >= MAXVA {
      return 0;
    }
    var pte := Walk(k, root, va, false);
    if pte.None? {
      return 0;
    }
    var e := k.tables[pte.value.table][pte.value.index];
    if !e.v {
      return 0;
    }
    if !e.u {
      return 0;
    }
    return e.ppn * PGSIZE;
  }

  // ---------------------------------------------------------------- mappages

  datatype Perm = Perm(r: bool, w: bool, x: bool, u: bool)

  function Entry(perm: Perm, f: Frame): Pte {
    Pte(true, perm.r, perm.w, perm.x, perm.u, f)
  }

  predicate Grants(perm: Perm) {
    perm.r || perm.w || perm.x
  }

  /** The map of b is the map of a with n pages from first on sent to consecutive frames from f on. */
  ghost predicate Mapped(a: Mem, b: Mem, root: Frame, first: nat, n: nat, f: Frame, perm: Perm) {
    forall vpn: nat ::
      Flat(b.tables, root, vpn) ==
      if first <= vpn < first + n then Entry(perm, f + (vpn - first)) else Flat(a.tables, root, vpn)
  }

  lemma NoOwnerOfInvalid(m: Mem, root: Frame, vpn: nat)
    requires Valid(m) && !Flat(m.tables, root, vpn).v
    ensures forall f :: f in m.own ==> m.own[f] != User(root, vpn)
  {
    forall f | f in m.own
      ensures m.own[f] != User(root, vpn)
    {
      assert MappedWhereItSays(m, f);
    }
  }

  /** Overwriting the entry of one page that backs no user frame, or keeping its frame. */
  lemma StoreEffect(m: Mem, root: Frame, vpn: nat, s: Slot, e: Pte)
    requires Valid(m) && SlotOf(m, root, vpn, s) && (e == ZERO || Leaf(e))
    requires || (e.v && e.ppn == Flat(m.tables, root, vpn).ppn)
             || forall f :: f in m.own ==> m.own[f] != User(root, vpn)
    ensures s.table in m.tables && s.index < |m.tables[s.table]| && IsRoot(m.lab, root)
    ensures var b := SetPte(m, s.table, s.index, e);
            && Valid(b) && Extends(m, b, root)
            && forall v: nat :: Flat(b.tables, root, v) == if v == vpn then e else Flat(m.tables, root, v)
  {
    hide OnlyRoot;
    var t := s.table;
    LabelTable0(m.tables, m.lab, t);
    SetPteValid(m, t, vpn % PTES, e) by { assert vpn / PTES * PTES + vpn % PTES == vpn; }
    SetPteOnly(m, t, vpn % PTES, e);
    var b := SetPte(m, t, vpn % PTES, e);
    forall v: nat
      ensures Flat(b.tables, root, v) == if v == vpn then e else Flat(m.tables, root, v)
    {
      SetLeafFlat(m.tables, m.lab, t, vpn % PTES, e, root, v);
    }
    forall p: nat
      ensures Table0(b.tables, root, p) == Table0(m.tables, root, p)
    {
      assert p * PTES / PTES == p;
      SetLeafFlat(m.tables, m.lab, t, vpn % PTES, e, root, p * PTES);
    }
  }

  lemma ExtendsTrans(a: Mem, b: Mem, c: Mem, root: Frame)
    requires Extends(a, b, root) && Extends(b, c, root)
    ensures Extends(a, c, root)
  {
    hide OnlyRoot;
    OnlyRootTrans(a, b, c, root);
  }

  lemma NothingMapped(m: Mem, root: Frame, first: nat, f: Frame, perm: Perm)
    ensures Extends(m, m, root) && Mapped(m, m, root, first, 0, f, perm)
  {
  }

  /** When walk finds no table for a page, there was none before either. */
  lemma StuckAt(m0: Mem, m: Mem, m1: Mem, root: Frame, first: nat, n: nat, f: Frame, perm: Perm)
    requires Extends(m0, m, root) && Grown(m, m1, root) && Mapped(m0, m, root, first, n, f, perm)
    requires TableFor(m1.tables, root, first + n).None?
    ensures Extends(m0, m1, root) && Mapped(m0, m1, root, first, n, f, perm)
    ensures TableFor(m0.tables, root, first + n).None?
  {
    hide OnlyRoot;
    ExtendsTrans(m0, m, m1, root);
  }

  lemma MapPage(m0: Mem, m: Mem, m1: Mem, root: Frame, first: nat, n: nat, f: Frame, perm: Perm, s: Slot)
    requires Valid(m1) && Extends(m0, m, root) && Grown(m, m1, root) && Mapped(m0, m, root, first, n, f, perm)
    requires SlotOf(m1, root, first + n, s) && Grants(perm)
    requires !Flat(m0.tables, root, first + n).v
    ensures s.table in m1.tables && s.index < |m1.tables[s.table]|
    ensures var b := SetPte(m1, s.table, s.index, Entry(perm, f + n));
            Valid(b) && IsRoot(b.lab, root) && Extends(m0, b, root) && Mapped(m0, b, root, first, n + 1, f, perm)
  {
    hide OnlyRoot, Valid, SlotOf;
    var vpn := first + n;
    assert !Flat(m1.tables, root, vpn).v;
    NoOwnerOfInvalid(m1, root, vpn);
    StoreEffect(m1, root, vpn, s, Entry(perm, f + n));
    ExtendsTrans(m0, m, m1, root);
    ExtendsTrans(m0, m1, SetPte(m1, s.table, s.index, Entry(perm, f + n)), root);
  }

  /** Each of the n pages has the permissions asked for and the next frame. */
  lemma MappedBits(a: Mem, b: Mem, root: Frame, first: nat, n: nat, f: Frame, perm: Perm)
    requires Mapped(a, b, root, first, n, f, perm)
    ensures forall vpn: nat :: first <= vpn < first + n ==>
              var e := Flat(b.tables, root, vpn);
              && e.v && e.r == perm.r && e.w == perm.w && e.x == perm.x && e.u == perm.u && e.ppn == f + (vpn - first)
  {
    hide Flat;
  }

  /** Maps the pages of [va, va+size) to the frames from pa on. On failure, because a table was missing and could not
      be allocated, the first n pages stay mapped: nothing is rolled back. */
  method Mappages(k: Kmem, root: Frame, va: nat, size: nat, pa: nat, perm: Perm) returns (r: int, ghost n: nat)
    requires Valid(k.View()) && IsRoot(k.lab, root)
    requires size > 0 && va + size <= MAXVA && Grants(perm)
    requires forall vpn: nat :: Vpn(va) <= vpn <= Vpn(va + size - 1) ==> !Flat(k.tables, root, vpn).v
    modifies k
    ensures Valid(k.View()) && Extends(old(k.View()), k.View(), root)
    ensures Mapped(old(k.View()), k.View(), root, Vpn(va), n, Vpn(pa), perm)
    ensures forall vpn: nat :: Vpn(va) <= vpn < Vpn(va) + n ==>
              var e := Flat(k.tables, root, vpn);
              && e.v && e.r == perm.r && e.w == perm.w && e.x == perm.x && e.u == perm.u
              && e.ppn == Vpn(pa) + (vpn - Vpn(va))
    ensures r == 0 || r == -1
    ensures k.refusals == old(k.refusals) + if r == 0 then 0 else 1
    ensures r == 0 ==> n == Vpn(va + size - 1) - Vpn(va) + 1
    ensures r == -1 ==> Vpn(va) + n <= Vpn(va + size - 1)
    ensures r == -1 ==> TableFor(old(k.tables), root, Vpn(va) + n).None?
  {
    hide OnlyRoot, Valid, Extends, Mapped, Flat, Table0, TableFor, SlotOf, Vpn, PgRoundDown, Addr;
    var a, last, p := PgRoundDown(va), PgRoundDown(va + size - 1), pa;
    ghost var page, lastPage, m0 := Vpn(va), Vpn(va + size - 1), k.View();
    n := 0;
    AddrFacts(0, va);
    AddrFacts(0, va + size - 1);
    VpnOrder(va, va + size - 1);
    NothingMapped(m0, root, page, Vpn(pa), perm);
    while true
      invariant a == Addr(page) && page == Vpn(va) + n && page <= lastPage && p == pa + Addr(n)
      invariant Valid(k.View()) && IsRoot(k.lab, root) && Extends(m0, k.View(), root)
      invariant Mapped(m0, k.View(), root, Vpn(va), n, Vpn(pa), perm) && k.refusals == old(k.refusals)
      decreases lastPage - page
    {
      ghost var m := k.View();
      AddrFacts(n, pa);
      AddrFacts(page, 0);
      AddrOrder(page, lastPage);
      var pte := Walk(k, root, a, true);
      if pte.None? {
        StuckAt(m0, m, k.View(), root, Vpn(va), n, Vpn(pa), perm);
        MappedBits(m0, k.View(), root, Vpn(va), n, Vpn(pa), perm);
        return -1, n;
      }
      MapPage(m0, m, k.View(), root, Vpn(va), n, Vpn(pa), perm, pte.value);
      k.StoreLeaf(pte.value.table, pte.value.index, Entry(perm, Vpn(p)));
      n, page := n + 1, page + 1;
      if a == last {
        break;
      }
      a := a + PGSIZE;
      p := p + PGSIZE;
    }
    MappedBits(m0, k.View(), root, Vpn(va), n, Vpn(pa), perm);
    r := 0;
  }

  // ---------------------------------------------------------------- uvmunmap

  /** n pages from first on are mapped, each to a data frame of its own. */
  ghost predicate UserPages(m: Mem, root: Frame, first: nat, n: nat) {
    forall vpn: nat :: first <= vpn < first + n ==>
      && Flat(m.tables, root, vpn).v && Flat(m.tables, root, vpn).ppn in m.own
      && m.own[Flat(m.tables, root, vpn).ppn] == User(root, vpn)
  }

  ghost function FramesOf(m: Mem, root: Frame, first: nat, n: nat): set<Frame> {
    set vpn: nat | first <= vpn < first + n :: Flat(m.tables, root, vpn).ppn
  }

  /** The map of b is the map of a without n pages from first on. */
  ghost predicate Unmapped(a: Mem, b: Mem, root: Frame, first: nat, n: nat) {
    forall vpn: nat ::
      Flat(b.tables, root, vpn) == if first <= vpn < first + n then ZERO else Flat(a.tables, root, vpn)
  }

  /** b is a with some data frames given back, and the same tables in the same places. */
  ghost predicate Gives(a: Mem, b: Mem, root: Frame, gone: set<Frame>) {
    && OnlyRoot(a, b, root) && b.lab == a.lab
    && b.free == a.free + gone && b.data == a.data - gone && b.own == a.own - gone
  }

  lemma GivesTrans(a: Mem, b: Mem, c: Mem, root: Frame, x: set<Frame>, y: set<Frame>)
    requires Gives(a, b, root, x) && Gives(b, c, root, y)
    ensures Gives(a, c, root, x + y)
  {
    hide OnlyRoot;
    OnlyRootTrans(a, b, c, root);
    assert a.data - x - y == a.data - (x + y);
    assert a.own - x - y == a.own - (x + y);
  }

  lemma FramesOfNext(m: Mem, root: Frame, first: nat, n: nat)
    ensures FramesOf(m, root, first, n + 1) == FramesOf(m, root, first, n) + {Flat(m.tables, root, first + n).ppn}
  {
    assert Flat(m.tables, root, first + n).ppn in FramesOf(m, root, first, n + 1);
  }

  /** Clearing an entry that backs no user frame (any more). */
  lemma ClearPage(m: Mem, root: Frame, vpn: nat, s: Slot)
    requires Valid(m) && SlotOf(m, root, vpn, s)
    requires forall f :: f in m.own ==> m.own[f] != User(root, vpn)
    ensures s.table in m.tables && s.index < |m.tables[s.table]| && IsRoot(m.lab, root)
    ensures var b := SetPte(m, s.table, s.index, ZERO);
            Valid(b) && Gives(m, b, root, {}) && Unmapped(m, b, root, vpn, 1)
  {
    StoreEffect(m, root, vpn, s, ZERO);
  }

  /** Freeing the frame of a user page and clearing its entry. */
  lemma FreePage(m: Mem, root: Frame, vpn: nat, s: Slot)
    requires Valid(m) && SlotOf(m, root, vpn, s) && UserPages(m, root, vpn, 1)
    ensures s.table in m.tables && s.index < |m.tables[s.table]| && IsRoot(m.lab, root)
    ensures var f := Flat(m.tables, root, vpn).ppn;
            var b := SetPte(Give(m, f), s.table, s.index, ZERO);
            f in m.data && Valid(b) && Gives(m, b, root, {f}) && Unmapped(m, b, root, vpn, 1)
  {
    hide OnlyRoot;
    var f := Flat(m.tables, root, vpn).ppn;
    var g := Give(m, f);
    GiveValid(m, f, root);
    forall h | h in g.own
      ensures g.own[h] != User(root, vpn)
    {
      assert MappedWhereItSays(m, h);
    }
    ClearPage(g, root, vpn, s);
    GivesTrans(m, g, SetPte(g, s.table, s.index, ZERO), root, {f}, {});
    assert {f} + {} == {f};
  }

  ghost function Gone(m: Mem, root: Frame, first: nat, n: nat, doFree: bool): set<Frame> {
    if doFree then FramesOf(m, root, first, n) else {}
  }

  ghost predicate MayUnmap(m: Mem, root: Frame, first: nat, n: nat, doFree: bool) {
    && (forall vpn: nat :: first <= vpn < first + n ==> Flat(m.tables, root, vpn).v)
    && (doFree ==> UserPages(m, root, first, n))
    && (!doFree ==> forall f, vpn: nat :: f in m.own && first <= vpn < first + n ==> m.own[f] != User(root, vpn))
  }

  lemma UnmapPage(m0: Mem, m: Mem, root: Frame, first: nat, n: nat, npages: nat, doFree: bool, s: Slot)
    requires Valid(m) && MayUnmap(m0, root, first, npages, doFree) && n < npages
    requires Unmapped(m0, m, root, first, n) && Gives(m0, m, root, Gone(m0, root, first, n, doFree))
    requires SlotOf(m, root, first + n, s)
    ensures s.table in m.tables && s.index < |m.tables[s.table]| && IsRoot(m.lab, root)
    ensures doFree ==> Flat(m.tables, root, first + n).ppn in m.data
    ensures var g := if doFree then Give(m, Flat(m.tables, root, first + n).ppn) else m;
            var b := SetPte(g, s.table, s.index, ZERO);
            && Valid(b) && Unmapped(m0, b, root, first, n + 1)
            && Gives(m0, b, root, Gone(m0, root, first, n + 1, doFree))
  {
    hide OnlyRoot, Valid, SlotOf;
    var vpn := first + n;
    var f := Flat(m.tables, root, vpn).ppn;
    if doFree {
      StillUser(m0, m, root, first, n, npages);
      FreePage(m, root, vpn, s);
      UnmappedNext(m0, m, SetPte(Give(m, f), s.table, s.index, ZERO), root, first, n, FramesOf(m0, root, first, n), {f});
      FramesOfNext(m0, root, first, n);
    } else {
      ClearPage(m, root, vpn, s);
      UnmappedNext(m0, m, SetPte(m, s.table, s.index, ZERO), root, first, n, {}, {});
      assert {} + {} == Gone(m0, root, first, n + 1, doFree);
    }
  }

  lemma UnmappedNext(a: Mem, b: Mem, c: Mem, root: Frame, first: nat, n: nat, x: set<Frame>, y: set<Frame>)
    requires Unmapped(a, b, root, first, n) && Gives(a, b, root, x)
    requires Unmapped(b, c, root, first + n, 1) && Gives(b, c, root, y)
    ensures Unmapped(a, c, root, first, n + 1) && Gives(a, c, root, x + y)
  {
    hide OnlyRoot, Flat;
    GivesTrans(a, b, c, root, x, y);
  }

  /** The pages not yet reached still own their frames: no two pages share one. */
  lemma StillUser(m0: Mem, m: Mem, root: Frame, first: nat, n: nat, npages: nat)
    requires UserPages(m0, root, first, npages) && n < npages
    requires Unmapped(m0, m, root, first, n) && m.own == m0.own - FramesOf(m0, root, first, n)
    ensures UserPages(m, root, first + n, 1)
  {
    var f := Flat(m0.tables, root, first + n).ppn;
    forall vpn: nat | first <= vpn < first + n
      ensures Flat(m0.tables, root, vpn).ppn != f
    {
      assert m0.own[Flat(m0.tables, root, vpn).ppn] == User(root, vpn);
    }
    assert f !in FramesOf(m0, root, first, n);
  }

  lemma NothingUnmapped(m: Mem, root: Frame, first: nat, doFree: bool)
    ensures Unmapped(m, m, root, first, 0) && Gives(m, m, root, Gone(m, root, first, 0, doFree))
  {
    assert FramesOf(m, root, first, 0) == {};
  }

  /** The page reached next is mapped, by a leaf below MAXVA. */
  lemma StillMapped(m0: Mem, m: Mem, root: Frame, first: nat, n: nat, npages: nat, doFree: bool)
    requires Valid(m) && MayUnmap(m0, root, first, npages, doFree) && n < npages && Unmapped(m0, m, root, first, n)
    requires IsRoot(m.lab, root)
    ensures Leaf(Flat(m.tables, root, first + n)) && first + n < MAXVPN
    ensures TableFor(m.tables, root, first + n).Some?
  {
    FlatIsLeaf(m.tables, m.lab, root, first + n);
  }

  /** Removes npages mappings, giving back their frames when asked to. */
  method Uvmunmap(k: Kmem, root: Frame, va: nat, npages: nat, doFree: bool)
    requires Valid(k.View()) && IsRoot(k.lab, root) && va % PGSIZE == 0
    requires MayUnmap(k.View(), root, Vpn(va), npages, doFree)
    modifies k
    ensures Valid(k.View()) && Unmapped(old(k.View()), k.View(), root, Vpn(va), npages) && k.refusals == old(k.refusals)
    ensures Gives(old(k.View()), k.View(), root, Gone(old(k.View()), root, Vpn(va), npages, doFree))
  {
    hide OnlyRoot, Valid, Gives, Unmapped, Flat, Table0, TableFor, SlotOf, Vpn, PgRoundDown, Addr;
    var a := va;
    ghost var n, m0 := 0, k.View();
    AddrFacts(0, va);
    AddrOrder(Vpn(va), npages);
    NothingUnmapped(m0, root, Vpn(va), doFree);
    AddrOrder(Vpn(va), Vpn(va) + npages);
    while a < va + npages * PGSIZE
      invariant a == Addr(Vpn(va) + n) && n <= npages
      invariant a < va + npages * PGSIZE <==> n < npages
      invariant Valid(k.View()) && IsRoot(k.lab, root) && Unmapped(m0, k.View(), root, Vpn(va), n)
      invariant Gives(m0, k.View(), root, Gone(m0, root, Vpn(va), n, doFree)) && k.refusals == old(k.refusals)
    {
      ghost var m := k.View();
      AddrFacts(Vpn(va) + n, 0);
      StillMapped(m0, m, root, Vpn(va), n, npages, doFree);
      var pte := Walk(k, root, a, false);
      assert pte.Some? && Leaf(k.tables[pte.value.table][pte.value.index]);
      UnmapPage(m0, m, root, Vpn(va), n, npages, doFree, pte.value);
      if doFree {
        var f := k.tables[pte.value.table][pte.value.index].ppn;
        k.Kfree(f);
      }
      k.StoreLeaf(pte.value.table, pte.value.index, ZERO);
      a := a + PGSIZE;
      n := n + 1;
      AddrOrder(Vpn(va) + n, Vpn(va) + npages);
    }
  }
}
