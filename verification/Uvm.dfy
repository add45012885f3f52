/** User address spaces (`vm.c`): creating, growing, shrinking, copying and freeing them, with every frame accounted
    for on success and on every failure. */
module Uvm {
  import opened PageTable
  import opened Memory
  import opened Paging

  /** The pages below the three special ones (TRAMPOLINE, TRAPFRAME and USYSCALL, from the top down). */
  const USER_TOP: nat := MAXVPN - 3

  const USER_READ := Perm(true, false, false, true)

  function Or(p: Perm, q: Perm): Perm {
    Perm(p.r || q.r, p.w || q.w, p.x || q.x, p.u || q.u)
  }

  // ---------------------------------------------------------------- uvmcreate

  method Uvmcreate(k: Kmem) returns (pagetable: Frame)
    requires Valid(k.View())
    modifies k
    ensures Valid(k.View()) && k.refusals == old(k.refusals) + if pagetable == 0 then 1 else 0
    ensures pagetable == 0 ==> k.View() == old(k.View())
    ensures pagetable != 0 ==>
              && pagetable in old(k.free) && !IsRoot(old(k.lab), pagetable) && IsRoot(k.lab, pagetable)
              && Created(old(k.View()), k.View(), pagetable)
  {
    hide Valid, Tree, Frames, OnlyRoot;
    ghost var m := k.View();
    var page := k.Kalloc(Kernel);
    if page == 0 {
      return 0;
    }
    ghost var was :| |was| == PGSIZE && k.View() == Take(m, page, Kernel, was);
    k.Memset(page);
    CreatedRoot(m, page, was);
    k.UseAsRoot(page);
    return page;
  }

  /** root is a new, empty address space made of one frame from the pool. */
  ghost predicate Created(a: Mem, b: Mem, root: Frame) {
    && OnlyRoot(a, b, root) && Owned(b, root) == {root} && b.free == a.free - {root}
    && b.data == a.data && b.own == a.own
    && forall vpn: nat :: Flat(b.tables, root, vpn) == ZERO
  }

  lemma CreatedRoot(m: Mem, f: Frame, was: Page)
    requires Valid(m) && f in m.free && |was| == PGSIZE
    ensures !IsRoot(m.lab, f)
    ensures var b := Plant(Fill(Take(m, f, Kernel, was), f, ZeroPage()), f);
            Valid(b) && IsRoot(b.lab, f) && Created(m, b, f)
  {
    hide Flat, Tree;
    var a := Take(m, f, Kernel, was);
    var z := Fill(a, f, ZeroPage());
    var b := Plant(z, f);
    NotYetRoot(m, f);
    TakeValid(m, f, Kernel, was);
    FillValid(a, f, ZeroPage(), f);
    PlantValid(z, f);
    forall vpn: nat
      ensures Flat(b.tables, f, vpn) == ZERO
    {
      NotATable(z, f);
      PlantFlat(z, f, f, vpn);
    }
    CreatedOnly(m, f, was);
  }

  lemma NotATable(m: Mem, f: Frame)
    requires Valid(m) && f in m.data
    ensures f !in m.tables && Tree(m.tables, m.lab)
  {
  }

  lemma NotYetRoot(m: Mem, f: Frame)
    requires Valid(m) && f in m.free
    ensures !IsRoot(m.lab, f) && f !in m.lab && f !in m.own && Owned(m, f) == {}
  {
    OwnedNone(m, f);
  }

  lemma CreatedOnly(m: Mem, f: Frame, was: Page)
    requires Valid(m) && f in m.free && f !in m.lab && f !in m.own && Owned(m, f) == {}
    ensures var b := Plant(Fill(Take(m, f, Kernel, was), f, ZeroPage()), f);
            OnlyRoot(m, b, f) && Owned(b, f) == {f} && b.data == m.data && b.own == m.own
  {
    hide Valid;
    var b := Plant(Fill(Take(m, f, Kernel, was), f, ZeroPage()), f);
    assert f !in m.data by { NotFree(m, f); }
    assert b.data == m.data;
    assert b.own == m.own;
    assert Owned(b, f) == Owned(m, f) + {f};
    assert ForeignTables(m, f) == ForeignTables(b, f);
  }

  lemma NotFree(m: Mem, f: Frame)
    requires Valid(m) && f in m.free
    ensures f !in m.data && f !in m.own && f !in m.tables && f !in m.lab
  {
  }

  // ---------------------------------------------------------------- freewalk

  predicate Beneath(l: Label, above: Label) {
    && l.root == above.root
    && (above.L1? ==> l == above || (l.L0? && l.p / PTES == above.i))
    && (above.L0? ==> l == above)
  }

  /** The tables of the subtree under table t. */
  ghost function Under(lab: Labels, t: Frame): set<Frame>
    requires t in lab
  {
    set f | f in lab && Beneath(lab[f], lab[t])
  }

  ghost predicate NoLeaves(m: Mem, t: Frame)
    requires t in m.lab
  {
    forall f, i :: f in m.lab && f in m.tables && Beneath(m.lab[f], m.lab[t]) && m.lab[f].L0? && 0 <= i < |m.tables[f]|
      ==> !m.tables[f][i].v
  }

  function Height(l: Label): nat {
    match l
    case L2(_) => 2
    case L1(_, _) => 1
    case L0(_, _) => 0
  }

  /** b is a without some tables, which went to the pool. */
  ghost predicate Freed(a: Mem, b: Mem, gone: set<Frame>) {
    && b.tables == a.tables - gone && b.lab == a.lab - gone && b.free == a.free + gone
    && b.data == a.data && b.own == a.own
  }

  /** b is a without some tables under t, whose first i entries are clear. */
  ghost predicate Pruned(a: Mem, b: Mem, t: Frame, i: nat)
    requires t in a.lab
  {
    && Tree(b.tables, b.lab) && Frames(b) && t in b.lab && b.lab[t] == a.lab[t] && NoLeaves(b, t)
    && (forall f :: f in b.lab ==> f in a.lab && b.lab[f] == a.lab[f])
    && (forall f :: f in b.lab && f != t ==> f in a.tables && b.tables[f] == a.tables[f])
    && (forall f :: f in a.lab && !Beneath(a.lab[f], a.lab[t]) ==> f in b.lab)
    && (forall j :: 0 <= j < i && j < |b.tables[t]| ==> !b.tables[t][j].v)
    && b.free == a.free + (a.lab.Keys - b.lab.Keys) && b.data == a.data && b.own == a.own
  }

  /** The subtree under entry i of t is cut off. */
  ghost function Cut(m: Mem, t: Frame, i: nat, child: Frame): Mem
    requires t in m.tables && i < |m.tables[t]| && child in m.lab
  {
    var gone := Under(m.lab, child);
    m.(tables := (m.tables - gone)[t := m.tables[t][i := ZERO]], lab := m.lab - gone, free := m.free + gone)
  }

  lemma CutTable(m: Mem, t: Frame, i: nat, g: Frame)
    requires Sized(m.tables) && t in m.tables && t in m.lab && i < PTES && m.tables[t][i].v && !m.lab[t].L0?
    requires g in m.tables && g in m.lab && TableOk(m.tables, m.lab, g) && TableOk(m.tables, m.lab, t)
    requires m.tables[t][i].ppn in m.lab && m.lab[m.tables[t][i].ppn] == Below(m.lab[t], i)
    requires !Beneath(m.lab[g], Below(m.lab[t], i))
    ensures var b := Cut(m, t, i, m.tables[t][i].ppn);
            Sized(b.tables) && g in b.tables && g in b.lab && TableOk(b.tables, b.lab, g)
  {
  }

  lemma CutTree(m: Mem, t: Frame, i: nat)
    requires Tree(m.tables, m.lab) && t in m.lab && i < PTES && m.tables[t][i].v && !m.lab[t].L0?
    requires m.tables[t][i].ppn in m.lab && m.lab[m.tables[t][i].ppn] == Below(m.lab[t], i)
    ensures var b := Cut(m, t, i, m.tables[t][i].ppn); Tree(b.tables, b.lab)
  {
    var b := Cut(m, t, i, m.tables[t][i].ppn);
    assert !Beneath(m.lab[t], Below(m.lab[t], i));
    assert TableOk(m.tables, m.lab, t);
    forall g | g in b.tables
      ensures TableOk(b.tables, b.lab, g)
    {
      assert TableOk(m.tables, m.lab, g);
      CutTable(m, t, i, g);
    }
  }

  /** One more entry of t is done: the subtree under it is gone, if there was one. */
  lemma PrunedNext(a: Mem, m: Mem, t: Frame, i: nat)
    requires t in a.lab && i < PTES && Pruned(a, m, t, i) && m.tables[t][i].v && !m.lab[t].L0?
    requires m.tables[t][i].ppn in m.lab && m.lab[m.tables[t][i].ppn] == Below(m.lab[t], i)
    ensures Pruned(a, Cut(m, t, i, m.tables[t][i].ppn), t, i + 1)
  {
    hide TableOk;
    var b := Cut(m, t, i, m.tables[t][i].ppn);
    CutTree(m, t, i);
    hide Tree;
  }

  lemma ChildOf(m: Mem, t: Frame, i: nat)
    requires Tree(m.tables, m.lab) && t in m.lab && NoLeaves(m, t) && i < PTES && m.tables[t][i].v
    ensures !m.lab[t].L0? && Pointer(m.tables[t][i]) && m.tables[t][i].ppn in m.lab
    ensures m.lab[m.tables[t][i].ppn] == Below(m.lab[t], i) && NoLeaves(m, m.tables[t][i].ppn)
    ensures Height(m.lab[m.tables[t][i].ppn]) < Height(m.lab[t])
  {
    assert TableOk(m.tables, m.lab, t);
  }

  lemma OnlyTopLeft(m: Mem, t: Frame)
    requires Tree(m.tables, m.lab) && t in m.lab
    requires forall j :: 0 <= j < PTES ==> !m.tables[t][j].v
    ensures Under(m.lab, t) == {t}
  {
    forall f | f in m.lab && Beneath(m.lab[f], m.lab[t])
      ensures f == t
    {
      assert TableOk(m.tables, m.lab, f);
      assert TableOk(m.tables, m.lab, t);
    }
  }

  lemma PrunedAll(a: Mem, m: Mem, t: Frame)
    requires t in a.lab && a.lab.Keys == a.tables.Keys && Pruned(a, m, t, PTES)
    ensures Freed(a, Drop(m, t), Under(a.lab, t))
  {
    hide TableOk, Beneath, NoLeaves;
    OnlyTopLeft(m, t);
    var gone := Under(a.lab, t);
    forall f | f in a.lab
      ensures f in m.lab && f != t <==> f !in gone
    {
      assert f in m.lab ==> (f in Under(m.lab, t) <==> f in gone);
      BeneathItself(a.lab[t]);
    }
    assert m.lab - {t} == a.lab - gone;
    assert m.tables - {t} == a.tables - gone;
    assert a.free + (a.lab.Keys - m.lab.Keys) + {t} == a.free + gone;
  }

  lemma BeneathItself(l: Label)
    ensures Beneath(l, l)
  {
  }

  /** Frees exactly the tables of the subtree under t, which must hold no leaf. */
  method Freewalk(k: Kmem, t: Frame)
    requires Tree(k.tables, k.lab) && Frames(k.View())
    requires t in k.lab && NoLeaves(k.View(), t)
    modifies k
    ensures Freed(old(k.View()), k.View(), Under(old(k.lab), t)) && k.refusals == old(k.refusals)
    decreases Height(k.lab[t])
  {
    hide TableOk;
    ghost var a := k.View();
    var i := 0;
    while i < 512
      invariant 0 <= i <= PTES && Pruned(a, k.View(), t, i) && k.refusals == old(k.refusals)
    {
      ghost var m := k.View();
      var pte := k.tables[t][i];
      if pte.v && !pte.r && !pte.w && !pte.x {
        ChildOf(m, t, i);
        PrunedNext(a, m, t, i);
        Freewalk(k, pte.ppn);
        k.StoreLeaf(t, i, ZERO);
      } else if pte.v {
        ChildOf(m, t, i);
        assert false;
      }
      i := i + 1;
    }
    PrunedAll(a, k.View(), t);
    k.KfreeTable(t);
  }

  // ---------------------------------------------------------------- uvmfree

  ghost predicate NothingMapped(m: Mem, root: Frame) {
    forall vpn: nat :: !Flat(m.tables, root, vpn).v
  }

  ghost predicate NoFrames(m: Mem, root: Frame) {
    forall f :: f in m.own ==> !Owns(m.own[f], root)
  }

  lemma NothingMappedNoLeaves(m: Mem, root: Frame)
    requires Valid(m) && IsRoot(m.lab, root) && NothingMapped(m, root)
    ensures NoLeaves(m, root)
  {
    forall f, i: nat | f in m.lab && m.lab[f].root == root && m.lab[f].L0? && i < |m.tables[f]|
      ensures !m.tables[f][i].v
    {
      LabelTable0(m.tables, m.lab, f);
      var vpn := m.lab[f].p * PTES + i;
      assert vpn / PTES == m.lab[f].p && vpn % PTES == i;
      assert Flat(m.tables, root, vpn) == m.tables[f][i];
    }
  }

  lemma FreedTable(m: Mem, b: Mem, root: Frame, g: Frame)
    requires Tree(m.tables, m.lab) && IsRoot(m.lab, root) && Freed(m, b, Under(m.lab, root))
    requires g in m.lab && m.lab[g].root != root
    ensures Sized(b.tables) && g in b.tables && g in b.lab && TableOk(b.tables, b.lab, g)
  {
    assert TableOk(m.tables, m.lab, g);
  }

  lemma FreedFlat(m: Mem, b: Mem, root: Frame, r: Frame, vpn: nat)
    requires Tree(m.tables, m.lab) && IsRoot(m.lab, root) && Freed(m, b, Under(m.lab, root))
    requires IsRoot(m.lab, r) && r != root
    ensures IsRoot(b.lab, r) && Flat(b.tables, r, vpn) == Flat(m.tables, r, vpn)
  {
    if Table1(m.tables, r, vpn / PTES / PTES).Some? {
      Table1Label(m.tables, m.lab, r, vpn / PTES / PTES);
    }
    if Table0(m.tables, r, vpn / PTES).Some? {
      Table0Label(m.tables, m.lab, r, vpn / PTES);
    }
  }

  lemma FreedOnly(m: Mem, b: Mem, root: Frame)
    requires Valid(m) && IsRoot(m.lab, root) && Freed(m, b, Under(m.lab, root)) && NoFrames(m, root)
    ensures OnlyRoot(m, b, root) && Owned(b, root) == {} && b.free == m.free + Owned(m, root)
  {
    hide Valid;
    assert Under(m.lab, root) == Owned(m, root);
    assert ForeignTables(m, root) == ForeignTables(b, root) by { KeysAgree(m); }
    assert forall f :: f !in Owned(b, root);
  }

  lemma FreedValid(m: Mem, b: Mem, root: Frame)
    requires Valid(m) && IsRoot(m.lab, root) && Freed(m, b, Under(m.lab, root)) && NoFrames(m, root)
    ensures Valid(b)
  {
    hide Flat, TableOk;
    forall g | g in b.tables
      ensures TableOk(b.tables, b.lab, g)
    {
      FreedTable(m, b, root, g);
    }
    forall g | g in b.own
      ensures MappedWhereItSays(b, g)
    {
      assert MappedWhereItSays(m, g);
      if !m.own[g].Kernel? {
        FreedFlat(m, b, root, m.own[g].root, 0);
      }
      if m.own[g].User? {
        FreedFlat(m, b, root, m.own[g].root, m.own[g].vpn);
      }
    }
  }

  /** Everything mapped in root's address space is its first n pages, and it owns nothing but their frames and tables. */
  ghost predicate Exactly(m: Mem, root: Frame, n: nat) {
    && UserPages(m, root, 0, n)
    && (forall vpn: nat :: vpn >= n ==> !Flat(m.tables, root, vpn).v)
    && (forall f :: f in m.own ==> m.own[f] != Held(root))
  }

  lemma EmptiedOut(a: Mem, m: Mem, root: Frame, n: nat)
    requires Valid(a) && Exactly(a, root, n)
    requires Unmapped(a, m, root, 0, n) && Gives(a, m, root, FramesOf(a, root, 0, n))
    ensures NothingMapped(m, root) && NoFrames(m, root)
  {
    hide OnlyRoot, Tree;
    forall f | f in a.own && Owns(a.own[f], root)
      ensures f in FramesOf(a, root, 0, n)
    {
      assert MappedWhereItSays(a, f);
      assert Flat(a.tables, root, a.own[f].vpn).ppn == f;
    }
  }

  /** Gives back every frame of the address space: its pages and its tables, each once. */
  method Uvmfree(k: Kmem, root: Frame, sz: nat)
    requires Valid(k.View()) && IsRoot(k.lab, root) && Exactly(k.View(), root, Pages(sz))
    modifies k
    ensures Valid(k.View()) && OnlyRoot(old(k.View()), k.View(), root) && k.refusals == old(k.refusals)
    ensures k.free == old(k.free) + Owned(old(k.View()), root) && Owned(k.View(), root) == {}
    ensures !IsRoot(k.lab, root)
  {
    hide Valid, OnlyRoot, Owned, Tree, Flat;
    ghost var a := k.View();
    var n := PgRoundUp(sz) / PGSIZE;
    assert n == Pages(sz) && Vpn(0) == 0;
    NothingGone(a, root);
    if sz > 0 {
      Uvmunmap(k, root, 0, n, true);
    }
    ghost var m := k.View();
    EmptiedOut(a, m, root, n);
    NothingMappedNoLeaves(m, root);
    ValidParts(m);
    Freewalk(k, root);
    FreedValid(m, k.View(), root);
    FreedOnly(m, k.View(), root);
    OnlyRootTrans(a, m, k.View(), root);
    PoolOf(a, k.View(), root);
  }

  lemma NothingGone(m: Mem, root: Frame)
    ensures Unmapped(m, m, root, 0, 0) && Gives(m, m, root, FramesOf(m, root, 0, 0))
  {
    assert FramesOf(m, root, 0, 0) == {};
  }

  lemma ValidParts(m: Mem)
    requires Valid(m)
    ensures Tree(m.tables, m.lab) && Frames(m)
  {
  }

  lemma PoolOf(a: Mem, b: Mem, root: Frame)
    requires OnlyRoot(a, b, root) && Owned(b, root) == {}
    ensures b.free == a.free + Owned(a, root)
  {
  }
}
