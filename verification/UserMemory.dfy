/** Growing, shrinking and copying user memory (`vm.c`): uvmalloc, uvmdealloc, uvmcopy and uvmclear, with what each
    leaves behind when memory runs out half-way. */
module UserMemory {
  import opened PageTable
  import opened Memory
  import opened Paging
  import opened Uvm

  // ---------------------------------------------------------------- pages added to an address space

  ghost predicate KeepsTables(a: Mem, b: Mem, root: Frame) {
    forall p: nat :: Table0(a.tables, root, p).Some? ==> Table0(b.tables, root, p) == Table0(a.tables, root, p)
  }

  ghost predicate SameOutside(a: Mem, b: Mem, root: Frame, first: nat, n: nat) {
    forall vpn: nat :: vpn < first || first + n <= vpn ==> Flat(b.tables, root, vpn) == Flat(a.tables, root, vpn)
  }

  /** Every data frame of a is in b with the same bytes and the same owner. */
  ghost predicate KeepsData(a: Mem, b: Mem) {
    && (forall f :: f in a.data ==> f in b.data && b.data[f] == a.data[f])
    && (forall f :: f in a.own ==> f in b.own && b.own[f] == a.own[f])
  }

  /** The data frames of b that a does not have came from the pool and back n pages of root from first on. */
  ghost predicate NewFrames(a: Mem, b: Mem, root: Frame, first: nat, n: nat) {
    forall f :: f in b.own && f !in a.own ==>
      f in a.free && b.own[f].User? && b.own[f].root == root && first <= b.own[f].vpn < first + n
  }

  /** b is a with n pages from first on added to root's address space, each on a frame of its own from the pool. */
  ghost predicate Populated(a: Mem, b: Mem, root: Frame, first: nat, n: nat) {
    && OnlyRoot(a, b, root) && IsRoot(b.lab, root) && b.free <= a.free
    && KeepsTables(a, b, root) && SameOutside(a, b, root, first, n) && UserPages(b, root, first, n)
    && KeepsData(a, b) && NewFrames(a, b, root, first, n)
    && forall vpn: nat :: first <= vpn < first + n ==> Flat(b.tables, root, vpn).ppn in a.free
  }

  /** The page is mapped with the given permissions and holds the given bytes. */
  ghost predicate PageIs(m: Mem, root: Frame, vpn: nat, perm: Perm, page: Page) {
    var e := Flat(m.tables, root, vpn);
    e == Entry(perm, e.ppn) && e.ppn in m.data && m.data[e.ppn] == page
  }

  /** No page from first up to top is mapped. */
  ghost predicate NotMapped(m: Mem, root: Frame, first: nat, top: nat) {
    forall vpn: nat :: first <= vpn < top ==> !Flat(m.tables, root, vpn).v
  }

  lemma NotMappedPart(m: Mem, root: Frame, first: nat, mid: nat, top: nat)
    requires NotMapped(m, root, first, top) && mid <= top
    ensures NotMapped(m, root, first, mid)
  {
  }

  /** A frame taken from the pool and filled, but not mapped yet. */
  ghost function Filled(m: Mem, f: Frame, was: Page, page: Page, root: Frame): Mem {
    Fill(Take(m, f, Held(root), was), f, page)
  }

  lemma FilledFrame(m: Mem, f: Frame, was: Page, page: Page, root: Frame)
    requires Valid(m) && IsRoot(m.lab, root) && f in m.free && |was| == PGSIZE && |page| == PGSIZE
    ensures var z := Filled(m, f, was, page, root);
            && Valid(z) && OnlyRoot(m, z, root) && z.free == m.free - {f} && z.tables == m.tables && z.lab == m.lab
            && f !in m.data && f !in m.own && f in z.own && z.own[f] == Held(root) && f in z.data && z.data[f] == page
            && z.data - {f} == m.data && z.own - {f} == m.own
  {
    hide Flat, Tree, OnlyRoot;
    TakeValid(m, f, Held(root), was);
    var a := Take(m, f, Held(root), was);
    FillValid(a, f, page, root);
    OnlyRootTrans(m, a, Fill(a, f, page), root);
  }

  /** mappages has mapped the filled frame at page vpn, and the frame becomes the page's own. */
  lemma AddPage(m: Mem, z: Mem, b: Mem, root: Frame, vpn: nat, f: Frame, perm: Perm)
    requires Valid(b) && IsRoot(z.lab, root) && Extends(z, b, root) && Mapped(z, b, root, vpn, 1, f, perm)
    requires f in z.own && z.own[f] == Held(root)
    ensures var c := Reassign(b, f, User(root, vpn));
            && Valid(c) && IsRoot(c.lab, root) && OnlyRoot(z, c, root) && c.data == z.data && c.free <= z.free
            && c.own == z.own[f := User(root, vpn)] && KeepsTables(z, c, root)
            && Mapped(z, c, root, vpn, 1, f, perm)
  {
    hide OnlyRoot, Tree;
    var c := Reassign(b, f, User(root, vpn));
    assert Flat(b.tables, root, vpn) == Entry(perm, f);
    ReassignValid(b, f, User(root, vpn), root);
    OnlyRootTrans(z, b, c, root);
  }

  /** c is m with the frame f from the pool mapped at page vpn of root and owned by it. */
  ghost predicate OneMore(m: Mem, c: Mem, root: Frame, vpn: nat, f: Frame, perm: Perm, page: Page) {
    && OnlyRoot(m, c, root) && IsRoot(c.lab, root) && c.free <= m.free - {f} && f in m.free
    && f !in m.data && c.data == m.data[f := page] && f !in m.own && c.own == m.own[f := User(root, vpn)]
    && KeepsTables(m, c, root) && Mapped(m, c, root, vpn, 1, f, perm)
  }

  lemma IsOneMore(m: Mem, z: Mem, c: Mem, root: Frame, vpn: nat, f: Frame, perm: Perm)
    requires OnlyRoot(m, z, root) && OnlyRoot(z, c, root)
    requires f in m.free && f !in m.own && z.free == m.free - {f} && z.tables == m.tables
    requires z.data - {f} == m.data && z.own - {f} == m.own && f in z.data && f in z.own && f !in m.data
    requires IsRoot(c.lab, root) && c.data == z.data && c.free <= z.free && c.own == z.own[f := User(root, vpn)]
    requires KeepsTables(z, c, root) && Mapped(z, c, root, vpn, 1, f, perm)
    ensures OneMore(m, c, root, vpn, f, perm, z.data[f])
  {
    hide OnlyRoot, Flat, Table0, KeepsTables;
    OnlyRootTrans(m, z, c, root);
    assert c.data == (z.data - {f})[f := z.data[f]];
    assert c.own == (z.own - {f})[f := User(root, vpn)];
    SameTablesKept(m, z, c, root);
  }

  lemma SameTablesKept(m: Mem, z: Mem, c: Mem, root: Frame)
    requires KeepsTables(z, c, root) && z.tables == m.tables
    ensures KeepsTables(m, c, root)
  {
  }

  lemma PopulatedNext(a: Mem, m: Mem, c: Mem, root: Frame, first: nat, n: nat, f: Frame, perm: Perm, page: Page)
    requires Populated(a, m, root, first, n) && OneMore(m, c, root, first + n, f, perm, page) && f !in a.own && f !in a.data
    ensures Populated(a, c, root, first, n + 1)
    ensures PageIs(c, root, first + n, perm, page) && KeepsData(m, c) && SameOutside(m, c, root, first + n, 1)
  {
    hide OnlyRoot, Flat, Table0;
    OnlyRootTrans(a, m, c, root);
  }

  lemma KeepsPage(m: Mem, c: Mem, root: Frame, v: nat, vpn: nat, perm: Perm, page: Page)
    requires KeepsData(m, c) && SameOutside(m, c, root, vpn, 1) && v != vpn && PageIs(m, root, v, perm, page)
    ensures PageIs(c, root, v, perm, page)
  {
  }

  /** The frame could not be mapped and goes back: nothing but tables was added. */
  lemma GiveBack(a: Mem, m: Mem, z: Mem, b: Mem, root: Frame, first: nat, n: nat, f: Frame)
    requires Populated(a, m, root, first, n) && OnlyRoot(m, z, root)
    requires f in m.free && f !in m.own && f !in m.data && z.free == m.free - {f} && z.tables == m.tables && z.lab == m.lab
    requires z.data - {f} == m.data && z.own - {f} == m.own && f in z.own && z.own[f] == Held(root)
    requires Valid(b) && Grown(z, b, root)
    ensures Valid(Give(b, f)) && Populated(a, Give(b, f), root, first, n)
  {
    hide OnlyRoot, Flat, Table0, Tree;
    var c := Give(b, f);
    GiveValid(b, f, root);
    OnlyRootTrans(a, m, z, root);
    OnlyRootTrans(a, z, b, root);
    OnlyRootTrans(a, b, c, root);
    assert c.data == m.data && c.own == m.own;
  }

  lemma SameTables(b: Mem, c: Mem, root: Frame, p: nat)
    requires Valid(b) && Valid(c) && c.lab == b.lab && IsRoot(b.lab, root)
    ensures Table0(b.tables, root, p).Some? ==> Table0(c.tables, root, p) == Table0(b.tables, root, p)
  {
    if Table0(b.tables, root, p).Some? {
      Table0Label(b.tables, b.lab, root, p);
      LabelTable0(c.tables, c.lab, Table0(b.tables, root, p).value);
    }
  }

  /** Taking all the added pages away again leaves nothing but, perhaps, some more tables. */
  lemma Undone(a: Mem, b: Mem, c: Mem, root: Frame, first: nat, n: nat)
    requires Valid(a) && Valid(b) && Valid(c) && Populated(a, b, root, first, n)
    requires forall vpn: nat :: first <= vpn < first + n ==> Flat(a.tables, root, vpn) == ZERO
    requires Unmapped(b, c, root, first, n) && Gives(b, c, root, FramesOf(b, root, first, n))
    ensures Grown(a, c, root)
  {
    hide OnlyRoot, Flat, Table0, Tree, Valid;
    OnlyRootTrans(a, b, c, root);
    forall p: nat
      ensures Table0(b.tables, root, p).Some? ==> Table0(c.tables, root, p) == Table0(b.tables, root, p)
    {
      SameTables(b, c, root, p);
    }
    UndoneFrames(a, b, root, first, n);
  }

  lemma UndoneFrames(a: Mem, b: Mem, root: Frame, first: nat, n: nat)
    requires Valid(a) && Valid(b) && Populated(a, b, root, first, n)
    ensures b.data - FramesOf(b, root, first, n) == a.data && b.own - FramesOf(b, root, first, n) == a.own
    ensures b.free + FramesOf(b, root, first, n) <= a.free
  {
    hide OnlyRoot, Tree;
    var gone := FramesOf(b, root, first, n);
    forall f
      ensures f in gone <==> f in b.own && f !in a.own
    {
      if f in b.own && f !in a.own {
        assert MappedWhereItSays(b, f);
        assert Flat(b.tables, root, b.own[f].vpn).ppn == f;
      }
    }
    assert b.own - gone == a.own;
    assert b.data - gone == a.data;
  }

  // ---------------------------------------------------------------- uvmdealloc

  method Uvmdealloc(k: Kmem, root: Frame, oldsz: nat, newsz: nat) returns (r: nat)
    requires Valid(k.View()) && IsRoot(k.lab, root)
    requires newsz < oldsz ==> UserPages(k.View(), root, Pages(newsz), Pages(oldsz) - Pages(newsz))
    modifies k
    ensures r == (if newsz < oldsz then newsz else oldsz) && k.refusals == old(k.refusals)
    ensures newsz >= oldsz ==> k.View() == old(k.View())
    ensures newsz < oldsz ==>
              var n := Pages(oldsz) - Pages(newsz);
              && Valid(k.View()) && Unmapped(old(k.View()), k.View(), root, Pages(newsz), n)
              && Gives(old(k.View()), k.View(), root, FramesOf(old(k.View()), root, Pages(newsz), n))
  {
    hide Valid, OnlyRoot, UserPages, Flat;
    if newsz >= oldsz {
      return oldsz;
    }
    assert Pages(newsz) <= Pages(oldsz);
    if PgRoundUp(newsz) < PgRoundUp(oldsz) {
      var npages := (PgRoundUp(oldsz) - PgRoundUp(newsz)) / PGSIZE;
      assert npages == Pages(oldsz) - Pages(newsz) && Vpn(PgRoundUp(newsz)) == Pages(newsz);
      PagesMayUnmap(k.View(), root, Pages(newsz), npages);
      Uvmunmap(k, root, PgRoundUp(newsz), npages, true);
    } else {
      NothingUnmapped(k.View(), root, Pages(newsz), true);
    }
    return newsz;
  }

  lemma PagesMayUnmap(m: Mem, root: Frame, first: nat, n: nat)
    requires UserPages(m, root, first, n)
    ensures MayUnmap(m, root, first, n, true)
  {
  }

  // ---------------------------------------------------------------- adding one page

  lemma PageAdded(a: Mem, m: Mem, b: Mem, root: Frame, first: nat, n: nat, f: Frame, was: Page, page: Page, perm: Perm)
    requires Valid(a) && Valid(m) && Populated(a, m, root, first, n)
    requires f in m.free && |was| == PGSIZE && |page| == PGSIZE
    requires Valid(b) && Extends(Filled(m, f, was, page, root), b, root)
    requires Mapped(Filled(m, f, was, page, root), b, root, first + n, 1, f, perm)
    ensures var c := Reassign(b, f, User(root, first + n));
            && Valid(c) && Populated(a, c, root, first, n + 1) && PageIs(c, root, first + n, perm, page)
            && KeepsData(m, c) && SameOutside(m, c, root, first + n, 1) && c.free <= m.free - {f}
  {
    hide Valid, OnlyRoot, Extends, Mapped, UserPages, NewFrames, KeepsTables, SameOutside, KeepsData, PageIs, Filled;
    var z := Filled(m, f, was, page, root);
    FilledFrame(m, f, was, page, root);
    NotFree(a, f);
    AddPage(m, z, b, root, first + n, f, perm);
    var c := Reassign(b, f, User(root, first + n));
    IsOneMore(m, z, c, root, first + n, f, perm);
    PopulatedNext(a, m, c, root, first, n, f, perm, page);
  }

  lemma PageRefused(a: Mem, m: Mem, b: Mem, root: Frame, first: nat, n: nat, f: Frame, was: Page, page: Page, perm: Perm)
    requires Valid(m) && Populated(a, m, root, first, n)
    requires f in m.free && |was| == PGSIZE && |page| == PGSIZE
    requires Valid(b) && Extends(Filled(m, f, was, page, root), b, root)
    requires Mapped(Filled(m, f, was, page, root), b, root, first + n, 0, f, perm)
    ensures Valid(Give(b, f)) && Populated(a, Give(b, f), root, first, n)
  {
    hide Valid, OnlyRoot, Extends, UserPages, NewFrames, KeepsTables, SameOutside, KeepsData, PageIs, Filled;
    var z := Filled(m, f, was, page, root);
    FilledFrame(m, f, was, page, root);
    GiveBack(a, m, z, b, root, first, n, f);
  }

  lemma UndoneAll(a: Mem, b: Mem, c: Mem, root: Frame, first: nat, n: nat)
    requires Valid(a) && Valid(b) && Valid(c) && Populated(a, b, root, first, n) && IsRoot(a.lab, root)
    requires NotMapped(a, root, first, first + n)
    requires Unmapped(b, c, root, first, n) && Gives(b, c, root, FramesOf(b, root, first, n))
    ensures Grown(a, c, root)
  {
    hide OnlyRoot, Flat, Table0, UserPages, KeepsData, NewFrames, KeepsTables, SameOutside, TableOk;
    forall vpn: nat | first <= vpn < first + n
      ensures Flat(a.tables, root, vpn) == ZERO
    {
      FlatIsLeaf(a.tables, a.lab, root, vpn);
    }
    Undone(a, b, c, root, first, n);
  }

  lemma SmallerPool(x: set<Frame>, y: set<Frame>)
    requires x <= y
    ensures |x| <= |y|
  {
    if x != {} {
      var f :| f in x;
      SmallerPool(x - {f}, y - {f});
    }
  }

  // ---------------------------------------------------------------- uvmalloc

  /** n pages from first on are mapped with the given permissions and hold zeros. */
  ghost predicate Zeroed(m: Mem, root: Frame, first: nat, n: nat, perm: Perm) {
    forall vpn: nat :: first <= vpn < first + n ==> PageIs(m, root, vpn, perm, ZeroPage())
  }

  /** The pages from first up to last are zeroed memory a user program may read, and write or execute as given. */
  ghost predicate HeapPages(m: Mem, root: Frame, first: nat, last: nat, w: bool, x: bool) {
    forall vpn: nat :: first <= vpn < last ==>
      var e := Flat(m.tables, root, vpn);
      && e.v && e.r && e.u && e.w == w && e.x == x
      && e.ppn in m.data && |m.data[e.ppn]| == PGSIZE && forall i :: 0 <= i < PGSIZE ==> m.data[e.ppn][i] == 0
  }

  lemma ZeroedBits(m: Mem, root: Frame, first: nat, n: nat, xperm: Perm)
    requires Zeroed(m, root, first, n, Or(USER_READ, xperm))
    ensures HeapPages(m, root, first, first + n, xperm.w, xperm.x)
  {
    hide Flat;
    forall vpn: nat | first <= vpn < first + n
      ensures var e := Flat(m.tables, root, vpn);
              && e.v && e.r && e.u && e.w == xperm.w && e.x == xperm.x && e.ppn in m.data && m.data[e.ppn] == ZeroPage()
    {
      assert PageIs(m, root, vpn, Or(USER_READ, xperm), ZeroPage());
    }
  }

  lemma ZeroedNext(m: Mem, c: Mem, root: Frame, first: nat, n: nat, perm: Perm)
    requires Zeroed(m, root, first, n, perm) && KeepsData(m, c) && SameOutside(m, c, root, first + n, 1)
    requires PageIs(c, root, first + n, perm, ZeroPage())
    ensures Zeroed(c, root, first, n + 1, perm)
  {
    hide PageIs, KeepsData, SameOutside, ZeroPage;
    forall vpn: nat | first <= vpn < first + n
      ensures PageIs(c, root, vpn, perm, ZeroPage())
    {
      KeepsPage(m, c, root, vpn, first + n, perm, ZeroPage());
    }
  }

  lemma PagesAddr(v: nat, a: nat)
    ensures Pages(Addr(v)) == v && PgRoundUp(a) == Addr(Pages(a)) && Addr(v + 1) == Addr(v) + PGSIZE
    ensures Addr(v) < a <==> v < Pages(a)
  {
  }

  lemma OnePage(v: nat, f: Frame)
    ensures Vpn(Addr(v)) == v && Vpn(Addr(v) + PGSIZE - 1) == v && Vpn(f * PGSIZE) == f
    ensures v < MAXVPN ==> Addr(v) + PGSIZE <= MAXVA
  {
  }

  lemma PagesOrder(a: nat, b: nat)
    ensures a <= b ==> Pages(a) <= Pages(b)
  {
  }

  /** The failure exit of uvmalloc: uvmdealloc takes the added pages away again. */
  method Unwind(k: Kmem, ghost m0: Mem, root: Frame, ghost first: nat, ghost n: nat, a: nat, sz: nat)
    requires Valid(m0) && Valid(k.View()) && Populated(m0, k.View(), root, first, n) && IsRoot(m0.lab, root)
    requires NotMapped(m0, root, first, first + n)
    requires a == Addr(first + n) && sz == Addr(first)
    modifies k
    ensures Valid(k.View()) && Grown(m0, k.View(), root) && k.refusals == old(k.refusals)
  {
    hide Valid, OnlyRoot, Flat, UserPages, Unmapped, Gives, FramesOf, Addr, Pages, Grown;
    ghost var b := k.View();
    PopulatedParts(m0, b, root, first, n);
    PagesAddr(first + n, 0);
    PagesAddr(first, 0);
    AddrOrder(first, first + n);
    NothingUnmapped(b, root, first, true);
    var _ := Uvmdealloc(k, root, a, sz);
    UndoneAll(m0, b, k.View(), root, first, n);
  }

  lemma PopulatedParts(a: Mem, m: Mem, root: Frame, first: nat, n: nat)
    requires Populated(a, m, root, first, n)
    ensures IsRoot(m.lab, root) && m.free <= a.free && UserPages(m, root, first, n)
  {
  }

  /** Half-way through uvmalloc: n pages are there, and as many frames are gone from the pool at least. */
  ghost predicate Growing(a: Mem, m: Mem, root: Frame, first: nat, n: nat, perm: Perm) {
    && Valid(a) && Valid(m) && Populated(a, m, root, first, n) && Zeroed(m, root, first, n, perm)
    && n + |m.free| <= |a.free|
  }

  lemma GrowingNone(m: Mem, root: Frame, first: nat, perm: Perm)
    requires Valid(m) && IsRoot(m.lab, root)
    ensures Growing(m, m, root, first, 0, perm)
  {
    hide Valid;
  }

  lemma GrowingParts(a: Mem, m: Mem, root: Frame, first: nat, n: nat, perm: Perm)
    requires Growing(a, m, root, first, n, perm)
    ensures Valid(m) && IsRoot(m.lab, root) && UserPages(m, root, first, n)
    ensures Populated(a, m, root, first, n) && Zeroed(m, root, first, n, perm) && n <= |a.free|
  {
    hide Valid, OnlyRoot;
  }

  lemma GrowingReady(a: Mem, m: Mem, root: Frame, first: nat, n: nat, perm: Perm, f: Frame, was: Page)
    requires Growing(a, m, root, first, n, perm) && NotMapped(a, root, first, USER_TOP)
    requires f in m.free && |was| == PGSIZE
    requires first + n < USER_TOP || first + |a.free| <= USER_TOP
    ensures var z := Fill(Take(m, f, Held(root), was), f, ZeroPage());
            && Valid(z) && IsRoot(z.lab, root) && first + n < USER_TOP && !Flat(z.tables, root, first + n).v
            && f in Take(m, f, Held(root), was).data && f in z.data
  {
    hide Valid, OnlyRoot, Flat;
    SmallerPool({f}, m.free);
    FilledFrame(m, f, was, ZeroPage(), root);
  }

  lemma GrowingNext(a: Mem, m: Mem, b: Mem, root: Frame, first: nat, n: nat, perm: Perm, f: Frame, was: Page)
    requires Growing(a, m, root, first, n, perm) && f in m.free && |was| == PGSIZE
    requires Valid(b) && Extends(Fill(Take(m, f, Held(root), was), f, ZeroPage()), b, root)
    requires Mapped(Fill(Take(m, f, Held(root), was), f, ZeroPage()), b, root, first + n, 1, f, perm)
    ensures Growing(a, Reassign(b, f, User(root, first + n)), root, first, n + 1, perm)
  {
    hide Valid, OnlyRoot, Populated, Zeroed, Extends, Mapped, PageIs, KeepsData, SameOutside, Take, Fill;
    var c := Reassign(b, f, User(root, first + n));
    PageAdded(a, m, b, root, first, n, f, was, ZeroPage(), perm);
    ZeroedNext(m, c, root, first, n, perm);
    SmallerPool(c.free, m.free - {f});
  }

  lemma GrowingRefused(a: Mem, m: Mem, b: Mem, root: Frame, first: nat, n: nat, perm: Perm, f: Frame, was: Page)
    requires Growing(a, m, root, first, n, perm) && f in m.free && |was| == PGSIZE
    requires Valid(b) && Extends(Fill(Take(m, f, Held(root), was), f, ZeroPage()), b, root)
    requires Mapped(Fill(Take(m, f, Held(root), was), f, ZeroPage()), b, root, first + n, 0, f, perm)
    ensures Valid(Give(b, f)) && Populated(a, Give(b, f), root, first, n)
    ensures f in b.data && IsRoot(Give(b, f).lab, root) && UserPages(Give(b, f), root, first, n)
  {
    hide Valid, OnlyRoot, Zeroed, Mapped, PageIs, KeepsData, SameOutside;
    PageRefused(a, m, b, root, first, n, f, was, ZeroPage(), perm);
  }

  /** Grows the address space from oldsz to newsz with zeroed pages, or leaves its map, its frames and their bytes as
      they were. No size check keeps newsz below the special pages: memory must run out first. */
  method Uvmalloc(k: Kmem, root: Frame, oldsz: nat, newsz: nat, xperm: Perm) returns (r: nat)
    requires Valid(k.View()) && IsRoot(k.lab, root)
    requires oldsz <= newsz ==> NotMapped(k.View(), root, Pages(oldsz), USER_TOP)
    requires oldsz <= newsz ==> Pages(newsz) <= USER_TOP || Pages(oldsz) + |k.free| <= USER_TOP
    modifies k
    ensures newsz < oldsz ==> r == oldsz && k.View() == old(k.View())
    ensures k.refusals == old(k.refusals) + if oldsz <= newsz && r != newsz then 1 else 0
    ensures oldsz <= newsz ==> Valid(k.View()) && (r == newsz || r == 0)
    ensures oldsz <= newsz && r == newsz ==>
              var n := Pages(newsz) - Pages(oldsz);
              && Populated(old(k.View()), k.View(), root, Pages(oldsz), n)
              && Zeroed(k.View(), root, Pages(oldsz), n, Or(USER_READ, xperm))
              && Pages(oldsz) <= Pages(newsz) && (Pages(oldsz) <= USER_TOP ==> Pages(newsz) <= USER_TOP)
    ensures oldsz <= newsz && r == newsz ==> HeapPages(k.View(), root, Pages(oldsz), Pages(newsz), xperm.w, xperm.x)
    ensures oldsz <= newsz && r != newsz ==> Grown(old(k.View()), k.View(), root)
  {
    hide Valid, OnlyRoot, Extends, Mapped, Populated, Zeroed, Growing, Grown, Flat, UserPages, NotMapped, Unmapped, Gives,
      FramesOf, Addr, Vpn, Pages, PgRoundUp, Take, Fill, Give, Reassign;
    if newsz < oldsz {
      return oldsz;
    }
    ghost var m0, first, n := k.View(), Pages(oldsz), 0;
    ghost var perm := Or(USER_READ, xperm);
    var sz := PgRoundUp(oldsz);
    var a := sz;
    PagesAddr(0, oldsz);
    PagesOrder(oldsz, newsz);
    GrowingNone(m0, root, first, perm);
    while a < newsz
      invariant a == Addr(first + n) && first + n <= Pages(newsz)
      invariant Growing(m0, k.View(), root, first, n, perm) && k.refusals == old(k.refusals)
      decreases Pages(newsz) - (first + n)
    {
      ghost var m := k.View();
      GrowingParts(m0, m, root, first, n, perm);
      PagesAddr(first + n, newsz);
      NotMappedPart(m0, root, first, first + n, USER_TOP);
      var mem := k.Kalloc(Held(root));
      if mem == 0 {
        Unwind(k, m0, root, first, n, a, sz);
        return 0;
      }
      ghost var was :| |was| == PGSIZE && k.View() == Take(m, mem, Held(root), was);
      GrowingReady(m0, m, root, first, n, perm, mem, was);
      k.Memset(mem);
      OnePage(first + n, mem);
      var ok, mapped := Mappages(k, root, a, PGSIZE, mem * PGSIZE, Or(USER_READ, xperm));
      if ok != 0 {
        GrowingRefused(m0, m, k.View(), root, first, n, perm, mem, was);
        k.Kfree(mem);
        Unwind(k, m0, root, first, n, a, sz);
        return 0;
      }
      GrowingNext(m0, m, k.View(), root, first, n, perm, mem, was);
      k.SetOwner(mem, User(root, Vpn(a)));
      a := a + PGSIZE;
      n := n + 1;
    }
    PagesAddr(first + n, newsz);
    GrowingParts(m0, k.View(), root, first, n, perm);
    ZeroedBits(k.View(), root, first, n, xperm);
    return newsz;
  }

  // ---------------------------------------------------------------- uvmcopy

  function PermOf(e: Pte): Perm {
    Perm(e.r, e.w, e.x, e.u)
  }

  /** The bytes of the frame a page is mapped to. */
  ghost function BytesAt(m: Mem, root: Frame, vpn: nat): Page {
    var e := Flat(m.tables, root, vpn);
    if e.ppn in m.data then m.data[e.ppn] else []
  }

  /** The first n pages of `to` in m have the flags and the bytes those of `from` have in a. */
  ghost predicate Copied(a: Mem, m: Mem, from: Frame, to: Frame, n: nat) {
    forall vpn: nat :: vpn < n ==> PageIs(m, to, vpn, PermOf(Flat(a.tables, from, vpn)), BytesAt(a, from, vpn))
  }

  /** A copied page has its source's permissions and, in a frame of its own, its bytes. */
  lemma CopiedBits(a: Mem, m: Mem, from: Frame, to: Frame, n: nat)
    requires Copied(a, m, from, to, n) && UserPages(a, from, 0, n) && a.own.Keys == a.data.Keys
    ensures forall vpn: nat :: vpn < n ==>
              var e, was := Flat(m.tables, to, vpn), Flat(a.tables, from, vpn);
              && e.v && e.r == was.r && e.w == was.w && e.x == was.x && e.u == was.u
              && e.ppn in m.data && was.ppn in a.data && m.data[e.ppn] == a.data[was.ppn]
  {
    hide Flat;
    forall vpn: nat | vpn < n
      ensures var e, was := Flat(m.tables, to, vpn), Flat(a.tables, from, vpn);
              && e.v && e.r == was.r && e.w == was.w && e.x == was.x && e.u == was.u
              && e.ppn in m.data && was.ppn in a.data && m.data[e.ppn] == a.data[was.ppn]
    {
      assert PageIs(m, to, vpn, PermOf(Flat(a.tables, from, vpn)), BytesAt(a, from, vpn));
      assert Flat(a.tables, from, vpn).ppn in a.own.Keys;
    }
  }

  lemma CopiedNext(a: Mem, m: Mem, c: Mem, from: Frame, to: Frame, n: nat)
    requires Copied(a, m, from, to, n) && KeepsData(m, c) && SameOutside(m, c, to, n, 1)
    requires PageIs(c, to, n, PermOf(Flat(a.tables, from, n)), BytesAt(a, from, n))
    ensures Copied(a, c, from, to, n + 1)
  {
    hide PageIs, KeepsData, SameOutside, BytesAt, PermOf;
    forall vpn: nat | vpn < n
      ensures PageIs(c, to, vpn, PermOf(Flat(a.tables, from, vpn)), BytesAt(a, from, vpn))
    {
      KeepsPage(m, c, to, vpn, n, PermOf(Flat(a.tables, from, vpn)), BytesAt(a, from, vpn));
    }
  }

  /** Half-way through uvmcopy: the first n pages are copied, and the parent is as it was. */
  ghost predicate Copying(a: Mem, m: Mem, from: Frame, to: Frame, n: nat) {
    && Valid(a) && Valid(m) && IsRoot(a.lab, from) && from != to && Populated(a, m, to, 0, n)
    && Copied(a, m, from, to, n)
  }

  lemma CopyingNone(m: Mem, from: Frame, to: Frame)
    requires Valid(m) && IsRoot(m.lab, from) && IsRoot(m.lab, to) && from != to
    ensures Copying(m, m, from, to, 0)
  {
    hide Valid;
  }

  lemma CopyingParts(a: Mem, m: Mem, from: Frame, to: Frame, n: nat)
    requires Copying(a, m, from, to, n)
    ensures Valid(m) && IsRoot(m.lab, to) && IsRoot(m.lab, from) && UserPages(m, to, 0, n)
    ensures Populated(a, m, to, 0, n) && Copied(a, m, from, to, n)
    ensures SameMap(a, m, from)
  {
    hide Valid, OnlyRoot;
    OthersUnchanged(a, m, to, from);
  }

  /** The parent's next page is still where it was, mapped by a leaf with a frame of its own. */
  lemma CopyingSource(a: Mem, m: Mem, from: Frame, to: Frame, n: nat, pages: nat)
    requires Copying(a, m, from, to, n) && n < pages && UserPages(a, from, 0, pages)
    ensures var e := Flat(m.tables, from, n);
            && e == Flat(a.tables, from, n) && Leaf(e) && n < MAXVPN && e.ppn in m.data
            && m.data[e.ppn] == BytesAt(a, from, n) && |m.data[e.ppn]| == PGSIZE
    ensures TableFor(m.tables, from, n).Some? && Grants(PermOf(Flat(m.tables, from, n)))
  {
    hide OnlyRoot, TableOk;
    CopyingParts(a, m, from, to, n);
    FlatIsLeaf(m.tables, m.lab, from, n);
    var f := Flat(a.tables, from, n).ppn;
    assert f in a.own && a.own[f] == User(from, n);
  }

  lemma CopyingReady(a: Mem, m: Mem, from: Frame, to: Frame, n: nat, pages: nat, f: Frame, was: Page)
    requires Copying(a, m, from, to, n) && n < pages && UserPages(a, from, 0, pages) && NotMapped(a, to, 0, pages)
    requires f in m.free && |was| == PGSIZE
    ensures var src := Flat(m.tables, from, n).ppn;
            var t := Take(m, f, Held(to), was);
            var z := Fill(t, f, BytesAt(a, from, n));
            && f in t.data && src in t.data && t.data[src] == BytesAt(a, from, n)
            && Valid(z) && IsRoot(z.lab, to) && !Flat(z.tables, to, n).v && f in z.data
  {
    hide Valid, OnlyRoot, Flat, BytesAt;
    CopyingSource(a, m, from, to, n, pages);
    CopyingParts(a, m, from, to, n);
    NotFree(m, f);
    FilledFrame(m, f, was, BytesAt(a, from, n), to);
  }

  lemma CopyingNext(a: Mem, m: Mem, b: Mem, from: Frame, to: Frame, n: nat, f: Frame, was: Page)
    requires Copying(a, m, from, to, n) && f in m.free && |was| == PGSIZE && |BytesAt(a, from, n)| == PGSIZE
    requires Valid(b) && Extends(Fill(Take(m, f, Held(to), was), f, BytesAt(a, from, n)), b, to)
    requires Mapped(Fill(Take(m, f, Held(to), was), f, BytesAt(a, from, n)), b, to, n, 1, f, PermOf(Flat(a.tables, from, n)))
    ensures Copying(a, Reassign(b, f, User(to, n)), from, to, n + 1)
  {
    hide Valid, OnlyRoot, Populated, Copied, Extends, Mapped, PageIs, KeepsData, SameOutside, Take, Fill, Flat, BytesAt;
    var c := Reassign(b, f, User(to, n));
    PageAdded(a, m, b, to, 0, n, f, was, BytesAt(a, from, n), PermOf(Flat(a.tables, from, n)));
    CopiedNext(a, m, c, from, to, n);
  }

  lemma CopyingRefused(a: Mem, m: Mem, b: Mem, from: Frame, to: Frame, n: nat, f: Frame, was: Page)
    requires Copying(a, m, from, to, n) && f in m.free && |was| == PGSIZE && |BytesAt(a, from, n)| == PGSIZE
    requires Valid(b) && Extends(Fill(Take(m, f, Held(to), was), f, BytesAt(a, from, n)), b, to)
    requires Mapped(Fill(Take(m, f, Held(to), was), f, BytesAt(a, from, n)), b, to, n, 0, f, PermOf(Flat(a.tables, from, n)))
    ensures f in b.data && Valid(Give(b, f)) && Populated(a, Give(b, f), to, 0, n)
  {
    hide Valid, OnlyRoot, Mapped, PageIs, KeepsData, SameOutside, Flat, BytesAt;
    PageRefused(a, m, b, to, 0, n, f, was, BytesAt(a, from, n), PermOf(Flat(a.tables, from, n)));
  }

  /** The failure exit of uvmcopy. */
  method Abandon(k: Kmem, ghost m0: Mem, root: Frame, ghost n: nat, i: nat)
    requires Valid(m0) && Valid(k.View()) && Populated(m0, k.View(), root, 0, n) && IsRoot(m0.lab, root)
    requires NotMapped(m0, root, 0, n) && i == Addr(n)
    modifies k
    ensures Valid(k.View()) && Grown(m0, k.View(), root) && k.refusals == old(k.refusals)
  {
    hide Valid, OnlyRoot, Flat, UserPages, Unmapped, Gives, FramesOf, Grown;
    ghost var b := k.View();
    PopulatedParts(m0, b, root, 0, n);
    PagesMayUnmap(b, root, 0, n);
    Uvmunmap(k, root, 0, i / PGSIZE, true);
    UndoneAll(m0, b, k.View(), root, 0, n);
  }

  /** Copies the first sz bytes' pages of one address space into another, or leaves the other's map, its frames and
      their bytes as they were; the first is never changed. */
  method Uvmcopy(k: Kmem, from: Frame, to: Frame, sz: nat) returns (r: int)
    requires Valid(k.View()) && IsRoot(k.lab, from) && IsRoot(k.lab, to) && from != to
    requires UserPages(k.View(), from, 0, Pages(sz)) && NotMapped(k.View(), to, 0, Pages(sz))
    modifies k
    ensures r == 0 || r == -1
    ensures r == 0 ==>
              && Valid(k.View()) && Populated(old(k.View()), k.View(), to, 0, Pages(sz))
              && Copied(old(k.View()), k.View(), from, to, Pages(sz))
    ensures r == 0 ==>
              forall vpn: nat :: vpn < Pages(sz) ==>
                var e, was := Flat(k.tables, to, vpn), Flat(old(k.tables), from, vpn);
                && e.v && e.r == was.r && e.w == was.w && e.x == was.x && e.u == was.u
                && e.ppn in k.data && was.ppn in old(k.data) && k.data[e.ppn] == old(k.data)[was.ppn]
    ensures r == -1 ==> Valid(k.View()) && Grown(old(k.View()), k.View(), to)
    ensures k.refusals == old(k.refusals) + if r == 0 then 0 else 1
  {
    hide Valid, OnlyRoot, Extends, Mapped, Populated, Copied, Copying, Grown, Flat, UserPages, NotMapped, Unmapped, Gives,
      FramesOf, Addr, Vpn, Pages, PgRoundUp, Take, Fill, Give, Reassign, BytesAt, Table0, TableFor, SlotOf;
    ghost var a, n := k.View(), 0;
    ghost var pages := Pages(sz);
    var i := 0;
    KeysAgree(a);
    OnePage(0, 0);
    CopyingNone(a, from, to);
    PagesAddr(0, sz);
    AddrFacts(0, 0);
    while i < sz
      invariant i == Addr(n) && n <= pages
      invariant Copying(a, k.View(), from, to, n) && k.refusals == old(k.refusals)
      decreases pages - n
    {
      ghost var m := k.View();
      CopyingParts(a, m, from, to, n);
      PagesAddr(n, sz);
      AddrFacts(n, 0);
      CopyingSource(a, m, from, to, n, pages);
      NotMappedPart(a, to, 0, n, pages);
      var pte := Walk(k, from, i, false);
      var e := k.tables[pte.value.table][pte.value.index];
      var mem := k.Kalloc(Held(to));
      if mem == 0 {
        Abandon(k, a, to, n, i);
        return -1;
      }
      ghost var was :| |was| == PGSIZE && k.View() == Take(m, mem, Held(to), was);
      CopyingReady(a, m, from, to, n, pages, mem, was);
      k.CopyPage(mem, e.ppn);
      OnePage(n, mem);
      var ok, mapped := Mappages(k, to, i, PGSIZE, mem * PGSIZE, PermOf(e));
      if ok != 0 {
        CopyingRefused(a, m, k.View(), from, to, n, mem, was);
        k.Kfree(mem);
        Abandon(k, a, to, n, i);
        return -1;
      }
      CopyingNext(a, m, k.View(), from, to, n, mem, was);
      k.SetOwner(mem, User(to, Vpn(i)));
      i := i + PGSIZE;
      n := n + 1;
    }
    PagesAddr(n, sz);
    CopyingParts(a, k.View(), from, to, n);
    CopiedBits(a, k.View(), from, to, n);
    return 0;
  }

  // ---------------------------------------------------------------- uvmclear

  /** Takes user access to one page away; the page stays mapped to the same frame. */
  method Uvmclear(k: Kmem, root: Frame, va: nat)
    requires Valid(k.View()) && IsRoot(k.lab, root) && va < MAXVA && TableFor(k.tables, root, Vpn(va)).Some?
    modifies k
    ensures Valid(k.View()) && Extends(old(k.View()), k.View(), root)
    ensures k.lab == old(k.lab) && k.free == old(k.free) && k.refusals == old(k.refusals)
    ensures forall vpn: nat ::
              var e := Flat(old(k.tables), root, vpn);
              Flat(k.tables, root, vpn) == if vpn == Vpn(va) then e.(u := false) else e
  {
    hide OnlyRoot;
    ghost var m := k.View();
    var pte := Walk(k, root, va, false);
    var e := k.tables[pte.value.table][pte.value.index];
    FlatIsLeaf(m.tables, m.lab, root, Vpn(va));
    if !e.v {
      NoOwnerOfInvalid(m, root, Vpn(va));
    }
    StoreEffect(m, root, Vpn(va), pte.value, e.(u := false));
    k.StoreLeaf(pte.value.table, pte.value.index, e.(u := false));
  }
}
