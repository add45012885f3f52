/** Physical memory under the virtual-memory code: frames that are free, hold page tables, or hold bytes, with the
    owner of each. The class holds the state the kernel overwrites in place; `Mem` is its value at one moment. */
module Memory {
  import opened PageTable

  type Page = seq<Byte>

  /** Whose a data frame is: mapped at a user page of an address space, held by code that is about to map it there or
      give it back, or the kernel's own. */
  datatype Owner = User(root: Frame, vpn: nat) | Held(root: Frame) | Kernel

  datatype Mem = Mem(tables: Tables, lab: Labels, data: map<Frame, Page>, own: map<Frame, Owner>, free: set<Frame>)

  function ZeroPage(): (p: Page)
    ensures |p| == PGSIZE && forall i :: 0 <= i < PGSIZE ==> p[i] == 0
  {
    seq(PGSIZE, i => 0)
  }

  /** The page with some bytes overwritten. */
  function Splice(p: Page, off: nat, bytes: seq<Byte>): (q: Page)
    requires off + |bytes| <= |p|
    ensures |q| == |p|
    ensures forall i :: 0 <= i < |p| ==> q[i] == if off <= i < off + |bytes| then bytes[i - off] else p[i]
  {
    p[..off] + bytes + p[off + |bytes|..]
  }

  predicate Owns(o: Owner, root: Frame) {
    !o.Kernel? && o.root == root
  }

  ghost predicate Frames(m: Mem) {
    && m.tables.Keys !! m.data.Keys && m.tables.Keys !! m.free && m.data.Keys !! m.free
    && m.own.Keys == m.data.Keys
    && 0 !in m.tables && 0 !in m.data && 0 !in m.free
    && forall f :: f in m.data ==> |m.data[f]| == PGSIZE
  }

  ghost predicate MappedWhereItSays(m: Mem, f: Frame)
    requires f in m.own
  {
    && (!m.own[f].Kernel? ==> IsRoot(m.lab, m.own[f].root))
    && (m.own[f].User? ==>
          && Flat(m.tables, m.own[f].root, m.own[f].vpn).v && Flat(m.tables, m.own[f].root, m.own[f].vpn).ppn == f)
  }

  /** Every table sits in exactly one tree, and every user frame is mapped exactly where its owner label says: so no
      frame is mapped twice and none is lost. */
  ghost predicate Valid(m: Mem) {
    && Tree(m.tables, m.lab) && Frames(m)
    && forall f :: f in m.own ==> MappedWhereItSays(m, f)
  }

  // ---------------------------------------------------------------- one address space and the rest

  /** The tables and data frames that do not belong to the address space of root, with their contents and owners. */
  ghost function ForeignTables(m: Mem, root: Frame): map<Frame, (seq<Pte>, Label)> {
    map f | f in m.tables && f in m.lab && m.lab[f].root != root :: (m.tables[f], m.lab[f])
  }

  ghost function ForeignData(m: Mem, root: Frame): map<Frame, (Page, Owner)> {
    map f | f in m.data && f in m.own && !Owns(m.own[f], root) :: (m.data[f], m.own[f])
  }

  /** The frames that belong to the address space of root. */
  ghost function Owned(m: Mem, root: Frame): set<Frame> {
    (set f | f in m.lab && m.lab[f].root == root) + (set f | f in m.own && Owns(m.own[f], root))
  }

  /** Only the address space of root changed, exchanging frames only with the free pool. */
  ghost predicate OnlyRoot(a: Mem, b: Mem, root: Frame) {
    && ForeignTables(a, root) == ForeignTables(b, root)
    && ForeignData(a, root) == ForeignData(b, root)
    && a.free + Owned(a, root) == b.free + Owned(b, root)
  }

  lemma ForeignFlat(a: Mem, b: Mem, root: Frame, r: Frame, vpn: nat)
    requires Valid(a) && Valid(b) && OnlyRoot(a, b, root) && r != root && IsRoot(a.lab, r)
    ensures IsRoot(b.lab, r) && Flat(b.tables, r, vpn) == Flat(a.tables, r, vpn)
  {
    hide Frames, MappedWhereItSays, ForeignData, Owned, TableOk;
    var fa := ForeignTables(a, root);
    assert r in fa && fa[r] == ForeignTables(b, root)[r];
    var p := vpn / PTES;
    if Table1(a.tables, r, p / PTES).Some? {
      Table1Label(a.tables, a.lab, r, p / PTES);
      assert Table1(a.tables, r, p / PTES).value in fa;
    }
    if Table0(a.tables, r, p).Some? {
      Table0Label(a.tables, a.lab, r, p);
      assert Table0(a.tables, r, p).value in fa;
    }
  }

  // ---------------------------------------------------------------- the primitive changes

  ghost function Take(m: Mem, f: Frame, o: Owner, page: Page): Mem {
    m.(data := m.data[f := page], own := m.own[f := o], free := m.free - {f})
  }

  ghost function Give(m: Mem, f: Frame): Mem {
    m.(data := m.data - {f}, own := m.own - {f}, free := m.free + {f})
  }

  /** A page table goes back to the pool. */
  ghost function Drop(m: Mem, f: Frame): Mem {
    m.(tables := m.tables - {f}, lab := m.lab - {f}, free := m.free + {f})
  }

  ghost function Fill(m: Mem, f: Frame, page: Page): Mem {
    m.(data := m.data[f := page])
  }

  ghost function Reassign(m: Mem, f: Frame, o: Owner): Mem {
    m.(own := m.own[f := o])
  }

  ghost function SetPte(m: Mem, t: Frame, k: nat, e: Pte): Mem
    requires t in m.tables && k < |m.tables[t]|
  {
    m.(tables := m.tables[t := m.tables[t][k := e]])
  }

  ghost function Below(l: Label, k: nat): Label
    requires !l.L0?
  {
    if l.L2? then L1(l.root, k) else L0(l.root, l.i * PTES + k)
  }

  /** The zeroed data frame f becomes an empty table under entry k of table t. */
  ghost function Link(m: Mem, t: Frame, k: nat, f: Frame): Mem
    requires t in m.tables && k < |m.tables[t]| && t in m.lab && !m.lab[t].L0?
  {
    m.(tables := m.tables[f := EmptyTable()][t := m.tables[t][k := PointerTo(f)]],
    lab := m.lab[f := Below(m.lab[t], k)],
    data := m.data - {f}, own := m.own - {f})
  }

  lemma TakeValid(m: Mem, f: Frame, o: Owner, page: Page)
    requires Valid(m) && f in m.free && !o.User? && (o.Held? ==> IsRoot(m.lab, o.root)) && |page| == PGSIZE
    ensures Valid(Take(m, f, o, page))
    ensures o.Held? ==> OnlyRoot(m, Take(m, f, o, page), o.root)
  {
    hide Tree, Flat, OnlyRoot;
    var b := Take(m, f, o, page);
    forall g | g in b.own
      ensures MappedWhereItSays(b, g)
    {
      if g != f {
        assert MappedWhereItSays(m, g);
      }
    }
    TakeOnly(m, f, o, page);
  }

  lemma TakeOnly(m: Mem, f: Frame, o: Owner, page: Page)
    requires Frames(m) && f in m.free
    ensures o.Held? ==> OnlyRoot(m, Take(m, f, o, page), o.root)
  {
    if o.Held? {
      var b := Take(m, f, o, page);
      assert f !in m.own by { assert m.own.Keys == m.data.Keys; }
      assert Owned(b, o.root) == Owned(m, o.root) + {f};
      assert ForeignData(b, o.root) == ForeignData(m, o.root);
      assert m.free - {f} + (Owned(m, o.root) + {f}) == m.free + Owned(m, o.root);
    }
  }

  lemma GiveValid(m: Mem, f: Frame, root: Frame)
    requires Valid(m) && f in m.own
    ensures Valid(Give(m, f))
    ensures Owns(m.own[f], root) ==> OnlyRoot(m, Give(m, f), root)
  {
    hide Tree, Flat;
    var b := Give(m, f);
    forall g | g in b.own
      ensures MappedWhereItSays(b, g)
    {
      assert MappedWhereItSays(m, g);
    }
  }

  lemma FillValid(m: Mem, f: Frame, page: Page, root: Frame)
    requires Valid(m) && f in m.own && |page| == PGSIZE
    ensures Valid(Fill(m, f, page))
    ensures Owns(m.own[f], root) ==> OnlyRoot(m, Fill(m, f, page), root)
  {
    hide Tree, Flat;
    var b := Fill(m, f, page);
    forall g | g in b.own
      ensures MappedWhereItSays(b, g)
    {
      assert MappedWhereItSays(m, g);
    }
  }

  lemma ReassignValid(m: Mem, f: Frame, o: Owner, root: Frame)
    requires Valid(m) && f in m.own && MappedWhereItSays(Reassign(m, f, o), f)
    ensures Valid(Reassign(m, f, o))
    ensures Owns(m.own[f], root) && Owns(o, root) ==> OnlyRoot(m, Reassign(m, f, o), root)
  {
    hide Tree, Flat;
    var b := Reassign(m, f, o);
    forall g | g in b.own
      ensures MappedWhereItSays(b, g)
    {
      assert MappedWhereItSays(m, g);
    }
  }

  /** Storing a leaf or clearing one, where no frame's owner label relies on the old entry. */
  lemma SetPteValid(m: Mem, t: Frame, k: nat, e: Pte)
    requires Valid(m) && t in m.lab && m.lab[t].L0? && k < PTES && (e == ZERO || Leaf(e))
    requires || (e.v && e.ppn == m.tables[t][k].ppn)
             || forall f :: f in m.own ==> m.own[f] != User(m.lab[t].root, m.lab[t].p * PTES + k)
    ensures Valid(SetPte(m, t, k, e))
  {
    var b := SetPte(m, t, k, e);
    SetLeafTree(m.tables, m.lab, t, k, e);
    forall g | g in b.own
      ensures MappedWhereItSays(b, g)
    {
      assert MappedWhereItSays(m, g);
      if m.own[g].User? {
        SetLeafFlat(m.tables, m.lab, t, k, e, m.own[g].root, m.own[g].vpn);
      }
    }
  }

  lemma SetPteOnly(m: Mem, t: Frame, k: nat, e: Pte)
    requires Tree(m.tables, m.lab) && t in m.lab && k < PTES
    ensures t in m.tables && k < |m.tables[t]| && OnlyRoot(m, SetPte(m, t, k, e), m.lab[t].root)
  {
  }

  lemma LinkTree(m: Mem, t: Frame, k: nat, f: Frame)
    requires Valid(m) && t in m.lab && !m.lab[t].L0? && k < PTES && (m.lab[t].L2? ==> k < ROOT_USED)
    requires !m.tables[t][k].v && f in m.own
    ensures Tree(Link(m, t, k, f).tables, Link(m, t, k, f).lab)
  {
    hide Flat, Table0, Table1;
    assert TableOk(m.tables, m.lab, t);
    if m.lab[t].L2? {
      Grow1Tree(m.tables, m.lab, t, k, f);
    } else {
      Grow0Tree(m.tables, m.lab, t, k, f);
    }
  }

  lemma LinkFlat(m: Mem, t: Frame, k: nat, f: Frame, r: Frame, vpn: nat)
    requires Valid(m) && t in m.lab && !m.lab[t].L0? && k < PTES && (m.lab[t].L2? ==> k < ROOT_USED)
    requires !m.tables[t][k].v && f in m.own && IsRoot(m.lab, r)
    ensures Flat(Link(m, t, k, f).tables, r, vpn) == Flat(m.tables, r, vpn)
  {
    hide Flat, Table0, Table1;
    assert TableOk(m.tables, m.lab, t);
    if m.lab[t].L2? {
      Grow1Flat(m.tables, m.lab, t, k, f, r, vpn);
    } else {
      Grow0Flat(m.tables, m.lab, t, k, f, r, vpn);
    }
  }

  lemma LinkValid(m: Mem, t: Frame, k: nat, f: Frame)
    requires Valid(m) && t in m.lab && !m.lab[t].L0? && k < PTES && (m.lab[t].L2? ==> k < ROOT_USED)
    requires !m.tables[t][k].v && f in m.own && m.own[f] == Held(m.lab[t].root)
    ensures Valid(Link(m, t, k, f))
  {
    hide Flat, TableOk;
    var b := Link(m, t, k, f);
    LinkTree(m, t, k, f);
    forall g | g in b.own
      ensures MappedWhereItSays(b, g)
    {
      assert MappedWhereItSays(m, g);
      if m.own[g].User? {
        LinkFlat(m, t, k, f, m.own[g].root, m.own[g].vpn);
      }
    }
  }

  lemma LinkOnly(m: Mem, t: Frame, k: nat, f: Frame)
    requires Valid(m) && t in m.lab && !m.lab[t].L0? && k < PTES && f in m.own && m.own[f] == Held(m.lab[t].root)
    ensures OnlyRoot(m, Link(m, t, k, f), m.lab[t].root)
  {
    hide Valid, Tree, Frames;
    KeysAgree(m);
    assert t in m.tables.Keys;
    var b, root := Link(m, t, k, f), m.lab[t].root;
    assert ForeignTables(b, root) == ForeignTables(m, root);
    assert ForeignData(b, root) == ForeignData(m, root);
    assert Owned(b, root) == Owned(m, root);
  }

  lemma KeysAgree(m: Mem)
    requires Valid(m)
    ensures m.tables.Keys == m.lab.Keys && m.own.Keys == m.data.Keys && m.own.Keys !! m.tables.Keys
    ensures forall f :: f in m.tables ==> |m.tables[f]| == PTES
  {
  }

  /** The zeroed kernel frame f becomes the root of a new, empty tree. */
  ghost function Plant(m: Mem, f: Frame): Mem {
    m.(tables := m.tables[f := EmptyTable()], lab := m.lab[f := L2(f)], data := m.data - {f}, own := m.own - {f})
  }

  lemma PlantTable(tables: Tables, lab: Labels, f: Frame, g: Frame)
    requires Sized(tables) && f !in tables && f !in lab && g in tables && g in lab && TableOk(tables, lab, g)
    ensures TableOk(tables[f := EmptyTable()], lab[f := L2(f)], g)
  {
  }

  lemma PlantFlat(m: Mem, f: Frame, r: Frame, vpn: nat)
    requires Tree(m.tables, m.lab) && f !in m.tables
    ensures IsRoot(m.lab, r) ==> Flat(Plant(m, f).tables, r, vpn) == Flat(m.tables, r, vpn)
    ensures Flat(Plant(m, f).tables, f, vpn) == ZERO
  {
    if IsRoot(m.lab, r) && Table1(m.tables, r, vpn / PTES / PTES).Some? {
      Table1Label(m.tables, m.lab, r, vpn / PTES / PTES);
      if Table0(m.tables, r, vpn / PTES).Some? {
        Table0Label(m.tables, m.lab, r, vpn / PTES);
      }
    }
  }

  lemma PlantValid(m: Mem, f: Frame)
    requires Valid(m) && f in m.own && m.own[f].Kernel?
    ensures Valid(Plant(m, f)) && IsRoot(Plant(m, f).lab, f)
  {
    hide Flat;
    var b := Plant(m, f);
    forall g | g in b.tables
      ensures TableOk(b.tables, b.lab, g)
    {
      if g != f {
        PlantTable(m.tables, m.lab, f, g);
      }
    }
    forall g | g in b.own
      ensures MappedWhereItSays(b, g)
    {
      assert MappedWhereItSays(m, g);
      if m.own[g].User? {
        PlantFlat(m, f, m.own[g].root, m.own[g].vpn);
      }
    }
  }

  /** No table and no frame belongs to a root that is not one. */
  lemma OwnedNone(m: Mem, f: Frame)
    requires Valid(m) && !IsRoot(m.lab, f)
    ensures Owned(m, f) == {}
  {
    forall g | g in m.lab
      ensures m.lab[g].root != f
    {
      assert TableOk(m.tables, m.lab, g);
    }
    forall g | g in m.own
      ensures !Owns(m.own[g], f)
    {
      assert MappedWhereItSays(m, g);
    }
    assert forall g :: g !in Owned(m, f);
  }

  // ---------------------------------------------------------------- the state the kernel overwrites

  class Kmem {
    var tables: Tables
    var data: map<Frame, Page>
    var free: set<Frame>
    ghost var lab: Labels
    ghost var own: map<Frame, Owner>
    /** How often kalloc has returned 0 so far. */
    ghost var refusals: nat

    ghost function View(): Mem
      reads this
    {
      Mem(tables, lab, data, own, free)
    }

    /** kalloc: a frame with arbitrary contents, or 0; it may fail at any time, and must when no frame is free. */
    method Kalloc(ghost o: Owner) returns (f: Frame)
      requires Valid(View()) && !o.User?
      modifies this
      ensures f == 0 ==> View() == old(View()) && refusals == old(refusals) + 1
      ensures f != 0 ==> refusals == old(refusals)
      ensures f != 0 ==> f in old(free) && exists page :: |page| == PGSIZE && View() == Take(old(View()), f, o, page)
    {
      var fail: bool := *;
      if fail || free == {} {
        refusals := refusals + 1;
        return 0;
      }
      f :| f in free;
      var page: Page :| |page| == PGSIZE by { assert |ZeroPage()| == PGSIZE; }
      data := data[f := page];
      free := free - {f};
      own := own[f := o];
    }

    /** kfree of a data frame. */
    method Kfree(f: Frame)
      requires f in data
      modifies this`data, this`free, this`own
      ensures View() == Give(old(View()), f)
    {
      data := data - {f};
      free := free + {f};
      own := own - {f};
    }

    /** kfree of a page table. */
    method KfreeTable(f: Frame)
      requires f in tables
      modifies this`tables, this`free, this`lab
      ensures View() == Drop(old(View()), f)
    {
      tables := tables - {f};
      free := free + {f};
      lab := lab - {f};
    }

    method Memset(f: Frame)
      requires f in data
      modifies this`data
      ensures View() == Fill(old(View()), f, ZeroPage())
    {
      data := data[f := ZeroPage()];
    }

    /** memmove of a whole page. */
    method CopyPage(dst: Frame, src: Frame)
      requires dst in data && src in data
      modifies this`data
      ensures View() == Fill(old(View()), dst, old(data)[src])
    {
      data := data[dst := data[src]];
    }

    /** memmove of some bytes into a frame. */
    method StoreBytes(f: Frame, off: nat, bytes: seq<Byte>)
      requires f in data && off + |bytes| <= |data[f]|
      modifies this`data
      ensures View() == Fill(old(View()), f, Splice(old(data)[f], off, bytes))
    {
      data := data[f := Splice(data[f], off, bytes)];
    }

    /** `*pte = e` for a leaf or invalid entry. */
    method StoreLeaf(t: Frame, k: nat, e: Pte)
      requires t in tables && k < |tables[t]|
      modifies this`tables
      ensures View() == SetPte(old(View()), t, k, e)
    {
      tables := tables[t := tables[t][k := e]];
    }

    /** `*pte = PA2PTE(f) | PTE_V`: frame f starts to serve as a table, empty because its bytes are all zero. */
    method StorePointer(t: Frame, k: nat, f: Frame)
      requires t in tables && k < |tables[t]| && t in lab && !lab[t].L0? && f in data && data[f] == ZeroPage()
      modifies this`data, this`tables, this`lab, this`own
      ensures View() == Link(old(View()), t, k, f)
    {
      data := data - {f};
      tables := tables[f := EmptyTable()][t := tables[t][k := PointerTo(f)]];
      lab := lab[f := Below(lab[t], k)];
      own := own - {f};
    }

    /** Frame f starts to serve as the root of a page table, empty because its bytes are all zero. */
    method UseAsRoot(f: Frame)
      requires f in data && data[f] == ZeroPage()
      modifies this`data, this`tables, this`lab, this`own
      ensures View() == Plant(old(View()), f)
    {
      data := data - {f};
      tables := tables[f := EmptyTable()];
      lab := lab[f := L2(f)];
      own := own - {f};
    }

    ghost method SetOwner(f: Frame, o: Owner)
      modifies this`own
      ensures View() == Reassign(old(View()), f, o)
    {
      own := own[f := o];
    }
  }
}
