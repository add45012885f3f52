/** Sv39 page tables (`vm.c`) as three-level trees of 512-entry tables over physical frames, and the flat map from
    virtual page numbers to entries that a tree stands for. */
module PageTable {

  const PGSIZE: nat := 4096
  const PTES: nat := 512
  /** One bit less than the 39 bits of Sv39: xv6 leaves out sign extension. */
  const MAXVA: nat := 0x40_0000_0000
  const MAXVPN: nat := 0x400_0000
  /** The level-2 entries an address below MAXVA can select. */
  const ROOT_USED: nat := 256

  datatype Option<T> = None | Some(value: T)

  /** A physical page number. Frame 0 is never allocated: address 0 is the null pointer. */
  type Frame = nat

  type Byte = b: int | 0 <= b < 256

  /** A page-table entry: its flag bits and its physical page number. */
  datatype Pte = Pte(v: bool, r: bool, w: bool, x: bool, u: bool, ppn: Frame)

  const ZERO: Pte := Pte(false, false, false, false, false, 0)

  predicate Leaf(e: Pte) {
    e.v && (e.r || e.w || e.x)
  }

  predicate Pointer(e: Pte) {
    e.v && !e.r && !e.w && !e.x && !e.u
  }

  /** The entry walk stores for a new lower-level table. */
  function PointerTo(f: Frame): Pte {
    Pte(true, false, false, false, false, f)
  }

  type Tables = map<Frame, seq<Pte>>

  /** Where a table sits: the root of its tree and the address bits that lead to it. */
  datatype Label = L2(root: Frame) | L1(root: Frame, i: nat) | L0(root: Frame, p: nat)

  type Labels = map<Frame, Label>

  function EmptyTable(): (t: seq<Pte>)
    ensures |t| == PTES && forall k :: 0 <= k < PTES ==> t[k] == ZERO
  {
    seq(PTES, k => ZERO)
  }

  // ---------------------------------------------------------------- well-formed trees

  ghost predicate EntriesL2(tables: Tables, lab: Labels, f: Frame)
    requires f in tables && |tables[f]| == PTES
  {
    forall k :: 0 <= k < PTES && tables[f][k].v ==>
      k < ROOT_USED && Pointer(tables[f][k]) && tables[f][k].ppn in lab && lab[tables[f][k].ppn] == L1(f, k)
  }

  ghost predicate EntriesL1(tables: Tables, lab: Labels, f: Frame, root: Frame, i: nat)
    requires f in tables && |tables[f]| == PTES
  {
    forall k :: 0 <= k < PTES && tables[f][k].v ==>
      Pointer(tables[f][k]) && tables[f][k].ppn in lab && lab[tables[f][k].ppn] == L0(root, i * PTES + k)
  }

  ghost predicate EntriesL0(tables: Tables, f: Frame)
    requires f in tables && |tables[f]| == PTES
  {
    forall k :: 0 <= k < PTES ==> tables[f][k] == ZERO || Leaf(tables[f][k])
  }

  ghost predicate Sized(tables: Tables) {
    forall f :: f in tables ==> |tables[f]| == PTES
  }

  /** The entry of the root that leads to the level-1 table for i. */
  ghost predicate LinkedL1(tables: Tables, lab: Labels, root: Frame, i: nat, f: Frame)
    requires Sized(tables)
  {
    && root in tables && root in lab && lab[root] == L2(root) && i < ROOT_USED
    && tables[root][i].v && tables[root][i].ppn == f
  }

  /** The entries of the root and of a level-1 table that lead to the level-0 table for p. */
  ghost predicate LinkedL0(tables: Tables, lab: Labels, root: Frame, p: nat, f: Frame)
    requires Sized(tables)
  {
    && root in tables && p / PTES < ROOT_USED
    && var m := tables[root][p / PTES].ppn;
       && LinkedL1(tables, lab, root, p / PTES, m)
       && m in tables && m in lab && lab[m] == L1(root, p / PTES)
       && tables[m][p % PTES].v && tables[m][p % PTES].ppn == f
  }

  /** The entries of table f are what its place in a tree allows, and its place is reached by exactly one path. */
  ghost predicate TableOk(tables: Tables, lab: Labels, f: Frame)
    requires Sized(tables) && f in tables && f in lab
  {
    match lab[f]
    case L2(root) => root == f && EntriesL2(tables, lab, f)
    case L1(root, i) => LinkedL1(tables, lab, root, i, f) && EntriesL1(tables, lab, f, root, i)
    case L0(root, p) => LinkedL0(tables, lab, root, p, f) && EntriesL0(tables, f)
  }

  ghost predicate Tree(tables: Tables, lab: Labels) {
    && Sized(tables) && lab.Keys == tables.Keys
    && forall f :: f in tables ==> TableOk(tables, lab, f)
  }

  ghost predicate IsRoot(lab: Labels, root: Frame) {
    root in lab && lab[root] == L2(root)
  }

  // ---------------------------------------------------------------- the flat map

  /** The level-1 table for the top address bits i, if the root has one. */
  ghost function Table1(tables: Tables, root: Frame, i: nat): Option<Frame> {
    if root in tables && i < |tables[root]| && tables[root][i].v then Some(tables[root][i].ppn) else None
  }

  /** The level-0 table for the address bits p above the last nine, if the tree has grown that far. */
  ghost function Table0(tables: Tables, root: Frame, p: nat): Option<Frame> {
    match Table1(tables, root, p / PTES)
    case None => None
    case Some(m) =>
      if m in tables && p % PTES < |tables[m]| && tables[m][p % PTES].v then Some(tables[m][p % PTES].ppn) else None
  }

  /** The entry for a virtual page: what the three-level tree says, or the zero entry where it has not grown. */
  ghost function Flat(tables: Tables, root: Frame, vpn: nat): Pte {
    match Table0(tables, root, vpn / PTES)
    case None => ZERO
    case Some(t) => if t in tables && vpn % PTES < |tables[t]| then tables[t][vpn % PTES] else ZERO
  }

  lemma Table1Label(tables: Tables, lab: Labels, root: Frame, i: nat)
    requires Tree(tables, lab) && IsRoot(lab, root) && Table1(tables, root, i).Some?
    ensures i < ROOT_USED
    ensures var m := Table1(tables, root, i).value; m in tables && m in lab && lab[m] == L1(root, i)
  {
    assert TableOk(tables, lab, root);
  }

  lemma Table0Label(tables: Tables, lab: Labels, root: Frame, p: nat)
    requires Tree(tables, lab) && IsRoot(lab, root) && Table0(tables, root, p).Some?
    ensures p / PTES < ROOT_USED
    ensures var t := Table0(tables, root, p).value; t in tables && t in lab && lab[t] == L0(root, p)
  {
    Table1Label(tables, lab, root, p / PTES);
    var m := Table1(tables, root, p / PTES).value;
    assert TableOk(tables, lab, m);
    assert (p / PTES) * PTES + p % PTES == p;
  }

  /** The label of a level-0 table tells which pages it maps. */
  lemma LabelTable0(tables: Tables, lab: Labels, t: Frame)
    requires Tree(tables, lab) && t in lab && lab[t].L0?
    ensures IsRoot(lab, lab[t].root) && Table0(tables, lab[t].root, lab[t].p) == Some(t)
  {
    assert TableOk(tables, lab, t);
  }

  /** An entry found through the flat map is a leaf or zero. */
  lemma FlatIsLeaf(tables: Tables, lab: Labels, root: Frame, vpn: nat)
    requires Tree(tables, lab) && IsRoot(lab, root)
    ensures Flat(tables, root, vpn) == ZERO || (Leaf(Flat(tables, root, vpn)) && vpn < MAXVPN)
  {
    if Table0(tables, root, vpn / PTES).Some? {
      Table0Label(tables, lab, root, vpn / PTES);
      assert TableOk(tables, lab, Table0(tables, root, vpn / PTES).value);
    }
  }

  // ---------------------------------------------------------------- storing a leaf entry

  /** Storing e, a leaf or an invalid entry, at index k of the level-0 table t. */
  lemma SetLeafTree(tables: Tables, lab: Labels, t: Frame, k: nat, e: Pte)
    requires Tree(tables, lab) && t in lab && lab[t].L0? && k < PTES && (e == ZERO || Leaf(e))
    ensures Tree(tables[t := tables[t][k := e]], lab)
  {
    var tables' := tables[t := tables[t][k := e]];
    forall f | f in tables'
      ensures TableOk(tables', lab, f)
    {
      assert TableOk(tables, lab, f);
      SetLeafTable(tables, lab, t, k, e, f);
    }
  }

  lemma SetLeafTable(tables: Tables, lab: Labels, t: Frame, k: nat, e: Pte, f: Frame)
    requires Sized(tables) && t in tables && t in lab && lab[t].L0? && k < PTES && (e == ZERO || Leaf(e))
    requires f in tables && f in lab && TableOk(tables, lab, f)
    ensures Sized(tables[t := tables[t][k := e]]) && TableOk(tables[t := tables[t][k := e]], lab, f)
  {
  }

  /** Only one page's entry changes in the flat map, for one root. */
  lemma SetLeafFlat(tables: Tables, lab: Labels, t: Frame, k: nat, e: Pte, root: Frame, vpn: nat)
    requires Tree(tables, lab) && t in lab && lab[t].L0? && k < PTES && IsRoot(lab, root)
    ensures Table0(tables[t := tables[t][k := e]], root, vpn / PTES) == Table0(tables, root, vpn / PTES)
    ensures Flat(tables[t := tables[t][k := e]], root, vpn) ==
            if root == lab[t].root && vpn == lab[t].p * PTES + k then e else Flat(tables, root, vpn)
  {
    var tables' := tables[t := tables[t][k := e]];
    if Table1(tables, root, vpn / PTES / PTES).Some? {
      Table1Label(tables, lab, root, vpn / PTES / PTES);
    }
    if Table0(tables, root, vpn / PTES).Some? {
      Table0Label(tables, lab, root, vpn / PTES);
    }
    LabelTable0(tables, lab, t);
    assert vpn == vpn / PTES * PTES + vpn % PTES;
    assert Table0(tables', root, vpn / PTES) == Table0(tables, root, vpn / PTES);
  }

  // ---------------------------------------------------------------- growing the tree

  ghost function Grow1(tables: Tables, root: Frame, i: nat, f: Frame): Tables
    requires root in tables && i < |tables[root]|
  {
    tables[f := EmptyTable()][root := tables[root][i := PointerTo(f)]]
  }

  /** A new empty level-1 table under an unused root entry changes nothing in the flat map. */
  lemma Grow1Tree(tables: Tables, lab: Labels, root: Frame, i: nat, f: Frame)
    requires Tree(tables, lab) && IsRoot(lab, root) && i < ROOT_USED && f !in tables && !tables[root][i].v
    ensures Tree(Grow1(tables, root, i, f), lab[f := L1(root, i)])
  {
    var tables', lab' := Grow1(tables, root, i, f), lab[f := L1(root, i)];
    forall g | g in tables'
      ensures TableOk(tables', lab', g)
    {
      if g != f {
        assert TableOk(tables, lab, g) && TableOk(tables, lab, root);
        Grow1Table(tables, lab, root, i, f, g);
      }
    }
  }

  lemma Grow1Table(tables: Tables, lab: Labels, root: Frame, i: nat, f: Frame, g: Frame)
    requires Sized(tables) && IsRoot(lab, root) && root in tables && i < ROOT_USED && f !in tables && f !in lab && !tables[root][i].v
    requires g in tables && g in lab && TableOk(tables, lab, g)
    ensures Sized(Grow1(tables, root, i, f)) && TableOk(Grow1(tables, root, i, f), lab[f := L1(root, i)], g)
  {
  }

  lemma Grow1Flat(tables: Tables, lab: Labels, root: Frame, i: nat, f: Frame, r: Frame, vpn: nat)
    requires Tree(tables, lab) && IsRoot(lab, root) && i < ROOT_USED && f !in tables && !tables[root][i].v && IsRoot(lab, r)
    ensures Table0(Grow1(tables, root, i, f), r, vpn / PTES) == Table0(tables, r, vpn / PTES)
    ensures Flat(Grow1(tables, root, i, f), r, vpn) == Flat(tables, r, vpn)
  {
    if Table1(tables, r, vpn / PTES / PTES).Some? {
      Table1Label(tables, lab, r, vpn / PTES / PTES);
    }
    if Table0(tables, r, vpn / PTES).Some? {
      Table0Label(tables, lab, r, vpn / PTES);
    }
  }

  ghost function Grow0(tables: Tables, m: Frame, k: nat, f: Frame): Tables
    requires m in tables && k < |tables[m]|
  {
    tables[f := EmptyTable()][m := tables[m][k := PointerTo(f)]]
  }

  /** Likewise for a new empty level-0 table, except that its pages now have a place to store their entries. */
  lemma Grow0Tree(tables: Tables, lab: Labels, m: Frame, k: nat, f: Frame)
    requires Tree(tables, lab) && m in lab && lab[m].L1? && k < PTES && f !in tables && !tables[m][k].v
    ensures Tree(Grow0(tables, m, k, f), lab[f := L0(lab[m].root, lab[m].i * PTES + k)])
  {
    var p := lab[m].i * PTES + k;
    var tables', lab' := Grow0(tables, m, k, f), lab[f := L0(lab[m].root, p)];
    assert TableOk(tables, lab, m);
    forall g | g in tables'
      ensures TableOk(tables', lab', g)
    {
      if g == f {
        assert p / PTES == lab[m].i && p % PTES == k;
      } else {
        assert TableOk(tables, lab, g);
        Grow0Table(tables, lab, m, k, f, g);
      }
    }
  }

  lemma Grow0Table(tables: Tables, lab: Labels, m: Frame, k: nat, f: Frame, g: Frame)
    requires Sized(tables) && m in tables && m in lab && lab[m].L1? && k < PTES && f !in tables && f !in lab && !tables[m][k].v
    requires g in tables && g in lab && TableOk(tables, lab, g)
    ensures Sized(Grow0(tables, m, k, f))
    ensures TableOk(Grow0(tables, m, k, f), lab[f := L0(lab[m].root, lab[m].i * PTES + k)], g)
  {
  }

  lemma Grow0Flat(tables: Tables, lab: Labels, m: Frame, k: nat, f: Frame, r: Frame, vpn: nat)
    requires Tree(tables, lab) && m in lab && lab[m].L1? && k < PTES && f !in tables && !tables[m][k].v && IsRoot(lab, r)
    ensures Flat(Grow0(tables, m, k, f), r, vpn) == Flat(tables, r, vpn)
    ensures Table0(Grow0(tables, m, k, f), r, vpn / PTES) ==
            if r == lab[m].root && vpn / PTES == lab[m].i * PTES + k then Some(f) else Table0(tables, r, vpn / PTES)
  {
    var p := vpn / PTES;
    assert TableOk(tables, lab, m);
    if Table1(tables, r, p / PTES).Some? {
      Table1Label(tables, lab, r, p / PTES);
    }
    if Table0(tables, r, p).Some? {
      Table0Label(tables, lab, r, p);
    }
    assert p == p / PTES * PTES + p % PTES;
    assert (lab[m].i * PTES + k) / PTES == lab[m].i && (lab[m].i * PTES + k) % PTES == k;
  }
}
