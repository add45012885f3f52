/** The user stack that exec builds (`exec.c`, lines 78-110): a guard page, and below the top of the page above it the
    argument strings and the array of pointers to them. */
module ExecStack {
  import opened DivMod
  import opened PageTable
  import opened Memory
  import opened Paging
  import opened Uvm
  import opened UserMemory
  import opened UserCopy
  import opened ProcMem
  import opened ProcSlots
  import opened ExecImage

  // ---------------------------------------------------------------- pointers as bytes

  function Le64(n: nat): (b: seq<Byte>)
    ensures |b| == 8
  {
    [n % 256, n / 0x100 % 256, n / 0x1_0000 % 256, n / 0x100_0000 % 256,
     n / 0x1_0000_0000 % 256, n / 0x100_0000_0000 % 256, n / 0x1_0000_0000_0000 % 256, n / 0x100_0000_0000_0000 % 256]
  }

  function FromLe64(b: seq<Byte>): nat
    requires |b| == 8
  {
    var d := (i: nat) requires i < 8 => b[i] as int;
    d(0) + 0x100 * d(1) + 0x1_0000 * d(2) + 0x100_0000 * d(3)
    + 0x1_0000_0000 * d(4) + 0x100_0000_0000 * d(5) + 0x1_0000_0000_0000 * d(6) + 0x100_0000_0000_0000 * d(7)
  }

  lemma Le64RoundTrip(n: nat)
    requires n < U64
    ensures FromLe64(Le64(n)) == n
  {
    assert n / 0x1_0000 == n / 0x100 / 0x100;
    assert n / 0x100_0000 == n / 0x1_0000 / 0x100;
    assert n / 0x1_0000_0000 == n / 0x100_0000 / 0x100;
    assert n / 0x100_0000_0000 == n / 0x1_0000_0000 / 0x100;
    assert n / 0x1_0000_0000_0000 == n / 0x100_0000_0000 / 0x100;
    assert n / 0x100_0000_0000_0000 == n / 0x1_0000_0000_0000 / 0x100;
    assert n / 0x100_0000_0000_0000 < 0x100;
  }

  /** An array of 64-bit words as it lies in memory. */
  function Words(s: seq<nat>): (b: seq<Byte>)
    ensures |b| == 8 * |s|
  {
    if s == [] then [] else Le64(s[0]) + Words(s[1..])
  }

  lemma {:induction false} WordAt(s: seq<nat>, j: nat)
    requires j < |s|
    ensures Words(s)[8 * j..8 * j + 8] == Le64(s[j])
  {
    if j > 0 {
      WordAt(s[1..], j - 1);
      assert Words(s)[8..] == Words(s[1..]);
      assert Words(s)[8 * j..8 * j + 8] == Words(s)[8..][8 * (j - 1)..8 * (j - 1) + 8];
    }
  }

  lemma SpaceLayout(m: Mem, root: Frame, sz: nat, shown: Shown)
    requires Space(m, root, sz, shown)
    ensures Valid(m) && Layout(m, root, sz, ALL_SPECIAL)
  {
    hide Valid, Layout, SpecialEntries;
  }

  // ---------------------------------------------------------------- what the stack holds

  /** The last page below top holds, from sp up, the array of pointers to the arguments with a final null, and above it
      the arguments with their NULs; sp and every pointer are 16-byte aligned. */
  ghost predicate StackHolds(m: Mem, root: Frame, argv: seq<seq<Byte>>, ptrs: seq<nat>, sp: nat, top: nat) {
    && |ptrs| == |argv| && sp % 16 == 0 && top <= sp + PGSIZE
    && Reads(m, root, sp, Words(ptrs + [0]))
    && Placed(m, root, argv, ptrs, sp + 8 * (|argv| + 1), top)
  }

  /** The arguments lie between sp and top, where their pointers say. */
  ghost predicate Placed(m: Mem, root: Frame, argv: seq<seq<Byte>>, ptrs: seq<nat>, sp: nat, top: nat) {
    && |ptrs| <= |argv|
    && forall j :: 0 <= j < |ptrs| ==>
         && sp <= ptrs[j] && ptrs[j] + |argv[j]| + 1 <= top && ptrs[j] % 16 == 0
         && Reads(m, root, ptrs[j], argv[j] + [0])
  }

  /** No user code may touch the page below the stack page. */
  ghost predicate Guarded(m: Mem, root: Frame, top: nat) {
    forall va: nat :: top <= va + 2 * PGSIZE && va + PGSIZE < top ==> UserByte(m, root, va) == None
  }

  ghost predicate SameBelow(a: Mem, b: Mem, root: Frame, limit: nat) {
    forall va: nat :: va < limit ==> UserByte(b, root, va) == UserByte(a, root, va)
  }

  predicate CString(s: seq<Byte>) {
    forall i :: 0 <= i < |s| ==> s[i] != 0
  }

  /** A string as copyinstr delivers it: up to and with its first NUL. */
  predicate Terminated(s: seq<Byte>) {
    |s| > 0 && s[|s| - 1] == 0 && CString(s[..|s| - 1])
  }

  /** At one address there is only one string. */
  lemma OneString(m: Mem, root: Frame, va: nat, s: seq<Byte>, t: seq<Byte>)
    requires Reads(m, root, va, s) && Reads(m, root, va, t) && Terminated(s) && Terminated(t)
    ensures s == t
  {
    hide UserByte;
    forall i | 0 <= i < |s| && i < |t|
      ensures s[i] == t[i]
    {
      assert UserByte(m, root, va + i) == Some(s[i]);
    }
    assert forall i :: 0 <= i < |t| - 1 ==> t[..|t| - 1][i] == t[i];
    assert forall i :: 0 <= i < |s| - 1 ==> s[..|s| - 1][i] == s[i];
  }

  /** What the new program finds: word j of the array is the pointer to argument j, the word after the last is null,
      and a string read there is the argument. */
  lemma StackReadsBack(m: Mem, root: Frame, argv: seq<seq<Byte>>, ptrs: seq<nat>, sp: nat, top: nat, j: nat,
      word: seq<Byte>, s: seq<Byte>)
    requires StackHolds(m, root, argv, ptrs, sp, top) && top < U64 && j <= |argv|
    requires |word| == 8 && Reads(m, root, sp + 8 * j, word)
    ensures j == |argv| ==> FromLe64(word) == 0
    ensures j < |argv| && CString(argv[j]) && Reads(m, root, FromLe64(word), s) && Terminated(s) ==> s == argv[j] + [0]
  {
    hide UserByte, Le64, FromLe64;
    var all := ptrs + [0];
    WordAt(all, j);
    forall i | 0 <= i < 8
      ensures word[i] == Le64(all[j])[i]
    {
      assert UserByte(m, root, sp + 8 * j + i) == Some(word[i]);
      assert Words(all)[8 * j..8 * j + 8][i] == Words(all)[8 * j + i];
      assert UserByte(m, root, sp + (8 * j + i)) == Some(Words(all)[8 * j + i]);
    }
    assert word == Le64(all[j]);
    assert j < |argv| ==> ptrs[j] + |argv[j]| + 1 <= top;
    Le64RoundTrip(all[j]);
    if j < |argv| && CString(argv[j]) && Reads(m, root, FromLe64(word), s) && Terminated(s) {
      assert (argv[j] + [0])[..|argv[j]|] == argv[j];
      OneString(m, root, ptrs[j], s, argv[j] + [0]);
    }
  }

  // ---------------------------------------------------------------- pushing

  /** Writing strictly below what is placed keeps it. */
  lemma StillPlaced(m: Mem, c: Mem, root: Frame, argv: seq<seq<Byte>>, ptrs: seq<nat>, sp: nat, top: nat, va: nat,
      bytes: seq<Byte>)
    requires Placed(m, root, argv, ptrs, sp, top) && Wrote(m, c, root, va, bytes) && va + |bytes| <= sp
    ensures Placed(c, root, argv, ptrs, va + |bytes|, top)
  {
    hide UserByte;
    forall j | 0 <= j < |ptrs|
      ensures Reads(c, root, ptrs[j], argv[j] + [0])
    {
      StillReads(m, c, root, va, bytes, ptrs[j], argv[j] + [0]);
    }
  }

  lemma StillReads(m: Mem, c: Mem, root: Frame, va: nat, bytes: seq<Byte>, v: nat, s: seq<Byte>)
    requires Wrote(m, c, root, va, bytes) && Reads(m, root, v, s) && va + |bytes| <= v
    ensures Reads(c, root, v, s)
  {
    hide UserByte;
  }

  lemma WroteReads(m: Mem, c: Mem, root: Frame, va: nat, bytes: seq<Byte>)
    requires Wrote(m, c, root, va, bytes)
    ensures Reads(c, root, va, bytes)
  {
    hide UserByte;
  }

  lemma PushedArg(m: Mem, c: Mem, root: Frame, argv: seq<seq<Byte>>, ptrs: seq<nat>, sp: nat, top: nat, va: nat)
    requires Placed(m, root, argv, ptrs, sp, top) && |ptrs| < |argv| && sp <= top && va % 16 == 0
    requires Wrote(m, c, root, va, argv[|ptrs|] + [0]) && va + |argv[|ptrs|]| + 1 <= sp
    ensures Placed(c, root, argv, ptrs + [va], va, top)
  {
    hide UserByte, Wrote, Reads;
    StillPlaced(m, c, root, argv, ptrs, sp, top, va, argv[|ptrs|] + [0]);
    WroteReads(m, c, root, va, argv[|ptrs|] + [0]);
  }

  lemma SameBelowWrote(a: Mem, m: Mem, c: Mem, root: Frame, limit: nat, va: nat, bytes: seq<Byte>)
    requires SameBelow(a, m, root, limit) && Wrote(m, c, root, va, bytes) && limit <= va
    ensures SameBelow(a, c, root, limit)
  {
    hide UserByte;
  }

  lemma ClearedSpace(a: Mem, b: Mem, root: Frame, sz: nat, shown: Shown, vpn: nat)
    requires Space(a, root, sz, shown) && Valid(b) && Extends(a, b, root) && vpn < Pages(sz)
    requires forall v: nat ::
               var e := Flat(a.tables, root, v); Flat(b.tables, root, v) == if v == vpn then e.(u := false) else e
    ensures OnlyRoot(a, b, root) && Space(b, root, sz, shown)
  {
    hide OnlyRoot, Flat, Valid, Pages, Table0;
  }

  lemma ClearedBytes(a: Mem, b: Mem, root: Frame, vpn: nat, va: nat)
    requires b.data == a.data
    requires forall v: nat ::
               var e := Flat(a.tables, root, v); Flat(b.tables, root, v) == if v == vpn then e.(u := false) else e
    ensures UserByte(b, root, va) == if va / PGSIZE == vpn then None else UserByte(a, root, va)
  {
    hide Flat;
  }

  /** The address space with the guard page taken out of the user's reach. */
  lemma Guarding(a: Mem, b: Mem, root: Frame, vpn: nat)
    requires Extends(a, b, root)
    requires forall v: nat ::
               var e := Flat(a.tables, root, v); Flat(b.tables, root, v) == if v == vpn then e.(u := false) else e
    ensures Guarded(b, root, Addr(vpn + 2)) && SameBelow(a, b, root, Addr(vpn))
  {
    hide Flat, UserByte, OnlyRoot, Table0;
    forall va: nat
      ensures UserByte(b, root, va) == if va / PGSIZE == vpn then None else UserByte(a, root, va)
    {
      ClearedBytes(a, b, root, vpn, va);
    }
    assert forall va: nat :: Addr(vpn) <= va < Addr(vpn + 1) ==> va / PGSIZE == vpn;
    assert forall va: nat :: va < Addr(vpn) ==> va / PGSIZE != vpn;
  }

  /** All of the stack page is user memory. */
  ghost predicate Writable(m: Mem, root: Frame, top: nat) {
    forall va: nat :: top <= va + PGSIZE && va < top ==> UserByte(m, root, va).Some?
  }

  /** Half-way: the first arguments are placed, in an address space whose image and guard page are untouched. */
  ghost predicate Pushing(a: Mem, g: Mem, m: Mem, root: Frame, argv: seq<seq<Byte>>, ptrs: seq<nat>, sp: nat, top: nat,
      shown: Shown) {
    && PGSIZE <= top && top == Addr(Pages(top)) && Placed(m, root, argv, ptrs, sp, top)
    && OnlyRoot(a, m, root) && Space(m, root, top, shown) && SameBelow(g, m, root, top - PGSIZE)
    && m.tables == g.tables && Writable(m, root, top)
  }

  lemma WroteWritable(m: Mem, c: Mem, root: Frame, top: nat, va: nat, bytes: seq<Byte>)
    requires Wrote(m, c, root, va, bytes) && Writable(m, root, top)
    ensures Writable(c, root, top)
  {
    hide UserByte;
  }

  lemma PushedBytes(a: Mem, g: Mem, m: Mem, c: Mem, root: Frame, argv: seq<seq<Byte>>, ptrs: seq<nat>, sp: nat, top: nat,
      shown: Shown, va: nat, bytes: seq<Byte>)
    requires Pushing(a, g, m, root, argv, ptrs, sp, top, shown) && Valid(c) && Wrote(m, c, root, va, bytes)
    requires top <= va + PGSIZE && va + |bytes| <= sp <= top
    ensures Pushing(a, g, c, root, argv, ptrs, va + |bytes|, top, shown)
  {
    hide UserByte, Wrote, Reads, Space, OnlyRoot, Valid, Pages, Addr, Writable;
    WroteInside(m, c, root, top, shown, va, bytes);
    WroteParts(m, c, root, va, bytes);
    WroteWritable(m, c, root, top, va, bytes);
    OnlyRootTrans(a, m, c, root);
    StillPlaced(m, c, root, argv, ptrs, sp, top, va, bytes);
    SameBelowWrote(g, m, c, root, top - PGSIZE, va, bytes);
  }

  lemma PushingOne(a: Mem, g: Mem, m: Mem, c: Mem, root: Frame, argv: seq<seq<Byte>>, ptrs: seq<nat>, sp: nat, top: nat,
      shown: Shown, va: nat)
    requires Pushing(a, g, m, root, argv, ptrs, sp, top, shown) && Valid(c) && |ptrs| < |argv| && va % 16 == 0
    requires Wrote(m, c, root, va, argv[|ptrs|] + [0]) && top <= va + PGSIZE && va + |argv[|ptrs|]| + 1 <= sp <= top
    ensures Pushing(a, g, c, root, argv, ptrs + [va], va, top, shown)
  {
    hide UserByte, Wrote, Reads, Space, OnlyRoot, Valid, Pages, Addr, Placed, SameBelow, Writable;
    PushedBytes(a, g, m, c, root, argv, ptrs, sp, top, shown, va, argv[|ptrs|] + [0]);
    PushedArg(m, c, root, argv, ptrs, sp, top, va);
  }

  lemma PushingSpace(a: Mem, g: Mem, m: Mem, root: Frame, argv: seq<seq<Byte>>, ptrs: seq<nat>, sp: nat, top: nat,
      shown: Shown)
    requires Pushing(a, g, m, root, argv, ptrs, sp, top, shown)
    ensures OnlyRoot(a, m, root) && Space(m, root, top, shown) && Valid(m) && IsRoot(m.lab, root)
    ensures Backed(m, root) && Distinct(m, root) && Writable(m, root, top)
  {
    hide UserByte, Space, OnlyRoot, Valid, Pages, Addr, Placed, SameBelow, Flat, Writable;
    SpaceBacked(m, root, top, shown);
    SpaceValid(m, root, top, shown);
  }

  /** Two more pages, the lower one a guard. The image below is unchanged. */
  lemma StackReady(a: Mem, b: Mem, g: Mem, root: Frame, sz: nat, top: nat, shown: Shown, argv: seq<seq<Byte>>)
    requires Space(b, root, top, shown) && OnlyRoot(a, b, root) && Grew(a, b, root, sz, top)
    requires sz == Addr(Pages(sz)) && top == sz + 2 * PGSIZE && Valid(g) && Extends(b, g, root)
    requires forall v: nat ::
               var e := Flat(b.tables, root, v);
               Flat(g.tables, root, v) == if v == Vpn(sz) then e.(u := false) else e
    requires HeapPages(b, root, Pages(sz), Pages(top), true, false)
    ensures Pushing(a, g, g, root, argv, [], top, top, shown) && Guarded(g, root, top) && SameBelow(a, g, root, sz)
    ensures StackEntries(g, root, top)
  {
    hide UserByte, OnlyRoot, Valid, Flat, Extends, Space;
    assert Vpn(sz) == Pages(sz) && Pages(top) == Pages(sz) + 2 && Addr(Pages(top)) == top == Addr(Vpn(sz) + 2);
    ClearedSpace(b, g, root, top, shown, Vpn(sz));
    OnlyRootTrans(a, b, g, root);
    Guarding(b, g, root, Vpn(sz));
    SpaceLayout(b, root, top, shown);
    LayoutSize(b, root, top, ALL_SPECIAL);
    ExtendsOnly(b, g, root);
    StackWritable(a, b, g, root, sz, top);
  }

  /** The page below top is readable and writable user memory that cannot be executed; the one below it is mapped, but
      not for user code. */
  ghost predicate StackEntries(m: Mem, root: Frame, top: nat) {
    top >= 2 * PGSIZE &&
    var e, g := Flat(m.tables, root, Vpn(top - PGSIZE)), Flat(m.tables, root, Vpn(top - 2 * PGSIZE));
    e.v && e.r && e.w && !e.x && e.u && g.v && !g.u
  }

  lemma StackWritable(a: Mem, b: Mem, g: Mem, root: Frame, sz: nat, top: nat)
    requires Grew(a, b, root, sz, top) && sz == Addr(Pages(sz)) && top == sz + 2 * PGSIZE && g.data == b.data
    requires Addr(Pages(top)) == top
    requires forall v: nat ::
               var e := Flat(b.tables, root, v);
               Flat(g.tables, root, v) == if v == Vpn(sz) then e.(u := false) else e
    ensures Writable(g, root, top)
  {
    hide UserByte, Flat, Pages;
    forall va: nat | top <= va + PGSIZE && va < top
      ensures UserByte(g, root, va).Some?
    {
      ClearedBytes(b, g, root, Vpn(sz), va);
      assert va / PGSIZE != Vpn(sz);
    }
  }

  lemma StackDone(a: Mem, g: Mem, m: Mem, c: Mem, root: Frame, argv: seq<seq<Byte>>, ptrs: seq<nat>, was: nat, sp: nat,
      sz: nat, top: nat, shown: Shown)
    requires Pushing(a, g, m, root, argv, ptrs, was, top, shown) && Valid(c) && |ptrs| == |argv| && sp % 16 == 0
    requires Wrote(m, c, root, sp, Words(ptrs + [0])) && sp + 8 * (|argv| + 1) <= was <= top <= sp + PGSIZE
    requires top == sz + 2 * PGSIZE && Guarded(g, root, top) && SameBelow(a, g, root, sz)
    ensures OnlyRoot(a, c, root) && Space(c, root, top, shown)
    ensures StackHolds(c, root, argv, ptrs, sp, top) && Guarded(c, root, top) && SameBelow(a, c, root, sz)
    ensures c.tables == g.tables
  {
    hide UserByte, Wrote, Reads, Space, OnlyRoot, Valid, Pages, Addr, Words;
    PushedBytes(a, g, m, c, root, argv, ptrs, was, top, shown, sp, Words(ptrs + [0]));
    WroteReads(m, c, root, sp, Words(ptrs + [0]));
  }

  // ---------------------------------------------------------------- exec, lines 78-110

  /** sp after `sp -= sp % 16`. */
  function Align16(sp: nat): (r: nat)
    ensures r % 16 == 0 && r <= sp < r + 16
  {
    sp - sp % 16
  }

  /** The least multiple of 16 from n up. */
  function RoundUp16(n: nat): nat {
    (n + 15) / 16 * 16
  }

  /** The bytes of stack that the first n arguments take. */
  function ArgBytes(argv: seq<seq<Byte>>, n: nat): (r: nat)
    requires n <= |argv|
    ensures r % 16 == 0
  {
    if n == 0 then 0 else RoundUp16(ArgBytes(argv, n - 1) + |argv[n - 1]| + 1)
  }

  /** The bytes of stack that the arguments and the pointers to them take. */
  function StackUse(argv: seq<seq<Byte>>): nat {
    RoundUp16(ArgBytes(argv, |argv|) + 8 * (|argv| + 1))
  }

  lemma {:induction false} ArgBytesGrow(argv: seq<seq<Byte>>, n: nat)
    requires n <= |argv|
    ensures ArgBytes(argv, n) <= ArgBytes(argv, |argv|) <= StackUse(argv)
    decreases |argv| - n
  {
    if n < |argv| {
      ArgBytesGrow(argv, n + 1);
    }
  }

  /** Aligning the stack pointer down takes as much as rounding the bytes used up. */
  lemma AlignIsRoundUp(top: nat, used: nat, n: nat)
    requires top % 16 == 0 && used + n <= top
    ensures Align16(top - used - n) == top - RoundUp16(used + n)
  {
    var sp := Align16(top - used - n);
    var q := RoundUp16(used + n);
    assert (top - sp) % 16 == 0;
    assert used + n <= top - sp < used + n + 16;
    assert used + n <= q < used + n + 16;
    MultiplesApart(top - sp, q);
  }

  lemma MultiplesApart(a: nat, b: nat)
    requires a % 16 == 0 && b % 16 == 0 && a < b + 16 && b < a + 16
    ensures a == b
  {
  }

  /** Builds the stack above an image of size sz. With fewer than MAXARG arguments of at most a page each it succeeds
      exactly when everything fits in one page and no allocation is refused, and then the result reads back; with more
      than MAXARG it fails. In any case only this address space has changed. */
  method BuildStack(k: Kmem, root: Frame, sz0: nat, argv: seq<seq<Byte>>, ghost shown: Shown)
    returns (ok: bool, sz: nat, sp: nat, ghost ptrs: seq<nat>)
    requires Space(k.View(), root, sz0, shown) && SmallMachine(k.View())
    requires |argv| != MAXARG && forall j :: 0 <= j < |argv| ==> |argv[j]| < PGSIZE
    modifies k
    ensures OnlyRoot(old(k.View()), k.View(), root) && Space(k.View(), root, sz, shown)
    ensures ok ==> sz == PgRoundUp(sz0) + 2 * PGSIZE && StackUse(argv) <= sz && sp == sz - StackUse(argv)
    ensures ok <==> |argv| < MAXARG && StackUse(argv) <= PGSIZE && k.refusals == old(k.refusals)
    ensures ok ==> StackHolds(k.View(), root, argv, ptrs, sp, sz) && Guarded(k.View(), root, sz)
    ensures ok ==> SameBelow(old(k.View()), k.View(), root, PgRoundUp(sz0))
    ensures ok ==> StackEntries(k.View(), root, sz) && SameEntries(old(k.View()), k.View(), root, Pages(sz0))
  {
    hide Valid, OnlyRoot, Layout, Populated, Zeroed, Grown, Flat, Pages, UserByte, Backed, Distinct, Wrote, Grew, Words,
      AllFrames, SmallMachine, NotMapped, Space, SameBelow, Placed, StackHolds, Guarded, Pushing, Extends, TableFor, Addr, Vpn,
      PgRoundUp, Align16, HeapPages, StackEntries, SameEntries, ArgBytes, StackUse, RoundUp16, Writable;
    ghost var a := k.View();
    ptrs := [];
    sp := 0;
    SpaceRounded(a, root, sz0, shown);
    sz := PgRoundUp(sz0);
    SpaceToGrow(a, root, sz, shown);
    var sz1 := Uvmalloc(k, root, sz, sz + 2 * PGSIZE, Perm(false, true, false, false));
    ghost var b := k.View();
    GrewSpace(a, b, root, sz, sz + 2 * PGSIZE, sz1, shown, Perm(false, true, false, false));
    if sz1 == 0 {
      return false, sz, sp, ptrs;
    }
    ghost var image := sz;
    sz := sz1;
    RoomForStack(b, root, image, sz, shown);
    Uvmclear(k, root, sz - 2 * PGSIZE);
    ghost var g := k.View();
    StackReady(a, b, g, root, image, sz, shown, argv);
    StackAbove(a, b, g, root, sz0, sz);
    ArgBytesNone(argv);
    sp := sz;
    var stackbase := sp - PGSIZE;
    var argc, ustack := 0, [];
    while argc < |argv|
      invariant argc <= |argv| && argc <= MAXARG && |ustack| == argc
      invariant stackbase <= sp <= sz && sp % 16 == 0
      invariant Pushing(a, g, k.View(), root, argv, ustack, sp, sz, shown)
      invariant sp == sz - ArgBytes(argv, argc) && k.refusals == old(k.refusals)
    {
      ArgBytesGrow(argv, argc + 1);
      ArgBytesNext(argv, argc);
      AlignIsRoundUp(sz, ArgBytes(argv, argc), |argv[argc]| + 1);
      ghost var m, was := k.View(), sp;
      PushingSpace(a, g, m, root, argv, ustack, sp, sz, shown);
      if argc >= MAXARG {
        return false, sz, sp, ustack;
      }
      sp := sp - (|argv[argc]| + 1);
      sp := Align16(sp);
      if sp < stackbase {
        return false, sz, sp, ustack;
      }
      var r, n := Copyout(k, root, sp, argv[argc] + [0]);
      CopyoutWorks(m, root, sz, sp, n);
      if r < 0 {
        assert false;
      }
      assert (argv[argc] + [0])[..n] == argv[argc] + [0];
      PushingOne(a, g, m, k.View(), root, argv, ustack, was, sz, shown, sp);
      ustack := ustack + [sp];
      argc := argc + 1;
    }
    ghost var m, was := k.View(), sp;
    PushingSpace(a, g, m, root, argv, ustack, sp, sz, shown);
    ptrs := ustack;
    ustack := ustack + [0];
    AlignIsRoundUp(sz, ArgBytes(argv, argc), 8 * (argc + 1));
    StackUseIs(argv);
    sp := sp - (argc + 1) * 8;
    sp := Align16(sp);
    if sp < stackbase {
      return false, sz, sp, ptrs;
    }
    var r, n := Copyout(k, root, sp, Words(ustack));
    CopyoutWorks(m, root, sz, sp, n);
    if r < 0 {
      assert false;
    }
    assert Words(ustack)[..n] == Words(ustack);
    StackDone(a, g, m, k.View(), root, argv, ptrs, was, sp, image, sz, shown);
    SameTablesStack(g, k.View(), a, root, sz, Pages(sz0));
    return true, sz, sp, ptrs;
  }

  lemma ArgBytesNone(argv: seq<seq<Byte>>)
    ensures ArgBytes(argv, 0) == 0
  {
  }

  lemma ArgBytesNext(argv: seq<seq<Byte>>, n: nat)
    requires n < |argv|
    ensures ArgBytes(argv, n + 1) == RoundUp16(ArgBytes(argv, n) + (|argv[n]| + 1))
  {
  }

  lemma StackUseIs(argv: seq<seq<Byte>>)
    ensures StackUse(argv) == RoundUp16(ArgBytes(argv, |argv|) + 8 * (|argv| + 1))
  {
  }

  /** No byte of the stack page is out of the user's reach. */
  lemma CopyoutWorks(m: Mem, root: Frame, top: nat, va: nat, n: nat)
    requires Writable(m, root, top) && top <= va + PGSIZE
    ensures va + n < top ==> UserByte(m, root, va + n).Some?
  {
    hide UserByte;
  }

  /** Neither the new pages nor the guard are among the image's. */
  lemma StackAbove(a: Mem, b: Mem, g: Mem, root: Frame, sz0: nat, top: nat)
    requires Pages(PgRoundUp(sz0)) <= Pages(top)
    requires Populated(a, b, root, Pages(PgRoundUp(sz0)), Pages(top) - Pages(PgRoundUp(sz0)))
    requires forall v: nat ::
               var e := Flat(b.tables, root, v);
               Flat(g.tables, root, v) == if v == Vpn(PgRoundUp(sz0)) then e.(u := false) else e
    ensures SameEntries(a, g, root, Pages(sz0))
  {
    hide Flat, OnlyRoot;
  }

  lemma SameTablesStack(g: Mem, c: Mem, a: Mem, root: Frame, top: nat, n: nat)
    requires c.tables == g.tables && StackEntries(g, root, top) && SameEntries(a, g, root, n)
    ensures StackEntries(c, root, top) && SameEntries(a, c, root, n)
  {
    hide Flat;
  }

  lemma SpaceRounded(m: Mem, root: Frame, sz: nat, shown: Shown)
    requires Space(m, root, sz, shown)
    ensures Space(m, root, PgRoundUp(sz), shown) && Addr(Pages(PgRoundUp(sz))) == PgRoundUp(sz)
  {
    hide Flat, Valid;
    assert Pages(PgRoundUp(sz)) == Pages(sz);
  }

  lemma ImageBelow(image: nat, sz: nat)
    requires sz == image + 2 * PGSIZE && Addr(Pages(image)) == image && Pages(sz) <= USER_TOP
    ensures Vpn(image) < Pages(sz) && image < MAXVA && sz % 16 == 0
  {
    hide Pages, Vpn;
    var n := Pages(image);
    PagesAddr(n + 2, 0);
    OnePage(n, 0);
    PageAligned(n + 2);
  }

  lemma PageAligned(n: nat)
    ensures Addr(n) % 16 == 0
  {
    DivModUnique(Addr(n), 16, 256 * n, 0);
  }

  lemma UserPageMapped(m: Mem, root: Frame, n: nat, vpn: nat)
    requires UserPages(m, root, 0, n) && vpn < n
    ensures Flat(m.tables, root, vpn).v
  {
    hide Flat;
  }

  lemma RoomForStack(m: Mem, root: Frame, image: nat, sz: nat, shown: Shown)
    requires Space(m, root, sz, shown) && sz == image + 2 * PGSIZE && Addr(Pages(image)) == image
    ensures Valid(m) && IsRoot(m.lab, root) && image < MAXVA && TableFor(m.tables, root, Vpn(image)).Some?
    ensures sz % 16 == 0
  {
    hide Valid, Layout, SpecialEntries, Flat, UserPages, Pages, Vpn, Addr, TableFor;
    LayoutPages(m, root, sz, ALL_SPECIAL);
    ImageBelow(image, sz);
    UserPageMapped(m, root, Pages(sz), Vpn(image));
    TableOfMapped(m, root, Vpn(image), Vpn(image));
  }
}
