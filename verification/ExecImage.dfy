/** The program image and the argument stack that exec builds in a new address space (`exec.c`, lines 52-110 and
    147-170). */
module ExecImage {
  import opened PageTable
  import opened Memory
  import opened Paging
  import opened Uvm
  import opened UserMemory
  import opened UserCopy
  import opened ProcMem

  const MAXARG: nat := 32
  const U32: nat := 0x1_0000_0000
  const U64: nat := 0x1_0000_0000_0000_0000

  type Word64 = x: int | 0 <= x < U64

  /** The fields of a program header that exec uses; load says its type is ELF_PROG_LOAD. */
  datatype Segment = Segment(load: bool, vaddr: Word64, memsz: Word64, filesz: Word64, off: Word64, w: bool, x: bool)

  /** A file that starts with a good ELF header: a program header is None where reading it came up short. */
  datatype Executable = Executable(entry: Word64, headers: seq<Option<Segment>>, file: seq<Byte>)

  /** What readi delivers: fewer bytes than asked for at the end of the file, none when the 32-bit range overflows. */
  function Readi(file: seq<Byte>, off: nat, n: nat): (bytes: seq<Byte>)
    ensures |bytes| <= n
  {
    if off > |file| || off + n >= U32 then []
    else if off + n > |file| then file[off..] else file[off..off + n]
  }

  // ---------------------------------------------------------------- user bytes and changes of the address space

  /** The frames the special pages show. */
  datatype Shown = Shown(trampoline: Frame, trapframe: Frame, usyscall: Frame)

  /** What is needed of a new address space: its layout and its special pages. */
  ghost predicate Space(m: Mem, root: Frame, sz: nat, shown: Shown) {
    && Valid(m) && Layout(m, root, sz, ALL_SPECIAL)
    && SpecialEntries(m, root, shown.trampoline, shown.trapframe, shown.usyscall)
    && shown.usyscall in m.own && m.own[shown.usyscall].Kernel? && shown.usyscall in m.data
  }

  lemma SpaceBacked(m: Mem, root: Frame, sz: nat, shown: Shown)
    requires Space(m, root, sz, shown)
    ensures IsRoot(m.lab, root) && Backed(m, root) && Distinct(m, root)
  {
    hide Flat, Pages, Tree, MappedWhereItSays;
    forall v: nat | UserEntry(Flat(m.tables, root, v))
      ensures v < Pages(sz) || v == MAXVPN - 3
      ensures var f := Flat(m.tables, root, v).ppn;
              f in m.data && f in m.own && m.own[f] == if v < Pages(sz) then User(root, v) else Kernel
    {
    }
  }

  /** What is written below sz is written to frames the address space owns. */
  lemma WroteInside(a: Mem, b: Mem, root: Frame, sz: nat, shown: Shown, va: nat, bytes: seq<Byte>)
    requires Space(a, root, sz, shown) && Valid(b) && Wrote(a, b, root, va, bytes) && va + |bytes| <= Addr(Pages(sz))
    ensures OnlyRoot(a, b, root) && Space(b, root, sz, shown)
  {
    hide Valid, Flat, Pages, Layout, Wrote;
    WroteParts(a, b, root, va, bytes);
    WroteLayout(a, b, root, sz);
    forall f | f in a.own && !Owns(a.own[f], root)
      ensures f in a.data && f in b.data && b.data[f] == a.data[f]
    {
      KeysAgree(a);
      assert f in a.own.Keys;
      ForeignUntouched(a, b, root, sz, shown, va, bytes, f);
    }
    KeysAgree(a);
    KeysAgree(b);
    SameForeign(a, b, root);
  }

  lemma WroteParts(a: Mem, b: Mem, root: Frame, va: nat, bytes: seq<Byte>)
    requires Wrote(a, b, root, va, bytes)
    ensures b.tables == a.tables && b.lab == a.lab && b.own == a.own && b.free == a.free && b.data.Keys == a.data.Keys
  {
    hide UserByte;
  }

  lemma WroteLayout(a: Mem, b: Mem, root: Frame, sz: nat)
    requires Layout(a, root, sz, ALL_SPECIAL) && b.tables == a.tables && b.lab == a.lab && b.own == a.own
    ensures Layout(b, root, sz, ALL_SPECIAL)
  {
    hide Flat, Pages;
  }

  lemma SameForeign(a: Mem, b: Mem, root: Frame)
    requires b.tables == a.tables && b.lab == a.lab && b.own == a.own && b.free == a.free && b.data.Keys == a.data.Keys
    requires forall f :: f in a.own && !Owns(a.own[f], root) ==> f in a.data && f in b.data && b.data[f] == a.data[f]
    ensures OnlyRoot(a, b, root)
  {
    assert ForeignData(a, root) == ForeignData(b, root);
    assert ForeignTables(a, root) == ForeignTables(b, root);
    assert Owned(a, root) == Owned(b, root);
  }

  lemma ForeignUntouched(a: Mem, b: Mem, root: Frame, sz: nat, shown: Shown, va: nat, bytes: seq<Byte>, f: Frame)
    requires Space(a, root, sz, shown) && Valid(b) && Wrote(a, b, root, va, bytes) && va + |bytes| <= Addr(Pages(sz))
    requires f in a.own && f in a.data && !Owns(a.own[f], root)
    ensures f in b.data && b.data[f] == a.data[f]
  {
    hide Tree, Flat, Pages, MappedWhereItSays;
    if UserFrame(a, root, f) {
      SharedPage(a, root, sz, shown, f);
      assert |a.data[f]| == PGSIZE && |b.data[f]| == PGSIZE;
      forall i | 0 <= i < PGSIZE
        ensures b.data[f][i] == a.data[f][i]
      {
        var v := (MAXVPN - 3) * PGSIZE + i;
        assert v / PGSIZE == MAXVPN - 3 && v % PGSIZE == i && v < MAXVA;
        assert Addr(Pages(sz)) <= v by { AddrOrder(Pages(sz), USER_TOP); }
        assert UserByte(b, root, v) == UserByte(a, root, v);
      }
    }
  }

  lemma SharedPage(a: Mem, root: Frame, sz: nat, shown: Shown, f: Frame)
    requires Space(a, root, sz, shown) && f in a.own && !Owns(a.own[f], root) && UserFrame(a, root, f)
    ensures f == shown.usyscall
  {
    hide Flat, Pages, Valid;
    var vpn: nat :| UserEntry(Flat(a.tables, root, vpn)) && Flat(a.tables, root, vpn).ppn == f;
    assert vpn >= Pages(sz);
  }

  /** New zeroed pages read as zeros; every other user byte is as it was. */
  lemma PopulatedByte(a: Mem, b: Mem, root: Frame, first: nat, n: nat, perm: Perm, va: nat)
    requires Valid(b) && Backed(a, root) && Populated(a, b, root, first, n) && Zeroed(b, root, first, n, perm) && perm.u
    requires va < MAXVA
    ensures UserByte(b, root, va) == if first <= va / PGSIZE < first + n then Some(0) else UserByte(a, root, va)
  {
    hide Flat, OnlyRoot, Tree, MappedWhereItSays;
    var vpn := va / PGSIZE;
    if first <= vpn < first + n {
      assert PageIs(b, root, vpn, perm, ZeroPage());
    }
  }

  // ---------------------------------------------------------------- loadseg

  /** File offsets are computed in 32 bits. */
  function FileOffset(off: nat, d: nat): nat {
    (off + d) % U32
  }

  ghost predicate FromFile(done: seq<Byte>, file: seq<Byte>, off: nat) {
    forall d :: 0 <= d < |done| ==> FileOffset(off, d) < |file| && done[d] == file[FileOffset(off, d)]
  }

  /** Each page's worth of the n bytes at off can be read: it ends within the file and below 2^32. */
  ghost predicate InFile(file: seq<Byte>, off: nat, n: nat) {
    forall i: nat :: i < n && i % PGSIZE == 0 ==> InFileAt(file, off, n, i)
  }

  predicate InFileAt(file: seq<Byte>, off: nat, n: nat, i: nat) {
    var end := FileOffset(off, i) + if n - i < PGSIZE then n - i else PGSIZE;
    end <= |file| && end < U32
  }

  lemma ReadiInFile(file: seq<Byte>, off: nat, sz: nat, i: nat, n: nat)
    requires i < sz && n == if sz - i < PGSIZE then sz - i else PGSIZE
    ensures |Readi(file, (off + i) % U32, n)| == n <==> InFileAt(file, off, sz, i)
  {
  }

  /** Loads sz bytes of the file at va, whose pages must be mapped for user access. */
  method Loadseg(k: Kmem, root: Frame, va: nat, file: seq<Byte>, off: nat, sz: nat) returns (r: int, ghost done: seq<Byte>)
    requires Valid(k.View()) && IsRoot(k.lab, root) && Backed(k.View(), root) && Distinct(k.View(), root)
    requires va % PGSIZE == 0
    requires forall v: nat :: va <= v < va + sz ==> UserByte(k.View(), root, v).Some?
    modifies k
    ensures Valid(k.View()) && Wrote(old(k.View()), k.View(), root, va, done) && |done| <= sz
    ensures r == 0 || r == -1
    ensures r == 0 ==> |done| == sz && FromFile(done, file, off)
    ensures r == 0 <==> InFile(file, off, sz)
    ensures k.refusals == old(k.refusals)
  {
    hide Tree, Flat, UserByte, Wrote, Distinct, Backed, OnlyRoot, Frames, MappedWhereItSays, Readi, InFileAt;
    ghost var a := k.View();
    var i := 0;
    done := [];
    WroteNone(a, root, va);
    while i < sz
      invariant i % PGSIZE == 0 && |done| == if i <= sz then i else sz
      invariant Valid(k.View()) && IsRoot(k.lab, root) && Backed(k.View(), root) && Distinct(k.View(), root)
      invariant Wrote(a, k.View(), root, va, done) && FromFile(done, file, off) && k.refusals == old(k.refusals)
      invariant forall j: nat :: j < i && j < sz && j % PGSIZE == 0 ==> InFileAt(file, off, sz, j)
    {
      ghost var m := k.View();
      InPage(va + i);
      assert (va + i) % PGSIZE == 0;
      UserPage(a, root, va + i);
      SamePage(a, m, root, va, done, va + i);
      UserPage(m, root, va + i);
      var pa := Walkaddr(k, root, va + i);
      var n := if sz - i < PGSIZE then sz - i else PGSIZE;
      var bytes := Readi(file, (off + i) % U32, n);
      ghost var f := Flat(m.tables, root, (va + i) / PGSIZE).ppn;
      ChunkWritten(m, root, va + i, bytes);
      k.StoreBytes(pa / PGSIZE, 0, bytes);
      WroteMore(a, m, k.View(), root, va, done, bytes);
      WroteValid(m, k.View(), root, va + i, bytes);
      WroteRoot(m, k.View(), root, va + i, bytes);
      ReadiFromFile(done, file, off, i, n);
      ReadiInFile(file, off, sz, i, n);
      done := done + bytes;
      if |bytes| != n {
        return -1, done;
      }
      i := i + PGSIZE;
    }
    return 0, done;
  }

  lemma SamePage(a: Mem, b: Mem, root: Frame, va: nat, bytes: seq<Byte>, v: nat)
    requires Wrote(a, b, root, va, bytes) && v == va + |bytes|
    ensures UserByte(b, root, v) == UserByte(a, root, v)
  {
  }

  lemma ChunkWritten(m: Mem, root: Frame, va: nat, bytes: seq<Byte>)
    requires Valid(m) && Backed(m, root) && Distinct(m, root) && va < MAXVA && va % PGSIZE == 0 && |bytes| <= PGSIZE
    requires UserEntry(Flat(m.tables, root, va / PGSIZE))
    ensures var f := Flat(m.tables, root, va / PGSIZE).ppn;
            && f in m.data && |m.data[f]| == PGSIZE && f != 0
            && Valid(Fill(m, f, Splice(m.data[f], 0, bytes)))
            && Wrote(m, Fill(m, f, Splice(m.data[f], 0, bytes)), root, va, bytes)
  {
    hide Tree, Flat, Wrote, Distinct, OnlyRoot;
    var f := Flat(m.tables, root, va / PGSIZE).ppn;
    UserPage(m, root, va);
    FillValid(m, f, Splice(m.data[f], 0, bytes), 0);
    WroteChunk(m, root, va, bytes);
  }

  lemma ReadiFromFile(done: seq<Byte>, file: seq<Byte>, off: nat, i: nat, n: nat)
    requires FromFile(done, file, off) && |done| == i
    ensures var bytes := Readi(file, (off + i) % U32, n);
            FromFile(done + bytes, file, off)
  {
    var o := (off + i) % U32;
    var bytes := Readi(file, o, n);
    forall d | i <= d < i + |bytes|
      ensures FileOffset(off, d) == o + (d - i)
    {
      ModShift(off + i, d - i);
    }
  }

  lemma ModShift(x: nat, d: nat)
    requires x % U32 + d < U32
    ensures (x + d) % U32 == x % U32 + d
  {
  }

  // ---------------------------------------------------------------- the program image

  /** The byte the first i program headers put at va: the last segment that covers it wins, and memory no segment's
      file part covers is zero. */
  ghost function ImageByte(exe: Executable, i: nat, va: nat): Byte
    requires i <= |exe.headers|
  {
    if i == 0 then 0
    else match exe.headers[i - 1]
      case None => ImageByte(exe, i - 1, va)
      case Some(s) =>
        if s.load && s.vaddr <= va < s.vaddr + s.filesz % U32 && FileOffset(s.off, va - s.vaddr) < |exe.file|
        then exe.file[FileOffset(s.off, va - s.vaddr)]
        else ImageByte(exe, i - 1, va)
  }

  ghost predicate Covered(exe: Executable, i: nat, sz: nat)
    requires i <= |exe.headers|
  {
    forall j :: 0 <= j < i && exe.headers[j].Some? && exe.headers[j].value.load ==>
      exe.headers[j].value.vaddr + exe.headers[j].value.filesz % U32 <= sz
  }

  lemma {:induction false} ImageZero(exe: Executable, i: nat, sz: nat, va: nat)
    requires i <= |exe.headers| && Covered(exe, i, sz) && va >= sz
    ensures ImageByte(exe, i, va) == 0
  {
    if i > 0 {
      ImageZero(exe, i - 1, sz, va);
    }
  }

  /** Where the image of the first i program headers ends. */
  ghost function ImageSize(exe: Executable, i: nat): nat
    requires i <= |exe.headers|
  {
    if i == 0 then 0
    else match exe.headers[i - 1]
      case None => ImageSize(exe, i - 1)
      case Some(s) =>
        var end := s.vaddr + s.memsz;
        if s.load && end > ImageSize(exe, i - 1) then end else ImageSize(exe, i - 1)
  }

  /** Pages of a segment are readable user memory, writable and executable as its header says. */
  ghost predicate PermittedBy(m: Mem, root: Frame, s: Segment, first: nat, last: nat) {
    forall vpn: nat :: first <= vpn < last ==>
      var e := Flat(m.tables, root, vpn);
      e.v && e.r && e.u && e.w == s.w && e.x == s.x
  }

  /** Every page that one of the first i headers was the first to need has the permissions of that header. */
  ghost predicate Permitted(m: Mem, root: Frame, exe: Executable, i: nat)
    requires i <= |exe.headers|
  {
    forall j :: 0 <= j < i && exe.headers[j].Some? && exe.headers[j].value.load ==>
      PermittedBy(m, root, exe.headers[j].value, Pages(ImageSize(exe, j)), Pages(ImageSize(exe, j + 1)))
  }

  ghost predicate GoodSegment(exe: Executable, j: nat)
    requires j < |exe.headers|
  {
    match exe.headers[j]
    case None => false
    case Some(s) =>
      s.load ==>
        && s.filesz <= s.memsz && s.vaddr + s.memsz < U64 && s.vaddr % PGSIZE == 0 && ImageSize(exe, j + 1) > 0
        && InFile(exe.file, s.off, s.filesz % U32)
  }

  /** What exec asks of the file: every header can be read, and every segment to load lies in the file and in the
      64-bit address space, at a page boundary, and is not empty at address 0. */
  ghost predicate WellFormed(exe: Executable) {
    forall j: nat :: j < |exe.headers| ==> GoodSegment(exe, j)
  }

  ghost predicate SameEntries(a: Mem, b: Mem, root: Frame, n: nat) {
    forall vpn: nat :: vpn < n ==> Flat(b.tables, root, vpn) == Flat(a.tables, root, vpn)
  }

  lemma NextPermitted(m: Mem, b: Mem, c: Mem, root: Frame, exe: Executable, i: nat, s: Segment, sz: nat, want: nat)
    requires i < |exe.headers| && exe.headers[i] == Some(s) && s.load && want == s.vaddr + s.memsz
    requires Permitted(m, root, exe, i) && sz == ImageSize(exe, i) && c.tables == b.tables
    requires want < sz ==> b == m
    requires sz <= want ==>
               && SameEntries(m, b, root, Pages(sz)) && HeapPages(b, root, Pages(sz), Pages(want), s.w, s.x)
    ensures Permitted(c, root, exe, i + 1) && ImageSize(exe, i + 1) == if want < sz then sz else want
  {
    hide Flat, Pages, PermittedBy, SameEntries, HeapPages;
    EntriesMove(m, b, c, root, Pages(sz), want < sz);
    PermittedMoves(m, c, root, exe, i);
    HeapPermitted(b, c, root, s, Pages(sz), Pages(want));
    assert want < sz ==> PermittedBy(c, root, s, Pages(sz), Pages(sz)) by { NonePermitted(c, root, s, Pages(sz)); }
  }

  lemma EntriesMove(m: Mem, b: Mem, c: Mem, root: Frame, n: nat, same: bool)
    requires c.tables == b.tables && if same then b == m else SameEntries(m, b, root, n)
    ensures SameEntries(m, c, root, n)
  {
    hide Flat;
  }

  lemma HeapPermitted(b: Mem, c: Mem, root: Frame, s: Segment, first: nat, last: nat)
    requires c.tables == b.tables
    ensures HeapPages(b, root, first, last, s.w, s.x) ==> PermittedBy(c, root, s, first, last)
  {
    hide Flat;
  }

  lemma NonePermitted(m: Mem, root: Frame, s: Segment, n: nat)
    ensures PermittedBy(m, root, s, n, n)
  {
    hide Flat;
  }

  lemma {:induction false} SizesGrow(exe: Executable, i: nat, j: nat)
    requires i <= j <= |exe.headers|
    ensures ImageSize(exe, i) <= ImageSize(exe, j) && Pages(ImageSize(exe, i)) <= Pages(ImageSize(exe, j))
  {
    if i < j {
      SizesGrow(exe, i, j - 1);
    }
    PagesOrder(ImageSize(exe, i), ImageSize(exe, j));
  }

  lemma PermittedMoves(a: Mem, b: Mem, root: Frame, exe: Executable, i: nat)
    requires i <= |exe.headers| && Permitted(a, root, exe, i) && SameEntries(a, b, root, Pages(ImageSize(exe, i)))
    ensures Permitted(b, root, exe, i)
  {
    hide Flat, Pages, PermittedBy, SameEntries, ImageSize;
    forall j | 0 <= j < i && exe.headers[j].Some? && exe.headers[j].value.load
      ensures PermittedBy(b, root, exe.headers[j].value, Pages(ImageSize(exe, j)), Pages(ImageSize(exe, j + 1)))
    {
      SizesGrow(exe, j + 1, i);
      PermittedByMoves(a, b, root, exe.headers[j].value, Pages(ImageSize(exe, j)), Pages(ImageSize(exe, j + 1)),
                       Pages(ImageSize(exe, i)));
    }
  }

  lemma PermittedByMoves(a: Mem, b: Mem, root: Frame, s: Segment, first: nat, last: nat, n: nat)
    requires PermittedBy(a, root, s, first, last) && SameEntries(a, b, root, n) && last <= n
    ensures PermittedBy(b, root, s, first, last)
  {
    hide Flat;
  }

  /** Up to the end of its last page, user memory holds the image of the first i program headers. */
  ghost predicate Loaded(m: Mem, root: Frame, exe: Executable, i: nat, sz: nat)
    requires i <= |exe.headers|
  {
    forall va: nat :: va < Addr(Pages(sz)) ==> UserByte(m, root, va) == Some(ImageByte(exe, i, va))
  }

  /** What uvmalloc leaves of a new address space, whether it succeeded or not. */
  lemma GrewSpace(a: Mem, b: Mem, root: Frame, sz: nat, want: nat, r: nat, shown: Shown, xperm: Perm)
    requires Space(a, root, sz, shown)
    requires want < sz ==> r == sz && b == a
    requires sz <= want ==> Valid(b) && (r == want || r == 0)
    requires sz <= want && r == want ==>
               && Populated(a, b, root, Pages(sz), Pages(want) - Pages(sz))
               && Zeroed(b, root, Pages(sz), Pages(want) - Pages(sz), Or(USER_READ, xperm))
               && Pages(sz) <= Pages(want) <= USER_TOP
    requires sz <= want && r != want ==> Grown(a, b, root)
    ensures OnlyRoot(a, b, root) && Space(b, root, if r == 0 then sz else r, shown)
    ensures r != 0 ==> sz <= r && want <= r && Grew(a, b, root, sz, r)
  {
    hide Valid, OnlyRoot, Layout, Populated, Zeroed, Grown, Flat, Pages, UserByte, Backed, Distinct;
    SpaceBacked(a, root, sz, shown);
    if want < sz {
      ReflOnly(a, root);
    } else if r == want {
      PopulatedLayout(a, b, root, sz, want, ALL_SPECIAL);
      PopulatedOnly(a, b, root, Pages(sz), Pages(want) - Pages(sz));
      PopulatedSpace(a, b, root, Pages(sz), Pages(want) - Pages(sz), shown.usyscall);
      forall va: nat | va < Addr(Pages(want))
        ensures UserByte(b, root, va) == if va < Addr(Pages(sz)) then UserByte(a, root, va) else Some(0)
      {
        InRange(va, Pages(sz), Pages(want));
        PopulatedByte(a, b, root, Pages(sz), Pages(want) - Pages(sz), Or(USER_READ, xperm), va);
      }
      if r == 0 {
        assert sz == 0;
      }
    } else {
      GrownLayout(a, b, root, sz, ALL_SPECIAL);
      GrownOnly(a, b, root);
      GrownSpace(a, b, root);
    }
  }

  /** Below r, user memory reads as before where there was some, and as zeros above. */
  ghost predicate Grew(a: Mem, b: Mem, root: Frame, sz: nat, r: nat) {
    forall va: nat :: va < Addr(Pages(r)) ==>
      UserByte(b, root, va) == if va < Addr(Pages(sz)) then UserByte(a, root, va) else Some(0)
  }

  lemma InRange(va: nat, first: nat, last: nat)
    requires first <= last <= USER_TOP && va < Addr(last)
    ensures va < MAXVA && (va < Addr(first) <==> va / PGSIZE < first) && va / PGSIZE < last
  {
  }

  lemma PopulatedSpace(a: Mem, b: Mem, root: Frame, first: nat, n: nat, usyscall: Frame)
    requires Populated(a, b, root, first, n) && first + n <= USER_TOP
    ensures Flat(b.tables, root, MAXVPN - 1) == Flat(a.tables, root, MAXVPN - 1)
    ensures Flat(b.tables, root, MAXVPN - 2) == Flat(a.tables, root, MAXVPN - 2)
    ensures Flat(b.tables, root, MAXVPN - 3) == Flat(a.tables, root, MAXVPN - 3)
    ensures usyscall in a.own && usyscall in a.data ==>
              usyscall in b.own && usyscall in b.data && b.own[usyscall] == a.own[usyscall]
  {
    hide Flat, OnlyRoot;
  }

  lemma GrownSpace(a: Mem, b: Mem, root: Frame)
    requires Grown(a, b, root)
    ensures b.data == a.data && b.own == a.own
    ensures forall vpn: nat :: Flat(b.tables, root, vpn) == Flat(a.tables, root, vpn)
  {
    hide Flat, OnlyRoot;
  }

  lemma NextSegment(m: Mem, b: Mem, c: Mem, root: Frame, exe: Executable, i: nat, s: Segment, sz: nat, r: nat, done: seq<Byte>)
    requires i < |exe.headers| && exe.headers[i] == Some(s) && s.load
    requires Loaded(m, root, exe, i, sz) && Covered(exe, i, sz) && Grew(m, b, root, sz, r) && sz <= r
    requires s.vaddr + s.filesz % U32 <= r
    requires Wrote(b, c, root, s.vaddr, done) && |done| == s.filesz % U32 && FromFile(done, exe.file, s.off)
    ensures Loaded(c, root, exe, i + 1, r) && Covered(exe, i + 1, r)
  {
    hide UserByte, Pages, FileOffset;
    PagesCover(sz);
    forall va: nat | va < Addr(Pages(r))
      ensures UserByte(c, root, va) == Some(ImageByte(exe, i + 1, va))
    {
      if va >= Addr(Pages(sz)) {
        ImageZero(exe, i, sz, va);
      }
    }
  }

  lemma PagesCover(sz: nat)
    ensures sz <= Addr(Pages(sz))
  {
  }

  lemma SkippedHeader(m: Mem, root: Frame, exe: Executable, i: nat, sz: nat)
    requires i < |exe.headers| && exe.headers[i].Some? && !exe.headers[i].value.load
    requires Loaded(m, root, exe, i, sz) && Covered(exe, i, sz)
    ensures Loaded(m, root, exe, i + 1, sz) && Covered(exe, i + 1, sz)
  {
    hide UserByte, Pages, FileOffset;
  }

  function Flags2perm(s: Segment): Perm {
    Perm(false, s.w, s.x, false)
  }

  /** Builds the image in an empty address space. It succeeds exactly when the file is well formed and no allocation is
      refused; then user memory holds exactly the image of the file, with the permissions its headers ask for. In any
      case only this address space has changed. */
  method LoadProgram(k: Kmem, root: Frame, exe: Executable, ghost shown: Shown) returns (ok: bool, sz: nat)
    requires Space(k.View(), root, 0, shown) && SmallMachine(k.View())
    modifies k
    ensures OnlyRoot(old(k.View()), k.View(), root) && Space(k.View(), root, sz, shown)
    ensures ok ==> Loaded(k.View(), root, exe, |exe.headers|, sz) && Permitted(k.View(), root, exe, |exe.headers|)
    ensures ok ==> sz == ImageSize(exe, |exe.headers|)
    ensures ok <==> WellFormed(exe) && k.refusals == old(k.refusals)
  {
    hide Valid, OnlyRoot, Layout, Populated, Zeroed, Grown, Flat, Pages, UserByte, Backed, Distinct, Wrote, Loaded, Grew,
      AllFrames, SmallMachine, NotMapped, Space, FromFile, Covered, Permitted, InFile, ImageSize, WellFormed, GoodSegment,
      HeapPages;
    ghost var a := k.View();
    sz := 0;
    ReflOnly(a, root);
    NothingLoaded(a, root, exe);
    for i := 0 to |exe.headers|
      invariant OnlyRoot(a, k.View(), root) && Space(k.View(), root, sz, shown) && SmallMachine(k.View())
      invariant Loaded(k.View(), root, exe, i, sz) && Covered(exe, i, sz)
      invariant Permitted(k.View(), root, exe, i) && sz == ImageSize(exe, i) && k.refusals == old(k.refusals)
      invariant forall j: nat :: j < i ==> GoodSegment(exe, j)
    {
      SegmentCases(exe, i);
      if exe.headers[i].None? {
        return false, sz;
      }
      var ph := exe.headers[i].value;
      ghost var m := k.View();
      if ph.load {
        if ph.memsz < ph.filesz {
          return false, sz;
        }
        if (ph.vaddr + ph.memsz) % U64 < ph.vaddr {
          return false, sz;
        }
        if ph.vaddr % PGSIZE != 0 {
          return false, sz;
        }
        var want := (ph.vaddr + ph.memsz) % U64;
        NoWrap(ph.vaddr, ph.memsz);
        NextSize(exe, i);
        SpaceToGrow(m, root, sz, shown);
        var sz1 := Uvmalloc(k, root, sz, want, Flags2perm(ph));
        ghost var b := k.View();
        GrewSpace(m, b, root, sz, want, sz1, shown, Flags2perm(ph));
        OnlyRootTrans(a, m, b, root);
        if sz1 == 0 {
          return false, sz;
        }
        ghost var was := sz;
        sz := sz1;
        GrewAll(m, b, root, exe, i, was, sz, ph.vaddr, ph.filesz % U32);
        SpaceBacked(b, root, sz, shown);
        SpaceValid(b, root, sz, shown);
        var r, done := Loadseg(k, root, ph.vaddr, exe.file, ph.off, ph.filesz % U32);
        PagesCover(sz);
        WroteInside(b, k.View(), root, sz, shown, ph.vaddr, done);
        OnlyRootTrans(a, b, k.View(), root);
        if r < 0 {
          return false, sz;
        }
        AddedEntries(m, b, root, was, want);
        WroteParts(b, k.View(), root, ph.vaddr, done);
        NextPermitted(m, b, k.View(), root, exe, i, ph, was, want);
        NextSegment(m, b, k.View(), root, exe, i, ph, was, sz, done);
        SpaceValid(m, root, was, shown);
        SpaceValid(k.View(), root, sz, shown);
        FramesConserved(m, b, root);
        FramesConserved(b, k.View(), root);
        StillSmall(m, k.View());
      } else {
        SkippedHeader(m, root, exe, i, sz);
        SkippedPermitted(m, root, exe, i);
      }
    }
    AllGood(exe);
    return true, sz;
  }

  /** The ways a header makes exec fail, in the order of the code. */
  lemma SegmentCases(exe: Executable, i: nat)
    requires i < |exe.headers|
    ensures !GoodSegment(exe, i) ==> !WellFormed(exe)
    ensures exe.headers[i].None? ==> !GoodSegment(exe, i)
    ensures exe.headers[i].Some? && !exe.headers[i].value.load ==> GoodSegment(exe, i)
    ensures exe.headers[i].Some? && exe.headers[i].value.load ==>
              var s := exe.headers[i].value;
              GoodSegment(exe, i) <==>
                && s.memsz >= s.filesz && (s.vaddr + s.memsz) % U64 >= s.vaddr && s.vaddr % PGSIZE == 0
                && ImageSize(exe, i + 1) > 0 && InFile(exe.file, s.off, s.filesz % U32)
  {
    hide InFile, ImageSize;
  }

  lemma NextSize(exe: Executable, i: nat)
    requires i < |exe.headers| && exe.headers[i].Some? && exe.headers[i].value.load
    ensures var end := exe.headers[i].value.vaddr + exe.headers[i].value.memsz;
            ImageSize(exe, i + 1) == if end > ImageSize(exe, i) then end else ImageSize(exe, i)
  {
  }

  lemma SkippedPermitted(m: Mem, root: Frame, exe: Executable, i: nat)
    requires i < |exe.headers| && exe.headers[i].Some? && !exe.headers[i].value.load && Permitted(m, root, exe, i)
    ensures Permitted(m, root, exe, i + 1) && ImageSize(exe, i + 1) == ImageSize(exe, i)
  {
    hide Flat, Pages;
  }

  lemma AddedEntries(m: Mem, b: Mem, root: Frame, sz: nat, want: nat)
    ensures sz <= want && Populated(m, b, root, Pages(sz), Pages(want) - Pages(sz)) ==> SameEntries(m, b, root, Pages(sz))
  {
    hide Flat, OnlyRoot, Pages;
    PagesOrder(sz, want);
  }

  lemma AllGood(exe: Executable)
    requires forall j: nat :: j < |exe.headers| ==> GoodSegment(exe, j)
    ensures WellFormed(exe)
  {
    hide GoodSegment;
  }

  lemma NothingLoaded(m: Mem, root: Frame, exe: Executable)
    ensures Loaded(m, root, exe, 0, 0) && Covered(exe, 0, 0) && Permitted(m, root, exe, 0) && ImageSize(exe, 0) == 0
  {
    assert Addr(Pages(0)) == 0;
  }

  lemma NoWrap(vaddr: Word64, memsz: Word64)
    requires (vaddr + memsz) % U64 >= vaddr
    ensures (vaddr + memsz) % U64 == vaddr + memsz
  {
  }

  lemma SpaceToGrow(m: Mem, root: Frame, sz: nat, shown: Shown)
    requires Space(m, root, sz, shown) && SmallMachine(m)
    ensures Valid(m) && IsRoot(m.lab, root) && NotMapped(m, root, Pages(sz), USER_TOP)
    ensures Pages(sz) + |m.free| <= USER_TOP && Pages(sz) <= USER_TOP
  {
    hide Flat, Pages, Valid, Layout, SmallMachine, NotMapped;
    RoomToGrow(m, root, sz, ALL_SPECIAL);
    LayoutNotMapped(m, root, sz);
    LayoutRoot(m, root, sz, ALL_SPECIAL);
    LayoutSize(m, root, sz, ALL_SPECIAL);
  }

  lemma SpaceValid(m: Mem, root: Frame, sz: nat, shown: Shown)
    requires Space(m, root, sz, shown)
    ensures Valid(m)
  {
    hide Valid, Layout, Flat;
  }

  lemma GrewAll(m: Mem, b: Mem, root: Frame, exe: Executable, i: nat, sz: nat, r: nat, va: nat, n: nat)
    requires i <= |exe.headers| && Loaded(m, root, exe, i, sz) && Grew(m, b, root, sz, r) && va + n <= r
    ensures forall v: nat :: va <= v < va + n ==> UserByte(b, root, v).Some?
  {
    hide UserByte, Pages;
    PagesCover(r);
  }
}
