/** Copies between the kernel and user memory (`vm.c`): copyout, copyin and copyinstr, against the bytes a user program
    sees at each address. */
module UserCopy {
  import opened PageTable
  import opened Memory
  import opened Paging
  import opened UserMemory

  // ---------------------------------------------------------------- what a user program sees

  predicate UserEntry(e: Pte) {
    e.v && e.u
  }

  /** The byte at va, if user code may touch it. */
  ghost function UserByte(m: Mem, root: Frame, va: nat): Option<Byte> {
    var e := Flat(m.tables, root, va / PGSIZE);
    if va < MAXVA && UserEntry(e) && e.ppn in m.data && va % PGSIZE < |m.data[e.ppn]|
    then Some(m.data[e.ppn][va % PGSIZE]) else None
  }

  /** Every user page is backed by a data frame. */
  ghost predicate Backed(m: Mem, root: Frame) {
    forall vpn: nat :: UserEntry(Flat(m.tables, root, vpn)) ==> Flat(m.tables, root, vpn).ppn in m.data
  }

  /** No two user pages share a frame. */
  ghost predicate Distinct(m: Mem, root: Frame) {
    forall v: nat, w: nat :: UserEntry(Flat(m.tables, root, v)) && UserEntry(Flat(m.tables, root, w)) && v != w ==>
      Flat(m.tables, root, v).ppn != Flat(m.tables, root, w).ppn
  }

  ghost predicate UserFrame(m: Mem, root: Frame, f: Frame) {
    exists vpn: nat :: UserEntry(Flat(m.tables, root, vpn)) && Flat(m.tables, root, vpn).ppn == f
  }

  /** b is a with some bytes written at va: every other user byte, every frame that is no user page of root, and every
      mapping is as it was. */
  ghost predicate Wrote(a: Mem, b: Mem, root: Frame, va: nat, bytes: seq<Byte>) {
    && b.tables == a.tables && b.lab == a.lab && b.own == a.own && b.free == a.free && b.data.Keys == a.data.Keys
    && (forall v: nat :: UserByte(b, root, v) ==
                         if va <= v < va + |bytes| then Some(bytes[v - va]) else UserByte(a, root, v))
    && (forall f :: f in a.data && !UserFrame(a, root, f) ==> b.data[f] == a.data[f])
  }

  ghost predicate Reads(m: Mem, root: Frame, va: nat, bytes: seq<Byte>) {
    forall v: nat :: va <= v < va + |bytes| ==> UserByte(m, root, v) == Some(bytes[v - va])
  }

  /** Reading back what was written gives the bytes written. */
  lemma RoundTrip(a: Mem, b: Mem, root: Frame, va: nat, src: seq<Byte>, dst: seq<Byte>)
    requires Wrote(a, b, root, va, src) && Reads(b, root, va, dst) && |dst| == |src|
    ensures dst == src
  {
    hide UserByte;
    forall i | 0 <= i < |src|
      ensures dst[i] == src[i]
    {
      assert UserByte(b, root, va + i) == Some(src[i]);
    }
  }

  // ---------------------------------------------------------------- one chunk within a page

  lemma WroteByte(a: Mem, root: Frame, va: nat, bytes: seq<Byte>, v: nat)
    requires Frames(a) && Distinct(a, root) && va < MAXVA && va % PGSIZE + |bytes| <= PGSIZE
    requires UserEntry(Flat(a.tables, root, va / PGSIZE)) && Flat(a.tables, root, va / PGSIZE).ppn in a.data
    requires va <= v < va + |bytes| ==> v / PGSIZE == va / PGSIZE && v % PGSIZE == va % PGSIZE + (v - va) && v < MAXVA
    requires v / PGSIZE == va / PGSIZE && va % PGSIZE <= v % PGSIZE < va % PGSIZE + |bytes| ==>
               va <= v < va + |bytes|
    ensures var f := Flat(a.tables, root, va / PGSIZE).ppn;
            UserByte(Fill(a, f, Splice(a.data[f], va % PGSIZE, bytes)), root, v) ==
            if va <= v < va + |bytes| then Some(bytes[v - va]) else UserByte(a, root, v)
  {
    hide Flat;
    var f := Flat(a.tables, root, va / PGSIZE).ppn;
    var b := Fill(a, f, Splice(a.data[f], va % PGSIZE, bytes));
    assert b.tables == a.tables;
  }

  lemma OffsetInPage(va: nat, n: nat, v: nat)
    requires va < MAXVA && va % PGSIZE + n <= PGSIZE
    ensures va <= v < va + n ==> v / PGSIZE == va / PGSIZE && v % PGSIZE == va % PGSIZE + (v - va) && v < MAXVA
    ensures v / PGSIZE == va / PGSIZE && va % PGSIZE <= v % PGSIZE < va % PGSIZE + n ==> va <= v < va + n
  {
  }

  lemma WroteChunk(a: Mem, root: Frame, va: nat, bytes: seq<Byte>)
    requires Frames(a) && Distinct(a, root) && va < MAXVA && va % PGSIZE + |bytes| <= PGSIZE
    requires UserEntry(Flat(a.tables, root, va / PGSIZE)) && Flat(a.tables, root, va / PGSIZE).ppn in a.data
    ensures var f := Flat(a.tables, root, va / PGSIZE).ppn;
            Wrote(a, Fill(a, f, Splice(a.data[f], va % PGSIZE, bytes)), root, va, bytes)
  {
    hide Flat, UserByte, Distinct;
    var f := Flat(a.tables, root, va / PGSIZE).ppn;
    var b := Fill(a, f, Splice(a.data[f], va % PGSIZE, bytes));
    forall v: nat
      ensures UserByte(b, root, v) == if va <= v < va + |bytes| then Some(bytes[v - va]) else UserByte(a, root, v)
    {
      OffsetInPage(va, |bytes|, v);
      WroteByte(a, root, va, bytes, v);
    }
  }

  lemma WroteNone(m: Mem, root: Frame, va: nat)
    ensures Wrote(m, m, root, va, [])
  {
  }

  lemma WroteMore(a: Mem, b: Mem, c: Mem, root: Frame, va: nat, x: seq<Byte>, y: seq<Byte>)
    requires Wrote(a, b, root, va, x) && Wrote(b, c, root, va + |x|, y)
    ensures Wrote(a, c, root, va, x + y)
  {
    hide UserByte, Flat;
    assert forall f :: UserFrame(b, root, f) == UserFrame(a, root, f);
  }

  lemma WroteValid(a: Mem, b: Mem, root: Frame, va: nat, bytes: seq<Byte>)
    requires Wrote(a, b, root, va, bytes) && Distinct(a, root) && Backed(a, root)
    ensures Distinct(b, root) && Backed(b, root)
  {
  }

  // ---------------------------------------------------------------- copyout

  /** Writes src at dstva. Fails exactly when some byte of the range is not user memory; then everything before the
      first such byte is written. Whether the pages are writable is not checked. */
  method Copyout(k: Kmem, root: Frame, dstva: nat, src: seq<Byte>) returns (r: int, ghost n: nat)
    requires Valid(k.View()) && IsRoot(k.lab, root) && Backed(k.View(), root) && Distinct(k.View(), root)
    modifies k
    ensures Valid(k.View()) && n <= |src| && Wrote(old(k.View()), k.View(), root, dstva, src[..n])
    ensures k.refusals == old(k.refusals)
    ensures r == 0 || r == -1
    ensures r == 0 ==> n == |src|
    ensures r == -1 ==> n < |src| && UserByte(old(k.View()), root, dstva + n) == None
  {
    hide Tree, Flat, UserByte, Wrote, Distinct, Backed, OnlyRoot;
    ghost var a := k.View();
    var va, rest := dstva, src;
    n := 0;
    WroteNone(a, root, dstva);
    assert src[..0] == [];
    while |rest| > 0
      invariant n <= |src| && rest == src[n..] && (|rest| > 0 ==> va == dstva + n)
      invariant Valid(k.View()) && IsRoot(k.lab, root) && Backed(k.View(), root) && Distinct(k.View(), root)
      invariant Wrote(a, k.View(), root, dstva, src[..n]) && k.refusals == old(k.refusals)
    {
      ghost var m := k.View();
      var va0 := PgRoundDown(va);
      InPage(va);
      var pa0 := Walkaddr(k, root, va0);
      UserPage(m, root, va);
      if pa0 == 0 {
        NotUser(a, m, root, dstva, src[..n]);
        return -1, n;
      }
      var len := PGSIZE - (va - va0);
      if len > |rest| {
        len := |rest|;
      }
      ghost var f := Flat(m.tables, root, va / PGSIZE).ppn;
      WroteChunk(m, root, va, rest[..len]);
      FillValid(m, f, Splice(m.data[f], va - va0, rest[..len]), root);
      k.StoreBytes(pa0 / PGSIZE, va - va0, rest[..len]);
      WroteMore(a, m, k.View(), root, dstva, src[..n], rest[..len]);
      WroteValid(m, k.View(), root, va, rest[..len]);
      WroteRoot(m, k.View(), root, va, rest[..len]);
      assert src[..n] + rest[..len] == src[..n + len];
      rest := rest[len..];
      n := n + len;
      va := va0 + PGSIZE;
    }
    return 0, n;
  }

  lemma InPage(va: nat)
    ensures PgRoundDown(va) <= va < PgRoundDown(va) + PGSIZE && va - PgRoundDown(va) == va % PGSIZE
    ensures Vpn(PgRoundDown(va)) == va / PGSIZE == Vpn(va) && (PgRoundDown(va) < MAXVA <==> va < MAXVA)
  {
  }

  /** Whether user code may touch va depends on its page only. */
  lemma UserPage(m: Mem, root: Frame, va: nat)
    requires Valid(m) && Backed(m, root)
    ensures var e := Flat(m.tables, root, va / PGSIZE);
            if va < MAXVA && e.v && e.u
            then e.ppn in m.data && e.ppn in m.own && e.ppn != 0 && |m.data[e.ppn]| == PGSIZE && UserByte(m, root, va).Some?
            else UserByte(m, root, va) == None
  {
  }

  lemma NotUser(a: Mem, m: Mem, root: Frame, va: nat, bytes: seq<Byte>)
    requires Wrote(a, m, root, va, bytes) && UserByte(m, root, va + |bytes|) == None
    ensures UserByte(a, root, va + |bytes|) == None
  {
  }

  lemma WroteRoot(a: Mem, b: Mem, root: Frame, va: nat, bytes: seq<Byte>)
    requires Wrote(a, b, root, va, bytes) && IsRoot(a.lab, root)
    ensures IsRoot(b.lab, root)
  {
  }

  // ---------------------------------------------------------------- copyin

  /** Reads len bytes at srcva; dst is what was copied. Fails exactly when some byte of the range is not user memory. */
  method Copyin(k: Kmem, root: Frame, srcva: nat, len: nat) returns (r: int, dst: seq<Byte>)
    requires Valid(k.View()) && IsRoot(k.lab, root) && Backed(k.View(), root)
    modifies k
    ensures k.View() == old(k.View())
    ensures |dst| <= len && Reads(k.View(), root, srcva, dst)
    ensures r == 0 || r == -1
    ensures r == 0 ==> |dst| == len
    ensures r == -1 ==> |dst| < len && UserByte(k.View(), root, srcva + |dst|) == None
  {
    hide Tree, Flat, UserByte, Backed, OnlyRoot;
    ghost var m := k.View();
    var va := srcva;
    dst := [];
    while |dst| < len
      invariant |dst| <= len && (|dst| < len ==> va == srcva + |dst|)
      invariant k.View() == m && Reads(m, root, srcva, dst)
    {
      var va0 := PgRoundDown(va);
      InPage(va);
      UserPage(m, root, va);
      var pa0 := Walkaddr(k, root, va0);
      if pa0 == 0 {
        return -1, dst;
      }
      var n := PGSIZE - (va - va0);
      if n > len - |dst| {
        n := len - |dst|;
      }
      var page := k.data[pa0 / PGSIZE];
      ReadChunk(m, root, va, n);
      ReadsMore(m, root, srcva, dst, page[va - va0..va - va0 + n]);
      dst := dst + page[va - va0..va - va0 + n];
      va := va0 + PGSIZE;
    }
    return 0, dst;
  }

  lemma ReadChunk(m: Mem, root: Frame, va: nat, n: nat)
    requires Valid(m) && Backed(m, root) && va < MAXVA && va % PGSIZE + n <= PGSIZE
    requires UserEntry(Flat(m.tables, root, va / PGSIZE))
    ensures var f := Flat(m.tables, root, va / PGSIZE).ppn;
            && f in m.data && |m.data[f]| == PGSIZE
            && Reads(m, root, va, m.data[f][va % PGSIZE..va % PGSIZE + n])
  {
    hide Tree, Flat;
    var f := Flat(m.tables, root, va / PGSIZE).ppn;
    forall v: nat | va <= v < va + n
      ensures UserByte(m, root, v) == Some(m.data[f][va % PGSIZE + (v - va)])
    {
      OffsetInPage(va, n, v);
    }
  }

  lemma ReadsMore(m: Mem, root: Frame, va: nat, x: seq<Byte>, y: seq<Byte>)
    requires Reads(m, root, va, x) && Reads(m, root, va + |x|, y)
    ensures Reads(m, root, va, x + y)
  {
    hide UserByte;
  }

  // ---------------------------------------------------------------- copyinstr

  /** A null-terminated string starts at va: its NUL is at offset n, and user code may touch all of it. */
  ghost predicate StringAt(m: Mem, root: Frame, va: nat, n: nat) {
    UserByte(m, root, va + n) == Some(0) && forall v: nat :: va <= v < va + n ==> UserByte(m, root, v).Some?
  }

  /** Reads a string of at most max bytes, its NUL included. Succeeds exactly when a NUL occurs among the first max
      bytes with all bytes up to it in user memory; dst is then that string up to its first NUL. */
  method Copyinstr(k: Kmem, root: Frame, srcva: nat, max: nat) returns (r: int, dst: seq<Byte>)
    requires Valid(k.View()) && IsRoot(k.lab, root) && Backed(k.View(), root)
    modifies k
    ensures k.View() == old(k.View())
    ensures r == 0 || r == -1
    ensures r == 0 <==> exists n: nat :: n < max && StringAt(k.View(), root, srcva, n)
    ensures Reads(k.View(), root, srcva, dst) && |dst| <= max
    ensures r == 0 ==> |dst| > 0 && dst[|dst| - 1] == 0 && forall i :: 0 <= i < |dst| - 1 ==> dst[i] != 0
  {
    hide Tree, Flat, UserByte, Backed, OnlyRoot;
    ghost var m := k.View();
    var va, left, gotNull := srcva, max, false;
    dst := [];
    while !gotNull && left > 0
      invariant |dst| + left == max + (if gotNull then 1 else 0)
      invariant gotNull ==> left > 0 && |dst| > 0 && dst[|dst| - 1] == 0
      invariant forall i :: 0 <= i < |dst| && !(gotNull && i == |dst| - 1) ==> dst[i] != 0
      invariant !gotNull && left > 0 ==> va == srcva + |dst|
      invariant k.View() == m && Reads(m, root, srcva, dst)
      decreases !gotNull, left
    {
      var va0 := PgRoundDown(va);
      InPage(va);
      UserPage(m, root, va);
      var pa0 := Walkaddr(k, root, va0);
      if pa0 == 0 {
        NoStringPast(m, root, srcva, dst);
        return -1, dst;
      }
      var n := PGSIZE - (va - va0);
      if n > left {
        n := left;
      }
      var page := k.data[pa0 / PGSIZE];
      var p := va - va0;
      ReadChunk(m, root, va, n);
      ghost var start, chunk := |dst|, n;
      while n > 0
        invariant 0 <= n <= left && p + n == va - va0 + chunk <= |page|
        invariant !gotNull && |dst| + left == max && |dst| == start + (chunk - n)
        invariant forall i :: 0 <= i < |dst| ==> dst[i] != 0
        invariant k.View() == m && Reads(m, root, srcva, dst)
      {
        assert UserByte(m, root, va + (chunk - n)) == Some(page[va - va0..va - va0 + chunk][chunk - n]);
        ReadsOne(m, root, srcva, dst, page[p]);
        if page[p] == 0 {
          dst := dst + [0];
          gotNull := true;
          break;
        } else {
          dst := dst + [page[p]];
        }
        n := n - 1;
        left := left - 1;
        p := p + 1;
      }
      va := va0 + PGSIZE;
    }
    if gotNull {
      StringEnds(m, root, srcva, dst);
      return 0, dst;
    } else {
      NoStringWithin(m, root, srcva, dst);
      return -1, dst;
    }
  }

  lemma ReadsOne(m: Mem, root: Frame, va: nat, x: seq<Byte>, b: Byte)
    requires Reads(m, root, va, x) && UserByte(m, root, va + |x|) == Some(b)
    ensures Reads(m, root, va, x + [b])
  {
    hide UserByte;
  }

  lemma StringEnds(m: Mem, root: Frame, va: nat, x: seq<Byte>)
    requires Reads(m, root, va, x) && |x| > 0 && x[|x| - 1] == 0
    ensures StringAt(m, root, va, |x| - 1)
  {
    hide UserByte;
    assert UserByte(m, root, va + (|x| - 1)) == Some(x[va + (|x| - 1) - va]);
  }

  lemma NoStringWithin(m: Mem, root: Frame, va: nat, x: seq<Byte>)
    requires Reads(m, root, va, x) && forall i :: 0 <= i < |x| ==> x[i] != 0
    ensures forall n: nat :: n < |x| ==> !StringAt(m, root, va, n)
  {
    hide UserByte;
    forall n: nat | n < |x|
      ensures !StringAt(m, root, va, n)
    {
      assert UserByte(m, root, va + n) == Some(x[n]);
    }
  }

  lemma NoStringPast(m: Mem, root: Frame, va: nat, x: seq<Byte>)
    requires Reads(m, root, va, x) && UserByte(m, root, va + |x|) == None && forall i :: 0 <= i < |x| ==> x[i] != 0
    ensures forall n: nat :: !StringAt(m, root, va, n)
  {
    hide UserByte;
    NoStringWithin(m, root, va, x);
    forall n: nat | |x| <= n
      ensures !StringAt(m, root, va, n)
    {
    }
  }

  // ---------------------------------------------------------------- a copied address space

  /** After uvmcopy a program reads the same bytes in the copy as in the original. */
  lemma CopyReadsEqual(a: Mem, b: Mem, from: Frame, to: Frame, n: nat, va: nat)
    requires Valid(a) && Valid(b) && IsRoot(a.lab, from) && from != to && UserPages(a, from, 0, n)
    requires Populated(a, b, to, 0, n) && Copied(a, b, from, to, n) && va < n * PGSIZE
    ensures UserByte(b, to, va) == UserByte(a, from, va) == UserByte(b, from, va)
  {
    hide OnlyRoot, Tree, Flat;
    OthersUnchanged(a, b, to, from);
    var vpn := va / PGSIZE;
    assert vpn < n;
    assert PageIs(b, to, vpn, PermOf(Flat(a.tables, from, vpn)), BytesAt(a, from, vpn));
    assert a.own[Flat(a.tables, from, vpn).ppn] == User(from, vpn);
  }

  /** The user pages of root beyond its first n (the USYSCALL page) show frames of the kernel. */
  ghost predicate KernelBeyond(m: Mem, root: Frame, n: nat) {
    forall vpn: nat :: vpn >= n && UserEntry(Flat(m.tables, root, vpn)) ==>
      Flat(m.tables, root, vpn).ppn in m.own && m.own[Flat(m.tables, root, vpn).ppn].Kernel?
  }

  /** What is written through one address space never shows in the pages of another, in either direction. */
  lemma WriteStaysInside(a: Mem, b: Mem, writer: Frame, reader: Frame, nw: nat, nr: nat, va: nat, bytes: seq<Byte>, v: nat)
    requires Frames(a) && writer != reader && Wrote(a, b, writer, va, bytes)
    requires UserPages(a, writer, 0, nw) && KernelBeyond(a, writer, nw) && UserPages(a, reader, 0, nr)
    requires v < nr * PGSIZE
    ensures UserByte(b, reader, v) == UserByte(a, reader, v)
  {
  }
}
