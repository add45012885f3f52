/** The Lab 4 buffer cache (`bio.c`) as the code that runs between acquiring and releasing a bucket's lock: struct bufs
    whose `prev` and `next` pointers make one circular list per bucket, changed in place. */
module BufList {
  import P = BufProtocol

  /** struct buf; locked says whether its sleep-lock is held. A bucket's head is one too, of which only the pointers are
      used. */
  class Buf {
    var dev: nat
    var blockno: nat
    var valid: bool
    var refcnt: int
    var used: bool
    var locked: bool
    var data: P.Data
    var prev: Buf?
    var next: Buf?

    constructor ()
      ensures !used && !locked && refcnt == 0 && prev == null && next == null
    {
      dev, blockno, valid, refcnt, used, locked, data := 0, 0, false, 0, false, false, [];
      prev, next := null, null;
    }

    /** Everything but the pointers. */
    ghost function Get(): Fields
      reads this`dev, this`blockno, this`valid, this`refcnt, this`used, this`locked, this`data
    {
      Fields(P.Block(dev, blockno), valid, refcnt, used, locked, data)
    }
  }

  datatype Fields = Fields(blk: P.Block, valid: bool, refcnt: int, used: bool, locked: bool, data: P.Data)

  /** The prev or next field of every node. */
  type Pointers = map<Buf, Buf?>

  class Bcache {
    const buf: seq<Buf>
    const heads: seq<Buf>
    /** All of these. */
    ghost const nodes: set<Buf>
    var disk: P.Block -> P.Data
    /** For each bucket, the indices of its buffers from the most recently inserted on. */
    ghost var lists: seq<seq<nat>>

    // ---------------------------------------------------------------- the lists

    ghost predicate Objects() {
      && |heads| == P.NBUCKETS
      && (forall i :: 0 <= i < |buf| ==> buf[i] in nodes) && (forall i :: 0 <= i < |heads| ==> heads[i] in nodes)
      && (forall i, j :: 0 <= i < j < |buf| ==> buf[i] != buf[j])
      && (forall i, j :: 0 <= i < j < |heads| ==> heads[i] != heads[j])
      && (forall i, j :: 0 <= i < |buf| && 0 <= j < |heads| ==> buf[i] != heads[j])
    }

    /** Node k of a bucket's ring: its head at 0 and again past the last buffer. */
    ghost function Node(v: nat, list: seq<nat>, k: nat): (n: Buf)
      requires v < |heads| && k <= |list| + 1 && forall j :: 0 <= j < |list| ==> list[j] < |buf|
      ensures n in buf || n in heads
    {
      if k == 0 || k == |list| + 1 then heads[v] else buf[list[k - 1]]
    }

    /** The nodes k and k + 1 of a ring point at each other, when the pointers are n and p. */
    ghost predicate Linked(n: Pointers, p: Pointers, v: nat, list: seq<nat>, k: nat)
      requires v < |heads| && k <= |list| && forall j :: 0 <= j < |list| ==> list[j] < |buf|
    {
      var x, y := Node(v, list, k), Node(v, list, k + 1);
      x in n && y in p && n[x] == y && p[y] == x
    }

    /** The pointers of bucket v make a circular list of exactly these buffers, in this order, in both directions. */
    ghost predicate Ring(n: Pointers, p: Pointers, v: nat, list: seq<nat>)
      requires v < |heads| && forall j :: 0 <= j < |list| ==> list[j] < |buf|
    {
      forall k: nat :: k <= |list| ==> Linked(n, p, v, list, k)
    }

    ghost function NextMap(): (n: Pointers)
      reads nodes`next
    {
      map x: Buf | x in nodes :: x.next
    }

    ghost function PrevMap(): (p: Pointers)
      reads nodes`prev
    {
      map x: Buf | x in nodes :: x.prev
    }

    ghost predicate Indices(list: seq<nat>) {
      && (forall j :: 0 <= j < |list| ==> list[j] < |buf|)
      && (forall j, k :: 0 <= j < k < |list| ==> list[j] != list[k])
    }

    ghost predicate Shape()
      reads this`lists
    {
      && Objects() && |lists| == P.NBUCKETS
      && (forall v :: 0 <= v < P.NBUCKETS ==> Indices(lists[v]))
      && (forall v, w, i: nat :: 0 <= v < P.NBUCKETS && 0 <= w < P.NBUCKETS && v != w && i in lists[v] ==> i !in lists[w])
    }

    ghost predicate Rings()
      requires Shape()
      reads this`lists, nodes`next, nodes`prev
    {
      forall v :: 0 <= v < P.NBUCKETS ==> Ring(NextMap(), PrevMap(), v, lists[v])
    }

    // ---------------------------------------------------------------- linking

    /** Nodes of one ring are distinct, except that the head is at both ends. */
    lemma NodesApart(v: nat, list: seq<nat>, j: nat, k: nat)
      requires Objects() && v < P.NBUCKETS && Indices(list) && j <= |list| + 1 && k <= |list| + 1
      ensures Node(v, list, j) == Node(v, list, k) <==> j == k || {j, k} == {0, |list| + 1}
    {
      if 1 <= j <= |list| && 1 <= k <= |list| && j != k {
        assert list[j - 1] != list[k - 1];
      }
    }

    /** Nodes of different rings are distinct. */
    lemma RingsApart(v: nat, w: nat, x: seq<nat>, y: seq<nat>, j: nat, k: nat)
      requires Objects() && v < P.NBUCKETS && w < P.NBUCKETS && v != w && Indices(x) && Indices(y)
      requires forall i: nat :: i in x ==> i !in y
      requires j <= |x| + 1 && k <= |y| + 1
      ensures Node(v, x, j) != Node(w, y, k)
    {
      if 1 <= j <= |x| && 1 <= k <= |y| {
        assert x[j - 1] in x && y[k - 1] in y;
      }
    }

    /** `b->next = x` */
    method SetNext(b: Buf, x: Buf?)
      requires b in nodes
      modifies b`next
      ensures b.next == x
      ensures NextMap() == old(NextMap())[b := x] && PrevMap() == old(PrevMap())
    {
      b.next := x;
    }

    /** `b->prev = x` */
    method SetPrev(b: Buf, x: Buf?)
      requires b in nodes
      modifies b`prev
      ensures b.prev == x
      ensures PrevMap() == old(PrevMap())[b := x] && NextMap() == old(NextMap())
    {
      b.prev := x;
    }

    /** The four pointer writes of bget, lines 85-88. */
    method Insert(v: nat, i: nat)
      requires Shape() && Rings() && v < P.NBUCKETS && i < |buf|
      requires forall w :: 0 <= w < P.NBUCKETS ==> i !in lists[w]
      modifies nodes`prev, nodes`next, this`lists
      ensures lists == old(lists)[v := [i] + old(lists[v])] && Shape() && Rings()
    {
      hide Shape, Rings, Ring, Linked, Indices, Node, Objects, NextMap, PrevMap;
      ShapeParts();
      AllRings();
      ghost var was, list := lists, lists[v];
      ghost var n: Pointers, p: Pointers := NextMap(), PrevMap();
      Neighbours(v, 0);
      var head, b := heads[v], buf[i];
      HeadIsNode(v, list);
      Apart(v, i);
      var first: Buf := head.next;
      SetNext(b, first);
      SetPrev(b, head);
      SetPrev(first, b);
      SetNext(head, b);
      lists := lists[v := [i] + list];
      InsertedShape(was, v, i);
      RingsAfterInsert(was, n, p, v, i);
    }

    lemma HeadIsNode(v: nat, list: seq<nat>)
      requires v < |heads| && forall j :: 0 <= j < |list| ==> list[j] < |buf|
      ensures Node(v, list, 0) == heads[v]
    {
    }

    lemma Apart(v: nat, i: nat)
      requires Objects() && v < P.NBUCKETS && i < |buf|
      ensures buf[i] != heads[v] && buf[i] in nodes && heads[v] in nodes
    {
    }

    /** Two neighbours in a ring. */
    lemma Neighbours(v: nat, k: nat)
      requires Shape() && Rings() && v < P.NBUCKETS && k <= |lists[v]|
      ensures |heads| == P.NBUCKETS && forall j :: 0 <= j < |lists[v]| ==> lists[v][j] < |buf|
      ensures var x, y := Node(v, lists[v], k), Node(v, lists[v], k + 1);
              x in nodes && y in nodes && x.next == y && y.prev == x
    {
      assert Linked(NextMap(), PrevMap(), v, lists[v], k);
      NodesApart(v, lists[v], k, k + 1);
    }

    lemma RingsAfterInsert(was: seq<seq<nat>>, n: Pointers, p: Pointers, v: nat, i: nat)
      requires Shape() && |was| == P.NBUCKETS && v < P.NBUCKETS && i < |buf|
      requires forall w :: 0 <= w < P.NBUCKETS ==> Indices(was[w]) && i !in was[w] && Ring(n, p, w, was[w])
      requires forall u, w, x: nat :: 0 <= u < P.NBUCKETS && 0 <= w < P.NBUCKETS && u != w && x in was[u] ==> x !in was[w]
      requires lists == was[v := [i] + was[v]] && Indices(was[v])
      requires var first := Node(v, was[v], 1);
               NextMap() == n[buf[i] := first][heads[v] := buf[i]] && PrevMap() == p[buf[i] := heads[v]][first := buf[i]]
      ensures Rings()
    {
      hide Ring, NextMap, PrevMap;
      InsertedRing(n, p, v, was[v], i);
      forall w: nat | w < P.NBUCKETS && w != v
        ensures Ring(NextMap(), PrevMap(), w, was[w])
      {
        InsertedOther(n, p, v, was[v], i, w, was[w]);
      }
    }

    lemma AllRings()
      requires Shape() && Rings()
      ensures |heads| == P.NBUCKETS && |lists| == P.NBUCKETS
      ensures forall v :: 0 <= v < P.NBUCKETS ==>
                (forall j :: 0 <= j < |lists[v]| ==> lists[v][j] < |buf|) && Ring(NextMap(), PrevMap(), v, lists[v])
    {
      hide Ring, NextMap, PrevMap;
    }

    lemma ShapeParts()
      requires Shape()
      ensures Objects() && |lists| == P.NBUCKETS
      ensures forall v :: 0 <= v < P.NBUCKETS ==> Indices(lists[v])
      ensures forall u, w, x: nat :: 0 <= u < P.NBUCKETS && 0 <= w < P.NBUCKETS && u != w && x in lists[u] ==> x !in lists[w]
    {
    }

    lemma InsertedShape(was: seq<seq<nat>>, v: nat, i: nat)
      requires Objects() && |was| == P.NBUCKETS && v < P.NBUCKETS && i < |buf|
      requires forall w :: 0 <= w < P.NBUCKETS ==> Indices(was[w]) && i !in was[w]
      requires forall u, w, x: nat :: 0 <= u < P.NBUCKETS && 0 <= w < P.NBUCKETS && u != w && x in was[u] ==> x !in was[w]
      requires lists == was[v := [i] + was[v]]
      ensures Shape()
    {
    }

    lemma InsertedRing(n: Pointers, p: Pointers, v: nat, list: seq<nat>, i: nat)
      requires Objects() && v < P.NBUCKETS && Indices(list) && i < |buf| && i !in list && Ring(n, p, v, list)
      ensures var b, head, first := buf[i], heads[v], Node(v, list, 1);
              Ring(n[b := first][head := b], p[b := head][first := b], v, [i] + list)
    {
      var b, head, first := buf[i], heads[v], Node(v, list, 1);
      var now, n1, p1 := [i] + list, n[b := first][head := b], p[b := head][first := b];
      forall k: nat | k <= |now|
        ensures Linked(n1, p1, v, now, k)
      {
        NodesApart(v, now, k, 0);
        NodesApart(v, now, k, 1);
        NodesApart(v, now, k + 1, 1);
        NodesApart(v, now, k + 1, 2);
        if k >= 1 {
          assert Linked(n, p, v, list, k - 1);
        }
      }
    }

    lemma InsertedOther(n: Pointers, p: Pointers, v: nat, list: seq<nat>, i: nat, w: nat, other: seq<nat>)
      requires Objects() && v < P.NBUCKETS && w < P.NBUCKETS && v != w && Indices(list) && Indices(other)
      requires i < |buf| && i !in other && forall x: nat :: x in list ==> x !in other
      requires Ring(n, p, w, other)
      ensures var b, head, first := buf[i], heads[v], Node(v, list, 1);
              Ring(n[b := first][head := b], p[b := head][first := b], w, other)
    {
      var b, head, first := buf[i], heads[v], Node(v, list, 1);
      var n1, p1 := n[b := first][head := b], p[b := head][first := b];
      forall k: nat | k <= |other|
        ensures Linked(n1, p1, w, other, k)
      {
        assert Linked(n, p, w, other, k);
        RingsApart(v, w, list, other, 0, k);
        RingsApart(v, w, list, other, 1, k + 1);
      }
    }

    /** The two pointer writes of brelse, lines 136-137. */
    method Unlink(ghost v: nat, b: Buf, ghost k: nat)
      requires Shape() && Rings() && v < P.NBUCKETS && k < |lists[v]| && b == buf[lists[v][k]]
      modifies nodes`prev, nodes`next, this`lists
      ensures lists == old(lists)[v := old(lists[v])[..k] + old(lists[v])[k + 1..]] && Shape() && Rings()
    {
      hide Shape, Rings, Ring, Linked, Indices, Node, Objects, NextMap, PrevMap;
      ShapeParts();
      AllRings();
      ghost var was, list := lists, lists[v];
      ghost var n: Pointers, p: Pointers := NextMap(), PrevMap();
      Neighbours(v, k);
      Neighbours(v, k + 1);
      MiddleNode(v, list, k);
      SetPrev(b.next, b.prev);
      SetNext(b.prev, b.next);
      lists := lists[v := list[..k] + list[k + 1..]];
      UnlinkedShape(was, v, k);
      RingsAfterUnlink(was, n, p, v, k);
    }

    lemma MiddleNode(v: nat, list: seq<nat>, k: nat)
      requires Objects() && v < P.NBUCKETS && Indices(list) && k < |list|
      ensures Node(v, list, k + 1) == buf[list[k]]
      ensures Node(v, list, k) != buf[list[k]] && Node(v, list, k + 2) != buf[list[k]]
    {
      NodesApart(v, list, k, k + 1);
      NodesApart(v, list, k + 1, k + 2);
    }

    lemma RingsAfterUnlink(was: seq<seq<nat>>, n: Pointers, p: Pointers, v: nat, k: nat)
      requires Shape() && |was| == P.NBUCKETS && v < P.NBUCKETS && k < |was[v]|
      requires forall w :: 0 <= w < P.NBUCKETS ==> Indices(was[w]) && Ring(n, p, w, was[w])
      requires forall u, w, x: nat :: 0 <= u < P.NBUCKETS && 0 <= w < P.NBUCKETS && u != w && x in was[u] ==> x !in was[w]
      requires lists == was[v := was[v][..k] + was[v][k + 1..]] && Indices(was[v])
      requires var before, after := Node(v, was[v], k), Node(v, was[v], k + 2);
               NextMap() == n[before := after] && PrevMap() == p[after := before]
      ensures Rings()
    {
      hide Ring, NextMap, PrevMap;
      UnlinkedRing(n, p, v, was[v], k);
      forall w: nat | w < P.NBUCKETS && w != v
        ensures Ring(NextMap(), PrevMap(), w, was[w])
      {
        UnlinkedOther(n, p, v, was[v], k, w, was[w]);
      }
    }

    lemma UnlinkedShape(was: seq<seq<nat>>, v: nat, k: nat)
      requires Objects() && |was| == P.NBUCKETS && v < P.NBUCKETS && k < |was[v]|
      requires forall w :: 0 <= w < P.NBUCKETS ==> Indices(was[w])
      requires forall u, w, x: nat :: 0 <= u < P.NBUCKETS && 0 <= w < P.NBUCKETS && u != w && x in was[u] ==> x !in was[w]
      requires lists == was[v := was[v][..k] + was[v][k + 1..]]
      ensures Shape()
    {
      assert forall x :: x in lists[v] ==> x in was[v];
    }

    lemma UnlinkedRing(n: Pointers, p: Pointers, v: nat, list: seq<nat>, k: nat)
      requires Objects() && v < P.NBUCKETS && Indices(list) && k < |list| && Ring(n, p, v, list)
      ensures var now := list[..k] + list[k + 1..];
              && (forall j :: 0 <= j < |now| ==> now[j] < |buf|)
              && Ring(n[Node(v, list, k) := Node(v, list, k + 2)], p[Node(v, list, k + 2) := Node(v, list, k)], v, now)
    {
      var now := list[..k] + list[k + 1..];
      var before, after := Node(v, list, k), Node(v, list, k + 2);
      var n1, p1 := n[before := after], p[after := before];
      forall j: nat | j <= |now|
        ensures Linked(n1, p1, v, now, j)
      {
        var i := if j <= k then j else j + 1;
        assert Linked(n, p, v, list, i);
        NodesApart(v, list, i, k);
        NodesApart(v, list, i + 1, k + 2);
      }
    }

    lemma UnlinkedOther(n: Pointers, p: Pointers, v: nat, list: seq<nat>, k: nat, w: nat, other: seq<nat>)
      requires Objects() && v < P.NBUCKETS && w < P.NBUCKETS && v != w && Indices(list) && Indices(other)
      requires k < |list| && forall x: nat :: x in list ==> x !in other
      requires Ring(n, p, w, other)
      ensures Ring(n[Node(v, list, k) := Node(v, list, k + 2)], p[Node(v, list, k + 2) := Node(v, list, k)], w, other)
    {
      var before, after := Node(v, list, k), Node(v, list, k + 2);
      var n1, p1 := n[before := after], p[after := before];
      forall j: nat | j <= |other|
        ensures Linked(n1, p1, w, other, j)
      {
        assert Linked(n, p, w, other, j);
        RingsApart(v, w, list, other, k, j);
        RingsApart(v, w, list, other, k + 2, j + 1);
      }
    }

    // ---------------------------------------------------------------- binit

    /** binit: nbuf unused buffers, and every bucket's head a ring of its own. */
    constructor (nbuf: nat, disk: P.Block -> P.Data)
      ensures |buf| == nbuf && this.disk == disk && lists == seq(P.NBUCKETS, _ => [])
      ensures Shape() && Rings() && fresh(nodes) && forall i :: 0 <= i < nbuf ==> !buf[i].used && !buf[i].locked
    {
      hide Shape, Rings, Ring, Linked, Node, NextMap, PrevMap;
      var bs := NewBufs(nbuf);
      var hs := NewHeads();
      buf, heads, this.disk := bs, hs, disk;
      nodes := (set b | b in bs) + (set h | h in hs);
      lists := seq(P.NBUCKETS, _ => []);
      new;
      EmptyRings();
    }

    lemma EmptyRings()
      requires Objects() && lists == seq(P.NBUCKETS, _ => [])
      requires forall i :: 0 <= i < |heads| ==> heads[i].next == heads[i] && heads[i].prev == heads[i]
      ensures Shape() && Rings()
    {
    }

    static method NewBufs(n: nat) returns (bs: seq<Buf>)
      ensures |bs| == n && forall i :: 0 <= i < n ==> fresh(bs[i]) && !bs[i].used && !bs[i].locked
      ensures forall i, j :: 0 <= i < j < n ==> bs[i] != bs[j]
    {
      bs := [];
      while |bs| < n
        invariant |bs| <= n && forall i :: 0 <= i < |bs| ==> fresh(bs[i]) && !bs[i].used && !bs[i].locked
        invariant forall i, j :: 0 <= i < j < |bs| ==> bs[i] != bs[j]
        decreases n - |bs|
      {
        var b := new Buf();
        bs := bs + [b];
      }
    }

    static method NewHeads() returns (hs: seq<Buf>)
      ensures |hs| == P.NBUCKETS && forall i :: 0 <= i < |hs| ==> fresh(hs[i]) && hs[i].next == hs[i] && hs[i].prev == hs[i]
      ensures forall i, j :: 0 <= i < j < |hs| ==> hs[i] != hs[j]
    {
      hs := [];
      while |hs| < P.NBUCKETS
        invariant |hs| <= P.NBUCKETS && forall i :: 0 <= i < |hs| ==> fresh(hs[i]) && hs[i].next == hs[i] && hs[i].prev == hs[i]
        invariant forall i, j :: 0 <= i < j < |hs| ==> hs[i] != hs[j]
        decreases P.NBUCKETS - |hs|
      {
        var h := new Buf();
        h.prev := h;
        h.next := h;
        hs := hs + [h];
      }
    }

    /** After binit nothing is listed and nothing is in use. */
    lemma FreshIsValid()
      requires Shape() && Rings() && lists == seq(P.NBUCKETS, _ => []) && forall i :: 0 <= i < |buf| ==> !buf[i].used
      ensures Valid()
    {
      hide Ring, Rings;
    }

    // ---------------------------------------------------------------- what the cache holds

    ghost function Contents(): (fs: seq<Fields>)
      requires Objects()
      reads nodes`dev, nodes`blockno, nodes`valid, nodes`refcnt, nodes`used, nodes`locked, nodes`data
      ensures |fs| == |buf| && forall i :: 0 <= i < |buf| ==> fs[i] == buf[i].Get()
    {
      FirstContents(|buf|)
    }

    ghost function FirstContents(n: nat): (fs: seq<Fields>)
      requires Objects() && n <= |buf|
      reads nodes`dev, nodes`blockno, nodes`valid, nodes`refcnt, nodes`used, nodes`locked, nodes`data
      ensures |fs| == n && forall i :: 0 <= i < n ==> fs[i] == buf[i].Get()
    {
      if n == 0 then [] else FirstContents(n - 1) + [buf[n - 1].Get()]
    }

    /** A bucket's list holds exactly the used buffers whose block hashes to it, and a block is listed at most once. */
    ghost predicate Valid()
      reads this`lists, nodes
    {
      Shape() && Rings() && Exact(Contents(), lists)
    }

    /** Some buffer is in use for the block. */
    ghost predicate IsCached(blk: P.Block)
      requires Objects()
      reads nodes
    {
      exists i :: 0 <= i < |buf| && buf[i].used && buf[i].Get().blk == blk
    }

    lemma ListedIsUsed(v: nat, k: nat)
      requires Valid() && v < P.NBUCKETS && k < |lists[v]|
      ensures lists[v][k] < |buf| && buf[lists[v][k]].used && P.Hash(buf[lists[v][k]].Get().blk) == v
    {
      hide Ring, Shape;
      ShapeParts();
      assert lists[v][k] in lists[v] && Belongs(Contents(), v, lists[v][k]);
      assert Contents()[lists[v][k]] == buf[lists[v][k]].Get();
    }

    // ---------------------------------------------------------------- bget

    /** The scan of one bucket, lines 65-73. */
    method Find(dev: nat, blockno: nat, v: nat) returns (r: Buf?, ghost i: nat)
      requires Valid() && v == P.Hash(P.Block(dev, blockno))
      ensures r == null ==> !IsCached(P.Block(dev, blockno))
      ensures r != null ==> i < |buf| && r == buf[i] && r.used && r.Get().blk == P.Block(dev, blockno)
    {
      hide Ring, Linked, Indices, Shape, Rings;
      ShapeParts();
      AllRings();
      ghost var list := lists[v];
      Neighbours(v, 0);
      HeadIsNode(v, list);
      var head := heads[v];
      var b := head.next;
      ghost var k := 1;
      i := 0;
      while b != head
        invariant 1 <= k <= |list| + 1 && b == Node(v, list, k)
        invariant forall j :: 0 <= j < k - 1 ==> buf[list[j]].Get().blk != P.Block(dev, blockno)
        decreases |list| + 1 - k
      {
        NodesApart(v, list, k, 0);
        i := list[k - 1];
        ListedIsUsed(v, k - 1);
        if b.dev == dev && b.blockno == blockno {
          return b, i;
        }
        Neighbours(v, k);
        b := b.next;
        k := k + 1;
      }
      NodesApart(v, list, k, 0);
      NotCached(P.Block(dev, blockno), v);
      return null, 0;
    }

    lemma NotCached(blk: P.Block, v: nat)
      requires Valid() && v == P.Hash(blk)
      requires forall j :: 0 <= j < |lists[v]| && lists[v][j] < |buf| ==> buf[lists[v][j]].Get().blk != blk
      ensures !IsCached(blk)
    {
      hide Ring, Rings, Shape;
      ShapeParts();
      forall i: nat | i < |buf| && buf[i].used
        ensures buf[i].Get().blk != blk
      {
        assert Contents()[i] == buf[i].Get();
      }
    }

    /** The buffer for a block, its sleep-lock taken: the one that holds the block already, or else the first unused
        one, now at the head of the block's list. There must be one of the two (else bget panics), and no one may hold
        the block's buffer (else bget waits). */
    method Bget(dev: nat, blockno: nat) returns (b: Buf, ghost i: nat)
      requires Valid()
      requires IsCached(P.Block(dev, blockno)) || exists j :: 0 <= j < |buf| && !buf[j].used
      requires forall j :: 0 <= j < |buf| && buf[j].used && buf[j].Get().blk == P.Block(dev, blockno) ==> !buf[j].locked
      modifies nodes, this`lists
      ensures Valid() && i < |buf| && b == buf[i]
      ensures var blk, f := P.Block(dev, blockno), old(Contents())[i];
              if old(IsCached(blk)) then
                && f.used && f.blk == blk && lists == old(lists)
                && Contents() == old(Contents())[i := f.(refcnt := f.refcnt + 1, locked := true)]
              else
                && !f.used && (forall j :: 0 <= j < i ==> old(Contents())[j].used)
                && lists == old(lists)[P.Hash(blk) := [i] + old(lists)[P.Hash(blk)]]
                && Contents() == old(Contents())[i := Fields(blk, false, 1, true, true, f.data)]
    {
      hide Ring, Linked, Indices, Shape, Rings, Exact, NextMap, PrevMap, FirstContents, Contents;
      ShapeParts();
      ghost var blk, was := P.Block(dev, blockno), Contents();
      var v := P.Hash(P.Block(dev, blockno));
      var r, at := Find(dev, blockno, v);
      if r != null {
        b, i := r, at;
        b.refcnt := b.refcnt + 1;
        b.locked := true;
        ExactTouch(was, lists, i, was[i].(refcnt := was[i].refcnt + 1, locked := true));
        assert Contents() == was[i := was[i].(refcnt := was[i].refcnt + 1, locked := true)];
        return b, i;
      }
      b, i := Recycle(dev, blockno, v);
    }

    /** The search for an unused buffer and its new identity, lines 75-92. */
    method Recycle(dev: nat, blockno: nat, v: nat) returns (b: Buf, ghost i: nat)
      requires Valid() && v == P.Hash(P.Block(dev, blockno)) && !IsCached(P.Block(dev, blockno))
      requires exists j :: 0 <= j < |buf| && !buf[j].used
      modifies nodes, this`lists
      ensures Valid() && i < |buf| && b == buf[i]
      ensures !old(Contents())[i].used && forall j :: 0 <= j < i ==> old(Contents())[j].used
      ensures lists == old(lists)[v := [i] + old(lists)[v]]
      ensures Contents() == old(Contents())[i := Fields(P.Block(dev, blockno), false, 1, true, true, old(Contents())[i].data)]
    {
      hide Ring, Linked, Indices, Shape, Rings, Exact, NextMap, PrevMap, FirstContents, Contents;
      ShapeParts();
      ghost var was, ls := Contents(), lists;
      var n := 0;
      while n < |buf| && buf[n].used
        invariant n <= |buf| && forall j :: 0 <= j < n ==> was[j].used
      {
        n := n + 1;
      }
      assert n < |buf|;
      b, i := buf[n], n;
      UnusedIsUnlisted(i);
      b.used := true;
      b.dev := dev;
      b.blockno := blockno;
      b.valid := false;
      b.refcnt := 1;
      Insert(v, n);
      b.locked := true;
      ghost var f := Fields(P.Block(dev, blockno), false, 1, true, true, was[i].data);
      ExactTake(was, ls, i, f);
      assert Contents() == was[i := f];
    }

    lemma NoRepeats(v: nat)
      requires Shape() && v < P.NBUCKETS
      ensures forall j, k :: 0 <= j < k < |lists[v]| ==> lists[v][j] != lists[v][k]
    {
      assert Indices(lists[v]);
    }

    lemma UnusedIsUnlisted(i: nat)
      requires Valid() && i < |buf| && !buf[i].used
      ensures forall v :: 0 <= v < P.NBUCKETS ==> i !in lists[v]
    {
      hide Ring, Rings, Shape;
      ShapeParts();
      forall v: nat | v < P.NBUCKETS
        ensures i !in lists[v]
      {
        assert i in lists[v] ==> Belongs(Contents(), v, i);
      }
    }

    // ---------------------------------------------------------------- bread, bwrite, brelse, bpin and bunpin

    /** A locked, valid buffer with the contents of the block: what is cached, or else what the disk holds. */
    method Bread(dev: nat, blockno: nat) returns (b: Buf, ghost i: nat)
      requires Valid()
      requires IsCached(P.Block(dev, blockno)) || exists j :: 0 <= j < |buf| && !buf[j].used
      requires forall j :: 0 <= j < |buf| && buf[j].used && buf[j].Get().blk == P.Block(dev, blockno) ==> !buf[j].locked
      modifies nodes, this`lists
      ensures Valid() && i < |buf| && b == buf[i]
      ensures var blk, f := P.Block(dev, blockno), old(Contents())[i];
              if old(IsCached(blk)) then
                && f.used && f.blk == blk && lists == old(lists)
                && Contents() == old(Contents())[i := Fields(blk, true, f.refcnt + 1, true, true,
                                                             if f.valid then f.data else disk(blk))]
              else
                && !f.used && lists == old(lists)[P.Hash(blk) := [i] + old(lists)[P.Hash(blk)]]
                && Contents() == old(Contents())[i := Fields(blk, true, 1, true, true, disk(blk))]
    {
      hide Ring, Linked, Indices, Shape, Rings, Exact, FirstContents, Contents;
      ShapeParts();
      ghost var was := Contents();
      b, i := Bget(dev, blockno);
      ShapeParts();
      if !b.valid {
        ghost var now := Contents();
        b.data := disk(P.Block(b.dev, b.blockno));
        b.valid := true;
        ExactTouch(now, lists, i, now[i].(data := disk(now[i].blk), valid := true));
        assert Contents() == now[i := now[i].(data := disk(now[i].blk), valid := true)];
      }
    }

    /** Writes the block; the caller must hold the buffer. */
    method Bwrite(b: Buf)
      requires b.locked
      modifies this`disk
      ensures disk == P.Put(old(disk), b.Get().blk, b.data)
    {
      disk := P.Put(disk, P.Block(b.dev, b.blockno), b.data);
    }

    /** Gives the buffer up. Its last user takes it out of its list, whatever its place there, and marks it unused. */
    method Brelse(b: Buf, ghost i: nat)
      requires Valid() && i < |buf| && b == buf[i] && b.used && b.locked
      modifies nodes, this`lists
      ensures Valid()
      ensures var f := old(Contents())[i];
              && Contents() == old(Contents())[i := f.(locked := false, refcnt := f.refcnt - 1, used := f.refcnt != 1)]
              && lists == if f.refcnt == 1
                          then old(lists)[P.Hash(f.blk) := P.Without(old(lists)[P.Hash(f.blk)], i)] else old(lists)
    {
      hide Ring, Linked, Indices, Shape, Rings, Exact, FirstContents, Contents;
      ShapeParts();
      ghost var was, old_lists := Contents(), lists;
      b.locked := false;
      var v := P.Hash(P.Block(b.dev, b.blockno));
      b.refcnt := b.refcnt - 1;
      if b.refcnt == 0 {
        UsedIsListed(was, lists, i);
        ghost var k: nat :| k < |lists[v]| && lists[v][k] == i;
        NoRepeats(v);
        WithoutAt(lists[v], k);
        Unlink(v, b, k);
        b.used := false;
        ExactDrop(was, old_lists, i, was[i].(locked := false, refcnt := 0, used := false));
        assert Contents() == was[i := was[i].(locked := false, refcnt := 0, used := false)];
      } else {
        ghost var f := was[i].(locked := false, refcnt := was[i].refcnt - 1);
        ExactTouch(was, lists, i, f);
        assert Contents() == was[i := f];
      }
    }

    method Bpin(b: Buf, ghost i: nat)
      requires Valid() && i < |buf| && b == buf[i] && b.used
      modifies b`refcnt
      ensures Valid() && Contents() == old(Contents())[i := old(Contents())[i].(refcnt := old(b.refcnt) + 1)]
    {
      hide Ring, Linked, Indices, Shape, Rings, Exact, FirstContents, Contents;
      ShapeParts();
      ghost var was := Contents();
      b.refcnt := b.refcnt + 1;
      ExactTouch(was, lists, i, was[i].(refcnt := was[i].refcnt + 1));
      assert Contents() == was[i := was[i].(refcnt := was[i].refcnt + 1)];
    }

    /** Unlike brelse it never takes the buffer out of its list. */
    method Bunpin(b: Buf, ghost i: nat)
      requires Valid() && i < |buf| && b == buf[i] && b.used
      modifies b`refcnt
      ensures Valid() && Contents() == old(Contents())[i := old(Contents())[i].(refcnt := old(b.refcnt) - 1)]
    {
      hide Ring, Linked, Indices, Shape, Rings, Exact, FirstContents, Contents;
      ShapeParts();
      ghost var was := Contents();
      b.refcnt := b.refcnt - 1;
      ExactTouch(was, lists, i, was[i].(refcnt := was[i].refcnt - 1));
      assert Contents() == was[i := was[i].(refcnt := was[i].refcnt - 1)];
    }
  }

  predicate Belongs(fs: seq<Fields>, v: nat, i: nat) {
    i < |fs| && fs[i].used && P.Hash(fs[i].blk) == v
  }

  ghost predicate Exact(fs: seq<Fields>, lists: seq<seq<nat>>) {
    && |lists| == P.NBUCKETS
    && (forall v: nat, i: nat :: v < P.NBUCKETS && i in lists[v] ==> Belongs(fs, v, i))
    && (forall i: nat :: i < |fs| && fs[i].used ==> i in lists[P.Hash(fs[i].blk)])
    && (forall i, j :: 0 <= i < j < |fs| && fs[i].used && fs[j].used ==> fs[i].blk != fs[j].blk)
  }

  /** The block and the used flag of buffer i stay: so do the lists. */
  lemma ExactTouch(fs: seq<Fields>, lists: seq<seq<nat>>, i: nat, f: Fields)
    requires Exact(fs, lists) && i < |fs| && f.blk == fs[i].blk && f.used == fs[i].used
    ensures Exact(fs[i := f], lists)
  {
    var now := fs[i := f];
    assert forall j :: 0 <= j < |fs| ==> now[j].blk == fs[j].blk && now[j].used == fs[j].used;
    forall v: nat, j: nat | v < P.NBUCKETS && j in lists[v]
      ensures Belongs(now, v, j)
    {
      assert Belongs(fs, v, j);
    }
  }

  lemma ExactTake(fs: seq<Fields>, lists: seq<seq<nat>>, i: nat, f: Fields)
    requires Exact(fs, lists) && i < |fs| && !fs[i].used && f.used
    requires forall j :: 0 <= j < |fs| && fs[j].used ==> fs[j].blk != f.blk
    ensures Exact(fs[i := f], lists[P.Hash(f.blk) := [i] + lists[P.Hash(f.blk)]])
  {
    var v := P.Hash(f.blk);
    var now, ls := fs[i := f], lists[v := [i] + lists[v]];
    forall w: nat, j: nat | w < P.NBUCKETS && j in ls[w]
      ensures Belongs(now, w, j)
    {
      assert j in lists[w] ==> Belongs(fs, w, j);
      assert j in lists[w] || (w == v && j == i);
    }
    forall j: nat | j < |now| && now[j].used
      ensures j in ls[P.Hash(now[j].blk)]
    {
      assert j == i || j in lists[P.Hash(fs[j].blk)];
    }
  }

  lemma ExactDrop(fs: seq<Fields>, lists: seq<seq<nat>>, i: nat, f: Fields)
    requires Exact(fs, lists) && i < |fs| && fs[i].used && !f.used
    ensures Exact(fs[i := f], lists[P.Hash(fs[i].blk) := P.Without(lists[P.Hash(fs[i].blk)], i)])
  {
    var v := P.Hash(fs[i].blk);
    var now, ls := fs[i := f], lists[v := P.Without(lists[v], i)];
    forall w: nat, j: nat | w < P.NBUCKETS && j in ls[w]
      ensures Belongs(now, w, j)
    {
      assert Belongs(fs, w, j);
    }
    forall j: nat | j < |now| && now[j].used
      ensures j in ls[P.Hash(now[j].blk)]
    {
      assert j != i && j in lists[P.Hash(fs[j].blk)];
    }
  }

  lemma UsedIsListed(fs: seq<Fields>, lists: seq<seq<nat>>, i: nat)
    requires Exact(fs, lists) && i < |fs| && fs[i].used
    ensures i in lists[P.Hash(fs[i].blk)]
  {
  }

  /** Removing the one occurrence of a buffer is cutting the list there. */
  lemma {:induction false} WithoutAt(list: seq<nat>, k: nat)
    requires k < |list| && forall i, j :: 0 <= i < j < |list| ==> list[i] != list[j]
    ensures P.Without(list, list[k]) == list[..k] + list[k + 1..]
  {
    if k == 0 {
      NotThere(list[1..], list[0]);
    } else {
      WithoutAt(list[1..], k - 1);
      assert list[..k] + list[k + 1..] == [list[0]] + (list[1..][..k - 1] + list[1..][k..]);
    }
  }

  lemma {:induction false} NotThere(list: seq<nat>, b: nat)
    requires b !in list
    ensures P.Without(list, b) == list
  {
    if list != [] {
      NotThere(list[1..], b);
    }
  }

  /** The last brelse undoes what bget did to the lists, even when other buffers were put in front meanwhile. */
  lemma ReleaseUndoesGet(newer: seq<nat>, list: seq<nat>, i: nat)
    requires forall j, k :: 0 <= j < k < |newer + [i] + list| ==> (newer + [i] + list)[j] != (newer + [i] + list)[k]
    ensures P.Without(newer + [i] + list, i) == newer + list
  {
    var all := newer + [i] + list;
    assert all[|newer|] == i;
    WithoutAt(all, |newer|);
  }
}
