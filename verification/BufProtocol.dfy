/** The Lab 4 buffer cache (`bio.c`) as an interleaving of processes: per-bucket spinlocks, atomic `used` flags and
    sleep-locks, with one step between any two accesses to data another process may touch. */
module BufProtocol {

  const NBUCKETS: nat := 13

  datatype Option<T> = None | Some(value: T)

  datatype Block = Block(dev: nat, blockno: nat)

  type Data = seq<nat>

  /** `owner` is the holder of the sleep-lock; `pins` counts bpin calls not yet undone. */
  datatype Buf = Buf(blk: Block, valid: bool, refcnt: int, used: bool, data: Data, owner: Option<nat>, pins: nat)

  /** Where a process is. `blk` is the block it asked for, `b` the buffer it was given, `v` a bucket. */
  datatype Pc =
    | Idle
    // bget, lines 61-93
    | GetLock(blk: Block)
    | GetScan(blk: Block, k: nat)
    | GetFound(blk: Block, b: nat)
    | GetFree(blk: Block, i: nat)
    | GetTas(blk: Block, i: nat)
    | GetInit(blk: Block, b: nat)
    | GetInsert(blk: Block, b: nat)
    | GetRelease(blk: Block, b: nat)
    | GetSleep(blk: Block, b: nat)
    // bread, lines 104-106
    | ReadTest(blk: Block, b: nat)
    | ReadDisk(blk: Block, b: nat)
    | ReadDone(blk: Block, b: nat)
    // the caller of bread, holding the locked buffer
    | Hold(blk: Block, b: nat)
    // bpin and bunpin
    | PinHash(blk: Block, b: nat, up: bool)
    | PinLock(blk: Block, b: nat, v: nat, up: bool)
    | PinHeld(blk: Block, b: nat, v: nat, up: bool)
    | PinRelease(blk: Block, b: nat, v: nat)
    // brelse, lines 130-141
    | RelHash(blk: Block, b: nat)
    | RelLock(blk: Block, b: nat, v: nat)
    | RelHeld(blk: Block, b: nat, v: nat)
    | RelUnlink(b: nat, v: nat)
    | RelClear(b: nat, v: nat)
    | RelRelease(v: nat)
    // bget found no free buffer
    | Panicked(v: nat)

  /** `store` records what the block's holders have written: the flat block store the cache stands for. */
  datatype State = State(bufs: seq<Buf>, lists: seq<seq<nat>>, bucketLock: seq<Option<nat>>, pc: seq<Pc>,
                         disk: Block -> Data, store: Block -> Data)

  /** What the caller of bread does next; elsewhere only Go. */
  datatype Choice = Go | Read(blk: Block) | Modify(data: Data) | Write | Pin | Unpin | Release

  function Hash(blk: Block): (v: nat)
    ensures v < NBUCKETS
  {
    blk.blockno % NBUCKETS
  }

  function Put(m: Block -> Data, blk: Block, d: Data): Block -> Data {
    x => if x == blk then d else m(x)
  }

  function Without(list: seq<nat>, b: nat): (r: seq<nat>)
    ensures forall x :: x in r <==> x in list && x != b
  {
    if list == [] then [] else if list[0] == b then Without(list[1..], b) else [list[0]] + Without(list[1..], b)
  }

  ghost predicate Sized(s: State) {
    |s.lists| == |s.bucketLock| == NBUCKETS
  }

  ghost predicate Listed(s: State, b: nat)
    requires Sized(s)
  {
    b < |s.bufs| && b in s.lists[Hash(s.bufs[b].blk)]
  }

  // ---------------------------------------------------------------- one step of process p

  /** Blocked steps are those that wait for a bucket lock or a sleep-lock. The guards of Hold are what the file system
      promises: it pins and unpins a buffer only while holding it, never unpins more often than it pinned, and does not
      release a buffer that differs from the disk unless it is pinned. */
  ghost predicate Enabled(s: State, p: nat, ch: Choice) {
    && Sized(s) && p < |s.pc|
    && match s.pc[p] {
         case Idle => ch.Read?
         case GetLock(blk) => s.bucketLock[Hash(blk)].None?
         case GetScan(blk, k) => k < |s.lists[Hash(blk)]| ==> s.lists[Hash(blk)][k] < |s.bufs|
         case GetFound(_, b) => b < |s.bufs|
         case GetFree(_, _) => true
         case GetTas(_, i) => i < |s.bufs|
         case GetInit(_, b) => b < |s.bufs|
         case GetInsert(_, b) => b < |s.bufs|
         case GetRelease(_, _) => true
         case GetSleep(_, b) => b < |s.bufs| && s.bufs[b].owner.None?
         case ReadTest(_, b) => b < |s.bufs|
         case ReadDisk(_, b) => b < |s.bufs|
         case ReadDone(_, b) => b < |s.bufs|
         case Hold(_, b) =>
           && b < |s.bufs|
           && (match ch
               case Modify(_) => true
               case Write => true
               case Pin => true
               case Unpin => s.bufs[b].pins > 0
               case Release => s.bufs[b].pins > 0 || s.bufs[b].data == s.disk(s.bufs[b].blk)
               case _ => false)
         case PinHash(_, b, _) => b < |s.bufs|
         case PinLock(_, _, v, _) => v < NBUCKETS && s.bucketLock[v].None?
         case PinHeld(_, b, _, up) => b < |s.bufs| && (!up ==> s.bufs[b].pins > 0)
         case PinRelease(_, _, v) => v < NBUCKETS
         case RelHash(_, b) => b < |s.bufs|
         case RelLock(_, _, v) => v < NBUCKETS && s.bucketLock[v].None?
         case RelHeld(_, b, _) => b < |s.bufs|
         case RelUnlink(b, v) => b < |s.bufs| && v < NBUCKETS
         case RelClear(b, _) => b < |s.bufs|
         case RelRelease(v) => v < NBUCKETS
         case Panicked(_) => false
       }
  }

  ghost function At(s: State, p: nat, pc: Pc): State
    requires p < |s.pc|
  {
    s.(pc := s.pc[p := pc])
  }

  ghost function SetBuf(s: State, b: nat, buf: Buf): State
    requires b < |s.bufs|
  {
    s.(bufs := s.bufs[b := buf])
  }

  ghost function SetLock(s: State, v: nat, o: Option<nat>): State
    requires v < |s.bucketLock|
  {
    s.(bucketLock := s.bucketLock[v := o])
  }

  /** bget and bread. */
  ghost function GetStep(s: State, p: nat, ch: Choice): State
    requires Enabled(s, p, ch)
  {
    match s.pc[p]
    case Idle => At(s, p, GetLock(ch.blk))
    case GetLock(blk) => At(SetLock(s, Hash(blk), Some(p)), p, GetScan(blk, 0))
    case GetScan(blk, k) =>
      var list := s.lists[Hash(blk)];
      if k >= |list| then At(s, p, GetFree(blk, 0))
      else if s.bufs[list[k]].blk == blk then At(s, p, GetFound(blk, list[k]))
      else At(s, p, GetScan(blk, k + 1))
    case GetFound(blk, b) => At(SetBuf(s, b, s.bufs[b].(refcnt := s.bufs[b].refcnt + 1)), p, GetRelease(blk, b))
    case GetFree(blk, i) =>
      if i >= |s.bufs| then At(s, p, Panicked(Hash(blk)))
      else if !s.bufs[i].used then At(s, p, GetTas(blk, i))
      else At(s, p, GetFree(blk, i + 1))
    case GetTas(blk, i) =>
      if s.bufs[i].used then At(s, p, GetFree(blk, i + 1))
      else At(SetBuf(s, i, s.bufs[i].(used := true)), p, GetInit(blk, i))
    case GetInit(blk, b) => At(SetBuf(s, b, s.bufs[b].(blk := blk, valid := false, refcnt := 1)), p, GetInsert(blk, b))
    case GetInsert(blk, b) =>
      At(s.(lists := s.lists[Hash(blk) := [b] + s.lists[Hash(blk)]]), p, GetRelease(blk, b))
    case GetRelease(blk, b) => At(SetLock(s, Hash(blk), None), p, GetSleep(blk, b))
    case GetSleep(blk, b) => At(SetBuf(s, b, s.bufs[b].(owner := Some(p))), p, ReadTest(blk, b))
    case ReadTest(blk, b) => At(s, p, if s.bufs[b].valid then Hold(blk, b) else ReadDisk(blk, b))
    case ReadDisk(blk, b) => At(SetBuf(s, b, s.bufs[b].(data := s.disk(s.bufs[b].blk))), p, ReadDone(blk, b))
    case ReadDone(blk, b) => At(SetBuf(s, b, s.bufs[b].(valid := true)), p, Hold(blk, b))
    case _ => s
  }

  /** The holder of a buffer: its own stores to the data, bwrite, and the calls of bpin, bunpin and brelse. */
  ghost function HoldStep(s: State, p: nat, ch: Choice): State
    requires Enabled(s, p, ch) && s.pc[p].Hold?
  {
    var blk, b := s.pc[p].blk, s.pc[p].b;
    match ch
    case Modify(d) => SetBuf(s, b, s.bufs[b].(data := d)).(store := Put(s.store, s.bufs[b].blk, d))
    case Write => s.(disk := Put(s.disk, s.bufs[b].blk, s.bufs[b].data))
    case Pin => At(s, p, PinHash(blk, b, true))
    case Unpin => At(s, p, PinHash(blk, b, false))
    case Release => At(SetBuf(s, b, s.bufs[b].(owner := None)), p, RelHash(blk, b))
  }

  ghost function PinStep(s: State, p: nat, ch: Choice): State
    requires Enabled(s, p, ch)
  {
    match s.pc[p]
    case PinHash(blk, b, up) => At(s, p, PinLock(blk, b, Hash(s.bufs[b].blk), up))
    case PinLock(blk, b, v, up) => At(SetLock(s, v, Some(p)), p, PinHeld(blk, b, v, up))
    case PinHeld(blk, b, v, up) =>
      var buf := s.bufs[b];
      At(SetBuf(s, b, if up then buf.(refcnt := buf.refcnt + 1, pins := buf.pins + 1)
                      else buf.(refcnt := buf.refcnt - 1, pins := buf.pins - 1)), p, PinRelease(blk, b, v))
    case PinRelease(blk, b, v) => At(SetLock(s, v, None), p, Hold(blk, b))
    case _ => s
  }

  ghost function RelStep(s: State, p: nat, ch: Choice): State
    requires Enabled(s, p, ch)
  {
    match s.pc[p]
    case RelHash(blk, b) => At(s, p, RelLock(blk, b, Hash(s.bufs[b].blk)))
    case RelLock(blk, b, v) => At(SetLock(s, v, Some(p)), p, RelHeld(blk, b, v))
    case RelHeld(blk, b, v) =>
      At(SetBuf(s, b, s.bufs[b].(refcnt := s.bufs[b].refcnt - 1)), p,
         if s.bufs[b].refcnt - 1 == 0 then RelUnlink(b, v) else RelRelease(v))
    case RelUnlink(b, v) => At(s.(lists := s.lists[v := Without(s.lists[v], b)]), p, RelClear(b, v))
    case RelClear(b, v) => At(SetBuf(s, b, s.bufs[b].(used := false)), p, RelRelease(v))
    case RelRelease(v) => At(SetLock(s, v, None), p, Idle)
    case _ => s
  }

  predicate Getting(pc: Pc) {
    match pc
    case Idle => true
    case GetLock(_) => true
    case GetScan(_, _) => true
    case GetFound(_, _) => true
    case GetFree(_, _) => true
    case GetTas(_, _) => true
    case GetInit(_, _) => true
    case GetInsert(_, _) => true
    case GetRelease(_, _) => true
    case GetSleep(_, _) => true
    case ReadTest(_, _) => true
    case ReadDisk(_, _) => true
    case ReadDone(_, _) => true
    case _ => false
  }

  predicate Pinning(pc: Pc) {
    pc.PinHash? || pc.PinLock? || pc.PinHeld? || pc.PinRelease?
  }

  ghost function Step(s: State, p: nat, ch: Choice): State
    requires Enabled(s, p, ch)
  {
    if Getting(s.pc[p]) then GetStep(s, p, ch)
    else if s.pc[p].Hold? then HoldStep(s, p, ch)
    else if Pinning(s.pc[p]) then PinStep(s, p, ch)
    else RelStep(s, p, ch)
  }

  /** After binit: zeroed buffers, empty lists, nobody in the cache. */
  ghost function Boot(nbuf: nat, nproc: nat, disk: Block -> Data): State {
    State(seq(nbuf, i => Buf(Block(0, 0), false, 0, false, [], None, 0)), seq(NBUCKETS, v => []), seq(NBUCKETS, v => None),
          seq(nproc, p => Idle), disk, disk)
  }

  ghost predicate Run(s: State, steps: seq<(nat, Choice)>)
    decreases |steps|
  {
    steps == [] || (Enabled(s, steps[0].0, steps[0].1) && Run(Step(s, steps[0].0, steps[0].1), steps[1..]))
  }

  ghost function After(s: State, steps: seq<(nat, Choice)>): State
    requires Run(s, steps)
    decreases |steps|
  {
    if steps == [] then s else After(Step(s, steps[0].0, steps[0].1), steps[1..])
  }
}
