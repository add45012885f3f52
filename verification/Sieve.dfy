/** The prime sieve pipeline of Lab 1 (`primes.c`) as an interleaving of processes: a feeder and a growing chain of
    filters, joined by bounded pipes whose ends are descriptors that fork duplicates and close gives up. */
module Sieve {
  import opened Primes

  /** Where a process is, with the variables it still needs. */
  datatype Pc =
    // the feeder, lines 13-22
    | FCloseR
    | FWrite(i: nat)
    | FCloseW
    | FWait
    // a new filter, lines 27 and 39-41
    | CCloseW
    | CCloseL
    // the outer loop, lines 32-37
    | SRead
    | SPrint(prime: nat)
    | SPipe(prime: nat)
    | SFork(prime: nat)
    // after the fork, lines 46-60
    | PCloseR(prime: nat)
    | PRead(prime: nat)
    | PWrite(prime: nat, num: nat)
    | PCloseL
    | PCloseW
    | PWait
    // line 63
    | SCloseL
    | Done

  /** sent is everything written to the pipe, of which the first got have been read; the rest is in the buffer. The two
      sets are the processes that hold a descriptor of each end. */
  datatype Pipe = Pipe(sent: seq<nat>, got: nat, writers: set<nat>, readers: set<nat>)

  /** Process k creates pipe k and process k + 1. */
  datatype State = State(pcs: seq<Pc>, pipes: seq<Pipe>, out: seq<nat>)

  /** After the first pipe and fork: both processes hold both ends. */
  function Init(): State {
    State([FCloseR, CCloseW], [Pipe([], 0, {0, 1}, {0, 1})], [])
  }

  /** What a step does besides moving its process on. */
  datatype Effect =
    | Quiet
    | CloseRead(j: nat)
    | CloseWrite(j: nat)
    | Take
    | Send(v: nat)
    | Print(v: nat)
    | NewPipe
    | Fork

  /** fork: the child, process c, gets every descriptor process p holds. */
  function Inherit(pipe: Pipe, p: nat, c: nat): Pipe {
    pipe.(writers := pipe.writers + if p in pipe.writers then {c} else {},
    readers := pipe.readers + if p in pipe.readers then {c} else {})
  }

  function SetPipe(s: State, j: nat, pipe: Pipe): State
    requires j < |s.pipes|
  {
    s.(pipes := s.pipes[j := pipe])
  }

  /** A write with no reader left is lost. */
  function Apply(s: State, p: nat, pc: Pc, e: Effect): State
    requires p < |s.pcs|
  {
    var t := s.(pcs := s.pcs[p := pc]);
    match e
    case Quiet => t
    case CloseRead(j) =>
      if j < |s.pipes| then SetPipe(t, j, s.pipes[j].(readers := s.pipes[j].readers - {p})) else t
    case CloseWrite(j) =>
      if j < |s.pipes| then SetPipe(t, j, s.pipes[j].(writers := s.pipes[j].writers - {p})) else t
    case Take => if 1 <= p <= |s.pipes| then SetPipe(t, p - 1, s.pipes[p - 1].(got := s.pipes[p - 1].got + 1)) else t
    case Send(v) =>
      if p < |s.pipes| && s.pipes[p].readers != {} then SetPipe(t, p, s.pipes[p].(sent := s.pipes[p].sent + [v])) else t
    case Print(v) => t.(out := s.out + [v])
    case NewPipe => t.(pipes := s.pipes + [Pipe([], 0, {p}, {p})])
    case Fork =>
      t.(pcs := t.pcs + [CCloseW],
      pipes := seq(|s.pipes|, j requires 0 <= j < |s.pipes| => Inherit(s.pipes[j], p, |s.pcs|)))
  }

  /** A read of the left pipe gives a number, or the end once no one can write any more and all is read; otherwise it
      waits. */
  datatype ReadResult = Wait | Eof | Got(v: nat)

  function Read(s: State, p: nat): ReadResult {
    if p == 0 || p > |s.pipes| then Wait
    else if s.pipes[p - 1].got < |s.pipes[p - 1].sent| then Got(s.pipes[p - 1].sent[s.pipes[p - 1].got])
    else if s.pipes[p - 1].writers == {} then Eof
    else Wait
  }

  /** A write waits while the buffer of cap numbers is full and someone may still read. */
  predicate MayWrite(s: State, p: nat, cap: nat) {
    p < |s.pipes| && (s.pipes[p].readers == {} || |s.pipes[p].sent| < s.pipes[p].got + cap)
  }

  /** Whether process p can take a step: it has not exited and need not wait. */
  predicate Enabled(s: State, p: nat, cap: nat, n: nat) {
    p < |s.pcs| &&
    match s.pcs[p]
    case FWrite(i) => i <= n ==> MayWrite(s, p, cap)
    case PWrite(_, _) => MayWrite(s, p, cap)
    case SRead => !Read(s, p).Wait?
    case PRead(_) => !Read(s, p).Wait?
    case FWait => p + 1 < |s.pcs| && s.pcs[p + 1].Done?
    case PWait => p + 1 < |s.pcs| && s.pcs[p + 1].Done?
    case Done => false
    case _ => true
  }

  function NextPc(s: State, p: nat, n: nat): Pc
    requires p < |s.pcs|
  {
    match s.pcs[p]
    case FCloseR => FWrite(2)
    case FWrite(i) => if i <= n then FWrite(i + 1) else FCloseW
    case FCloseW => FWait
    case FWait => Done
    case CCloseW => if p == 1 then SRead else CCloseL
    case CCloseL => SRead
    case SRead => if Read(s, p).Got? then SPrint(Read(s, p).v) else SCloseL
    case SPrint(prime) => SPipe(prime)
    case SPipe(prime) => SFork(prime)
    case SFork(prime) => PCloseR(prime)
    case PCloseR(prime) => PRead(prime)
    case PRead(prime) =>
      if Read(s, p).Got? then if Divides(prime, Read(s, p).v) then PRead(prime) else PWrite(prime, Read(s, p).v)
      else PCloseL
    case PWrite(prime, _) => PRead(prime)
    case PCloseL => PCloseW
    case PCloseW => PWait
    case PWait => Done
    case SCloseL => Done
    case Done => Done
  }

  function EffectOf(s: State, p: nat, n: nat): Effect
    requires p < |s.pcs|
  {
    match s.pcs[p]
    case FCloseR => CloseRead(p)
    case FWrite(i) => if i <= n then Send(i) else Quiet
    case FCloseW => CloseWrite(p)
    case CCloseW => if p == 0 then Quiet else CloseWrite(p - 1)
    case CCloseL => if p < 2 then Quiet else CloseRead(p - 2)
    case SRead => if Read(s, p).Got? then Take else Quiet
    case SPrint(prime) => Print(prime)
    case SPipe(_) => NewPipe
    case SFork(_) => Fork
    case PCloseR(_) => CloseRead(p)
    case PRead(_) => if Read(s, p).Got? then Take else Quiet
    case PWrite(_, num) => Send(num)
    case PCloseL => if p == 0 then Quiet else CloseRead(p - 1)
    case PCloseW => CloseWrite(p)
    case SCloseL => if p == 0 then Quiet else CloseRead(p - 1)
    case _ => Quiet
  }

  function Next(s: State, p: nat, n: nat): State
    requires p < |s.pcs|
  {
    Apply(s, p, NextPc(s, p, n), EffectOf(s, p, n))
  }

  /** An interleaving: each step is one of some process that can take it. */
  ghost predicate IsRun(run: seq<State>, cap: nat, n: nat) {
    && |run| > 0 && run[0] == Init()
    && forall i :: 0 <= i < |run| - 1 ==> Steps(run[i], run[i + 1], cap, n)
  }

  ghost predicate Steps(s: State, t: State, cap: nat, n: nat) {
    exists p: nat :: Enabled(s, p, cap, n) && t == Next(s, p, n)
  }

  // ---------------------------------------------------------------- the invariant

  /** What pipe j carries in the end. */
  function Level(n: nat, j: nat): (r: seq<nat>)
    ensures Positive(r)
  {
    if j == 0 then Range(2, n) else Pass(Level(n, j - 1))
  }

  predicate Feeding(pc: Pc) {
    pc.FCloseR? || pc.FWrite? || pc.FCloseW? || pc.FWait? || pc.Done?
  }

  /** A filter that has no child yet. */
  predicate Last(pc: Pc) {
    pc.CCloseW? || pc.CCloseL? || pc.SRead? || pc.SPrint? || pc.SPipe? || pc.SFork? || pc.SCloseL? || pc.Done?
  }

  predicate Parent(pc: Pc) {
    pc.PCloseR? || pc.PRead? || pc.PWrite? || pc.PCloseL? || pc.PCloseW? || pc.PWait? || pc.Done?
  }

  /** The chain: a feeder, filters that have forked, and the last one. */
  ghost predicate Chain(s: State) {
    && |s.pcs| >= 2 && Feeding(s.pcs[0]) && Last(s.pcs[|s.pcs| - 1]) && !s.pcs[1].CCloseL?
    && (forall k :: 1 <= k < |s.pcs| - 1 ==> Parent(s.pcs[k]))
    && |s.pipes| == |s.pcs| - 1 + if s.pcs[|s.pcs| - 1].SFork? then 1 else 0
  }

  /** Whether the creator of a pipe still holds its write end. */
  predicate OwnsW(pc: Pc) {
    pc.FCloseR? || pc.FWrite? || pc.FCloseW?
    || pc.SFork? || pc.PCloseR? || pc.PRead? || pc.PWrite? || pc.PCloseL? || pc.PCloseW?
  }

  predicate OwnsR(pc: Pc) {
    pc.FCloseR? || pc.SFork? || pc.PCloseR?
  }

  /** Whether a filter still holds the read end of its left pipe. */
  predicate OwnsLeft(pc: Pc) {
    !Feeding(pc) && !pc.PCloseW? && !pc.PWait?
  }

  predicate HoldsW(pcs: seq<Pc>, j: nat, x: nat) {
    x < |pcs| && ((x == j && OwnsW(pcs[x])) || (x == j + 1 && pcs[x].CCloseW?))
  }

  predicate HoldsR(pcs: seq<Pc>, j: nat, x: nat) {
    x < |pcs| && ((x == j && OwnsR(pcs[x])) || (x == j + 1 && OwnsLeft(pcs[x]))
                  || (x == j + 2 && (pcs[x].CCloseW? || pcs[x].CCloseL?)))
  }

  /** Who holds which descriptor. */
  ghost predicate Descriptors(s: State) {
    forall j, x: nat :: 0 <= j < |s.pipes| ==>
      (x in s.pipes[j].writers <==> HoldsW(s.pcs, j, x)) && (x in s.pipes[j].readers <==> HoldsR(s.pcs, j, x))
  }

  /** Each pipe has carried a prefix of its level and not more has been read than sent. */
  ghost predicate Prefixes(s: State, n: nat) {
    forall j :: 0 <= j < |s.pipes| ==> s.pipes[j].sent <= Level(n, j) && s.pipes[j].got <= |s.pipes[j].sent|
  }

  ghost predicate FeederOk(s: State, n: nat)
    requires |s.pcs| > 0 && |s.pipes| > 0
  {
    match s.pcs[0]
    case FCloseR => s.pipes[0].sent == []
    case FWrite(i) => i >= 2 && |s.pipes[0].sent| == i - 2 && (i <= n + 1 || i == 2)
    case _ => s.pipes[0].sent == Level(n, 0)
  }

  /** How far filter k has come: what it has read of its left pipe, and what of that it has passed on. */
  ghost predicate FilterOk(s: State, n: nat, k: nat)
    requires 1 <= k < |s.pcs| && k - 1 < |s.pipes|
    requires k < |s.pcs| - 1 || s.pcs[k].SFork? ==> k < |s.pipes|
    requires if k < |s.pcs| - 1 then Parent(s.pcs[k]) else Last(s.pcs[k])
  {
    var left, g := Level(n, k - 1), s.pipes[k - 1].got;
    match s.pcs[k]
    case CCloseW => g == 0
    case CCloseL => g == 0
    case SRead => g == 0
    case SPrint(prime) => g == 1 && left != [] && prime == left[0]
    case SPipe(prime) => g == 1 && left != [] && prime == left[0]
    case SFork(prime) => g == 1 && left != [] && prime == left[0] && s.pipes[k].sent == [] && s.pipes[k].got == 0
    case PCloseR(prime) => g == 1 && left != [] && prime == left[0] && s.pipes[k].sent == []
    case PRead(prime) => 1 <= g <= |left| && prime == left[0] && s.pipes[k].sent == Filter(left[1..g], left[0])
    case PWrite(prime, num) =>
      && 2 <= g <= |left| && prime == left[0] && s.pipes[k].sent == Filter(left[1..g - 1], left[0])
      && num == left[g - 1] && !Divides(prime, num)
    case SCloseL => left == []
    case Done => if k == |s.pcs| - 1 then left == [] else left != [] && s.pipes[k].sent == Level(n, k)
    case _ => left != [] && s.pipes[k].sent == Level(n, k)
  }

  ghost predicate FiltersOk(s: State, n: nat)
    requires Chain(s)
  {
    forall k :: 1 <= k < |s.pcs| ==> FilterOk(s, n, k)
  }

  /** How many filters have printed. */
  function Printed(s: State): nat
    requires |s.pcs| >= 2
  {
    var last := s.pcs[|s.pcs| - 1];
    |s.pcs| - 2 + if last.SPipe? || last.SFork? then 1 else 0
  }

  ghost predicate OutputOk(s: State, n: nat)
    requires |s.pcs| >= 2
  {
    && |s.out| == Printed(s)
    && forall k :: 0 <= k < |s.out| ==> Level(n, k) != [] && s.out[k] == Level(n, k)[0]
  }

  /** A filter that has seen the end of its left pipe. */
  predicate PastEof(pc: Pc) {
    pc.PCloseL? || pc.PCloseW? || pc.PWait? || pc.SCloseL? || pc.Done?
  }

  /** The end of a pipe is seen only after its creator has closed it. */
  ghost predicate EofOk(s: State) {
    forall k :: 1 <= k < |s.pcs| && PastEof(s.pcs[k]) ==> !OwnsW(s.pcs[k - 1])
  }

  ghost predicate Data(s: State, n: nat)
    requires Chain(s)
  {
    Prefixes(s, n) && FeederOk(s, n) && FiltersOk(s, n)
  }

  ghost predicate Inv(s: State, n: nat) {
    Chain(s) && Descriptors(s) && EofOk(s) && Data(s, n) && OutputOk(s, n)
  }

  lemma InitInv(n: nat)
    ensures Inv(Init(), n)
  {
  }

  // ---------------------------------------------------------------- the shape of the chain

  lemma ChainQuiet(s: State, p: nat, pc: Pc, e: Effect)
    requires Chain(s) && p < |s.pcs| && !e.Fork? && !e.NewPipe? && !s.pcs[p].SFork? && !pc.SFork?
    requires p == 0 ==> Feeding(pc)
    requires 0 < p < |s.pcs| - 1 ==> Parent(pc)
    requires 0 < p == |s.pcs| - 1 ==> Last(pc)
    requires p == 1 ==> !pc.CCloseL?
    ensures Chain(Apply(s, p, pc, e))
  {
  }

  lemma ChainKept(s: State, p: nat, cap: nat, n: nat)
    requires Chain(s) && Enabled(s, p, cap, n)
    ensures Chain(Next(s, p, n))
  {
    if !s.pcs[p].SFork? && !s.pcs[p].SPipe? {
      ChainQuiet(s, p, NextPc(s, p, n), EffectOf(s, p, n));
    }
  }

  /** What each effect leaves alone. */
  lemma SentKept(s: State, p: nat, pc: Pc, e: Effect, j: nat)
    requires p < |s.pcs| && j < |s.pipes|
    ensures var t := Apply(s, p, pc, e);
            && j < |t.pipes|
            && (j != p || !e.Send? ==> t.pipes[j].sent == s.pipes[j].sent)
            && (j + 1 != p || !e.Take? ==> t.pipes[j].got == s.pipes[j].got)
  {
  }

  // ---------------------------------------------------------------- descriptors

  /** The descriptors a process holds depend on these. */
  predicate SameHoldings(x: Pc, y: Pc) {
    && OwnsW(x) == OwnsW(y) && OwnsR(x) == OwnsR(y) && OwnsLeft(x) == OwnsLeft(y)
    && x.CCloseW? == y.CCloseW? && x.CCloseL? == y.CCloseL?
  }

  lemma DescriptorsQuiet(s: State, p: nat, pc: Pc, e: Effect)
    requires Descriptors(s) && p < |s.pcs| && SameHoldings(s.pcs[p], pc)
    requires e.Quiet? || e.Take? || e.Send? || e.Print?
    ensures Descriptors(Apply(s, p, pc, e))
  {
    hide OwnsW, OwnsR, OwnsLeft;
    var t := Apply(s, p, pc, e);
    forall j, x: nat | 0 <= j < |t.pipes|
      ensures x in t.pipes[j].writers <==> HoldsW(t.pcs, j, x)
      ensures x in t.pipes[j].readers <==> HoldsR(t.pcs, j, x)
    {
      assert x in s.pipes[j].writers <==> HoldsW(s.pcs, j, x);
      assert x in s.pipes[j].readers <==> HoldsR(s.pcs, j, x);
    }
  }

  lemma DescriptorsCloseR(s: State, p: nat, pc: Pc, j: nat)
    requires Descriptors(s) && p < |s.pcs| && j < |s.pipes|
    requires forall i: nat :: HoldsW(s.pcs, i, p) == HoldsW(s.pcs[p := pc], i, p)
    requires forall i: nat :: HoldsR(s.pcs[p := pc], i, p) == (HoldsR(s.pcs, i, p) && i != j)
    ensures Descriptors(Apply(s, p, pc, CloseRead(j)))
  {
    hide OwnsW, OwnsR, OwnsLeft;
    var t := Apply(s, p, pc, CloseRead(j));
    forall i, x: nat | 0 <= i < |t.pipes|
      ensures x in t.pipes[i].writers <==> HoldsW(t.pcs, i, x)
      ensures x in t.pipes[i].readers <==> HoldsR(t.pcs, i, x)
    {
      assert x in s.pipes[i].writers <==> HoldsW(s.pcs, i, x);
      assert x in s.pipes[i].readers <==> HoldsR(s.pcs, i, x);
    }
  }

  lemma DescriptorsCloseW(s: State, p: nat, pc: Pc, j: nat)
    requires Descriptors(s) && p < |s.pcs| && j < |s.pipes|
    requires forall i: nat :: HoldsR(s.pcs, i, p) == HoldsR(s.pcs[p := pc], i, p)
    requires forall i: nat :: HoldsW(s.pcs[p := pc], i, p) == (HoldsW(s.pcs, i, p) && i != j)
    ensures Descriptors(Apply(s, p, pc, CloseWrite(j)))
  {
    hide OwnsW, OwnsR, OwnsLeft;
    var t := Apply(s, p, pc, CloseWrite(j));
    forall i, x: nat | 0 <= i < |t.pipes|
      ensures x in t.pipes[i].writers <==> HoldsW(t.pcs, i, x)
      ensures x in t.pipes[i].readers <==> HoldsR(t.pcs, i, x)
    {
      assert x in s.pipes[i].writers <==> HoldsW(s.pcs, i, x);
      assert x in s.pipes[i].readers <==> HoldsR(s.pcs, i, x);
    }
  }

  lemma DescriptorsNewPipe(s: State, p: nat, prime: nat)
    requires Chain(s) && Descriptors(s) && p == |s.pcs| - 1 && s.pcs[p] == SPipe(prime)
    ensures Descriptors(Apply(s, p, SFork(prime), NewPipe))
  {
    var t := Apply(s, p, SFork(prime), NewPipe);
    forall i, x: nat | 0 <= i < |t.pipes|
      ensures x in t.pipes[i].writers <==> HoldsW(t.pcs, i, x)
      ensures x in t.pipes[i].readers <==> HoldsR(t.pcs, i, x)
    {
      if i < |s.pipes| {
        assert x in s.pipes[i].writers <==> HoldsW(s.pcs, i, x);
        assert x in s.pipes[i].readers <==> HoldsR(s.pcs, i, x);
      }
    }
  }

  lemma DescriptorsFork(s: State, p: nat, prime: nat)
    requires Chain(s) && Descriptors(s) && p == |s.pcs| - 1 && s.pcs[p] == SFork(prime)
    ensures Descriptors(Apply(s, p, PCloseR(prime), Fork))
  {
    var t := Apply(s, p, PCloseR(prime), Fork);
    forall i, x: nat | 0 <= i < |t.pipes|
      ensures x in t.pipes[i].writers <==> HoldsW(t.pcs, i, x)
      ensures x in t.pipes[i].readers <==> HoldsR(t.pcs, i, x)
    {
      assert x in s.pipes[i].writers <==> HoldsW(s.pcs, i, x);
      assert x in s.pipes[i].readers <==> HoldsR(s.pcs, i, x);
      assert p in s.pipes[i].writers <==> HoldsW(s.pcs, i, p);
      assert p in s.pipes[i].readers <==> HoldsR(s.pcs, i, p);
    }
  }

  /** A process that closes a descriptor held it, and holds everything else it held. */
  lemma ClosesOne(s: State, p: nat, n: nat, i: nat)
    requires Chain(s) && p < |s.pcs|
    ensures var pc, e := NextPc(s, p, n), EffectOf(s, p, n);
            && (e.CloseRead? ==>
                  && e.j < |s.pipes| && HoldsW(s.pcs[p := pc], i, p) == HoldsW(s.pcs, i, p)
                  && HoldsR(s.pcs[p := pc], i, p) == (HoldsR(s.pcs, i, p) && i != e.j))
            && (e.CloseWrite? ==>
                  && e.j < |s.pipes| && HoldsR(s.pcs[p := pc], i, p) == HoldsR(s.pcs, i, p)
                  && HoldsW(s.pcs[p := pc], i, p) == (HoldsW(s.pcs, i, p) && i != e.j))
  {
    hide Read;
  }

  lemma DescriptorsKept(s: State, p: nat, cap: nat, n: nat)
    requires Chain(s) && Descriptors(s) && Enabled(s, p, cap, n)
    ensures Descriptors(Next(s, p, n))
  {
    hide Apply, Descriptors, Enabled, Read, HoldsR, HoldsW;
    EnabledParts(s, p, cap, n);
    var pc, e := NextPc(s, p, n), EffectOf(s, p, n);
    forall i: nat {
      ClosesOne(s, p, n, i);
    }
    ClosesOne(s, p, n, 0);
    if e.CloseRead? {
      DescriptorsCloseR(s, p, pc, e.j);
    } else if e.CloseWrite? {
      DescriptorsCloseW(s, p, pc, e.j);
    } else if e.NewPipe? {
      DescriptorsNewPipe(s, p, s.pcs[p].prime);
    } else if e.Fork? {
      DescriptorsFork(s, p, s.pcs[p].prime);
    } else {
      DescriptorsQuiet(s, p, pc, e);
    }
  }

  lemma EnabledParts(s: State, p: nat, cap: nat, n: nat)
    requires Enabled(s, p, cap, n)
    ensures p < |s.pcs| && !s.pcs[p].Done?
  {
  }

  // ---------------------------------------------------------------- reading and writing

  lemma GotIsNext(s: State, p: nat, n: nat)
    requires Prefixes(s, n) && Read(s, p).Got?
    ensures 1 <= p <= |s.pipes| && s.pipes[p - 1].got < |Level(n, p - 1)|
    ensures Read(s, p).v == Level(n, p - 1)[s.pipes[p - 1].got]
  {
    hide Level;
  }

  /** What a filter has read when it sees the end of its left pipe is everything that ever goes through it. */
  lemma EofIsAll(s: State, p: nat, n: nat)
    requires Chain(s) && Descriptors(s) && Data(s, n) && 1 <= p < |s.pcs| && Read(s, p).Eof?
    ensures p <= |s.pipes| && s.pipes[p - 1].got == |Level(n, p - 1)| && s.pipes[p - 1].sent == Level(n, p - 1)
    ensures !OwnsW(s.pcs[p - 1])
  {
    hide Level, Filter;
    assert p - 1 in s.pipes[p - 1].writers <==> HoldsW(s.pcs, p - 1, p - 1);
    if p > 1 {
      assert FilterOk(s, n, p - 1);
    }
  }

  /** Whoever writes to a pipe still has a reader: no number is lost. */
  lemma ReaderThere(s: State, p: nat)
    requires Chain(s) && Descriptors(s) && EofOk(s) && p < |s.pcs| && (s.pcs[p].FWrite? || s.pcs[p].PWrite?)
    ensures p + 1 < |s.pcs| && p < |s.pipes| && p + 1 in s.pipes[p].readers
  {
    assert p + 1 < |s.pcs|;
    assert PastEof(s.pcs[p + 1]) ==> !OwnsW(s.pcs[p]);
    assert p + 1 in s.pipes[p].readers <==> HoldsR(s.pcs, p, p + 1);
  }

  lemma {:induction false} FilterPrefix(s: seq<nat>, g: nat, p: nat)
    requires p > 0 && g <= |s|
    ensures Filter(s[..g], p) <= Filter(s, p)
  {
    if g < |s| {
      FilterPrefix(s[..|s| - 1], g, p);
      assert s[..|s| - 1][..g] == s[..g];
    } else {
      assert s[..g] == s;
    }
  }

  lemma FilterNext(left: seq<nat>, g: nat, p: nat)
    requires p > 0 && 1 <= g < |left|
    ensures Filter(left[1..g + 1], p) == Filter(left[1..g], p) + if !Divides(p, left[g]) then [left[g]] else []
    ensures Filter(left[1..g], p) <= Filter(left[1..], p)
    ensures Filter(left[1..g + 1], p) <= Filter(left[1..], p)
  {
    hide Divides;
    var s := left[1..];
    assert left[1..g + 1][..|left[1..g + 1]| - 1] == left[1..g];
    assert s[..g - 1] == left[1..g] && s[..g] == left[1..g + 1];
    FilterPrefix(s, g - 1, p);
    FilterPrefix(s, g, p);
  }

  lemma LevelNext(n: nat, k: nat)
    requires k >= 1 && Level(n, k - 1) != []
    ensures Level(n, k - 1)[0] > 0
    ensures Level(n, k) == Filter(Level(n, k - 1)[1..], Level(n, k - 1)[0])
  {
    hide Filter;
  }

  // ---------------------------------------------------------------- what the pipes carry

  lemma OthersOk(s: State, p: nat, pc: Pc, e: Effect, n: nat, k: nat)
    requires Chain(s) && Data(s, n) && p < |s.pcs| && Chain(Apply(s, p, pc, e)) && !e.Fork?
    requires 1 <= k < |s.pcs| && k != p
    ensures FilterOk(Apply(s, p, pc, e), n, k)
  {
    hide Level, Filter, Divides, Apply;
    assert FilterOk(s, n, k);
    ApplySizes(s, p, pc, e);
    SentKept(s, p, pc, e, k - 1);
    if k < |s.pipes| {
      SentKept(s, p, pc, e, k);
    }
  }

  lemma ApplySizes(s: State, p: nat, pc: Pc, e: Effect)
    requires p < |s.pcs| && !e.Fork?
    ensures var t := Apply(s, p, pc, e);
            && t.pcs == s.pcs[p := pc] && |s.pipes| <= |t.pipes| && (!e.NewPipe? ==> |t.pipes| == |s.pipes|)
  {
  }

  /** A step other than fork keeps the data in order if it does so for the process itself and what it sends. */
  lemma DataIfOwn(s: State, p: nat, pc: Pc, e: Effect, n: nat)
    requires Chain(s) && Data(s, n) && p < |s.pcs| && Chain(Apply(s, p, pc, e)) && !e.Fork?
    requires var t := Apply(s, p, pc, e); if p == 0 then FeederOk(t, n) else FilterOk(t, n, p)
    requires var t := Apply(s, p, pc, e); p < |t.pipes| ==> t.pipes[p].sent <= Level(n, p)
    requires var t := Apply(s, p, pc, e);
             1 <= p <= |t.pipes| ==> t.pipes[p - 1].got <= |t.pipes[p - 1].sent|
    ensures Data(Apply(s, p, pc, e), n)
  {
    hide Level, Filter, Divides, Apply, FilterOk;
    var t := Apply(s, p, pc, e);
    ApplySizes(s, p, pc, e);
    forall j: nat | j < |t.pipes|
      ensures t.pipes[j].sent <= Level(n, j) && t.pipes[j].got <= |t.pipes[j].sent|
    {
      if j < |s.pipes| {
        SentKept(s, p, pc, e, j);
        SentGrows(s, p, pc, e, j);
      } else {
        NewPipeEmpty(s, p, pc, e, j);
      }
    }
    forall k | 1 <= k < |t.pcs|
      ensures FilterOk(t, n, k)
    {
      if k != p {
        OthersOk(s, p, pc, e, n, k);
      }
    }
    if p != 0 {
      SentKept(s, p, pc, e, 0);
    }
  }

  lemma SentGrows(s: State, p: nat, pc: Pc, e: Effect, j: nat)
    requires p < |s.pcs| && j < |s.pipes|
    ensures j < |Apply(s, p, pc, e).pipes| && |s.pipes[j].sent| <= |Apply(s, p, pc, e).pipes[j].sent|
  {
  }

  lemma NewPipeEmpty(s: State, p: nat, pc: Pc, e: Effect, j: nat)
    requires p < |s.pcs| && |s.pipes| <= j < |Apply(s, p, pc, e).pipes|
    ensures Apply(s, p, pc, e).pipes[j].sent == [] && Apply(s, p, pc, e).pipes[j].got == 0
  {
  }

  /** What the process's own two pipes look like after a step. */
  lemma OwnPipes(s: State, p: nat, pc: Pc, e: Effect)
    requires p < |s.pcs| && !e.Fork?
    ensures var t := Apply(s, p, pc, e);
            && (1 <= p <= |s.pipes| ==>
                  && p <= |t.pipes| && t.pipes[p - 1].sent == s.pipes[p - 1].sent
                  && t.pipes[p - 1].got == s.pipes[p - 1].got + if e.Take? then 1 else 0)
            && (p < |s.pipes| ==>
                  && p < |t.pipes| && t.pipes[p].got == s.pipes[p].got
                  && (s.pipes[p].readers != {} || !e.Send? ==>
                        t.pipes[p].sent == s.pipes[p].sent + if e.Send? then [e.v] else []))
  {
  }

  lemma FeederKept(s: State, cap: nat, n: nat)
    requires Chain(s) && Descriptors(s) && EofOk(s) && Data(s, n) && Enabled(s, 0, cap, n)
    ensures Chain(Next(s, 0, n)) && Data(Next(s, 0, n), n)
  {
    hide Apply, Descriptors, EofOk, FiltersOk, Divides;
    var pc, e := NextPc(s, 0, n), EffectOf(s, 0, n);
    ChainKept(s, 0, cap, n);
    ApplySizes(s, 0, pc, e);
    OwnPipes(s, 0, pc, e);
    if s.pcs[0].FWrite? {
      ReaderThere(s, 0);
    }
    DataIfOwn(s, 0, pc, e, n);
  }

  /** The cases in which a filter only opens or closes descriptors, or prints. */
  lemma QuietFilterKept(s: State, p: nat, cap: nat, n: nat)
    requires Chain(s) && Data(s, n) && 1 <= p && Enabled(s, p, cap, n)
    requires !s.pcs[p].SRead? && !s.pcs[p].PRead? && !s.pcs[p].PWrite? && !s.pcs[p].SFork?
    ensures Chain(Next(s, p, n)) && Data(Next(s, p, n), n)
  {
    hide Apply, Divides, Level;
    var pc, e := NextPc(s, p, n), EffectOf(s, p, n);
    ChainKept(s, p, cap, n);
    assert FilterOk(s, n, p);
    OwnPipes(s, p, pc, e);
    ApplySizes(s, p, pc, e);
    if s.pcs[p].SPipe? {
      NewPipeEmpty(s, p, pc, e, p);
    }
    assert Filter([], 1) == [];
    DataIfOwn(s, p, pc, e, n);
  }

  lemma ReadKept(s: State, p: nat, cap: nat, n: nat)
    requires Chain(s) && Descriptors(s) && Data(s, n) && 1 <= p && Enabled(s, p, cap, n)
    requires s.pcs[p].SRead? || s.pcs[p].PRead?
    ensures Chain(Next(s, p, n)) && Data(Next(s, p, n), n)
  {
    hide Apply, Divides, Level, Filter, Read;
    var pc, e := NextPc(s, p, n), EffectOf(s, p, n);
    ChainKept(s, p, cap, n);
    assert FilterOk(s, n, p);
    OwnPipes(s, p, pc, e);
    ApplySizes(s, p, pc, e);
    var left, g := Level(n, p - 1), s.pipes[p - 1].got;
    if Read(s, p).Got? {
      GotIsNext(s, p, n);
      ReadSent(s, p);
      LevelNext(n, p);
      if g >= 1 {
        FilterNext(left, g, left[0]);
      }
    } else {
      EofIsAll(s, p, n);
      if g >= 1 {
        LevelNext(n, p);
        assert left[1..g] == left[1..];
      }
    }
    DataIfOwn(s, p, pc, e, n);
  }

  lemma ReadSent(s: State, p: nat)
    requires Read(s, p).Got?
    ensures 1 <= p <= |s.pipes| && s.pipes[p - 1].got < |s.pipes[p - 1].sent|
  {
  }

  lemma WriteKept(s: State, p: nat, cap: nat, n: nat)
    requires Chain(s) && Descriptors(s) && EofOk(s) && Data(s, n) && 1 <= p && Enabled(s, p, cap, n) && s.pcs[p].PWrite?
    ensures Chain(Next(s, p, n)) && Data(Next(s, p, n), n)
  {
    hide Apply, Divides, Level, Filter, Descriptors, EofOk;
    var pc, e := NextPc(s, p, n), EffectOf(s, p, n);
    ChainKept(s, p, cap, n);
    assert FilterOk(s, n, p);
    ReaderThere(s, p);
    OwnPipes(s, p, pc, e);
    ApplySizes(s, p, pc, e);
    var left, g := Level(n, p - 1), s.pipes[p - 1].got;
    LevelNext(n, p);
    FilterNext(left, g - 1, left[0]);
    DataIfOwn(s, p, pc, e, n);
  }

  lemma ForkKept(s: State, p: nat, cap: nat, n: nat)
    requires Chain(s) && Data(s, n) && 1 <= p && Enabled(s, p, cap, n) && s.pcs[p].SFork?
    ensures Chain(Next(s, p, n)) && Data(Next(s, p, n), n)
  {
    hide Divides, Level, Filter;
    ChainKept(s, p, cap, n);
    var t := Next(s, p, n);
    assert FilterOk(s, n, p);
    forall k | 1 <= k < |t.pcs|
      ensures FilterOk(t, n, k)
    {
      if k < p {
        assert FilterOk(s, n, k);
      }
    }
  }

  lemma DataKept(s: State, p: nat, cap: nat, n: nat)
    requires Chain(s) && Descriptors(s) && EofOk(s) && Data(s, n) && Enabled(s, p, cap, n)
    ensures Chain(Next(s, p, n)) && Data(Next(s, p, n), n)
  {
    hide Chain, Descriptors, EofOk, Data, Next;
    ChainKept(s, p, cap, n);
    if p == 0 {
      FeederKept(s, cap, n);
    } else if s.pcs[p].SRead? || s.pcs[p].PRead? {
      ReadKept(s, p, cap, n);
    } else if s.pcs[p].PWrite? {
      WriteKept(s, p, cap, n);
    } else if s.pcs[p].SFork? {
      ForkKept(s, p, cap, n);
    } else {
      QuietFilterKept(s, p, cap, n);
    }
  }

  lemma EofKept(s: State, p: nat, cap: nat, n: nat)
    requires Chain(s) && Descriptors(s) && Data(s, n) && EofOk(s) && Enabled(s, p, cap, n)
    ensures EofOk(Next(s, p, n))
  {
    hide Descriptors, Data, Level, Apply, Read;
    if p >= 1 && Read(s, p).Eof? {
      EofIsAll(s, p, n);
    }
    var pc, e := NextPc(s, p, n), EffectOf(s, p, n);
    if e.Fork? {
      ForkSizes(s, p, pc);
    } else {
      ApplySizes(s, p, pc, e);
    }
  }

  lemma ForkSizes(s: State, p: nat, pc: Pc)
    requires p < |s.pcs|
    ensures var t := Apply(s, p, pc, Fork);
            && t.pcs == s.pcs[p := pc] + [CCloseW] && t.out == s.out && |t.pipes| == |s.pipes|
            && forall j :: 0 <= j < |s.pipes| ==> t.pipes[j].sent == s.pipes[j].sent && t.pipes[j].got == s.pipes[j].got
  {
  }

  lemma OutOnly(s: State, p: nat, pc: Pc, e: Effect)
    requires p < |s.pcs|
    ensures Apply(s, p, pc, e).out == s.out + if e.Print? then [e.v] else []
  {
  }

  lemma OutputKept(s: State, p: nat, cap: nat, n: nat)
    requires Chain(s) && Data(s, n) && OutputOk(s, n) && Enabled(s, p, cap, n)
    ensures |Next(s, p, n).pcs| >= 2 && OutputOk(Next(s, p, n), n)
  {
    hide Level, Filter, Apply, Read;
    if s.pcs[p].SPrint? {
      assert FilterOk(s, n, p);
    }
    var pc, e := NextPc(s, p, n), EffectOf(s, p, n);
    OutOnly(s, p, pc, e);
    if e.Fork? {
      ForkSizes(s, p, pc);
    } else {
      ApplySizes(s, p, pc, e);
    }
  }

  lemma StepKeeps(s: State, p: nat, cap: nat, n: nat)
    requires Inv(s, n) && Enabled(s, p, cap, n)
    ensures Inv(Next(s, p, n), n)
  {
    hide Chain, Descriptors, EofOk, Data, OutputOk, Next;
    ChainKept(s, p, cap, n);
    DescriptorsKept(s, p, cap, n);
    EofKept(s, p, cap, n);
    DataKept(s, p, cap, n);
    ChainSize(s);
    OutputKept(s, p, cap, n);
  }

  lemma ChainSize(s: State)
    requires Chain(s)
    ensures |s.pcs| >= 2
  {
  }

  // ---------------------------------------------------------------- what is printed

  lemma {:induction false} LevelHeads(n: nat, j: nat, k: nat)
    requires j <= k && forall i: nat :: j <= i < k ==> Level(n, i) != []
    ensures Level(n, k) != [] ==> k - j < |Heads(Level(n, j))| && Heads(Level(n, j))[k - j] == Level(n, k)[0]
    ensures Level(n, k) == [] ==> |Heads(Level(n, j))| == k - j
    decreases k - j
  {
    hide Pass, Filter;
    if j < k {
      LevelHeads(n, j + 1, k);
      assert Heads(Level(n, j)) == [Level(n, j)[0]] + Heads(Level(n, j + 1));
    }
  }

  /** Safety: what has been printed is always a prefix of the primes up to n, in ascending order. */
  lemma OutputIsPrefix(s: State, n: nat)
    requires Inv(s, n)
    ensures s.out <= PrimesFrom(2, n)
  {
    hide Level, Chain, Descriptors, EofOk, Data, Heads, PrimesFrom;
    Eratosthenes(n);
    LevelZero(n);
    var primes := Heads(Level(n, 0));
    forall k | 0 <= k < |s.out|
      ensures k < |primes| && s.out[k] == primes[k]
    {
      LevelHeads(n, 0, k);
    }
    if |s.out| > 0 {
      LevelHeads(n, 0, |s.out| - 1);
    }
  }

  lemma LevelZero(n: nat)
    ensures Level(n, 0) == Range(2, n)
  {
  }

  ghost predicate AllDone(s: State) {
    forall p :: 0 <= p < |s.pcs| ==> s.pcs[p].Done?
  }

  /** When every process has exited, all the primes up to n have been printed. */
  lemma DoneMeansComplete(s: State, n: nat)
    requires Inv(s, n) && AllDone(s)
    ensures s.out == PrimesFrom(2, n)
  {
    hide Level, Descriptors, EofOk, Heads, PrimesFrom;
    OutputIsPrefix(s, n);
    Eratosthenes(n);
    LevelZero(n);
    var last := |s.pcs| - 1;
    assert FilterOk(s, n, last);
    LevelHeads(n, 0, last - 1);
  }

  // ---------------------------------------------------------------- no deadlock

  /** A filter that waits for a number that may still come has a process to its left that can take a step. */
  lemma {:induction false} BlockedReader(s: State, k: nat, cap: nat, n: nat) returns (j: nat)
    requires Inv(s, n) && cap >= 1 && 1 <= k < |s.pcs| && (s.pcs[k].SRead? || s.pcs[k].PRead?) && Read(s, k).Wait?
    ensures Enabled(s, j, cap, n)
    decreases k
  {
    hide Level, Data, OutputOk, EofOk;
    var x: nat :| x in s.pipes[k - 1].writers;
    assert HoldsW(s.pcs, k - 1, x);
    j := k - 1;
    PrefixesOf(s, n);
    if s.pcs[k - 1].PRead? && Read(s, k - 1).Wait? {
      j := BlockedReader(s, k - 1, cap, n);
    }
  }

  lemma PrefixesOf(s: State, n: nat)
    requires Inv(s, n)
    ensures Prefixes(s, n)
  {
    hide Level;
  }

  lemma {:induction false} LastLive(s: State, m: nat) returns (r: nat)
    requires m <= |s.pcs| && (exists p :: 0 <= p < m && !s.pcs[p].Done?)
    requires forall p :: m <= p < |s.pcs| ==> s.pcs[p].Done?
    ensures r < |s.pcs| && !s.pcs[r].Done? && forall p :: r < p < |s.pcs| ==> s.pcs[p].Done?
  {
    if s.pcs[m - 1].Done? {
      r := LastLive(s, m - 1);
    } else {
      r := m - 1;
    }
  }

  lemma LiveReader(s: State, p: nat)
    requires Chain(s) && Descriptors(s) && EofOk(s) && p < |s.pcs|
    ensures s.pcs[p].FWrite? || s.pcs[p].PWrite? ==> p + 1 < |s.pcs| && !s.pcs[p + 1].Done?
  {
    if s.pcs[p].FWrite? || s.pcs[p].PWrite? {
      ReaderThere(s, p);
      assert HoldsR(s.pcs, p, p + 1);
    }
  }

  /** Until every process has exited, some process can take a step. */
  lemma NoDeadlock(s: State, cap: nat, n: nat) returns (p: nat)
    requires Inv(s, n) && cap >= 1 && !AllDone(s)
    ensures Enabled(s, p, cap, n)
  {
    hide Level, Data, OutputOk, Descriptors, EofOk;
    p := LastLive(s, |s.pcs|);
    LiveReader(s, p);
    if (s.pcs[p].SRead? || s.pcs[p].PRead?) && Read(s, p).Wait? {
      p := BlockedReader(s, p, cap, n);
    }
  }

  // ---------------------------------------------------------------- termination

  /** How much a process can still do; for one that does not exist yet, how much it can do at most. */
  ghost function Rem(s: State, n: nat, k: nat): int {
    if k >= |s.pcs| then if k == 0 then 0 else 2 * |Level(n, k - 1)| + 25
    else
      var todo := if 1 <= k <= |s.pipes| then 2 * (|Level(n, k - 1)| - s.pipes[k - 1].got) else 0;
      match s.pcs[k]
      case FCloseR => n + 10
      case FWrite(i) => 5 + if i <= n then n + 1 - i else 0
      case FCloseW => 4
      case FWait => 3
      case CCloseW => todo + 24
      case CCloseL => todo + 23
      case SRead => todo + 22
      case SPrint(_) => todo + 21
      case SPipe(_) => todo + 20
      case SFork(_) => todo + 19
      case PCloseR(_) => todo + 18
      case PRead(_) => todo + 5
      case PWrite(_, _) => todo + 6
      case PCloseL => todo + 4
      case PCloseW => todo + 3
      case PWait => todo + 2
      case SCloseL => todo + 1
      case Done => if k == 0 then 0 else todo
  }

  ghost function Sum(s: State, n: nat, m: nat): int {
    if m == 0 then 0 else Sum(s, n, m - 1) + Rem(s, n, m - 1)
  }

  /** The work left in all the processes there can ever be. */
  ghost function Work(s: State, n: nat): int {
    Sum(s, n, n + 2)
  }

  lemma {:induction false} LevelShrinks(n: nat, j: nat)
    ensures |Level(n, j)| + j < n || Level(n, j) == []
  {
    hide Filter;
    if j > 0 {
      LevelShrinks(n, j - 1);
    }
  }

  lemma ChainBound(s: State, n: nat)
    requires Inv(s, n)
    ensures |s.pcs| <= n + 2
  {
    hide Level, Descriptors, EofOk, OutputOk, Filter;
    var k := |s.pcs| - 2;
    if k >= 1 {
      assert FilterOk(s, n, k);
      LevelShrinks(n, k - 1);
    }
  }

  lemma RemPositive(s: State, n: nat, k: nat)
    requires Inv(s, n)
    ensures Rem(s, n, k) >= 0
  {
    hide Level, Descriptors, EofOk, OutputOk, FiltersOk, Filter;
  }

  lemma {:induction false} SumPositive(s: State, n: nat, m: nat)
    requires Inv(s, n)
    ensures Sum(s, n, m) >= 0
  {
    hide Inv, Rem;
    if m > 0 {
      SumPositive(s, n, m - 1);
      RemPositive(s, n, m - 1);
    }
  }

  lemma {:induction false} SumLess(s: State, t: State, n: nat, m: nat, p: nat)
    requires forall k: nat :: k < m ==> Rem(t, n, k) <= Rem(s, n, k)
    ensures Sum(t, n, m) <= Sum(s, n, m)
    ensures p < m && Rem(t, n, p) < Rem(s, n, p) ==> Sum(t, n, m) < Sum(s, n, m)
  {
    hide Rem;
    if m > 0 {
      SumLess(s, t, n, m - 1, p);
    }
  }

  lemma RemOthers(s: State, p: nat, cap: nat, n: nat, k: nat)
    requires Inv(s, n) && Enabled(s, p, cap, n) && k != p
    ensures Rem(Next(s, p, n), n, k) <= Rem(s, n, k)
  {
    hide Level, Descriptors, EofOk, OutputOk, Filter, Enabled, Read, Apply;
    EnabledParts(s, p, cap, n);
    var pc, e := NextPc(s, p, n), EffectOf(s, p, n);
    if !e.Fork? {
      ApplySizes(s, p, pc, e);
      if 1 <= k <= |s.pipes| {
        SentKept(s, p, pc, e, k - 1);
      } else if 1 <= k <= |Apply(s, p, pc, e).pipes| {
        NewPipeEmpty(s, p, pc, e, k - 1);
      }
    } else {
      ForkSizes(s, p, pc);
      assert FilterOk(s, n, p);
    }
  }

  lemma RemOwn(s: State, p: nat, cap: nat, n: nat)
    requires Inv(s, n) && Enabled(s, p, cap, n)
    ensures Rem(Next(s, p, n), n, p) < Rem(s, n, p)
  {
    hide Level, Descriptors, EofOk, OutputOk, Filter, Divides, Apply, Read;
    EnabledParts(s, p, cap, n);
    var pc, e := NextPc(s, p, n), EffectOf(s, p, n);
    if e.Fork? {
      ForkSizes(s, p, pc);
    } else {
      ApplySizes(s, p, pc, e);
      OwnPipes(s, p, pc, e);
    }
  }

  /** Every step of every process leaves less work. */
  lemma StepDecreases(s: State, p: nat, cap: nat, n: nat)
    requires Inv(s, n) && Enabled(s, p, cap, n)
    ensures 0 <= Work(Next(s, p, n), n) < Work(s, n)
  {
    hide Inv, Rem, Next, Enabled, Sum;
    EnabledParts(s, p, cap, n);
    ChainBound(s, n);
    var t := Next(s, p, n);
    forall k: nat
      ensures Rem(t, n, k) <= Rem(s, n, k)
    {
      RemOwn(s, p, cap, n);
      if k != p {
        RemOthers(s, p, cap, n, k);
      }
    }
    RemOwn(s, p, cap, n);
    SumLess(s, t, n, n + 2, p);
    StepKeeps(s, p, cap, n);
    SumPositive(t, n, n + 2);
  }

  // ---------------------------------------------------------------- exits and buffers

  /** A process exits only after its child has. */
  ghost predicate ChildrenFirst(s: State) {
    forall k :: 0 <= k < |s.pcs| - 1 && s.pcs[k].Done? ==> s.pcs[k + 1].Done?
  }

  /** No pipe buffers more than cap numbers. */
  ghost predicate Buffered(s: State, cap: nat) {
    forall j :: 0 <= j < |s.pipes| ==> |s.pipes[j].sent| <= s.pipes[j].got + cap
  }

  lemma StepKeepsChildrenFirst(s: State, p: nat, cap: nat, n: nat)
    requires Chain(s) && ChildrenFirst(s) && Enabled(s, p, cap, n)
    ensures ChildrenFirst(Next(s, p, n))
  {
    hide Apply, Read;
    var pc, e := NextPc(s, p, n), EffectOf(s, p, n);
    if e.Fork? {
      ForkSizes(s, p, pc);
    } else {
      ApplySizes(s, p, pc, e);
    }
  }

  lemma SendFits(s: State, p: nat, cap: nat, n: nat)
    requires Enabled(s, p, cap, n)
    ensures EffectOf(s, p, n).Send? ==> MayWrite(s, p, cap)
  {
  }

  lemma StepKeepsBuffered(s: State, p: nat, cap: nat, n: nat)
    requires Buffered(s, cap) && Enabled(s, p, cap, n)
    ensures Buffered(Next(s, p, n), cap)
  {
    hide NextPc, EffectOf;
    SendFits(s, p, cap, n);
  }

  /** When the feeder has exited every process has: each waits for its child. */
  lemma {:induction false} AllAfter(s: State, k: nat)
    requires ChildrenFirst(s) && |s.pcs| > 0 && s.pcs[0].Done? && k < |s.pcs|
    ensures s.pcs[k].Done?
  {
    if k > 0 {
      AllAfter(s, k - 1);
    }
  }

  lemma FeederDone(s: State)
    requires ChildrenFirst(s) && |s.pcs| > 0 && s.pcs[0].Done?
    ensures AllDone(s)
  {
    forall p | 0 <= p < |s.pcs|
      ensures s.pcs[p].Done?
    {
      AllAfter(s, p);
    }
  }

  // ---------------------------------------------------------------- whole runs

  ghost predicate Stuck(s: State, cap: nat, n: nat) {
    forall p: nat :: !Enabled(s, p, cap, n)
  }

  lemma {:induction false} RunKeeps(run: seq<State>, cap: nat, n: nat)
    requires IsRun(run, cap, n)
    ensures Inv(run[|run| - 1], n) && Work(run[|run| - 1], n) + |run| - 1 <= Work(Init(), n)
    ensures ChildrenFirst(run[|run| - 1]) && Buffered(run[|run| - 1], cap)
  {
    hide Inv, Work, Next, ChildrenFirst, Buffered;
    if |run| == 1 {
      InitInv(n);
      InitExits(cap);
    } else {
      var before := run[..|run| - 1];
      assert IsRun(before, cap, n) by {
        assert forall i :: 0 <= i < |before| - 1 ==> Steps(run[i], run[i + 1], cap, n);
      }
      RunKeeps(before, cap, n);
      var s := run[|run| - 2];
      assert Steps(s, run[|run| - 2 + 1], cap, n);
      var p: nat :| Enabled(s, p, cap, n) && run[|run| - 1] == Next(s, p, n);
      StepKeeps(s, p, cap, n);
      StepDecreases(s, p, cap, n);
      InvChain(s, n);
      StepKeepsChildrenFirst(s, p, cap, n);
      StepKeepsBuffered(s, p, cap, n);
    }
  }

  lemma InitExits(cap: nat)
    ensures ChildrenFirst(Init()) && Buffered(Init(), cap)
  {
  }

  lemma InvChain(s: State, n: nat)
    requires Inv(s, n)
    ensures Chain(s) && |s.pcs| > 0
  {
    hide Descriptors, EofOk, Data, OutputOk;
  }

  /** Every interleaving, over pipes of any capacity of at least one number: it is never longer than the initial work,
      it only ever prints a prefix of the primes up to n, and where it can go no further it has printed them all and
      every process has exited. A process exits only after its child, so when the feeder, which the shell waits for, has
      exited, everything is printed; and no pipe holds more than its capacity. */
  lemma SieveIsCorrect(run: seq<State>, cap: nat, n: nat)
    requires IsRun(run, cap, n) && cap >= 1
    ensures |run| <= Work(Init(), n) + 1
    ensures run[|run| - 1].out <= PrimesFrom(2, n)
    ensures Stuck(run[|run| - 1], cap, n) ==>
              AllDone(run[|run| - 1]) && run[|run| - 1].out == PrimesFrom(2, n)
    ensures |run[|run| - 1].pcs| > 0
    ensures run[|run| - 1].pcs[0].Done? ==> AllDone(run[|run| - 1]) && run[|run| - 1].out == PrimesFrom(2, n)
    ensures ChildrenFirst(run[|run| - 1]) && Buffered(run[|run| - 1], cap)
  {
    hide Inv, Work, Next, Enabled, PrimesFrom, AllDone;
    var s := run[|run| - 1];
    RunKeeps(run, cap, n);
    SumPositive(s, n, n + 2);
    OutputIsPrefix(s, n);
    WorkIsSum(s, n);
    InvChain(s, n);
    if s.pcs[0].Done? {
      FeederDone(s);
    }
    if AllDone(s) {
      DoneMeansComplete(s, n);
    } else {
      var p := NoDeadlock(s, cap, n);
    }
  }

  lemma WorkIsSum(s: State, n: nat)
    ensures Work(s, n) == Sum(s, n, n + 2)
  {
    hide Sum;
  }
}
