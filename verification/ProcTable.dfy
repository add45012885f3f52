/** The Lab 2 process table (`proc.c`) with its single `ptable.lock`: every critical section is one
    function on `State`, and every run of the kernel is a sequence of them. */
module ProcTable {
  import opened Rand
  import opened Lottery

  const NPROC: nat := 64
  const DEFAULT_TICKETS: int := 5

  datatype Option<T> = None | Some(value: T)

  datatype ProcState = UNUSED | EMBRYO | SLEEPING | RUNNABLE | RUNNING | ZOMBIE

  /** What a process sleeps on: nothing, the address of a process slot, or any other kernel address. */
  datatype Chan = NoChan | ProcChan(slot: nat) | OtherChan(id: nat)

  datatype Proc = Proc(state: ProcState, pid: nat, parent: Option<nat>, chan: Chan, killed: bool,
                       tickets: int, ticks: nat)

  /** The embryo a process is building inside `fork`, and whether `fork` has stored its parent yet. */
  datatype Building = Building(slot: nat, parentSet: bool)

  /** The kernel's globals; `building` is the local variable `np` of the forks in progress, and
      `exits` and `reaps` log the pids that have gone through `exit` and been returned by `wait`. */
  datatype State = State(proc: seq<Proc>, cpu: seq<Option<nat>>, nextpid: nat, seed: Uint32, initproc: nat,
                         building: map<nat, Building>, exits: seq<nat>, reaps: seq<nat>)

  predicate Alive(p: Proc) {
    p.state == SLEEPING || p.state == RUNNABLE || p.state == RUNNING
  }

  // ---------------------------------------------------------------- scans of the table

  /** The first slot from k on satisfying the test of a scan, or None. */
  function FirstUnused(proc: seq<Proc>, k: nat): (r: Option<nat>)
    requires k <= |proc|
    ensures r.Some? ==> k <= r.value < |proc| && proc[r.value].state == UNUSED
    ensures forall i :: k <= i < (if r.Some? then r.value else |proc|) ==> proc[i].state != UNUSED
    decreases |proc| - k
  {
    if k == |proc| then None
    else if proc[k].state == UNUSED then Some(k) else FirstUnused(proc, k + 1)
  }

  function FirstPid(proc: seq<Proc>, pid: nat, k: nat): (r: Option<nat>)
    requires k <= |proc|
    ensures r.Some? ==> k <= r.value < |proc| && proc[r.value].pid == pid
    ensures forall i :: k <= i < (if r.Some? then r.value else |proc|) ==> proc[i].pid != pid
    decreases |proc| - k
  {
    if k == |proc| then None
    else if proc[k].pid == pid then Some(k) else FirstPid(proc, pid, k + 1)
  }

  predicate ZombieChild(q: Proc, p: nat) {
    q.parent == Some(p) && q.state == ZOMBIE
  }

  function FirstZombie(proc: seq<Proc>, p: nat, k: nat): (r: Option<nat>)
    requires k <= |proc|
    ensures r.Some? ==> k <= r.value < |proc| && ZombieChild(proc[r.value], p)
    ensures forall i :: k <= i < (if r.Some? then r.value else |proc|) ==> !ZombieChild(proc[i], p)
    decreases |proc| - k
  {
    if k == |proc| then None
    else if ZombieChild(proc[k], p) then Some(k) else FirstZombie(proc, p, k + 1)
  }

  predicate HasChild(proc: seq<Proc>, p: nat) {
    exists i :: 0 <= i < |proc| && proc[i].parent == Some(p)
  }

  predicate HasZombieChild(proc: seq<Proc>, p: nat) {
    exists i :: 0 <= i < |proc| && ZombieChild(proc[i], p)
  }

  function WakeOne(p: Proc, chan: Chan): Proc {
    if p.state == SLEEPING && p.chan == chan then p.(state := RUNNABLE) else p
  }

  function WakeAll(proc: seq<Proc>, chan: Chan): (r: seq<Proc>)
    ensures |r| == |proc|
    ensures forall i :: 0 <= i < |proc| ==> r[i] == WakeOne(proc[i], chan)
  {
    seq(|proc|, i requires 0 <= i < |proc| => WakeOne(proc[i], chan))
  }

  function Adopt(proc: seq<Proc>, p: nat, heir: nat): (r: seq<Proc>)
    ensures |r| == |proc|
    ensures forall i :: 0 <= i < |proc| ==>
              r[i] == if proc[i].parent == Some(p) then proc[i].(parent := Some(heir)) else proc[i]
  {
    seq(|proc|, i requires 0 <= i < |proc| =>
      if proc[i].parent == Some(p) then proc[i].(parent := Some(heir)) else proc[i])
  }

  /** The lottery's weights: only RUNNABLE slots take part. */
  function Weight(p: Proc): nat {
    if p.state == RUNNABLE && p.tickets >= 0 then p.tickets else 0
  }

  function Weights(proc: seq<Proc>): (w: seq<nat>)
    ensures |w| == |proc|
    ensures forall i :: 0 <= i < |proc| ==> w[i] == Weight(proc[i])
  {
    seq(|proc|, i requires 0 <= i < |proc| => Weight(proc[i]))
  }

  // ---------------------------------------------------------------- the critical sections

  ghost predicate OnCpu(s: State, c: nat) {
    c < |s.cpu| && s.cpu[c].Some? && s.cpu[c].value < |s.proc|
  }

  /** The process whose code CPU c is executing (`myproc()`). */
  ghost function My(s: State, c: nat): nat
    requires OnCpu(s, c)
  {
    s.cpu[c].value
  }

  /** allocproc, lines 81-96. */
  ghost function AllocStep(s: State, c: nat): State
    requires OnCpu(s, c)
  {
    match FirstUnused(s.proc, 0)
    case None => s
    case Some(j) =>
      s.(proc := s.proc[j := s.proc[j].(state := EMBRYO, pid := s.nextpid, tickets := DEFAULT_TICKETS, ticks := 0)],
      nextpid := s.nextpid + 1,
      building := s.building[My(s, c) := Building(j, false)])
  }

  /** No memory for the kernel stack (lines 99-101) or for the page table (lines 197-201). */
  ghost function ForkFailStep(s: State, c: nat): State
    requires OnCpu(s, c) && My(s, c) in s.building && s.building[My(s, c)].slot < |s.proc|
  {
    var j := s.building[My(s, c)].slot;
    s.(proc := s.proc[j := s.proc[j].(state := UNUSED)], building := s.building - {My(s, c)})
  }

  /** The unlocked stores of fork, lines 204 and 218. */
  ghost function ForkCopyStep(s: State, c: nat): State
    requires OnCpu(s, c) && My(s, c) in s.building && s.building[My(s, c)].slot < |s.proc|
  {
    var p := My(s, c);
    var j := s.building[p].slot;
    s.(proc := s.proc[j := s.proc[j].(parent := Some(p), tickets := s.proc[p].tickets)],
    building := s.building[p := Building(j, true)])
  }

  /** fork, lines 222-226. */
  ghost function ForkCommitStep(s: State, c: nat): State
    requires OnCpu(s, c) && My(s, c) in s.building && s.building[My(s, c)].slot < |s.proc|
  {
    var j := s.building[My(s, c)].slot;
    s.(proc := s.proc[j := s.proc[j].(state := RUNNABLE)], building := s.building - {My(s, c)})
  }

  /** The channel of a process pointer; the null pointer is no channel. */
  function SlotChan(p: Option<nat>): Chan {
    match p case None => NoChan case Some(q) => ProcChan(q)
  }

  /** The wake-ups and the hand-over of children in exit, lines 260-269. */
  ghost function Orphan(s: State, p: nat): seq<Proc>
    requires p < |s.proc|
  {
    var woken := WakeAll(s.proc, SlotChan(s.proc[p].parent));
    var adopted := Adopt(woken, p, s.initproc);
    if HasZombieChild(s.proc, p) then WakeAll(adopted, ProcChan(s.initproc)) else adopted
  }

  /** exit, lines 257-273, and the return into the scheduler that clears `c->proc`. */
  ghost function ExitStep(s: State, c: nat): State
    requires OnCpu(s, c)
  {
    var p := My(s, c);
    var proc := Orphan(s, p);
    s.(proc := proc[p := proc[p].(state := ZOMBIE)], cpu := s.cpu[c := None], exits := s.exits + [s.proc[p].pid])
  }

  function Reaped(q: Proc): Proc {
    q.(pid := 0, parent := None, killed := false, state := UNUSED)
  }

  /** One scan of wait, lines 289-317: reap the first ZOMBIE child, give up, or go to sleep. */
  ghost function WaitStep(s: State, c: nat): State
    requires OnCpu(s, c)
  {
    var p := My(s, c);
    match FirstZombie(s.proc, p, 0)
    case Some(j) => s.(proc := s.proc[j := Reaped(s.proc[j])], reaps := s.reaps + [s.proc[j].pid])
    case None =>
      if !HasChild(s.proc, p) || s.proc[p].killed then s else SleepStep(s, c, ProcChan(p))
  }

  /** sleep, lines 474-482, up to the return into the scheduler. */
  ghost function SleepStep(s: State, c: nat, chan: Chan): State
    requires OnCpu(s, c)
  {
    var p := My(s, c);
    s.(proc := s.proc[p := s.proc[p].(state := SLEEPING, chan := chan)], cpu := s.cpu[c := None])
  }

  ghost function YieldStep(s: State, c: nat): State
    requires OnCpu(s, c)
  {
    var p := My(s, c);
    s.(proc := s.proc[p := s.proc[p].(state := RUNNABLE)], cpu := s.cpu[c := None])
  }

  ghost function WakeupStep(s: State, chan: Chan): State {
    s.(proc := WakeAll(s.proc, chan))
  }

  function Killed(q: Proc): Proc {
    q.(killed := true, state := if q.state == SLEEPING then RUNNABLE else q.state)
  }

  ghost function KillStep(s: State, pid: nat): State {
    match FirstPid(s.proc, pid, 0)
    case None => s
    case Some(j) => s.(proc := s.proc[j := Killed(s.proc[j])])
  }

  ghost function SetTicketsStep(s: State, c: nat, number: int): State
    requires OnCpu(s, c)
  {
    var p := My(s, c);
    if number < 1 then s else s.(proc := s.proc[p := s.proc[p].(tickets := number)])
  }

  /** A CPU enters its scheduler, lines 334-337. */
  ghost function CpuStartStep(s: State, c: nat): State
    requires c < |s.cpu|
  {
    s.(cpu := s.cpu[c := None], seed := 1)
  }

  /** The slot that owns a ticket, found by scanning from slot k. */
  ghost function Winner(weights: seq<nat>, ticket: nat, k: nat): (i: nat)
    requires k <= |weights| && Before(weights, k) <= ticket < Total(weights)
    ensures Owns(weights, i, ticket)
    decreases |weights| - k
  {
    if ticket < Before(weights, k + 1) then k else Winner(weights, ticket, k + 1)
  }

  /** One lottery, lines 344-388, and the resumed process clearing its channel (line 485). */
  ghost function ScheduleStep(s: State, c: nat): State
    requires c < |s.cpu|
  {
    var weights := Weights(s.proc);
    var total := Total(weights);
    if total == 0 then s
    else
      var i := Winner(weights, Ticket(total, s.seed), 0);
      s.(proc := s.proc[i := s.proc[i].(ticks := s.proc[i].ticks + 1, state := RUNNING, chan := NoChan)],
      cpu := s.cpu[c := Some(i)],
      seed := SeedAfter(total, s.seed))
  }

  /** The state when `main` has run `userinit` and no CPU has entered its scheduler. */
  ghost function Boot(ncpu: nat): State {
    var zero := Proc(UNUSED, 0, None, NoChan, false, 0, 0);
    State(seq(NPROC, i => zero)[0 := Proc(RUNNABLE, 1, None, NoChan, false, DEFAULT_TICKETS, 0)],
          seq(ncpu, i => None), 2, 1, 0, map[], [], [])
  }
}
