/** Lab 3's `exit`, `wait`, `sleep`, `wakeup`, `yield`, `fork`, `kill` and `scheduler` as an interleaving of CPUs.
    Spinlocks are owned by CPUs, a step lies between two accesses to shared state, and `swtch` hands the CPU, with
    the process lock it holds, from a process to the scheduler or back. */
module WaitProtocol {

  datatype Option<T> = None | Some(value: T)

  datatype ProcState = UNUSED | USED | SLEEPING | RUNNABLE | RUNNING | ZOMBIE

  /** What a process sleeps on: nothing, the address of a process slot, or any other address. */
  datatype Chan = NoChan | ProcChan(slot: nat) | OtherChan(id: nat)

  datatype Proc = Proc(state: ProcState, chan: Chan, killed: bool, parent: Option<nat>)

  /** Why a process calls sleep: from `wait`, with wait_lock, or on any other channel with that channel's lock. */
  datatype Why = InWait | OnChan(id: nat)

  /** Where `sched` will return to once the process is dispatched again. */
  datatype Resume = ToSleep(why: Why) | ToYield(saved: Pc) | Never

  /** Where the kernel thread of a process is, with its local variables. */
  datatype Pc =
    // no thread, or a thread switched out in sched
    | NoThread
    | Parked(resume: Resume)
    // just switched in, or about to switch out; both with the process's own lock
    | Resumed(resume: Resume)
    | Switch(resume: Resume)
    // outside the functions below, holding no lock
    | Free
    | ExitLock
    | ReparentScan(j: nat)
    | ReparentWake(j: nat, k: nat)
    | ReparentWakeHeld(j: nat, k: nat)
    | ParentWake(k: nat, chan: Chan)
    | ParentWakeHeld(k: nat, chan: Chan)
    | ExitOwnLock
    | ExitZombie
    | ExitRelease
    | WaitLock
    | WaitScan(j: nat, kids: bool)
    | WaitHeld(j: nat)
    | WaitReturn
    | WaitKilled
    | WaitKilledHeld
    | SleepLock(why: Why)
    | SleepRelease(why: Why)
    | SleepSet(why: Why)
    | YieldLock(saved: Pc)
    | YieldSet(saved: Pc)
    | ForkScan(j: nat)
    | ForkScanHeld(j: nat)
    | ForkFill(j: nat)
    | ForkParent(j: nat)
    | ForkParentHeld(j: nat)
    | ForkRun(j: nat)
    | ForkRunHeld(j: nat)
    | KillScan(j: nat)
    | KillHeld(j: nat)
    | WakeScan(k: nat, id: nat)
    | WakeHeld(k: nat, id: nat)

  /** The scheduler's position in its scan of the table: before acquiring slot i, holding it, or just switched back to. */
  datatype SchedPc = AtLock(i: nat) | Check(i: nat) | Back(i: nat)

  /** What a CPU executes, and its `c->proc`. */
  datatype Place = InScheduler(pc: SchedPc) | InProcess(i: nat)

  datatype Cpu = Cpu(cur: Option<nat>, place: Place)

  datatype State = State(procs: seq<Proc>, pc: seq<Pc>, lock: seq<Option<nat>>, waitLock: Option<nat>,
                         cpu: seq<Cpu>, init: nat)

  /** What the code does not decide: the system call a process makes, and the outcome of allocations, copies and tests
      on data outside this model. */
  datatype Choice = Go | Preempt | CallExit | CallWait | CallSleep(id: nat) | CallFork | CallKill | CallWakeup(id: nat)
                  | Yes | No | Interrupt(k: nat, id: nat)

  // ---------------------------------------------------------------- primitive effects

  ghost function At(s: State, i: nat, pc: Pc): State
    requires i < |s.pc|
  {
    s.(pc := s.pc[i := pc])
  }

  ghost function Acquire(s: State, c: nat, j: nat): State
    requires j < |s.lock|
  {
    s.(lock := s.lock[j := Some(c)])
  }

  ghost function Release(s: State, j: nat): State
    requires j < |s.lock|
  {
    s.(lock := s.lock[j := None])
  }

  ghost function AcquireWait(s: State, c: nat): State {
    s.(waitLock := Some(c))
  }

  ghost function ReleaseWait(s: State): State {
    s.(waitLock := None)
  }

  ghost function Store(s: State, j: nat, p: Proc): State
    requires j < |s.procs|
  {
    s.(procs := s.procs[j := p])
  }

  function Woken(p: Proc, chan: Chan): Proc {
    if p.state == SLEEPING && p.chan == chan then p.(state := RUNNABLE) else p
  }

  function Freed(p: Proc): Proc {
    Proc(UNUSED, NoChan, false, None)
  }

  // ---------------------------------------------------------------- the code of a process

  ghost predicate Sized(s: State) {
    |s.procs| == |s.pc| == |s.lock| && s.init < |s.procs|
  }

  ghost predicate Runs(s: State, c: nat, i: nat) {
    Sized(s) && c < |s.cpu| && s.cpu[c].place == InProcess(i) && i < |s.pc|
  }

  /** exit, lines 410-426, with reparent, lines 377-382. */
  ghost predicate ExitEnabled(s: State, c: nat, i: nat)
    requires Runs(s, c, i)
  {
    match s.pc[i]
    case ExitLock => s.waitLock.None?
    case ReparentScan(_) => true
    case ReparentWake(_, k) => k < |s.lock| && k != i ==> s.lock[k].None?
    case ReparentWakeHeld(_, k) => k < |s.lock|
    case ParentWake(k, _) => k < |s.lock| && k != i ==> s.lock[k].None?
    case ParentWakeHeld(k, _) => k < |s.lock|
    case ExitOwnLock => s.lock[i].None?
    case ExitZombie => true
    case ExitRelease => true
    case _ => false
  }

  function SlotChan(p: Option<nat>): Chan {
    match p case None => NoChan case Some(q) => ProcChan(q)
  }

  ghost function ExitStep(s: State, c: nat, i: nat): State
    requires Runs(s, c, i) && ExitEnabled(s, c, i)
  {
    var n := |s.procs|;
    match s.pc[i]
    case ExitLock => At(AcquireWait(s, c), i, ReparentScan(0))
    case ReparentScan(j) =>
      if j >= n then At(s, i, ParentWake(0, SlotChan(s.procs[i].parent)))
      else if s.procs[j].parent == Some(i) then At(Store(s, j, s.procs[j].(parent := Some(s.init))), i, ReparentWake(j, 0))
      else At(s, i, ReparentScan(j + 1))
    case ReparentWake(j, k) =>
      if k >= n then At(s, i, ReparentScan(j + 1))
      else if k == i then At(s, i, ReparentWake(j, k + 1))
      else At(Acquire(s, c, k), i, ReparentWakeHeld(j, k))
    case ReparentWakeHeld(j, k) =>
      At(Release(Store(s, k, Woken(s.procs[k], ProcChan(s.init))), k), i, ReparentWake(j, k + 1))
    case ParentWake(k, chan) =>
      if k >= n then At(s, i, ExitOwnLock)
      else if k == i then At(s, i, ParentWake(k + 1, chan))
      else At(Acquire(s, c, k), i, ParentWakeHeld(k, chan))
    case ParentWakeHeld(k, chan) => At(Release(Store(s, k, Woken(s.procs[k], chan)), k), i, ParentWake(k + 1, chan))
    case ExitOwnLock => At(Acquire(s, c, i), i, ExitZombie)
    case ExitZombie => At(Store(s, i, s.procs[i].(state := ZOMBIE)), i, ExitRelease)
    case ExitRelease => At(ReleaseWait(s), i, Switch(Never))
  }

  /** wait, lines 439-475, up to the call of sleep. */
  ghost predicate WaitEnabled(s: State, c: nat, i: nat)
    requires Runs(s, c, i)
  {
    match s.pc[i]
    case WaitLock => s.waitLock.None?
    case WaitScan(j, _) => j < |s.procs| && s.procs[j].parent == Some(i) ==> s.lock[j].None?
    case WaitHeld(j) => j < |s.procs|
    case WaitReturn => true
    case WaitKilled => s.lock[i].None?
    case WaitKilledHeld => true
    case _ => false
  }

  ghost function WaitStep(s: State, c: nat, i: nat, ch: Choice): State
    requires Runs(s, c, i) && WaitEnabled(s, c, i)
  {
    match s.pc[i]
    case WaitLock => At(AcquireWait(s, c), i, WaitScan(0, false))
    case WaitScan(j, kids) =>
      if j >= |s.procs| then At(s, i, if kids then WaitKilled else WaitReturn)
      else if s.procs[j].parent == Some(i) then At(Acquire(s, c, j), i, WaitHeld(j))
      else At(s, i, WaitScan(j + 1, kids))
    case WaitHeld(j) =>
      if s.procs[j].state != ZOMBIE then At(Release(s, j), i, WaitScan(j + 1, true))
      else if ch == No then At(Release(s, j), i, WaitReturn)
      else At(Release(Store(s, j, Freed(s.procs[j])).(pc := s.pc[j := NoThread]), j), i, WaitReturn)
    case WaitReturn => At(ReleaseWait(s), i, Free)
    case WaitKilled => At(Acquire(s, c, i), i, WaitKilledHeld)
    case WaitKilledHeld => At(Release(s, i), i, if s.procs[i].killed then WaitReturn else SleepLock(InWait))
  }

  function WhyChan(i: nat, why: Why): Chan {
    match why case InWait => ProcChan(i) case OnChan(id) => OtherChan(id)
  }

  /** sleep, lines 589-603, yield, lines 548-551, the switch of sched, line 539, and the first return of a new process
      (forkret, line 562), which like yield only releases its own lock. */
  ghost predicate SleepEnabled(s: State, c: nat, i: nat)
    requires Runs(s, c, i)
  {
    match s.pc[i]
    case SleepLock(_) => s.lock[i].None?
    case SleepRelease(_) => true
    case SleepSet(_) => true
    case YieldLock(_) => s.lock[i].None?
    case YieldSet(_) => true
    case Switch(_) => true
    case Resumed(r) => !r.Never?
    case _ => false
  }

  ghost function SleepStep(s: State, c: nat, i: nat): State
    requires Runs(s, c, i) && SleepEnabled(s, c, i)
  {
    match s.pc[i]
    case SleepLock(why) => At(Acquire(s, c, i), i, SleepRelease(why))
    case SleepRelease(why) => At(if why.InWait? then ReleaseWait(s) else s, i, SleepSet(why))
    case SleepSet(why) => At(Store(s, i, s.procs[i].(chan := WhyChan(i, why), state := SLEEPING)), i, Switch(ToSleep(why)))
    case YieldLock(saved) => At(Acquire(s, c, i), i, YieldSet(saved))
    case YieldSet(saved) => At(Store(s, i, s.procs[i].(state := RUNNABLE)), i, Switch(ToYield(saved)))
    case Switch(r) => At(s, i, Parked(r)).(cpu := s.cpu[c := s.cpu[c].(place := InScheduler(Back(i)))])
    case Resumed(r) =>
      match r {
        case ToSleep(why) =>
          At(Release(Store(s, i, s.procs[i].(chan := NoChan)), i), i, if why.InWait? then WaitLock else Free)
        case ToYield(saved) => At(Release(s, i), i, saved)
      }
  }

  /** fork, lines 329-365, with allocproc, lines 114-157, and freeproc on its error paths. */
  ghost predicate ForkEnabled(s: State, c: nat, i: nat)
    requires Runs(s, c, i)
  {
    match s.pc[i]
    case ForkScan(j) => j < |s.lock| ==> s.lock[j].None?
    case ForkScanHeld(j) => j < |s.lock|
    case ForkFill(j) => j < |s.lock|
    case ForkParent(j) => s.waitLock.None?
    case ForkParentHeld(j) => j < |s.lock|
    case ForkRun(j) => j < |s.lock| && s.lock[j].None?
    case ForkRunHeld(j) => j < |s.lock|
    case _ => false
  }

  ghost function ForkStep(s: State, c: nat, i: nat, ch: Choice): State
    requires Runs(s, c, i) && ForkEnabled(s, c, i)
  {
    match s.pc[i]
    case ForkScan(j) => if j >= |s.procs| then At(s, i, Free) else At(Acquire(s, c, j), i, ForkScanHeld(j))
    case ForkScanHeld(j) =>
      if s.procs[j].state == UNUSED
      then At(Store(s, j, s.procs[j].(state := USED)), i, ForkFill(j))
      else At(Release(s, j), i, ForkScan(j + 1))
    case ForkFill(j) =>
      if ch == No then At(Release(Store(s, j, Freed(s.procs[j])), j), i, Free)
      else At(At(Release(s, j), j, Parked(ToYield(Free))), i, ForkParent(j))
    case ForkParent(j) => At(AcquireWait(s, c), i, ForkParentHeld(j))
    case ForkParentHeld(j) => At(ReleaseWait(Store(s, j, s.procs[j].(parent := Some(i)))), i, ForkRun(j))
    case ForkRun(j) => At(Acquire(s, c, j), i, ForkRunHeld(j))
    case ForkRunHeld(j) => At(Release(Store(s, j, s.procs[j].(state := RUNNABLE)), j), i, Free)
  }

  /** kill, lines 632-645, and wakeup on other channels, lines 613-621. Whether a slot's pid matches is a choice. */
  ghost predicate SignalEnabled(s: State, c: nat, i: nat)
    requires Runs(s, c, i)
  {
    match s.pc[i]
    case KillScan(j) => j < |s.lock| ==> s.lock[j].None?
    case KillHeld(j) => j < |s.lock|
    case WakeScan(k, _) => k < |s.lock| && k != i ==> s.lock[k].None?
    case WakeHeld(k, _) => k < |s.lock|
    case _ => false
  }

  function KilledProc(p: Proc): Proc {
    p.(killed := true, state := if p.state == SLEEPING then RUNNABLE else p.state)
  }

  ghost function SignalStep(s: State, c: nat, i: nat, ch: Choice): State
    requires Runs(s, c, i) && SignalEnabled(s, c, i)
  {
    match s.pc[i]
    case KillScan(j) => if j >= |s.procs| then At(s, i, Free) else At(Acquire(s, c, j), i, KillHeld(j))
    case KillHeld(j) =>
      if ch == Yes then At(Release(Store(s, j, KilledProc(s.procs[j])), j), i, Free)
      else At(Release(s, j), i, KillScan(j + 1))
    case WakeScan(k, id) =>
      if k >= |s.procs| then At(s, i, Free)
      else if k == i then At(s, i, WakeScan(k + 1, id))
      else At(Acquire(s, c, k), i, WakeHeld(k, id))
    case WakeHeld(k, id) => At(Release(Store(s, k, Woken(s.procs[k], OtherChan(id))), k), i, WakeScan(k + 1, id))
  }

  /** A process that holds no lock can be interrupted: preempted by the timer, or made to run the handler of a device
      that wakes up its sleepers. */
  predicate Interruptible(pc: Pc) {
    match pc
    case Free => true
    case ExitLock => true
    case WaitLock => true
    case ForkScan(_) => true
    case ForkParent(_) => true
    case ForkRun(_) => true
    case KillScan(_) => true
    case WakeScan(_, _) => true
    case _ => false
  }

  /** A process outside these functions enters one of them; init never calls exit (line 393). */
  ghost predicate CallEnabled(s: State, c: nat, i: nat, ch: Choice)
    requires Runs(s, c, i)
  {
    if ch == Preempt then Interruptible(s.pc[i])
    else if ch.Interrupt? then Interruptible(s.pc[i]) && ch.k < |s.lock| && s.lock[ch.k].None?
    else
      && s.pc[i] == Free
      && (ch == CallExit ==> i != s.init)
      && (ch == CallExit || ch == CallWait || ch.CallSleep? || ch == CallFork || ch == CallKill || ch.CallWakeup?)
  }

  ghost function CallStep(s: State, c: nat, i: nat, ch: Choice): State
    requires Runs(s, c, i) && CallEnabled(s, c, i, ch)
  {
    match ch
    case Preempt => At(s, i, YieldLock(s.pc[i]))
    case Interrupt(k, id) => Store(s, k, Woken(s.procs[k], OtherChan(id)))
    case CallExit => At(s, i, ExitLock)
    case CallWait => At(s, i, WaitLock)
    case CallSleep(id) => At(s, i, SleepLock(OnChan(id)))
    case CallFork => At(s, i, ForkScan(0))
    case CallKill => At(s, i, KillScan(0))
    case CallWakeup(id) => At(s, i, WakeScan(0, id))
  }

  // ---------------------------------------------------------------- the code of the scheduler

  /** scheduler, lines 497-512; between two slots, holding no lock, a device interrupt may wake a sleeper. */
  ghost predicate SchedEnabled(s: State, c: nat, ch: Choice) {
    && Sized(s) && c < |s.cpu| && s.cpu[c].place.InScheduler?
    && match s.cpu[c].place.pc {
         case AtLock(i) =>
           if ch.Interrupt? then ch.k < |s.lock| && s.lock[ch.k].None? else i < |s.lock| ==> s.lock[i].None?
         case Check(i) => i < |s.lock|
         case Back(i) => i < |s.lock|
       }
  }

  ghost function SchedStep(s: State, c: nat, ch: Choice): State
    requires SchedEnabled(s, c, ch)
  {
    var n := |s.procs|;
    var cpu := s.cpu[c];
    match cpu.place.pc
    case AtLock(i) =>
      if ch.Interrupt? then Store(s, ch.k, Woken(s.procs[ch.k], OtherChan(ch.id)))
      else if i >= n then s.(cpu := s.cpu[c := cpu.(place := InScheduler(AtLock(0)))])
      else Acquire(s, c, i).(cpu := s.cpu[c := cpu.(place := InScheduler(Check(i)))])
    case Check(i) =>
      if s.procs[i].state == RUNNABLE
      then At(Store(s, i, s.procs[i].(state := RUNNING)), i, if s.pc[i].Parked? then Resumed(s.pc[i].resume) else s.pc[i])
           .(cpu := s.cpu[c := Cpu(Some(i), InProcess(i))])
      else Release(s, i).(cpu := s.cpu[c := cpu.(place := InScheduler(AtLock(i + 1)))])
    case Back(i) => Release(s, i).(cpu := s.cpu[c := Cpu(None, InScheduler(AtLock(i + 1)))])
  }

  // ---------------------------------------------------------------- runs

  ghost predicate Enabled(s: State, c: nat, ch: Choice) {
    || SchedEnabled(s, c, ch)
    || (exists i :: ProcEnabled(s, c, i, ch))
  }

  ghost predicate ProcEnabled(s: State, c: nat, i: nat, ch: Choice) {
    && Runs(s, c, i)
    && (|| ExitEnabled(s, c, i) || WaitEnabled(s, c, i) || SleepEnabled(s, c, i) || ForkEnabled(s, c, i)
        || SignalEnabled(s, c, i) || CallEnabled(s, c, i, ch))
  }

  /** CPU c takes one step. */
  ghost function Step(s: State, c: nat, ch: Choice): State
    requires Enabled(s, c, ch)
  {
    if SchedEnabled(s, c, ch) then SchedStep(s, c, ch)
    else
      var i := s.cpu[c].place.i;
      if (ch == Preempt || ch.Interrupt?) && CallEnabled(s, c, i, ch) then CallStep(s, c, i, ch)
      else if ExitEnabled(s, c, i) then ExitStep(s, c, i)
      else if WaitEnabled(s, c, i) then WaitStep(s, c, i, ch)
      else if SleepEnabled(s, c, i) then SleepStep(s, c, i)
      else if ForkEnabled(s, c, i) then ForkStep(s, c, i, ch)
      else if SignalEnabled(s, c, i) then SignalStep(s, c, i, ch)
      else CallStep(s, c, i, ch)
  }

  /** After userinit: only init, about to return from its first dispatch, and every CPU at the top of its scheduler. */
  ghost function Boot(nproc: nat, ncpu: nat): State
    requires nproc > 0
  {
    State(seq(nproc, i => Freed(Proc(UNUSED, NoChan, false, None)))[0 := Proc(RUNNABLE, NoChan, false, None)],
          seq(nproc, i => NoThread)[0 := Parked(ToYield(Free))],
          seq(nproc, i => None), None,
          seq(ncpu, c => Cpu(None, InScheduler(AtLock(0)))), 0)
  }

  ghost predicate Run(s: State, steps: seq<(nat, Choice)>)
    decreases |steps|
  {
    steps == [] || (Enabled(s, steps[0].0, steps[0].1) && Run(Step(s, steps[0].0, steps[0].1), steps[1..]))
  }

  ghost function After(s: State, steps: seq<(nat, Choice)>): State
    requires Run(s, steps)
    decreases |steps|
  {
    if steps == [] then s else After(Step(s, steps[0].0, steps[0].1), steps[1..])
  }
}
