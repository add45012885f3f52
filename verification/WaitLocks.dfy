/** Who holds which lock in the Lab 3 protocol: the locks of a CPU are a function of where its code is. */
module WaitLocks {
  import opened WaitProtocol

  /** The kernel thread is being executed by some CPU. */
  predicate Active(pc: Pc) {
    !pc.NoThread? && !pc.Parked?
  }

  /** The one process lock process i's code holds at this point. */
  function Held(i: nat, pc: Pc): Option<nat> {
    match pc
    case Resumed(_) => Some(i)
    case Switch(_) => Some(i)
    case ExitZombie => Some(i)
    case ExitRelease => Some(i)
    case WaitKilledHeld => Some(i)
    case SleepRelease(_) => Some(i)
    case SleepSet(_) => Some(i)
    case YieldSet(_) => Some(i)
    case ReparentWakeHeld(_, k) => Some(k)
    case ParentWakeHeld(k, _) => Some(k)
    case WaitHeld(j) => Some(j)
    case ForkScanHeld(j) => Some(j)
    case ForkFill(j) => Some(j)
    case ForkRunHeld(j) => Some(j)
    case KillHeld(j) => Some(j)
    case WakeHeld(k, _) => Some(k)
    case _ => None
  }

  predicate HoldsWait(pc: Pc) {
    match pc
    case ReparentScan(_) => true
    case ReparentWake(_, _) => true
    case ReparentWakeHeld(_, _) => true
    case ParentWake(_, _) => true
    case ParentWakeHeld(_, _) => true
    case ExitOwnLock => true
    case ExitZombie => true
    case ExitRelease => true
    case WaitScan(_, _) => true
    case WaitHeld(_) => true
    case WaitReturn => true
    case WaitKilled => true
    case WaitKilledHeld => true
    case SleepLock(why) => why.InWait?
    case SleepRelease(why) => why.InWait?
    case ForkParentHeld(_) => true
    case _ => false
  }

  ghost function CpuHeld(s: State, c: nat): Option<nat>
    requires c < |s.cpu|
  {
    match s.cpu[c].place
    case InProcess(i) => if i < |s.pc| then Held(i, s.pc[i]) else None
    case InScheduler(AtLock(_)) => None
    case InScheduler(Check(i)) => Some(i)
    case InScheduler(Back(i)) => Some(i)
  }

  ghost predicate CpuHoldsWait(s: State, c: nat)
    requires c < |s.cpu|
  {
    s.cpu[c].place.InProcess? && s.cpu[c].place.i < |s.pc| && HoldsWait(s.pc[s.cpu[c].place.i])
  }

  ghost predicate PlaceOk(s: State, c: nat)
    requires Sized(s) && c < |s.cpu|
  {
    match s.cpu[c].place
    case InProcess(i) => i < |s.pc| && Active(s.pc[i]) && s.cpu[c].cur == Some(i)
    case InScheduler(AtLock(_)) => s.cpu[c].cur == None
    case InScheduler(Check(i)) => i < |s.pc| && s.cpu[c].cur == None
    case InScheduler(Back(i)) => i < |s.pc| && s.cpu[c].cur == Some(i)
  }

  ghost predicate OnSomeCpu(s: State, i: nat) {
    exists c :: 0 <= c < |s.cpu| && s.cpu[c].place == InProcess(i)
  }

  ghost predicate Places(s: State)
    requires Sized(s)
  {
    && (forall c :: 0 <= c < |s.cpu| ==> PlaceOk(s, c))
    && (forall c, d :: 0 <= c < d < |s.cpu| && s.cpu[c].place.InProcess? ==> s.cpu[c].place != s.cpu[d].place)
    && (forall i :: 0 <= i < |s.pc| && Active(s.pc[i]) ==> OnSomeCpu(s, i))
  }

  ghost predicate ProcLockOwners(s: State)
    requires Sized(s)
  {
    && (forall c :: 0 <= c < |s.cpu| && CpuHeld(s, c).Some? ==>
          CpuHeld(s, c).value < |s.lock| && s.lock[CpuHeld(s, c).value] == Some(c))
    && (forall j :: 0 <= j < |s.lock| && s.lock[j].Some? ==>
          s.lock[j].value < |s.cpu| && CpuHeld(s, s.lock[j].value) == Some(j))
  }

  ghost predicate WaitLockOwner(s: State)
    requires Sized(s)
  {
    && (forall c :: 0 <= c < |s.cpu| && CpuHoldsWait(s, c) ==> s.waitLock == Some(c))
    && (s.waitLock.Some? ==> s.waitLock.value < |s.cpu| && CpuHoldsWait(s, s.waitLock.value))
  }

  /** The code's positions and the locks agree. */
  ghost predicate Locks(s: State) {
    Sized(s) && Places(s) && ProcLockOwners(s) && WaitLockOwner(s)
  }

  /** A preempted process was interruptible, so it holds no lock but, at most, its own. */
  predicate SavedOk(pc: Pc) {
    match pc
    case YieldLock(saved) => Interruptible(saved)
    case YieldSet(saved) => Interruptible(saved)
    case Switch(r) => r.ToYield? ==> Interruptible(r.saved)
    case Parked(r) => r.ToYield? ==> Interruptible(r.saved)
    case Resumed(r) => !r.Never? && (r.ToYield? ==> Interruptible(r.saved))
    case _ => true
  }

  /** A process can be interrupted exactly where its code runs without any lock: SleepLock comes with the channel's lock
      held, and YieldLock is in the timer interrupt itself. */
  lemma InterruptibleExactly(i: nat, pc: Pc)
    ensures Interruptible(pc) <==> Active(pc) && Held(i, pc).None? && !HoldsWait(pc) && !pc.SleepLock? && !pc.YieldLock?
  {
  }

  // ---------------------------------------------------------------- mutual exclusion

  lemma OneProcessPerLock(s: State, i: nat, k: nat)
    requires Locks(s) && i < |s.pc| && k < |s.pc| && Active(s.pc[i]) && Active(s.pc[k])
    requires Held(i, s.pc[i]).Some? && Held(i, s.pc[i]) == Held(k, s.pc[k])
    ensures i == k
  {
    assert OnSomeCpu(s, i) && OnSomeCpu(s, k);
    var c :| 0 <= c < |s.cpu| && s.cpu[c].place == InProcess(i);
    var d :| 0 <= d < |s.cpu| && s.cpu[d].place == InProcess(k);
    assert CpuHeld(s, c) == CpuHeld(s, d);
  }

  lemma OneProcessInWaitLock(s: State, i: nat, k: nat)
    requires Locks(s) && i < |s.pc| && k < |s.pc| && HoldsWait(s.pc[i]) && HoldsWait(s.pc[k])
    ensures i == k
  {
    assert OnSomeCpu(s, i) && OnSomeCpu(s, k);
    var c :| 0 <= c < |s.cpu| && s.cpu[c].place == InProcess(i);
    var d :| 0 <= d < |s.cpu| && s.cpu[d].place == InProcess(k);
    assert CpuHoldsWait(s, c) && CpuHoldsWait(s, d);
  }

  /** A lock that is free, or held by a CPU's scheduler, is held by no process. */
  lemma FreeLockHeldByNone(s: State, j: nat, k: nat)
    requires Locks(s) && j < |s.lock| && k < |s.pc| && Active(s.pc[k])
    requires s.lock[j].None? || (s.lock[j].value < |s.cpu| && !s.cpu[s.lock[j].value].place.InProcess?)
    ensures Held(k, s.pc[k]) != Some(j)
  {
    assert OnSomeCpu(s, k);
    var d :| 0 <= d < |s.cpu| && s.cpu[d].place == InProcess(k);
    assert CpuHeld(s, d) == Held(k, s.pc[k]);
  }

  lemma FreeWaitLockHeldByNone(s: State, k: nat)
    requires Locks(s) && s.waitLock.None? && k < |s.pc|
    ensures !HoldsWait(s.pc[k])
  {
    if HoldsWait(s.pc[k]) {
      assert OnSomeCpu(s, k);
      var d :| 0 <= d < |s.cpu| && s.cpu[d].place == InProcess(k);
      assert CpuHoldsWait(s, d);
    }
  }

  // ---------------------------------------------------------------- steps keep it

  /** How a step of process i on CPU c changes the process locks: not at all, by taking one or by giving one up. */
  ghost predicate LockMove(s: State, t: State, c: nat, i: nat)
    requires i < |s.pc| == |t.pc|
  {
    var before, after := Held(i, s.pc[i]), Held(i, t.pc[i]);
    || (before == after && t.lock == s.lock)
    || (before.None? && after.Some? && after.value < |s.lock| && s.lock[after.value].None?
        && t.lock == s.lock[after.value := Some(c)])
    || (before.Some? && after.None? && before.value < |s.lock| && t.lock == s.lock[before.value := None])
  }

  ghost predicate WaitLockMove(s: State, t: State, c: nat, i: nat)
    requires i < |s.pc| == |t.pc|
  {
    var before, after := HoldsWait(s.pc[i]), HoldsWait(t.pc[i]);
    || (before == after && t.waitLock == s.waitLock)
    || (!before && after && s.waitLock.None? && t.waitLock == Some(c))
    || (before && !after && t.waitLock.None?)
  }

  ghost predicate OthersStay(s: State, t: State, i: nat) {
    && |t.pc| == |s.pc|
    && forall x :: 0 <= x < |s.pc| && x != i ==> t.pc[x] == s.pc[x] || (!Active(t.pc[x]) && !Active(s.pc[x]))
  }

  /** Process i moves on CPU c, taking or giving up locks as its new position says. */
  lemma Moves(s: State, t: State, c: nat, i: nat)
    requires Locks(s) && Runs(s, c, i) && Sized(t) && t.cpu == s.cpu && OthersStay(s, t, i) && Active(t.pc[i])
    requires LockMove(s, t, c, i) && WaitLockMove(s, t, c, i)
    ensures Locks(t)
  {
    MovesPlaces(s, t, c, i);
    OthersHoldTheSame(s, t, c, i);
    MovesProcLocks(s, t, c, i);
    MovesWaitLock(s, t, c, i);
  }

  lemma OthersHoldTheSame(s: State, t: State, c: nat, i: nat)
    requires Sized(s) && Sized(t) && Places(s) && Places(t) && Runs(s, c, i) && t.cpu == s.cpu && OthersStay(s, t, i)
    ensures forall d :: 0 <= d < |s.cpu| && d != c ==> CpuHeld(t, d) == CpuHeld(s, d) && CpuHoldsWait(t, d) == CpuHoldsWait(s, d)
  {
    forall d | 0 <= d < |s.cpu| && d != c
      ensures CpuHeld(t, d) == CpuHeld(s, d) && CpuHoldsWait(t, d) == CpuHoldsWait(s, d)
    {
      assert PlaceOk(s, d) && PlaceOk(t, d);
    }
  }

  lemma MovesProcLocks(s: State, t: State, c: nat, i: nat)
    requires Sized(s) && ProcLockOwners(s) && Runs(s, c, i) && Sized(t) && t.cpu == s.cpu && |t.pc| == |s.pc| && LockMove(s, t, c, i)
    requires forall d :: 0 <= d < |s.cpu| && d != c ==> CpuHeld(t, d) == CpuHeld(s, d)
    ensures ProcLockOwners(t)
  {
    assert CpuHeld(t, c) == Held(i, t.pc[i]) && CpuHeld(s, c) == Held(i, s.pc[i]);
  }

  lemma MovesWaitLock(s: State, t: State, c: nat, i: nat)
    requires Sized(s) && WaitLockOwner(s) && Runs(s, c, i) && Sized(t) && t.cpu == s.cpu && |t.pc| == |s.pc| && WaitLockMove(s, t, c, i)
    requires forall d :: 0 <= d < |s.cpu| && d != c ==> CpuHoldsWait(t, d) == CpuHoldsWait(s, d)
    ensures WaitLockOwner(t)
  {
    assert CpuHoldsWait(t, c) == HoldsWait(t.pc[i]) && CpuHoldsWait(s, c) == HoldsWait(s.pc[i]);
  }

  lemma MovesPlaces(s: State, t: State, c: nat, i: nat)
    requires Sized(s) && Places(s) && Runs(s, c, i) && Sized(t) && t.cpu == s.cpu && OthersStay(s, t, i) && Active(t.pc[i])
    ensures Places(t)
  {
    assert PlaceOk(s, c);
    forall d | 0 <= d < |t.cpu|
      ensures PlaceOk(t, d)
    {
      assert PlaceOk(s, d);
    }
    forall x | 0 <= x < |t.pc| && Active(t.pc[x])
      ensures OnSomeCpu(t, x)
    {
      assert OnSomeCpu(s, x);
      var d :| 0 <= d < |s.cpu| && s.cpu[d].place == InProcess(x);
      assert t.cpu[d].place == InProcess(x);
    }
  }

  /** The conditions of Moves, to be read off a step without the facts about the rest of the system. */
  ghost predicate Fits(s: State, t: State, c: nat, i: nat) {
    && Runs(s, c, i) && Sized(t) && t.cpu == s.cpu && OthersStay(s, t, i) && Active(t.pc[i])
    && LockMove(s, t, c, i) && WaitLockMove(s, t, c, i)
  }

  lemma ExitFits(s: State, c: nat, i: nat)
    requires Runs(s, c, i) && ExitEnabled(s, c, i)
    ensures Fits(s, ExitStep(s, c, i), c, i)
  {
  }

  lemma WaitFits(s: State, c: nat, i: nat, ch: Choice)
    requires Runs(s, c, i) && WaitEnabled(s, c, i)
    requires s.pc[i].WaitHeld? && s.procs[s.pc[i].j].state == ZOMBIE ==> !Active(s.pc[s.pc[i].j])
    ensures Fits(s, WaitStep(s, c, i, ch), c, i)
  {
  }

  lemma SleepFits(s: State, c: nat, i: nat)
    requires Runs(s, c, i) && SleepEnabled(s, c, i) && !s.pc[i].Switch? && SavedOk(s.pc[i])
    ensures Fits(s, SleepStep(s, c, i), c, i)
  {
  }

  lemma ForkFits(s: State, c: nat, i: nat, ch: Choice)
    requires Runs(s, c, i) && ForkEnabled(s, c, i)
    requires s.pc[i].ForkFill? ==> !Active(s.pc[s.pc[i].j])
    ensures Fits(s, ForkStep(s, c, i, ch), c, i)
  {
    if s.pc[i].ForkScan? || s.pc[i].ForkScanHeld? || s.pc[i].ForkFill? {
      ForkFitsAlloc(s, c, i, ch);
    } else {
      ForkFitsFinish(s, c, i, ch);
    }
  }

  lemma ForkFitsAlloc(s: State, c: nat, i: nat, ch: Choice)
    requires Runs(s, c, i) && ForkEnabled(s, c, i) && (s.pc[i].ForkScan? || s.pc[i].ForkScanHeld? || s.pc[i].ForkFill?)
    requires s.pc[i].ForkFill? ==> !Active(s.pc[s.pc[i].j])
    ensures Fits(s, ForkStep(s, c, i, ch), c, i)
  {
  }

  lemma ForkFitsFinish(s: State, c: nat, i: nat, ch: Choice)
    requires Runs(s, c, i) && ForkEnabled(s, c, i) && !(s.pc[i].ForkScan? || s.pc[i].ForkScanHeld? || s.pc[i].ForkFill?)
    ensures Fits(s, ForkStep(s, c, i, ch), c, i)
  {
  }

  lemma SignalFits(s: State, c: nat, i: nat, ch: Choice)
    requires Runs(s, c, i) && SignalEnabled(s, c, i)
    ensures Fits(s, SignalStep(s, c, i, ch), c, i)
  {
  }

  lemma CallFits(s: State, c: nat, i: nat, ch: Choice)
    requires Runs(s, c, i) && CallEnabled(s, c, i, ch)
    ensures Fits(s, CallStep(s, c, i, ch), c, i)
  {
  }

  /** CPU c moves between its scheduler and a process, or along its scheduler's scan. */
  ghost predicate Relocates(s: State, t: State, c: nat) {
    && Sized(s) && Sized(t) && |t.pc| == |s.pc| && c < |s.cpu| == |t.cpu|
    && (forall d :: 0 <= d < |s.cpu| && d != c ==> t.cpu[d] == s.cpu[d])
    && (forall x :: 0 <= x < |s.pc| && t.pc[x] != s.pc[x] ==>
          (s.cpu[c].place == InProcess(x) && !Active(t.pc[x])) || (t.cpu[c].place == InProcess(x) && !Active(s.pc[x])))
  }

  lemma RelocatesPlaces(s: State, t: State, c: nat)
    requires Relocates(s, t, c) && Places(s) && PlaceOk(t, c)
    requires t.cpu[c].place.InProcess? ==> !Active(s.pc[t.cpu[c].place.i])
    requires s.cpu[c].place.InProcess? ==> s.cpu[c].place.i < |t.pc| && !Active(t.pc[s.cpu[c].place.i])
    ensures Places(t)
  {
    forall d | 0 <= d < |t.cpu|
      ensures PlaceOk(t, d)
    {
      assert PlaceOk(s, d) && PlaceOk(s, c);
    }
    forall d | 0 <= d < |t.cpu| && d != c && t.cpu[d].place.InProcess?
      ensures t.cpu[d].place != t.cpu[c].place
    {
      assert PlaceOk(s, d);
    }
    forall x | 0 <= x < |t.pc| && Active(t.pc[x])
      ensures OnSomeCpu(t, x)
    {
      if t.cpu[c].place != InProcess(x) {
        assert OnSomeCpu(s, x);
        var d :| 0 <= d < |s.cpu| && s.cpu[d].place == InProcess(x);
        assert t.cpu[d].place == InProcess(x);
      }
    }
  }

  lemma RelocatesOthers(s: State, t: State, c: nat)
    requires Relocates(s, t, c) && Places(s) && Places(t)
    ensures forall d :: 0 <= d < |s.cpu| && d != c ==> CpuHeld(t, d) == CpuHeld(s, d) && CpuHoldsWait(t, d) == CpuHoldsWait(s, d)
  {
    forall d | 0 <= d < |s.cpu| && d != c
      ensures CpuHeld(t, d) == CpuHeld(s, d) && CpuHoldsWait(t, d) == CpuHoldsWait(s, d)
    {
      assert PlaceOk(s, d) && PlaceOk(t, d);
    }
  }

  /** The locks CPU c holds change as its new place says. */
  lemma RelocatesProcLocks(s: State, t: State, c: nat)
    requires Relocates(s, t, c) && ProcLockOwners(s)
    requires forall d :: 0 <= d < |s.cpu| && d != c ==> CpuHeld(t, d) == CpuHeld(s, d)
    requires var before, after := CpuHeld(s, c), CpuHeld(t, c);
             || (before == after && t.lock == s.lock)
             || (before.None? && after.Some? && after.value < |s.lock| && s.lock[after.value].None? && t.lock == s.lock[after.value := Some(c)])
             || (before.Some? && after.None? && before.value < |s.lock| && t.lock == s.lock[before.value := None])
    ensures ProcLockOwners(t)
  {
  }

  lemma RelocatesWaitLock(s: State, t: State, c: nat)
    requires Relocates(s, t, c) && WaitLockOwner(s)
    requires forall d :: 0 <= d < |s.cpu| && d != c ==> CpuHoldsWait(t, d) == CpuHoldsWait(s, d)
    requires t.waitLock == s.waitLock && !CpuHoldsWait(s, c) && !CpuHoldsWait(t, c)
    ensures WaitLockOwner(t)
  {
  }

  lemma SwitchLocks(s: State, c: nat, i: nat)
    requires Locks(s) && Runs(s, c, i) && s.pc[i].Switch?
    ensures Locks(SleepStep(s, c, i))
  {
    var t := SleepStep(s, c, i);
    assert PlaceOk(s, c);
    RelocatesPlaces(s, t, c);
    RelocatesOthers(s, t, c);
    RelocatesProcLocks(s, t, c);
    RelocatesWaitLock(s, t, c);
  }

  lemma SchedLocks(s: State, c: nat, ch: Choice)
    requires Locks(s) && SchedEnabled(s, c, ch)
    requires s.cpu[c].place.pc.Check? ==>
               s.procs[s.cpu[c].place.pc.i].state == RUNNABLE ==> s.pc[s.cpu[c].place.pc.i].Parked?
    ensures Locks(SchedStep(s, c, ch))
  {
    var t := SchedStep(s, c, ch);
    assert PlaceOk(s, c);
    RelocatesPlaces(s, t, c);
    RelocatesOthers(s, t, c);
    RelocatesProcLocks(s, t, c);
    RelocatesWaitLock(s, t, c);
  }
}
