/** No lost wakeups in Lab 3: what every step of every CPU keeps about process states, forks in progress, the parent
    tree, and zombies waiting to be reaped. */
module WaitInvariant {
  import opened WaitProtocol
  import opened WaitLocks

  // ---------------------------------------------------------------- threads and states

  /** The state of a process agrees with where its kernel thread is. */
  ghost predicate ThreadOk(s: State, i: nat)
    requires Sized(s) && i < |s.pc|
  {
    var p := s.procs[i];
    SavedOk(s.pc[i]) &&
    match s.pc[i]
    case NoThread => p.state == UNUSED || p.state == USED
    case Parked(r) =>
      (match r
       case ToSleep(why) => (p.state == SLEEPING || p.state == RUNNABLE) && p.chan == WhyChan(i, why)
       case ToYield(saved) => p.state == RUNNABLE || (p.state == USED && saved == Free)
       case Never => p.state == ZOMBIE)
    case Switch(r) =>
      (match r
       case ToSleep(why) => p.state == SLEEPING && p.chan == WhyChan(i, why)
       case ToYield(_) => p.state == RUNNABLE
       case Never => p.state == ZOMBIE)
    case ExitRelease => p.state == ZOMBIE
    case _ => p.state == RUNNING
  }

  ghost predicate Threads(s: State)
    requires Sized(s)
  {
    forall i :: 0 <= i < |s.pc| ==> ThreadOk(s, i)
  }

  /** The position a preempted process will resume from. */
  function Core(pc: Pc): Pc {
    match pc
    case YieldLock(saved) => saved
    case YieldSet(saved) => saved
    case Switch(r) => if r.ToYield? then r.saved else pc
    case Parked(r) => if r.ToYield? then r.saved else pc
    case Resumed(r) => if r.ToYield? then r.saved else pc
    case _ => pc
  }

  /** The slot a process is filling inside fork. */
  function Builds(pc: Pc): Option<nat> {
    match Core(pc)
    case ForkFill(j) => Some(j)
    case ForkParent(j) => Some(j)
    case ForkParentHeld(j) => Some(j)
    case ForkRun(j) => Some(j)
    case ForkRunHeld(j) => Some(j)
    case _ => None
  }

  predicate ParentStored(pc: Pc) {
    Core(pc).ForkRun? || Core(pc).ForkRunHeld?
  }

  ghost predicate BuildOk(s: State, i: nat)
    requires Sized(s) && i < |s.pc|
  {
    Builds(s.pc[i]).Some? ==>
      var j := Builds(s.pc[i]).value;
      && j < |s.procs| && j != i && s.procs[j].state == USED
      && s.pc[j] == (if s.pc[i].ForkFill? then NoThread else Parked(ToYield(Free)))
      && s.procs[j].parent == (if ParentStored(s.pc[i]) then Some(i) else None)
  }

  /** A free slot has no parent; an embryo's parent, once stored, is the process that builds it. */
  ghost predicate EmbryoOk(s: State, j: nat)
    requires Sized(s) && j < |s.pc|
  {
    && (s.procs[j].state == UNUSED ==> s.procs[j].parent == None)
    && (s.procs[j].state == USED && s.procs[j].parent.Some? ==>
      s.procs[j].parent.value < |s.pc| && Builds(s.pc[s.procs[j].parent.value]) == Some(j))
  }

  ghost predicate Builders(s: State)
    requires Sized(s)
  {
    && (forall i :: 0 <= i < |s.pc| ==> BuildOk(s, i))
    && (forall j :: 0 <= j < |s.pc| ==> EmbryoOk(s, j))
    && (forall i, x :: 0 <= i < |s.pc| && 0 <= x < |s.pc| && i != x && Builds(s.pc[i]).Some? ==> Builds(s.pc[i]) != Builds(s.pc[x]))
  }

  ghost predicate Life(s: State) {
    Sized(s) && Threads(s) && Builders(s)
  }

  lemma LifeAt(s: State, i: nat)
    requires Life(s) && i < |s.procs|
    ensures Sized(s) && ThreadOk(s, i) && BuildOk(s, i) && EmbryoOk(s, i)
  {
  }

  /** Only process i moved, and only slot k changed besides. */
  ghost predicate Touches(s: State, t: State, i: nat, k: nat) {
    && Sized(s) && Sized(t) && |t.pc| == |s.pc| && i < |s.pc| && k < |s.pc|
    && (forall x :: 0 <= x < |s.pc| && x != i && x != k ==> t.pc[x] == s.pc[x])
    && (forall x :: 0 <= x < |s.pc| && x != i && x != k ==> t.procs[x] == s.procs[x])
  }

  /** Another process's embryo in slot k survives the step. */
  ghost predicate SparesEmbryo(s: State, t: State, k: nat)
    requires Sized(s) && Sized(t) && |t.pc| == |s.pc| && k < |s.pc|
  {
    s.procs[k].state == USED ==> t.procs[k].state == USED && t.procs[k].parent == s.procs[k].parent && t.pc[k] == s.pc[k]
  }

  lemma LifeKept(s: State, t: State, i: nat, k: nat)
    requires Life(s) && Touches(s, t, i, k)
    requires ThreadOk(t, i) && ThreadOk(t, k) && BuildOk(t, i)
    requires s.procs[i].state != USED && t.procs[i].state != USED && EmbryoOk(t, i) && EmbryoOk(t, k)
    requires k != i ==> Builds(t.pc[k]) == Builds(s.pc[k]) && BuildOk(t, k)
    requires Builds(s.pc[i]).Some? && Builds(s.pc[i]) != Some(k) ==> Builds(t.pc[i]) == Builds(s.pc[i])
    requires SparesEmbryo(s, t, k) || Builds(s.pc[i]) == Some(k)
    requires Builds(t.pc[i]).Some? ==> Builds(t.pc[i]) == Builds(s.pc[i]) || (Builds(t.pc[i]) == Some(k) && s.procs[k].state == UNUSED)
    ensures Life(t)
  {
    LifeKeptBuilders(s, t, i, k);
    forall x | 0 <= x < |t.pc|
      ensures ThreadOk(t, x)
    {
      assert ThreadOk(s, x);
    }
  }

  lemma LifeKeptBuilders(s: State, t: State, i: nat, k: nat)
    requires Sized(s) && Builders(s) && Touches(s, t, i, k) && BuildOk(t, i)
    requires s.procs[i].state != USED && t.procs[i].state != USED && EmbryoOk(t, i) && EmbryoOk(t, k)
    requires k != i ==> Builds(t.pc[k]) == Builds(s.pc[k]) && BuildOk(t, k)
    requires Builds(s.pc[i]).Some? && Builds(s.pc[i]) != Some(k) ==> Builds(t.pc[i]) == Builds(s.pc[i])
    requires SparesEmbryo(s, t, k) || Builds(s.pc[i]) == Some(k)
    requires Builds(t.pc[i]).Some? ==> Builds(t.pc[i]) == Builds(s.pc[i]) || (Builds(t.pc[i]) == Some(k) && s.procs[k].state == UNUSED)
    ensures Builders(t)
  {
    forall x | 0 <= x < |t.pc| && x != i && x != k
      ensures BuildOk(t, x)
    {
      assert BuildOk(s, x);
    }
    forall j | 0 <= j < |t.pc|
      ensures EmbryoOk(t, j)
    {
      assert EmbryoOk(s, j);
    }
    forall x | 0 <= x < |t.pc| && x != i && Builds(t.pc[x]).Some?
      ensures Builds(t.pc[x]) != Builds(t.pc[i])
    {
      assert BuildOk(s, x);
    }
  }

  /** Nobody but a holder of slot k's lock can be between taking that lock and switching out. */
  ghost predicate Unheld(s: State, i: nat, k: nat)
    requires Sized(s)
  {
    k < |s.pc| && (k != i && Active(s.pc[k]) ==> Held(k, s.pc[k]) != Some(k))
  }

  lemma HolderExcludes(s: State, c: nat, i: nat)
    requires Locks(s) && Runs(s, c, i) && Held(i, s.pc[i]).Some?
    ensures Unheld(s, i, Held(i, s.pc[i]).value)
  {
    assert PlaceOk(s, c);
    assert CpuHeld(s, c) == Held(i, s.pc[i]);
    var k := Held(i, s.pc[i]).value;
    if k != i && Active(s.pc[k]) && Held(k, s.pc[k]) == Some(k) {
      OneProcessPerLock(s, i, k);
    }
  }

  /** Waking or killing a process leaves its thread parked: under its lock it cannot be on its way out. */
  lemma SignalledThread(s: State, t: State, i: nat, k: nat)
    requires Life(s) && Sized(t) && |t.pc| == |s.pc| && k < |s.pc| && k != i && t.pc[k] == s.pc[k] && Unheld(s, i, k)
    requires t.procs[k].chan == s.procs[k].chan && t.procs[k].parent == s.procs[k].parent
    requires t.procs[k].state == s.procs[k].state || (s.procs[k].state == SLEEPING && t.procs[k].state == RUNNABLE)
    ensures ThreadOk(t, k) && SparesEmbryo(s, t, k)
  {
    assert ThreadOk(s, k);
  }

  /** A step of process i that changes no slot but, perhaps, the state of its own. */
  ghost predicate OwnMove(s: State, t: State, i: nat) {
    && Sized(s) && Sized(t) && |t.pc| == |s.pc| && i < |s.pc|
    && t.pc == s.pc[i := t.pc[i]]
    && t.procs == s.procs[i := t.procs[i]]
    && t.procs[i].state != USED && (t.procs[i].state == UNUSED ==> t.procs[i].parent == None)
    && (Builds(t.pc[i]).None? || Builds(t.pc[i]) == Builds(s.pc[i]))
  }

  lemma OwnMoveLife(s: State, t: State, i: nat)
    requires Life(s) && OwnMove(s, t, i) && ThreadOk(t, i) && BuildOk(t, i) && s.procs[i].state != USED
    requires Builds(t.pc[i]) == Builds(s.pc[i])
    ensures Life(t)
  {
    LifeKept(s, t, i, i);
  }

  lemma SameLife(s: State, t: State)
    requires Life(s) && Sized(t) && t.procs == s.procs && t.pc == s.pc
    ensures Life(t)
  {
    forall x | 0 <= x < |t.pc|
      ensures ThreadOk(t, x) && BuildOk(t, x) && EmbryoOk(t, x)
    {
      assert ThreadOk(s, x) && BuildOk(s, x) && EmbryoOk(s, x);
    }
  }

  // ---- exit

  ghost predicate ExitWakes(s: State, i: nat)
    requires i < |s.pc|
  {
    s.pc[i].ReparentWakeHeld? || s.pc[i].ParentWakeHeld?
  }

  ghost predicate ExitAdopts(s: State, i: nat)
    requires i < |s.pc|
  {
    s.pc[i].ReparentScan? && s.pc[i].j < |s.procs| && s.procs[s.pc[i].j].parent == Some(i)
  }

  lemma ExitOwn(s: State, c: nat, i: nat)
    requires Runs(s, c, i) && ExitEnabled(s, c, i) && !ExitWakes(s, i) && !ExitAdopts(s, i) && ThreadOk(s, i)
    ensures OwnMove(s, ExitStep(s, c, i), i) && ThreadOk(ExitStep(s, c, i), i)
    ensures s.procs[i].state != USED && Builds(s.pc[i]).None? && Builds(ExitStep(s, c, i).pc[i]).None?
  {
  }

  lemma ExitLife(s: State, c: nat, i: nat)
    requires Locks(s) && Life(s) && Runs(s, c, i) && ExitEnabled(s, c, i)
    ensures Life(ExitStep(s, c, i))
  {
    assert ThreadOk(s, i);
    if ExitWakes(s, i) {
      ExitLifeWake(s, c, i, s.pc[i].k);
    } else if ExitAdopts(s, i) {
      ExitLifeAdopt(s, c, i, s.pc[i].j);
    } else {
      ExitOwn(s, c, i);
      OwnMoveLife(s, ExitStep(s, c, i), i);
    }
  }

  /** Under the lock of slot k, process i signals the process there. */
  lemma SignalKeepsLife(s: State, t: State, c: nat, i: nat, k: nat)
    requires Locks(s) && Life(s) && Runs(s, c, i) && Touches(s, t, i, k) && Held(i, s.pc[i]) == Some(k)
    requires t.pc[k] == s.pc[k] || k == i
    requires t.procs[k].chan == s.procs[k].chan && t.procs[k].parent == s.procs[k].parent
    requires t.procs[k].state == s.procs[k].state || (s.procs[k].state == SLEEPING && t.procs[k].state == RUNNABLE)
    requires t.procs[i].state == s.procs[i].state == RUNNING && ThreadOk(t, i) && Builds(s.pc[i]).None? && Builds(t.pc[i]).None?
    ensures Life(t)
  {
    HolderExcludes(s, c, i);
    assert ThreadOk(s, k) && BuildOk(s, k) && EmbryoOk(s, k);
    if k != i {
      SignalledThread(s, t, i, k);
    }
    LifeKept(s, t, i, k);
  }

  lemma ExitLifeWake(s: State, c: nat, i: nat, k: nat)
    requires Locks(s) && Life(s) && Runs(s, c, i) && ExitEnabled(s, c, i)
    requires ExitWakes(s, i) && k == s.pc[i].k
    ensures Life(ExitStep(s, c, i))
  {
    assert ThreadOk(s, i);
    SignalKeepsLife(s, ExitStep(s, c, i), c, i, k);
  }

  lemma ExitLifeAdopt(s: State, c: nat, i: nat, j: nat)
    requires Life(s) && Runs(s, c, i) && ExitAdopts(s, i) && j == s.pc[i].j
    ensures Life(ExitStep(s, c, i))
  {
    assert ThreadOk(s, i) && ThreadOk(s, j) && BuildOk(s, j) && EmbryoOk(s, j);
    LifeKept(s, ExitStep(s, c, i), i, j);
  }

  // ---- wait

  lemma WaitOwn(s: State, c: nat, i: nat, ch: Choice)
    requires Runs(s, c, i) && WaitEnabled(s, c, i) && ThreadOk(s, i)
    requires s.pc[i].WaitHeld? ==> s.procs[s.pc[i].j].state != ZOMBIE || ch == No
    ensures OwnMove(s, WaitStep(s, c, i, ch), i) && ThreadOk(WaitStep(s, c, i, ch), i)
    ensures s.procs[i].state != USED && Builds(s.pc[i]).None? && Builds(WaitStep(s, c, i, ch).pc[i]).None?
  {
  }

  /** The child found dead is parked for good, so its slot can be freed. */
  lemma ZombieIsParked(s: State, c: nat, i: nat)
    requires Locks(s) && Life(s) && Runs(s, c, i) && s.pc[i].WaitHeld? && s.pc[i].j < |s.pc|
    requires s.procs[s.pc[i].j].state == ZOMBIE
    ensures s.pc[s.pc[i].j] == Parked(Never) && s.pc[i].j != i
  {
    HolderExcludes(s, c, i);
    assert ThreadOk(s, s.pc[i].j) && ThreadOk(s, i);
  }

  lemma WaitReapLife(s: State, c: nat, i: nat, ch: Choice)
    requires Locks(s) && Life(s) && Runs(s, c, i) && s.pc[i].WaitHeld? && s.pc[i].j < |s.pc| && ch != No
    requires s.procs[s.pc[i].j].state == ZOMBIE
    ensures Life(WaitStep(s, c, i, ch))
  {
    hide Life, Locks;
    LifeAt(s, i);
    LifeAt(s, s.pc[i].j);
    ZombieIsParked(s, c, i);
    LifeKept(s, WaitStep(s, c, i, ch), i, s.pc[i].j);
  }

  lemma WaitLife(s: State, c: nat, i: nat, ch: Choice)
    requires Locks(s) && Life(s) && Runs(s, c, i) && WaitEnabled(s, c, i)
    ensures Life(WaitStep(s, c, i, ch))
  {
    assert ThreadOk(s, i);
    if s.pc[i].WaitHeld? && s.procs[s.pc[i].j].state == ZOMBIE && ch != No {
      WaitReapLife(s, c, i, ch);
    } else {
      WaitOwn(s, c, i, ch);
      OwnMoveLife(s, WaitStep(s, c, i, ch), i);
    }
  }

  // ---- sleep, yield, sched

  lemma SleepOwn(s: State, c: nat, i: nat)
    requires Runs(s, c, i) && SleepEnabled(s, c, i) && ThreadOk(s, i) && BuildOk(s, i)
    ensures OwnMove(s, SleepStep(s, c, i), i) && s.procs[i].state != USED
  {
    hide BuildOk;
  }

  lemma SleepThread(s: State, c: nat, i: nat)
    requires Runs(s, c, i) && SleepEnabled(s, c, i) && ThreadOk(s, i) && BuildOk(s, i)
    requires OwnMove(s, SleepStep(s, c, i), i)
    ensures var t := SleepStep(s, c, i);
            ThreadOk(t, i) && BuildOk(t, i) && Builds(t.pc[i]) == Builds(s.pc[i])
  {
    hide OwnMove;
  }

  lemma SleepLife(s: State, c: nat, i: nat)
    requires Life(s) && Runs(s, c, i) && SleepEnabled(s, c, i)
    ensures Life(SleepStep(s, c, i))
  {
    hide Life, SleepStep;
    LifeAt(s, i);
    SleepOwn(s, c, i);
    SleepThread(s, c, i);
    OwnMoveLife(s, SleepStep(s, c, i), i);
  }

  // ---- fork

  /** The steps of fork up to the embryo being marked USED or given up. */
  lemma ForkLifeScan(s: State, c: nat, i: nat, ch: Choice)
    requires Life(s) && Runs(s, c, i) && ForkEnabled(s, c, i) && (s.pc[i].ForkScan? || s.pc[i].ForkScanHeld?)
    ensures Life(ForkStep(s, c, i, ch))
  {
    var t := ForkStep(s, c, i, ch);
    assert ThreadOk(s, i);
    if s.pc[i].ForkScanHeld? && s.procs[s.pc[i].j].state == UNUSED {
      var j := s.pc[i].j;
      assert ThreadOk(s, j) && BuildOk(s, j) && EmbryoOk(s, j);
      LifeKept(s, t, i, j);
    } else {
      OwnMoveLife(s, t, i);
    }
  }

  lemma ForkLifeFill(s: State, c: nat, i: nat, ch: Choice)
    requires Life(s) && Runs(s, c, i) && ForkEnabled(s, c, i) && s.pc[i].ForkFill?
    ensures Life(ForkStep(s, c, i, ch))
  {
    var j := s.pc[i].j;
    assert ThreadOk(s, i) && BuildOk(s, i) && ThreadOk(s, j) && BuildOk(s, j);
    LifeKept(s, ForkStep(s, c, i, ch), i, j);
  }

  lemma ForkLifeParent(s: State, c: nat, i: nat, ch: Choice)
    requires Life(s) && Runs(s, c, i) && ForkEnabled(s, c, i) && (s.pc[i].ForkParent? || s.pc[i].ForkRun?)
    ensures Life(ForkStep(s, c, i, ch))
  {
    hide Life;
    LifeAt(s, i);
    OwnMoveLife(s, ForkStep(s, c, i, ch), i);
  }

  lemma ForkHeldMove(s: State, c: nat, i: nat, ch: Choice)
    requires Runs(s, c, i) && ForkEnabled(s, c, i) && (s.pc[i].ForkParentHeld? || s.pc[i].ForkRunHeld?)
    requires s.pc[i].j < |s.procs| && ThreadOk(s, i) && BuildOk(s, i) && ThreadOk(s, s.pc[i].j) && BuildOk(s, s.pc[i].j)
    ensures var t, j := ForkStep(s, c, i, ch), s.pc[i].j;
            && Touches(s, t, i, j) && ThreadOk(t, i) && ThreadOk(t, j) && BuildOk(t, i)
            && s.procs[i].state != USED && t.procs[i].state != USED && EmbryoOk(t, i) && EmbryoOk(t, j)
            && (j != i ==> Builds(t.pc[j]) == Builds(s.pc[j]) && BuildOk(t, j))
            && Builds(s.pc[i]) == Some(j)
            && (Builds(t.pc[i]).Some? ==> Builds(t.pc[i]) == Builds(s.pc[i]))
  {
  }

  lemma ForkLifeHeld(s: State, c: nat, i: nat, ch: Choice)
    requires Life(s) && Runs(s, c, i) && ForkEnabled(s, c, i) && (s.pc[i].ForkParentHeld? || s.pc[i].ForkRunHeld?)
    ensures Life(ForkStep(s, c, i, ch))
  {
    hide Life, ForkStep;
    LifeAt(s, i);
    var j := s.pc[i].j;
    LifeAt(s, j);
    ForkHeldMove(s, c, i, ch);
    LifeKept(s, ForkStep(s, c, i, ch), i, j);
  }

  lemma ForkLife(s: State, c: nat, i: nat, ch: Choice)
    requires Life(s) && Runs(s, c, i) && ForkEnabled(s, c, i)
    ensures Life(ForkStep(s, c, i, ch))
    ensures s.pc[i].ForkFill? ==> !Active(s.pc[s.pc[i].j])
  {
    if s.pc[i].ForkScan? || s.pc[i].ForkScanHeld? {
      ForkLifeScan(s, c, i, ch);
    } else if s.pc[i].ForkFill? {
      assert BuildOk(s, i);
      ForkLifeFill(s, c, i, ch);
    } else if s.pc[i].ForkParent? || s.pc[i].ForkRun? {
      ForkLifeParent(s, c, i, ch);
    } else {
      ForkLifeHeld(s, c, i, ch);
    }
  }

  // ---- kill, wakeup, calls and interrupts

  lemma SignalOwn(s: State, c: nat, i: nat, ch: Choice)
    requires Runs(s, c, i) && SignalEnabled(s, c, i) && ThreadOk(s, i) && (s.pc[i].KillScan? || s.pc[i].WakeScan?)
    ensures OwnMove(s, SignalStep(s, c, i, ch), i) && ThreadOk(SignalStep(s, c, i, ch), i)
    ensures s.procs[i].state != USED && Builds(s.pc[i]).None? && Builds(SignalStep(s, c, i, ch).pc[i]).None?
  {
  }

  lemma SignalHeld(s: State, c: nat, i: nat, ch: Choice)
    requires Runs(s, c, i) && SignalEnabled(s, c, i) && ThreadOk(s, i) && (s.pc[i].KillHeld? || s.pc[i].WakeHeld?)
    ensures var t := SignalStep(s, c, i, ch); var k := Held(i, s.pc[i]).value;
            && Touches(s, t, i, k) && (t.pc[k] == s.pc[k] || k == i)
            && t.procs[k].chan == s.procs[k].chan && t.procs[k].parent == s.procs[k].parent
            && (t.procs[k].state == s.procs[k].state || (s.procs[k].state == SLEEPING && t.procs[k].state == RUNNABLE))
            && t.procs[i].state == s.procs[i].state == RUNNING && ThreadOk(t, i) && Builds(s.pc[i]).None? && Builds(t.pc[i]).None?
  {
  }

  lemma SignalLife(s: State, c: nat, i: nat, ch: Choice)
    requires Locks(s) && Life(s) && Runs(s, c, i) && SignalEnabled(s, c, i)
    ensures Life(SignalStep(s, c, i, ch))
  {
    assert ThreadOk(s, i);
    if s.pc[i].KillHeld? || s.pc[i].WakeHeld? {
      SignalHeld(s, c, i, ch);
      SignalKeepsLife(s, SignalStep(s, c, i, ch), c, i, Held(i, s.pc[i]).value);
    } else {
      SignalOwn(s, c, i, ch);
      OwnMoveLife(s, SignalStep(s, c, i, ch), i);
    }
  }

  lemma CallLife(s: State, c: nat, i: nat, ch: Choice)
    requires Locks(s) && Life(s) && Runs(s, c, i) && CallEnabled(s, c, i, ch)
    ensures Life(CallStep(s, c, i, ch))
  {
    if ch.Interrupt? {
      InterruptLife(s, ch.k, ch.id);
    } else {
      assert ThreadOk(s, i) && BuildOk(s, i);
      CallOwn(s, c, i, ch);
      OwnMoveLife(s, CallStep(s, c, i, ch), i);
    }
  }

  lemma CallOwn(s: State, c: nat, i: nat, ch: Choice)
    requires Runs(s, c, i) && CallEnabled(s, c, i, ch) && !ch.Interrupt? && ThreadOk(s, i) && BuildOk(s, i)
    ensures var t := CallStep(s, c, i, ch);
            && OwnMove(s, t, i) && ThreadOk(t, i) && BuildOk(t, i) && s.procs[i].state != USED && Builds(t.pc[i]) == Builds(s.pc[i])
  {
  }

  lemma InterruptLife(s: State, k: nat, id: nat)
    requires Locks(s) && Life(s) && k < |s.lock| && s.lock[k].None?
    ensures Life(Store(s, k, Woken(s.procs[k], OtherChan(id))))
  {
    var t := Store(s, k, Woken(s.procs[k], OtherChan(id)));
    assert ThreadOk(s, k) && BuildOk(s, k) && EmbryoOk(s, k);
    if Active(s.pc[k]) {
      FreeLockHeldByNone(s, k, k);
    }
    if s.procs[k].state == USED {
      assert t == s;
    } else {
      OwnMoveLife(s, t, k);
    }
  }

  // ---- scheduler

  /** A RUNNABLE slot whose lock the scheduler holds has a parked thread. */
  lemma RunnableIsParked(s: State, c: nat, i: nat)
    requires Locks(s) && Life(s) && c < |s.cpu| && s.cpu[c].place == InScheduler(Check(i)) && i < |s.pc|
    requires s.procs[i].state == RUNNABLE
    ensures s.pc[i].Parked?
  {
    assert ThreadOk(s, i);
    assert CpuHeld(s, c) == Some(i);
    if Active(s.pc[i]) {
      FreeLockHeldByNone(s, i, i);
    }
  }

  lemma SchedLife(s: State, c: nat, ch: Choice)
    requires Locks(s) && Life(s) && SchedEnabled(s, c, ch)
    ensures Life(SchedStep(s, c, ch))
  {
    var t := SchedStep(s, c, ch);
    match s.cpu[c].place.pc
    case AtLock(i) => if ch.Interrupt? { InterruptLife(s, ch.k, ch.id); } else { SameLife(s, t); }
    case Check(i) =>
      if s.procs[i].state == RUNNABLE {
        RunnableIsParked(s, c, i);
        assert ThreadOk(s, i) && BuildOk(s, i);
        OwnMoveLife(s, t, i);
      } else {
        SameLife(s, t);
      }
    case Back(_) => SameLife(s, t);
  }

  // ---------------------------------------------------------------- the parent tree

  predicate Alive(p: Proc) {
    p.state == SLEEPING || p.state == RUNNABLE || p.state == RUNNING
  }

  predicate ExitPc(pc: Pc) {
    match Core(pc)
    case ExitLock => true
    case ReparentScan(_) => true
    case ReparentWake(_, _) => true
    case ReparentWakeHeld(_, _) => true
    case ParentWake(_, _) => true
    case ParentWakeHeld(_, _) => true
    case ExitOwnLock => true
    case ExitZombie => true
    case ExitRelease => true
    case Switch(r) => r.Never?
    case Parked(r) => r.Never?
    case Resumed(r) => r.Never?
    case _ => false
  }

  ghost predicate FamilyOk(s: State, x: nat)
    requires Sized(s) && x < |s.procs|
  {
    s.procs[x].parent.Some? ==>
      s.procs[x].parent.value < |s.procs| && s.procs[x].parent.value != x && Alive(s.procs[s.procs[x].parent.value])
  }

  /** The slots an exiting process has already looked at for children of its own. */
  ghost function Cleared(s: State, i: nat): nat
    requires Sized(s) && i < |s.pc|
  {
    match s.pc[i]
    case ReparentScan(j) => j
    case ReparentWake(j, _) => j + 1
    case ReparentWakeHeld(j, _) => j + 1
    case ParentWake(_, _) => |s.procs|
    case ParentWakeHeld(_, _) => |s.procs|
    case ExitOwnLock => |s.procs|
    case ExitZombie => |s.procs|
    case _ => 0
  }

  ghost predicate KidsHandedOver(s: State, i: nat)
    requires Sized(s) && i < |s.pc|
  {
    forall x :: 0 <= x < Cleared(s, i) && x < |s.procs| ==> s.procs[x].parent != Some(i)
  }

  /** Every parent is a live process, so nobody is ever the child of a zombie; init lives on. */
  ghost predicate Family(s: State) {
    && Sized(s)
    && (forall x :: 0 <= x < |s.procs| ==> FamilyOk(s, x))
    && (forall i :: 0 <= i < |s.pc| ==> KidsHandedOver(s, i))
    && Alive(s.procs[s.init]) && s.procs[s.init].parent == None && !ExitPc(s.pc[s.init])
  }

  /** Asleep in wait, or past the point of no return: wait_lock is released and the process is about to sleep. */
  ghost predicate Committed(s: State, q: nat)
    requires Sized(s) && q < |s.pc|
  {
    AsleepInWait(s, q) || s.pc[q] == SleepSet(InWait)
  }

  /** wait has called sleep, and nobody has woken the process since. */
  ghost predicate AsleepInWait(s: State, q: nat)
    requires Sized(s) && q < |s.pc|
  {
    s.procs[q].state == SLEEPING && (s.pc[q] == Parked(ToSleep(InWait)) || s.pc[q] == Switch(ToSleep(InWait)))
  }

  /** The children a waiting process has already seen alive. */
  ghost function Seen(s: State, i: nat): nat
    requires Sized(s) && i < |s.pc|
  {
    match s.pc[i]
    case WaitScan(j, _) => j
    case WaitHeld(j) => j
    case WaitKilled => |s.procs|
    case WaitKilledHeld => |s.procs|
    case SleepLock(why) => if why.InWait? then |s.procs| else 0
    case SleepRelease(why) => if why.InWait? then |s.procs| else 0
    case _ => 0
  }

  ghost predicate SeenAlive(s: State, i: nat)
    requires Sized(s) && i < |s.pc|
  {
    forall x :: 0 <= x < Seen(s, i) && x < |s.procs| && s.procs[x].parent == Some(i) ==> s.procs[x].state != ZOMBIE
  }

  /** An exiting process that has woken its parent's slot keeps it from going back to sleep. */
  ghost predicate ParentAwake(s: State, i: nat)
    requires Sized(s) && i < |s.pc|
  {
    s.procs[i].parent.Some? && s.procs[i].parent.value < |s.pc| ==>
      var q := s.procs[i].parent.value;
      match s.pc[i]
      case ParentWake(k, chan) => chan == ProcChan(q) && (q < k ==> !Committed(s, q))
      case ParentWakeHeld(k, chan) => chan == ProcChan(q) && (q < k ==> !Committed(s, q))
      case ExitOwnLock => !Committed(s, q)
      case ExitZombie => !Committed(s, q)
      case _ => true
  }

  /** A process is handing its children to init and its wakeup has not reached init's slot yet. */
  predicate WillWake(pc: Pc, init: nat) {
    match pc
    case ReparentWake(_, k) => k <= init
    case ReparentWakeHeld(_, k) => k <= init
    case _ => false
  }

  ghost predicate InitPending(s: State) {
    exists e :: 0 <= e < |s.pc| && WillWake(s.pc[e], s.init)
  }

  /** A zombie's parent is not asleep in wait, unless it is init and about to be woken. */
  ghost predicate ZombieOk(s: State, x: nat)
    requires Sized(s) && x < |s.procs|
  {
    s.procs[x].state == ZOMBIE && s.procs[x].parent.Some? && s.procs[x].parent.value < |s.pc| && Committed(s, s.procs[x].parent.value) ==>
      s.procs[x].parent.value == s.init && InitPending(s)
  }

  ghost predicate Wake(s: State) {
    && Sized(s)
    && (forall i :: 0 <= i < |s.pc| ==> SeenAlive(s, i) && ParentAwake(s, i))
    && (forall x :: 0 <= x < |s.procs| ==> ZombieOk(s, x))
  }

  /** A step that makes no zombie, gives no child away and kills nobody. */
  ghost predicate Tame(s: State, t: State, i: nat) {
    && Sized(s) && Sized(t) && |t.pc| == |s.pc| && t.init == s.init && i < |s.pc|
    && (forall x :: 0 <= x < |s.pc| && x != i ==> t.pc[x] == s.pc[x] || (!Active(s.pc[x]) && !Active(t.pc[x]) && !ExitPc(t.pc[x])))
    && (forall x :: 0 <= x < |s.pc| ==>
          && (t.procs[x].parent == s.procs[x].parent || t.procs[x].parent == None)
          && (t.procs[x].state == ZOMBIE ==> s.procs[x].state == ZOMBIE)
          && (Alive(s.procs[x]) ==> Alive(t.procs[x])))
  }

  /** A tame step that sends nobody to sleep in wait. */
  ghost predicate Quiet(s: State, t: State, i: nat) {
    && Tame(s, t, i)
    && (forall x :: 0 <= x < |s.pc| && Committed(t, x) ==> Committed(s, x))
  }

  lemma TameFamily(s: State, t: State, i: nat)
    requires Family(s) && Tame(s, t, i) && KidsHandedOver(t, i)
    requires i == s.init ==> !ExitPc(t.pc[i])
    ensures Family(t)
  {
    forall x | 0 <= x < |t.procs|
      ensures FamilyOk(t, x)
    {
      assert FamilyOk(s, x);
    }
    forall x | 0 <= x < |t.pc|
      ensures KidsHandedOver(t, x)
    {
      assert KidsHandedOver(s, x);
    }
  }

  lemma QuietWake(s: State, t: State, i: nat)
    requires Wake(s) && Quiet(s, t, i) && SeenAlive(t, i) && ParentAwake(t, i)
    requires WillWake(s.pc[i], s.init) ==> WillWake(t.pc[i], s.init) || !Committed(t, s.init)
    ensures Wake(t)
  {
    forall x | 0 <= x < |t.pc| && x != i
      ensures SeenAlive(t, x) && ParentAwake(t, x)
    {
      assert SeenAlive(s, x) && ParentAwake(s, x);
    }
    forall x | 0 <= x < |t.procs|
      ensures ZombieOk(t, x)
    {
      QuietZombie(s, t, i, x);
    }
  }

  lemma QuietZombie(s: State, t: State, i: nat, x: nat)
    requires Wake(s) && Quiet(s, t, i) && x < |s.procs|
    requires WillWake(s.pc[i], s.init) ==> WillWake(t.pc[i], s.init) || !Committed(t, s.init)
    ensures ZombieOk(t, x)
  {
    assert ZombieOk(s, x);
    if InitPending(s) && Committed(t, s.init) {
      var e :| 0 <= e < |s.pc| && WillWake(s.pc[e], s.init);
      assert WillWake(t.pc[e], t.init);
    }
  }

  /** While process i holds wait_lock, nobody else is in the middle of exit, wait or a hand-over. */
  lemma OthersOutside(s: State, i: nat)
    requires Locks(s) && i < |s.pc| && HoldsWait(s.pc[i])
    ensures forall x :: 0 <= x < |s.pc| && x != i ==> Seen(s, x) == 0 && Cleared(s, x) == 0 && !WillWake(s.pc[x], s.init)
    ensures forall x :: 0 <= x < |s.pc| && x != i ==> !HoldsWait(s.pc[x])
  {
    forall x | 0 <= x < |s.pc| && x != i
      ensures !HoldsWait(s.pc[x])
    {
      if HoldsWait(s.pc[x]) {
        OneProcessInWaitLock(s, i, x);
      }
    }
  }

  // ---- exit

  lemma ExitQuiet(s: State, c: nat, i: nat)
    requires Runs(s, c, i) && ExitEnabled(s, c, i) && !ExitAdopts(s, i) && !s.pc[i].ExitZombie?
    ensures Quiet(s, ExitStep(s, c, i), i)
  {
  }

  lemma ExitFacts(s: State, c: nat, i: nat)
    requires Runs(s, c, i) && ExitEnabled(s, c, i) && !ExitAdopts(s, i) && !s.pc[i].ExitZombie?
    requires KidsHandedOver(s, i) && ParentAwake(s, i) && FamilyOk(s, i) && i != s.init
    requires Held(i, s.pc[i]).Some? ==> Unheld(s, i, Held(i, s.pc[i]).value) && ThreadOk(s, Held(i, s.pc[i]).value)
    ensures KidsHandedOver(ExitStep(s, c, i), i)
    ensures SeenAlive(ExitStep(s, c, i), i)
    ensures ParentAwake(ExitStep(s, c, i), i)
    ensures WillWake(s.pc[i], s.init) ==>
              WillWake(ExitStep(s, c, i).pc[i], s.init) || !Committed(ExitStep(s, c, i), s.init)
  {
    hide ExitStep, ExitEnabled, Unheld, KidsHandedOver, ParentAwake, ThreadOk;
    ExitHandsOver(s, c, i);
    ExitKeepsAwake(s, c, i);
    ExitWakesInit(s, c, i);
  }

  lemma ExitHandsOver(s: State, c: nat, i: nat)
    requires Runs(s, c, i) && ExitEnabled(s, c, i) && !ExitAdopts(s, i) && !s.pc[i].ExitZombie?
    requires KidsHandedOver(s, i) && FamilyOk(s, i) && i != s.init
    ensures KidsHandedOver(ExitStep(s, c, i), i) && SeenAlive(ExitStep(s, c, i), i)
  {
  }

  lemma ExitKeepsAwake(s: State, c: nat, i: nat)
    requires Runs(s, c, i) && ExitEnabled(s, c, i) && !ExitAdopts(s, i) && !s.pc[i].ExitZombie?
    requires ParentAwake(s, i) && FamilyOk(s, i)
    requires Held(i, s.pc[i]).Some? ==> Unheld(s, i, Held(i, s.pc[i]).value) && ThreadOk(s, Held(i, s.pc[i]).value)
    ensures ParentAwake(ExitStep(s, c, i), i)
  {
  }

  lemma ExitWakesInit(s: State, c: nat, i: nat)
    requires Runs(s, c, i) && ExitEnabled(s, c, i) && i != s.init
    requires Held(i, s.pc[i]).Some? ==> Unheld(s, i, Held(i, s.pc[i]).value) && ThreadOk(s, Held(i, s.pc[i]).value)
    ensures WillWake(s.pc[i], s.init) ==>
              WillWake(ExitStep(s, c, i).pc[i], s.init) || !Committed(ExitStep(s, c, i), s.init)
  {
  }

  lemma AdoptFamily(s: State, c: nat, i: nat)
    requires Locks(s) && Family(s) && Runs(s, c, i) && ExitAdopts(s, i)
    ensures Family(ExitStep(s, c, i))
  {
    hide Locks;
    var t := ExitStep(s, c, i);
    OthersOutside(s, i);
    forall x | 0 <= x < |t.procs|
      ensures FamilyOk(t, x)
    {
      assert FamilyOk(s, x);
    }
    forall x | 0 <= x < |t.pc|
      ensures KidsHandedOver(t, x)
    {
      assert KidsHandedOver(s, x);
    }
  }

  lemma AdoptWake(s: State, c: nat, i: nat)
    requires Locks(s) && Wake(s) && Runs(s, c, i) && ExitAdopts(s, i)
    ensures Wake(ExitStep(s, c, i))
  {
    hide Locks;
    var t := ExitStep(s, c, i);
    OthersOutside(s, i);
    assert WillWake(t.pc[i], t.init);
    forall x | 0 <= x < |t.procs|
      ensures ZombieOk(t, x)
    {
      assert ZombieOk(s, x);
    }
    forall x | 0 <= x < |t.pc|
      ensures SeenAlive(t, x) && ParentAwake(t, x)
    {
      assert SeenAlive(s, x) && ParentAwake(s, x);
    }
  }

  lemma ZombieFamily(s: State, c: nat, i: nat)
    requires Family(s) && Runs(s, c, i) && s.pc[i].ExitZombie?
    ensures Family(ExitStep(s, c, i))
  {
    var t := ExitStep(s, c, i);
    assert KidsHandedOver(s, i);
    forall x | 0 <= x < |t.procs|
      ensures FamilyOk(t, x)
    {
      assert FamilyOk(s, x);
    }
    forall x | 0 <= x < |t.pc|
      ensures KidsHandedOver(t, x)
    {
      assert KidsHandedOver(s, x);
    }
  }

  lemma ZombieWake(s: State, c: nat, i: nat)
    requires Locks(s) && Wake(s) && Runs(s, c, i) && s.pc[i].ExitZombie? && s.procs[i].state == RUNNING
    ensures Wake(ExitStep(s, c, i))
  {
    hide Locks;
    var t := ExitStep(s, c, i);
    OthersOutside(s, i);
    assert ParentAwake(s, i);
    forall x | 0 <= x < |t.pc|
      ensures SeenAlive(t, x) && ParentAwake(t, x)
    {
      assert SeenAlive(s, x) && ParentAwake(s, x);
    }
    forall x | 0 <= x < |t.procs|
      ensures ZombieOk(t, x)
    {
      assert ZombieOk(s, x);
    }
  }

  lemma ExitKeeps(s: State, c: nat, i: nat)
    requires Locks(s) && Life(s) && Family(s) && Wake(s) && Runs(s, c, i) && ExitEnabled(s, c, i)
    ensures Family(ExitStep(s, c, i)) && Wake(ExitStep(s, c, i))
  {
    assert ThreadOk(s, i);
    if ExitAdopts(s, i) {
      AdoptFamily(s, c, i);
      AdoptWake(s, c, i);
    } else if s.pc[i].ExitZombie? {
      ZombieFamily(s, c, i);
      ZombieWake(s, c, i);
    } else {
      ExitKeepsQuiet(s, c, i);
    }
  }

  lemma ExitKeepsQuiet(s: State, c: nat, i: nat)
    requires Locks(s) && Life(s) && Family(s) && Wake(s) && Runs(s, c, i) && ExitEnabled(s, c, i)
    requires !ExitAdopts(s, i) && !s.pc[i].ExitZombie?
    ensures Family(ExitStep(s, c, i)) && Wake(ExitStep(s, c, i))
  {
    if Held(i, s.pc[i]).Some? {
      HolderExcludes(s, c, i);
      LifeAt(s, Held(i, s.pc[i]).value);
    }
    assert KidsHandedOver(s, i) && FamilyOk(s, i) && ParentAwake(s, i);
    ExitQuiet(s, c, i);
    ExitFacts(s, c, i);
    TameFamily(s, ExitStep(s, c, i), i);
    QuietWake(s, ExitStep(s, c, i), i);
  }

  // ---- wait

  lemma WaitTame(s: State, c: nat, i: nat, ch: Choice)
    requires Runs(s, c, i) && WaitEnabled(s, c, i)
    requires s.pc[i].WaitHeld? && s.procs[s.pc[i].j].state == ZOMBIE ==> s.pc[s.pc[i].j] == Parked(Never) && s.pc[i].j != i
    ensures Tame(s, WaitStep(s, c, i, ch), i)
  {
  }

  lemma WaitCommits(s: State, c: nat, i: nat, ch: Choice, x: nat)
    requires Runs(s, c, i) && WaitEnabled(s, c, i) && x < |s.pc|
    ensures var t := WaitStep(s, c, i, ch);
            Sized(t) && |t.pc| == |s.pc| && (Committed(t, x) ==> Committed(s, x))
  {
  }

  lemma WaitQuiet(s: State, c: nat, i: nat, ch: Choice)
    requires Runs(s, c, i) && WaitEnabled(s, c, i)
    requires s.pc[i].WaitHeld? && s.procs[s.pc[i].j].state == ZOMBIE ==> s.pc[s.pc[i].j] == Parked(Never) && s.pc[i].j != i
    ensures Quiet(s, WaitStep(s, c, i, ch), i)
  {
    hide WaitStep, WaitEnabled, Tame, Committed;
    WaitTame(s, c, i, ch);
    forall x | 0 <= x < |s.pc| && Committed(WaitStep(s, c, i, ch), x)
      ensures Committed(s, x)
    {
      WaitCommits(s, c, i, ch, x);
    }
  }

  lemma WaitFacts(s: State, c: nat, i: nat, ch: Choice)
    requires Runs(s, c, i) && WaitEnabled(s, c, i) && SeenAlive(s, i)
    ensures SeenAlive(WaitStep(s, c, i, ch), i)
    ensures KidsHandedOver(WaitStep(s, c, i, ch), i) && ParentAwake(WaitStep(s, c, i, ch), i)
    ensures !WillWake(s.pc[i], s.init)
  {
  }

  lemma WaitKeeps(s: State, c: nat, i: nat, ch: Choice)
    requires Locks(s) && Life(s) && Family(s) && Wake(s) && Runs(s, c, i) && WaitEnabled(s, c, i)
    ensures Family(WaitStep(s, c, i, ch)) && Wake(WaitStep(s, c, i, ch))
  {
    if s.pc[i].WaitHeld? && s.procs[s.pc[i].j].state == ZOMBIE {
      ZombieIsParked(s, c, i);
    }
    WaitQuiet(s, c, i, ch);
    assert SeenAlive(s, i);
    WaitFacts(s, c, i, ch);
    TameFamily(s, WaitStep(s, c, i, ch), i);
    QuietWake(s, WaitStep(s, c, i, ch), i);
  }

  // ---- sleep

  lemma SleepTame(s: State, c: nat, i: nat)
    requires Runs(s, c, i) && SleepEnabled(s, c, i) && ThreadOk(s, i)
    ensures Tame(s, SleepStep(s, c, i), i)
    ensures s.pc[i] != SleepRelease(InWait) ==> Quiet(s, SleepStep(s, c, i), i)
  {
  }

  lemma SleepFacts(s: State, c: nat, i: nat)
    requires Runs(s, c, i) && SleepEnabled(s, c, i) && ThreadOk(s, i) && SeenAlive(s, i)
    ensures SeenAlive(SleepStep(s, c, i), i) && KidsHandedOver(SleepStep(s, c, i), i) && ParentAwake(SleepStep(s, c, i), i)
    ensures !WillWake(s.pc[i], s.init)
    ensures !ExitPc(s.pc[i]) ==> !ExitPc(SleepStep(s, c, i).pc[i])
  {
  }

  /** The point of no return: wait_lock is released after a full scan that saw no zombie child. */
  lemma CommitWake(s: State, c: nat, i: nat)
    requires Locks(s) && Wake(s) && Runs(s, c, i) && s.pc[i] == SleepRelease(InWait)
    ensures Wake(SleepStep(s, c, i))
  {
    hide Locks;
    var t := SleepStep(s, c, i);
    OthersOutside(s, i);
    assert SeenAlive(s, i);
    forall x | 0 <= x < |t.pc|
      ensures SeenAlive(t, x) && ParentAwake(t, x)
    {
      assert SeenAlive(s, x) && ParentAwake(s, x);
    }
    forall x | 0 <= x < |t.procs|
      ensures ZombieOk(t, x)
    {
      assert ZombieOk(s, x);
    }
  }

  lemma SleepKeeps(s: State, c: nat, i: nat)
    requires Locks(s) && Life(s) && Family(s) && Wake(s) && Runs(s, c, i) && SleepEnabled(s, c, i)
    ensures Family(SleepStep(s, c, i)) && Wake(SleepStep(s, c, i))
  {
    assert ThreadOk(s, i) && SeenAlive(s, i);
    SleepTame(s, c, i);
    SleepFacts(s, c, i);
    TameFamily(s, SleepStep(s, c, i), i);
    if s.pc[i] == SleepRelease(InWait) {
      CommitWake(s, c, i);
    } else {
      QuietWake(s, SleepStep(s, c, i), i);
    }
  }

  // ---- fork

  /** A position outside exit and outside the scan of wait carries no fact about children or parents. */
  predicate Outside(pc: Pc) {
    match pc
    case Free => true
    case ExitLock => true
    case WaitLock => true
    case ForkScan(_) => true
    case ForkScanHeld(_) => true
    case ForkFill(_) => true
    case ForkParent(_) => true
    case ForkParentHeld(_) => true
    case ForkRun(_) => true
    case ForkRunHeld(_) => true
    case KillScan(_) => true
    case KillHeld(_) => true
    case WakeScan(_, _) => true
    case WakeHeld(_, _) => true
    case SleepLock(why) => why.OnChan?
    case YieldLock(_) => true
    case _ => false
  }

  lemma OutsideFacts(t: State, i: nat)
    requires Sized(t) && i < |t.pc| && Outside(t.pc[i])
    ensures KidsHandedOver(t, i) && SeenAlive(t, i) && ParentAwake(t, i) && !WillWake(t.pc[i], t.init)
  {
  }

  lemma ForkTame(s: State, c: nat, i: nat, ch: Choice)
    requires Runs(s, c, i) && ForkEnabled(s, c, i) && BuildOk(s, i) && !s.pc[i].ForkParentHeld?
    ensures Tame(s, ForkStep(s, c, i, ch), i)
  {
  }

  /** fork puts nobody to sleep, and moves no thread but its own and the new one. */
  lemma ForkWakeful(s: State, c: nat, i: nat, ch: Choice, x: nat)
    requires Runs(s, c, i) && ForkEnabled(s, c, i) && x < |s.pc|
    ensures var t := ForkStep(s, c, i, ch);
            && Sized(t) && |t.pc| == |s.pc| && (t.procs[x].state == SLEEPING ==> s.procs[x].state == SLEEPING)
            && (t.pc[x] == s.pc[x] || x == i || t.pc[x] == Parked(ToYield(Free)))
  {
  }

  lemma ForkCommits(s: State, c: nat, i: nat, ch: Choice, x: nat)
    requires Runs(s, c, i) && ForkEnabled(s, c, i) && x < |s.pc|
    ensures var t := ForkStep(s, c, i, ch);
            Sized(t) && |t.pc| == |s.pc| && (Committed(t, x) ==> Committed(s, x))
  {
    hide ForkStep, ForkEnabled;
    ForkWakeful(s, c, i, ch, x);
    ForkOutside(s, c, i, ch);
  }

  lemma ForkQuiet(s: State, c: nat, i: nat, ch: Choice)
    requires Runs(s, c, i) && ForkEnabled(s, c, i) && BuildOk(s, i) && !s.pc[i].ForkParentHeld?
    ensures Quiet(s, ForkStep(s, c, i, ch), i)
  {
    hide ForkStep, ForkEnabled, Tame, Committed, BuildOk;
    ForkTame(s, c, i, ch);
    forall x | 0 <= x < |s.pc| && Committed(ForkStep(s, c, i, ch), x)
      ensures Committed(s, x)
    {
      ForkCommits(s, c, i, ch, x);
    }
  }

  lemma ForkOutside(s: State, c: nat, i: nat, ch: Choice)
    requires Runs(s, c, i) && ForkEnabled(s, c, i)
    ensures Outside(s.pc[i]) && Outside(ForkStep(s, c, i, ch).pc[i]) && !ExitPc(ForkStep(s, c, i, ch).pc[i])
  {
  }

  lemma ForkParentFamily(s: State, c: nat, i: nat, ch: Choice)
    requires Locks(s) && Family(s) && Runs(s, c, i) && ForkEnabled(s, c, i) && s.pc[i].ForkParentHeld?
    requires s.procs[i].state == RUNNING && BuildOk(s, i)
    ensures Family(ForkStep(s, c, i, ch))
  {
    hide Locks;
    var t := ForkStep(s, c, i, ch);
    OthersOutside(s, i);
    forall x | 0 <= x < |t.procs|
      ensures FamilyOk(t, x)
    {
      assert FamilyOk(s, x);
    }
    forall x | 0 <= x < |t.pc|
      ensures KidsHandedOver(t, x)
    {
      assert KidsHandedOver(s, x);
    }
  }

  lemma ForkParentWake(s: State, c: nat, i: nat, ch: Choice)
    requires Locks(s) && Wake(s) && Runs(s, c, i) && ForkEnabled(s, c, i) && s.pc[i].ForkParentHeld? && BuildOk(s, i)
    ensures Wake(ForkStep(s, c, i, ch))
  {
    hide Locks;
    var t := ForkStep(s, c, i, ch);
    OthersOutside(s, i);
    forall x | 0 <= x < |t.pc|
      ensures SeenAlive(t, x) && ParentAwake(t, x)
    {
      assert SeenAlive(s, x) && ParentAwake(s, x);
    }
    forall x | 0 <= x < |t.procs|
      ensures ZombieOk(t, x)
    {
      assert ZombieOk(s, x);
    }
  }

  lemma ForkKeeps(s: State, c: nat, i: nat, ch: Choice)
    requires Locks(s) && Life(s) && Family(s) && Wake(s) && Runs(s, c, i) && ForkEnabled(s, c, i)
    ensures Family(ForkStep(s, c, i, ch)) && Wake(ForkStep(s, c, i, ch))
  {
    assert ThreadOk(s, i) && BuildOk(s, i);
    if s.pc[i].ForkParentHeld? {
      ForkParentFamily(s, c, i, ch);
      ForkParentWake(s, c, i, ch);
    } else {
      ForkQuiet(s, c, i, ch);
      ForkOutside(s, c, i, ch);
      OutsideFacts(s, i);
      OutsideFacts(ForkStep(s, c, i, ch), i);
      TameFamily(s, ForkStep(s, c, i, ch), i);
      QuietWake(s, ForkStep(s, c, i, ch), i);
    }
  }

  // ---- kill, wakeup, calls and interrupts

  lemma SignalTame(s: State, c: nat, i: nat, ch: Choice)
    requires Runs(s, c, i) && SignalEnabled(s, c, i)
    ensures Tame(s, SignalStep(s, c, i, ch), i)
  {
  }

  lemma SignalCommits(s: State, c: nat, i: nat, ch: Choice, x: nat)
    requires Runs(s, c, i) && SignalEnabled(s, c, i) && x < |s.pc|
    ensures var t := SignalStep(s, c, i, ch);
            Sized(t) && |t.pc| == |s.pc| && (Committed(t, x) ==> Committed(s, x))
  {
  }

  lemma SignalQuiet(s: State, c: nat, i: nat, ch: Choice)
    requires Runs(s, c, i) && SignalEnabled(s, c, i)
    ensures Quiet(s, SignalStep(s, c, i, ch), i)
  {
    hide SignalStep, SignalEnabled, Tame, Committed;
    SignalTame(s, c, i, ch);
    forall x | 0 <= x < |s.pc| && Committed(SignalStep(s, c, i, ch), x)
      ensures Committed(s, x)
    {
      SignalCommits(s, c, i, ch, x);
    }
  }

  lemma SignalOutside(s: State, c: nat, i: nat, ch: Choice)
    requires Runs(s, c, i) && SignalEnabled(s, c, i)
    ensures Outside(s.pc[i]) && Outside(SignalStep(s, c, i, ch).pc[i]) && !ExitPc(SignalStep(s, c, i, ch).pc[i])
  {
  }

  lemma SignalKeeps(s: State, c: nat, i: nat, ch: Choice)
    requires Family(s) && Wake(s) && Runs(s, c, i) && SignalEnabled(s, c, i)
    ensures Family(SignalStep(s, c, i, ch)) && Wake(SignalStep(s, c, i, ch))
  {
    SignalQuiet(s, c, i, ch);
    SignalOutside(s, c, i, ch);
    OutsideFacts(s, i);
    OutsideFacts(SignalStep(s, c, i, ch), i);
    TameFamily(s, SignalStep(s, c, i, ch), i);
    QuietWake(s, SignalStep(s, c, i, ch), i);
  }

  lemma CallQuiet(s: State, c: nat, i: nat, ch: Choice)
    requires Runs(s, c, i) && CallEnabled(s, c, i, ch) && ThreadOk(s, i)
    ensures Quiet(s, CallStep(s, c, i, ch), i)
  {
  }

  lemma CallOutside(s: State, c: nat, i: nat, ch: Choice)
    requires Runs(s, c, i) && CallEnabled(s, c, i, ch)
    ensures Outside(s.pc[i]) && Outside(CallStep(s, c, i, ch).pc[i])
    ensures i == s.init && !ExitPc(s.pc[i]) ==> !ExitPc(CallStep(s, c, i, ch).pc[i])
  {
  }

  lemma CallKeeps(s: State, c: nat, i: nat, ch: Choice)
    requires Life(s) && Family(s) && Wake(s) && Runs(s, c, i) && CallEnabled(s, c, i, ch)
    ensures Family(CallStep(s, c, i, ch)) && Wake(CallStep(s, c, i, ch))
  {
    assert ThreadOk(s, i);
    CallQuiet(s, c, i, ch);
    CallOutside(s, c, i, ch);
    OutsideFacts(s, i);
    OutsideFacts(CallStep(s, c, i, ch), i);
    TameFamily(s, CallStep(s, c, i, ch), i);
    QuietWake(s, CallStep(s, c, i, ch), i);
  }

  // ---- scheduler

  /** The slot whose thread a scheduler step may move. */
  ghost function SchedSlot(s: State, c: nat): nat
    requires Sized(s) && c < |s.cpu| && s.cpu[c].place.InScheduler?
  {
    if s.cpu[c].place.pc.Check? && s.cpu[c].place.pc.i < |s.pc| then s.cpu[c].place.pc.i else s.init
  }

  lemma SchedQuiet(s: State, c: nat, ch: Choice)
    requires SchedEnabled(s, c, ch) && Life(s)
    requires s.cpu[c].place.pc.Check? && s.procs[s.cpu[c].place.pc.i].state == RUNNABLE ==> s.pc[s.cpu[c].place.pc.i].Parked?
    ensures Quiet(s, SchedStep(s, c, ch), SchedSlot(s, c))
    ensures var i, t := SchedSlot(s, c), SchedStep(s, c, ch);
            t.pc == s.pc || (s.pc[i].Parked? && t.pc == s.pc[i := Resumed(s.pc[i].resume)])
  {
    if s.cpu[c].place.pc.Check? {
      assert ThreadOk(s, s.cpu[c].place.pc.i);
    }
  }

  lemma SchedKeeps(s: State, c: nat, ch: Choice)
    requires Locks(s) && Life(s) && Family(s) && Wake(s) && SchedEnabled(s, c, ch)
    ensures Family(SchedStep(s, c, ch)) && Wake(SchedStep(s, c, ch))
  {
    var i, t := SchedSlot(s, c), SchedStep(s, c, ch);
    if s.cpu[c].place.pc.Check? && s.procs[s.cpu[c].place.pc.i].state == RUNNABLE {
      RunnableIsParked(s, c, i);
    }
    SchedQuiet(s, c, ch);
    SchedFacts(s, t, i);
    TameFamily(s, t, i);
    QuietWake(s, t, i);
  }

  lemma SchedFacts(s: State, t: State, i: nat)
    requires Family(s) && Wake(s) && Quiet(s, t, i)
    requires t.pc == s.pc || (s.pc[i].Parked? && t.pc == s.pc[i := Resumed(s.pc[i].resume)])
    ensures KidsHandedOver(t, i) && SeenAlive(t, i) && ParentAwake(t, i)
    ensures i == s.init ==> !ExitPc(t.pc[i])
    ensures WillWake(s.pc[i], s.init) ==> WillWake(t.pc[i], s.init)
  {
    assert KidsHandedOver(s, i) && SeenAlive(s, i) && ParentAwake(s, i);
  }

  // ---------------------------------------------------------------- every run

  ghost predicate Inv(s: State) {
    Locks(s) && Life(s) && Family(s) && Wake(s)
  }

  lemma BootOk(nproc: nat, ncpu: nat)
    requires nproc > 0
    ensures Inv(Boot(nproc, ncpu))
  {
    var s := Boot(nproc, ncpu);
    assert forall i :: 1 <= i < nproc ==> s.procs[i] == Proc(UNUSED, NoChan, false, None) && s.pc[i] == NoThread;
    assert s.procs[0] == Proc(RUNNABLE, NoChan, false, None) && s.pc[0] == Parked(ToYield(Free));
    assert forall i :: 0 <= i < nproc ==> Builds(s.pc[i]).None? && !Active(s.pc[i]);
    assert Locks(s) && Life(s);
    assert Family(s) && Wake(s);
  }

  lemma ProcStepKeepsLocks(s: State, c: nat, i: nat, ch: Choice)
    requires Inv(s) && Runs(s, c, i) && Enabled(s, c, ch)
    ensures Locks(Step(s, c, ch))
  {
    assert ThreadOk(s, i);
    if (ch == Preempt || ch.Interrupt?) && CallEnabled(s, c, i, ch) {
      CallFits(s, c, i, ch);
    } else if ExitEnabled(s, c, i) {
      ExitFits(s, c, i);
    } else if WaitEnabled(s, c, i) {
      if s.pc[i].WaitHeld? && s.procs[s.pc[i].j].state == ZOMBIE {
        ZombieIsParked(s, c, i);
      }
      WaitFits(s, c, i, ch);
    } else if SleepEnabled(s, c, i) {
      if s.pc[i].Switch? {
        SwitchLocks(s, c, i);
        return;
      }
      SleepFits(s, c, i);
    } else if ForkEnabled(s, c, i) {
      ForkLife(s, c, i, ch);
      ForkFits(s, c, i, ch);
    } else if SignalEnabled(s, c, i) {
      SignalFits(s, c, i, ch);
    } else {
      CallFits(s, c, i, ch);
    }
    Moves(s, Step(s, c, ch), c, i);
  }

  lemma ProcStepKeepsRest(s: State, c: nat, i: nat, ch: Choice)
    requires Inv(s) && Runs(s, c, i) && Enabled(s, c, ch)
    ensures Life(Step(s, c, ch)) && Family(Step(s, c, ch)) && Wake(Step(s, c, ch))
  {
    if (ch == Preempt || ch.Interrupt?) && CallEnabled(s, c, i, ch) {
      CallLife(s, c, i, ch);
      CallKeeps(s, c, i, ch);
    } else if ExitEnabled(s, c, i) {
      ExitLife(s, c, i);
      ExitKeeps(s, c, i);
    } else if WaitEnabled(s, c, i) {
      WaitLife(s, c, i, ch);
      WaitKeeps(s, c, i, ch);
    } else if SleepEnabled(s, c, i) {
      SleepLife(s, c, i);
      SleepKeeps(s, c, i);
    } else if ForkEnabled(s, c, i) {
      ForkLife(s, c, i, ch);
      ForkKeeps(s, c, i, ch);
    } else if SignalEnabled(s, c, i) {
      SignalLife(s, c, i, ch);
      SignalKeeps(s, c, i, ch);
    } else {
      CallLife(s, c, i, ch);
      CallKeeps(s, c, i, ch);
    }
  }

  /** Every step of every CPU keeps the invariant. */
  lemma StepKeeps(s: State, c: nat, ch: Choice)
    requires Inv(s) && Enabled(s, c, ch)
    ensures Inv(Step(s, c, ch))
  {
    if SchedEnabled(s, c, ch) {
      if s.cpu[c].place.pc.Check? && s.procs[s.cpu[c].place.pc.i].state == RUNNABLE {
        RunnableIsParked(s, c, s.cpu[c].place.pc.i);
      }
      SchedLocks(s, c, ch);
      SchedLife(s, c, ch);
      SchedKeeps(s, c, ch);
    } else {
      ProcStepKeepsLocks(s, c, s.cpu[c].place.i, ch);
      ProcStepKeepsRest(s, c, s.cpu[c].place.i, ch);
    }
  }

  lemma {:induction false} RunKeeps(s: State, steps: seq<(nat, Choice)>)
    requires Inv(s) && Run(s, steps)
    ensures Inv(After(s, steps))
    decreases |steps|
  {
    if steps != [] {
      StepKeeps(s, steps[0].0, steps[0].1);
      RunKeeps(Step(s, steps[0].0, steps[0].1), steps[1..]);
    }
  }

  ghost predicate Reachable(s: State) {
    exists nproc: nat, ncpu: nat, steps: seq<(nat, Choice)> ::
      nproc > 0 && Run(Boot(nproc, ncpu), steps) && s == After(Boot(nproc, ncpu), steps)
  }

  lemma ReachableInv(s: State)
    requires Reachable(s)
    ensures Inv(s)
  {
    var nproc: nat, ncpu: nat, steps: seq<(nat, Choice)> :|
      nproc > 0 && Run(Boot(nproc, ncpu), steps) && s == After(Boot(nproc, ncpu), steps);
    BootOk(nproc, ncpu);
    RunKeeps(Boot(nproc, ncpu), steps);
  }

  // ---------------------------------------------------------------- what holds in every reachable state

  /** No lost wakeup: whenever wait_lock is free, no process that wait has put to sleep has a zombie child, even one
      that a dying parent handed over to it. The sleeper is told by where its thread is; that its slot's address is then
      also its channel, and is the channel of no other sleeper, follows. */
  lemma NoLostWakeup(s: State, q: nat, x: nat)
    requires Reachable(s) && s.waitLock.None? && q < |s.procs| == |s.pc| && x < |s.procs|
    requires s.procs[q].state == SLEEPING && s.procs[x].parent == Some(q)
    requires s.pc[q] == Parked(ToSleep(InWait)) || s.pc[q] == Switch(ToSleep(InWait)) || s.procs[q].chan == ProcChan(q)
    ensures s.procs[x].state != ZOMBIE
    ensures s.procs[q].chan == ProcChan(q)
  {
    ReachableInv(s);
    assert ThreadOk(s, q);
    assert ZombieOk(s, x);
    if InitPending(s) {
      var e :| 0 <= e < |s.pc| && WillWake(s.pc[e], s.init);
      FreeWaitLockHeldByNone(s, e);
    }
  }

  /** Orphans are never left behind: every parent is a live process. */
  lemma ParentsAreAlive(s: State, x: nat)
    requires Reachable(s) && x < |s.procs| && s.procs[x].parent.Some?
    ensures s.procs[x].parent.value < |s.procs| && Alive(s.procs[s.procs[x].parent.value])
  {
    ReachableInv(s);
    assert FamilyOk(s, x);
  }

  /** The kernel thread of a process runs on at most one CPU; unless it is switching out under its own lock it is RUNNING,
      and only processes on a CPU are RUNNING. */
  lemma OneCpuPerProcess(s: State, i: nat)
    requires Reachable(s) && i < |s.procs|
    ensures |s.procs| == |s.pc| == |s.lock|
    ensures forall c, d :: 0 <= c < |s.cpu| && 0 <= d < |s.cpu| && s.cpu[c].place == InProcess(i) && s.cpu[d].place == InProcess(i) ==> c == d
    ensures s.procs[i].state == RUNNING ==> OnSomeCpu(s, i)
    ensures forall c :: 0 <= c < |s.cpu| && s.cpu[c].place == InProcess(i) ==>
              s.cpu[c].cur == Some(i) && (s.procs[i].state == RUNNING || s.lock[i] == Some(c))
  {
    ReachableInv(s);
    assert ThreadOk(s, i);
    forall c | 0 <= c < |s.cpu| && s.cpu[c].place == InProcess(i)
      ensures s.cpu[c].cur == Some(i) && (s.procs[i].state == RUNNING || s.lock[i] == Some(c))
    {
      assert PlaceOk(s, c);
      assert CpuHeld(s, c) == Held(i, s.pc[i]);
    }
  }

  /** The panics of sched (lines 529-534) never fire: a process switching out holds its own lock and no other, and has
      left the RUNNING state. */
  lemma SchedNeverPanics(s: State, c: nat, i: nat)
    requires Reachable(s) && Runs(s, c, i) && s.pc[i].Switch?
    ensures s.lock[i] == Some(c) && s.waitLock != Some(c)
    ensures forall j :: 0 <= j < |s.lock| && j != i ==> s.lock[j] != Some(c)
    ensures s.procs[i].state != RUNNING
  {
    ReachableInv(s);
    assert ThreadOk(s, i);
    assert CpuHeld(s, c) == Some(i) && !CpuHoldsWait(s, c);
  }
}
