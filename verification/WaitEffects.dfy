/** What the Lab 3 protocol achieves, beyond what every step keeps: how slots, parents and threads may change, that wait
    gives up only without children, that a sleeping parent has a live child, and what wakeups and kills do. */
module WaitEffects {
  import opened WaitProtocol
  import opened WaitLocks
  import opened WaitInvariant

  // ---------------------------------------------------------------- how a slot may change

  /** The life cycle of a slot. */
  predicate NextState(p: ProcState, q: ProcState) {
    match p
    case UNUSED => q == UNUSED || q == USED
    case USED => q == USED || q == UNUSED || q == RUNNABLE
    case RUNNABLE => q == RUNNABLE || q == RUNNING
    case RUNNING => q == RUNNING || q == RUNNABLE || q == SLEEPING || q == ZOMBIE
    case SLEEPING => q == SLEEPING || q == RUNNABLE
    case ZOMBIE => q == ZOMBIE || q == UNUSED
  }

  /** A step of process i changes slot x only along the life cycle; an embryo becomes runnable at the end of fork. Its
      parent is stored once, by fork, and replaced only by init, when the parent exits; a zombie goes away only when its
      parent's wait reaps it; the killed mark is lifted only when the slot is freed, and never set on a process that stays
      asleep. */
  ghost predicate SlotLaw(s: State, t: State, i: nat, x: nat)
    requires Sized(s) && Sized(t) && |s.procs| == |t.procs| && i < |s.procs| && x < |s.procs|
  {
    var p, q := s.procs[x], t.procs[x];
    && NextState(p.state, q.state)
    && (p.state == ZOMBIE && q.state == UNUSED ==> p.parent == Some(i) && s.pc[i] == WaitHeld(x))
    && (p.state == USED && q.state == RUNNABLE ==> p.parent == Some(i) && s.pc[i] == ForkRunHeld(x))
    && (|| q.parent == p.parent
        || (p.state == USED && p.parent == None && q.parent == Some(i) && s.pc[i] == ForkParentHeld(x))
        || (p.parent == Some(i) && q.parent == Some(s.init) && s.pc[i] == ReparentScan(x))
        || (p.state == ZOMBIE && q.state == UNUSED && p.parent == Some(i) && q.parent == None && s.pc[i] == WaitHeld(x)))
    && (q.killed == p.killed || (q.killed && q.state != SLEEPING) || q.state == UNUSED)
  }

  lemma ExitSlot(s: State, c: nat, i: nat, x: nat)
    requires Runs(s, c, i) && ExitEnabled(s, c, i) && ThreadOk(s, i) && x < |s.procs|
    ensures var t := ExitStep(s, c, i); Sized(t) && |t.procs| == |s.procs| && SlotLaw(s, t, i, x)
  {
  }

  lemma WaitSlot(s: State, c: nat, i: nat, ch: Choice, x: nat)
    requires Runs(s, c, i) && WaitEnabled(s, c, i) && x < |s.procs|
    requires s.pc[i].WaitHeld? ==> s.pc[i].j < |s.procs| && s.procs[s.pc[i].j].parent == Some(i)
    ensures var t := WaitStep(s, c, i, ch); Sized(t) && |t.procs| == |s.procs| && SlotLaw(s, t, i, x)
  {
  }

  lemma SleepSlot(s: State, c: nat, i: nat, x: nat)
    requires Runs(s, c, i) && SleepEnabled(s, c, i) && ThreadOk(s, i) && x < |s.procs|
    ensures var t := SleepStep(s, c, i); Sized(t) && |t.procs| == |s.procs| && SlotLaw(s, t, i, x)
  {
  }

  lemma ForkSlot(s: State, c: nat, i: nat, ch: Choice, x: nat)
    requires Runs(s, c, i) && ForkEnabled(s, c, i) && BuildOk(s, i) && x < |s.procs|
    ensures var t := ForkStep(s, c, i, ch); Sized(t) && |t.procs| == |s.procs| && SlotLaw(s, t, i, x)
  {
  }

  lemma SignalSlot(s: State, c: nat, i: nat, ch: Choice, x: nat)
    requires Runs(s, c, i) && SignalEnabled(s, c, i) && x < |s.procs|
    ensures var t := SignalStep(s, c, i, ch); Sized(t) && |t.procs| == |s.procs| && SlotLaw(s, t, i, x)
  {
  }

  lemma CallSlot(s: State, c: nat, i: nat, ch: Choice, x: nat)
    requires Runs(s, c, i) && CallEnabled(s, c, i, ch) && x < |s.procs|
    ensures var t := CallStep(s, c, i, ch); Sized(t) && |t.procs| == |s.procs| && SlotLaw(s, t, i, x)
  {
  }

  lemma SchedSlotLaw(s: State, c: nat, ch: Choice, i: nat, x: nat)
    requires SchedEnabled(s, c, ch) && i < |s.procs| && x < |s.procs|
    ensures var t := SchedStep(s, c, ch); Sized(t) && |t.procs| == |s.procs| && SlotLaw(s, t, i, x)
    ensures SchedStep(s, c, ch).procs[x].parent == s.procs[x].parent
  {
  }

  // ---------------------------------------------------------------- how the threads may change

  /** A step of process i moves no other thread, but a reaped child's ends and a new process's begins. */
  ghost predicate ThreadLaw(s: State, t: State, i: nat) {
    && Sized(s) && Sized(t) && |t.pc| == |s.pc| && i < |s.pc| && t.init == s.init
    && forall y :: 0 <= y < |s.pc| && y != i ==>
         || t.pc[y] == s.pc[y]
         || (s.pc[y] == NoThread && t.pc[y] == Parked(ToYield(Free)))
         || (s.pc[y] == Parked(Never) && t.pc[y] == NoThread)
  }

  /** The process is asleep, or on its way into or out of the switch that sleep makes. */
  predicate InSleep(pc: Pc) {
    match pc
    case Parked(r) => r.ToSleep?
    case Switch(r) => r.ToSleep?
    case Resumed(r) => r.ToSleep?
    case _ => false
  }

  /** wait has found a child and not reaped one. */
  predicate SawChild(pc: Pc) {
    match pc
    case WaitScan(_, kids) => kids
    case WaitKilled => true
    case WaitKilledHeld => true
    case SleepLock(why) => why.InWait?
    case SleepRelease(why) => why.InWait?
    case SleepSet(why) => why.InWait?
    case Switch(r) => r == ToSleep(InWait)
    case Parked(r) => r == ToSleep(InWait)
    case _ => false
  }

  /** Whoever builds an embryo builds it until the embryo is given up or runnable. */
  ghost predicate BuildLaw(s: State, t: State, i: nat)
    requires Sized(s) && Sized(t) && |t.pc| == |s.pc| && i < |s.pc|
  {
    forall x :: 0 <= x < |s.procs| && t.procs[x].state == USED ==>
      if s.procs[x].state == USED then Builds(s.pc[i]) == Some(x) ==> Builds(t.pc[i]) == Some(x)
      else Builds(t.pc[i]) == Some(x)
  }

  /** A slot has a channel only while its process is in sleep. */
  ghost predicate ChanLaw(s: State, t: State, i: nat)
    requires Sized(s) && Sized(t) && |t.pc| == |s.pc| && i < |s.pc|
  {
    && (forall x :: 0 <= x < |s.procs| ==>
          t.procs[x].chan == s.procs[x].chan || t.procs[x].chan == NoChan || (x == i && InSleep(t.pc[i])))
    && (InSleep(s.pc[i]) ==> InSleep(t.pc[i]) || t.procs[i].chan == NoChan)
  }

  /** How wait gets from one of its positions to the next. */
  ghost predicate ScanLaw(s: State, t: State, i: nat)
    requires Sized(s) && Sized(t) && |t.pc| == |s.pc| && i < |s.pc|
  {
    var p, q := s.pc[i], t.pc[i];
    && (SawChild(q) && !SawChild(p) ==>
          p.WaitHeld? && p.j < |s.procs| && t.procs[p.j].parent == s.procs[p.j].parent)
    && (q.WaitHeld? ==> q.j < |s.procs| && t.procs[q.j].parent == Some(i))
    && (q.WaitScan? && !q.kids && q.j > 0 ==>
          && t.procs == s.procs && p == WaitScan(q.j - 1, false)
          && (q.j - 1 < |s.procs| ==> s.procs[q.j - 1].parent != Some(i)))
    && (q == WaitReturn && p.WaitScan? ==> !p.kids && p.j >= |s.procs| && t.procs == s.procs)
  }

  ghost predicate Laws(s: State, t: State, i: nat) {
    && ThreadLaw(s, t, i) && BuildLaw(s, t, i) && ChanLaw(s, t, i) && ScanLaw(s, t, i)
    && forall x :: 0 <= x < |s.procs| ==> SlotLaw(s, t, i, x)
  }

  lemma ExitThreadLaw(s: State, c: nat, i: nat)
    requires Runs(s, c, i) && ExitEnabled(s, c, i) && ThreadOk(s, i)
    ensures var t := ExitStep(s, c, i); Sized(t) && |t.pc| == |s.pc| && ThreadLaw(s, t, i)
  {
  }

  lemma ExitBuildLaw(s: State, c: nat, i: nat)
    requires Runs(s, c, i) && ExitEnabled(s, c, i) && ThreadOk(s, i)
    ensures var t := ExitStep(s, c, i); Sized(t) && |t.pc| == |s.pc| && BuildLaw(s, t, i)
  {
  }

  lemma ExitChanLaw(s: State, c: nat, i: nat)
    requires Runs(s, c, i) && ExitEnabled(s, c, i) && ThreadOk(s, i)
    ensures var t := ExitStep(s, c, i); Sized(t) && |t.pc| == |s.pc| && ChanLaw(s, t, i)
  {
  }

  lemma ExitScanLaw(s: State, c: nat, i: nat)
    requires Runs(s, c, i) && ExitEnabled(s, c, i) && ThreadOk(s, i)
    ensures var t := ExitStep(s, c, i); Sized(t) && |t.pc| == |s.pc| && ScanLaw(s, t, i)
  {
  }

  lemma WaitThreadLaw(s: State, c: nat, i: nat, ch: Choice)
    requires Runs(s, c, i) && WaitEnabled(s, c, i)
    requires s.pc[i].WaitHeld? ==> s.pc[i].j < |s.procs|
    requires s.pc[i].WaitHeld? && s.procs[s.pc[i].j].state == ZOMBIE ==> s.pc[s.pc[i].j] == Parked(Never) && s.pc[i].j != i
    ensures var t := WaitStep(s, c, i, ch); Sized(t) && |t.pc| == |s.pc| && ThreadLaw(s, t, i)
  {
  }

  lemma WaitBuildLaw(s: State, c: nat, i: nat, ch: Choice)
    requires Runs(s, c, i) && WaitEnabled(s, c, i)
    requires s.pc[i].WaitHeld? ==> s.pc[i].j < |s.procs|
    requires s.pc[i].WaitHeld? && s.procs[s.pc[i].j].state == ZOMBIE ==> s.pc[s.pc[i].j] == Parked(Never) && s.pc[i].j != i
    ensures var t := WaitStep(s, c, i, ch); Sized(t) && |t.pc| == |s.pc| && BuildLaw(s, t, i)
  {
  }

  lemma WaitChanLaw(s: State, c: nat, i: nat, ch: Choice)
    requires Runs(s, c, i) && WaitEnabled(s, c, i)
    requires s.pc[i].WaitHeld? ==> s.pc[i].j < |s.procs|
    requires s.pc[i].WaitHeld? && s.procs[s.pc[i].j].state == ZOMBIE ==> s.pc[s.pc[i].j] == Parked(Never) && s.pc[i].j != i
    ensures var t := WaitStep(s, c, i, ch); Sized(t) && |t.pc| == |s.pc| && ChanLaw(s, t, i)
  {
  }

  lemma WaitScanLaw(s: State, c: nat, i: nat, ch: Choice)
    requires Runs(s, c, i) && WaitEnabled(s, c, i)
    requires s.pc[i].WaitHeld? ==> s.pc[i].j < |s.procs|
    requires s.pc[i].WaitHeld? && s.procs[s.pc[i].j].state == ZOMBIE ==> s.pc[s.pc[i].j] == Parked(Never) && s.pc[i].j != i
    ensures var t := WaitStep(s, c, i, ch); Sized(t) && |t.pc| == |s.pc| && ScanLaw(s, t, i)
  {
  }

  lemma SleepThreadLaw(s: State, c: nat, i: nat)
    requires Runs(s, c, i) && SleepEnabled(s, c, i) && ThreadOk(s, i)
    ensures var t := SleepStep(s, c, i); Sized(t) && |t.pc| == |s.pc| && ThreadLaw(s, t, i)
  {
  }

  lemma SleepBuildLaw(s: State, c: nat, i: nat)
    requires Runs(s, c, i) && SleepEnabled(s, c, i) && ThreadOk(s, i)
    ensures var t := SleepStep(s, c, i); Sized(t) && |t.pc| == |s.pc| && BuildLaw(s, t, i)
  {
  }

  lemma SleepChanLaw(s: State, c: nat, i: nat)
    requires Runs(s, c, i) && SleepEnabled(s, c, i) && ThreadOk(s, i)
    ensures var t := SleepStep(s, c, i); Sized(t) && |t.pc| == |s.pc| && ChanLaw(s, t, i)
  {
  }

  lemma SleepScanLaw(s: State, c: nat, i: nat)
    requires Runs(s, c, i) && SleepEnabled(s, c, i) && ThreadOk(s, i)
    ensures var t := SleepStep(s, c, i); Sized(t) && |t.pc| == |s.pc| && ScanLaw(s, t, i)
  {
  }

  lemma ForkThreadLaw(s: State, c: nat, i: nat, ch: Choice)
    requires Runs(s, c, i) && ForkEnabled(s, c, i) && BuildOk(s, i)
    ensures var t := ForkStep(s, c, i, ch); Sized(t) && |t.pc| == |s.pc| && ThreadLaw(s, t, i)
  {
  }

  lemma ForkBuildsScan(s: State, c: nat, i: nat, ch: Choice)
    requires Runs(s, c, i) && ForkEnabled(s, c, i) && BuildOk(s, i)
    requires s.pc[i].ForkScan? || s.pc[i].ForkScanHeld?
    ensures var t := ForkStep(s, c, i, ch); Sized(t) && |t.pc| == |s.pc| && BuildLaw(s, t, i)
  {
  }

  lemma ForkBuildsFill(s: State, c: nat, i: nat, ch: Choice)
    requires Runs(s, c, i) && ForkEnabled(s, c, i) && BuildOk(s, i)
    requires s.pc[i].ForkFill? || s.pc[i].ForkParent? || s.pc[i].ForkRun?
    ensures var t := ForkStep(s, c, i, ch); Sized(t) && |t.pc| == |s.pc| && BuildLaw(s, t, i)
  {
  }

  lemma ForkBuildsHeld(s: State, c: nat, i: nat, ch: Choice)
    requires Runs(s, c, i) && ForkEnabled(s, c, i) && BuildOk(s, i)
    requires s.pc[i].ForkParentHeld? || s.pc[i].ForkRunHeld?
    ensures var t := ForkStep(s, c, i, ch); Sized(t) && |t.pc| == |s.pc| && BuildLaw(s, t, i)
  {
  }

  lemma ForkBuildLaw(s: State, c: nat, i: nat, ch: Choice)
    requires Runs(s, c, i) && ForkEnabled(s, c, i) && BuildOk(s, i)
    ensures var t := ForkStep(s, c, i, ch); Sized(t) && |t.pc| == |s.pc| && BuildLaw(s, t, i)
  {
    hide ForkStep, BuildOk, BuildLaw;
    if s.pc[i].ForkScan? || s.pc[i].ForkScanHeld? {
      ForkBuildsScan(s, c, i, ch);
    } else if s.pc[i].ForkParentHeld? || s.pc[i].ForkRunHeld? {
      ForkBuildsHeld(s, c, i, ch);
    } else {
      ForkBuildsFill(s, c, i, ch);
    }
  }

  lemma ForkChanLaw(s: State, c: nat, i: nat, ch: Choice)
    requires Runs(s, c, i) && ForkEnabled(s, c, i) && BuildOk(s, i)
    ensures var t := ForkStep(s, c, i, ch); Sized(t) && |t.pc| == |s.pc| && ChanLaw(s, t, i)
  {
  }

  lemma ForkScanLaw(s: State, c: nat, i: nat, ch: Choice)
    requires Runs(s, c, i) && ForkEnabled(s, c, i) && BuildOk(s, i)
    ensures var t := ForkStep(s, c, i, ch); Sized(t) && |t.pc| == |s.pc| && ScanLaw(s, t, i)
  {
  }

  lemma SignalThreadLaw(s: State, c: nat, i: nat, ch: Choice)
    requires Runs(s, c, i) && SignalEnabled(s, c, i)
    ensures var t := SignalStep(s, c, i, ch); Sized(t) && |t.pc| == |s.pc| && ThreadLaw(s, t, i)
  {
  }

  lemma SignalBuildLaw(s: State, c: nat, i: nat, ch: Choice)
    requires Runs(s, c, i) && SignalEnabled(s, c, i)
    ensures var t := SignalStep(s, c, i, ch); Sized(t) && |t.pc| == |s.pc| && BuildLaw(s, t, i)
  {
  }

  lemma SignalChanLaw(s: State, c: nat, i: nat, ch: Choice)
    requires Runs(s, c, i) && SignalEnabled(s, c, i)
    ensures var t := SignalStep(s, c, i, ch); Sized(t) && |t.pc| == |s.pc| && ChanLaw(s, t, i)
  {
  }

  lemma SignalScanLaw(s: State, c: nat, i: nat, ch: Choice)
    requires Runs(s, c, i) && SignalEnabled(s, c, i)
    ensures var t := SignalStep(s, c, i, ch); Sized(t) && |t.pc| == |s.pc| && ScanLaw(s, t, i)
  {
  }

  lemma CallThreadLaw(s: State, c: nat, i: nat, ch: Choice)
    requires Runs(s, c, i) && CallEnabled(s, c, i, ch) && ThreadOk(s, i)
    ensures var t := CallStep(s, c, i, ch); Sized(t) && |t.pc| == |s.pc| && ThreadLaw(s, t, i)
  {
  }

  lemma CallBuildLaw(s: State, c: nat, i: nat, ch: Choice)
    requires Runs(s, c, i) && CallEnabled(s, c, i, ch) && ThreadOk(s, i)
    ensures var t := CallStep(s, c, i, ch); Sized(t) && |t.pc| == |s.pc| && BuildLaw(s, t, i)
  {
  }

  lemma CallChanLaw(s: State, c: nat, i: nat, ch: Choice)
    requires Runs(s, c, i) && CallEnabled(s, c, i, ch) && ThreadOk(s, i)
    ensures var t := CallStep(s, c, i, ch); Sized(t) && |t.pc| == |s.pc| && ChanLaw(s, t, i)
  {
  }

  lemma CallScanLaw(s: State, c: nat, i: nat, ch: Choice)
    requires Runs(s, c, i) && CallEnabled(s, c, i, ch) && ThreadOk(s, i)
    ensures var t := CallStep(s, c, i, ch); Sized(t) && |t.pc| == |s.pc| && ScanLaw(s, t, i)
  {
  }

  /** What a step of the process on CPU c does, whichever function it is in. */
  lemma StepLaws(s: State, c: nat, i: nat, ch: Choice)
    requires Inv(s) && Runs(s, c, i) && Enabled(s, c, ch) && HeldChild(s, i)
    ensures Laws(s, Step(s, c, ch), i)
  {
    hide Locks, Family, Wake, ThreadOk, BuildOk, EmbryoOk, SlotLaw, ThreadLaw, BuildLaw, ChanLaw, ScanLaw,
      ExitStep, WaitStep, SleepStep, ForkStep, SignalStep, CallStep, Builders, Threads;
    LifeAt(s, i);
    forall x | 0 <= x < |s.procs|
      ensures Sized(Step(s, c, ch)) && |Step(s, c, ch).procs| == |s.procs| && SlotLaw(s, Step(s, c, ch), i, x)
    {
      StepSlot(s, c, i, ch, x);
    }
    if (ch == Preempt || ch.Interrupt?) && CallEnabled(s, c, i, ch) {
      CallLaws(s, c, i, ch);
    } else if ExitEnabled(s, c, i) {
      ExitThreadLaw(s, c, i);
      ExitBuildLaw(s, c, i);
      ExitChanLaw(s, c, i);
      ExitScanLaw(s, c, i);
    } else if WaitEnabled(s, c, i) {
      ReapedIsParked(s, c, i);
      WaitThreadLaw(s, c, i, ch);
      WaitBuildLaw(s, c, i, ch);
      WaitChanLaw(s, c, i, ch);
      WaitScanLaw(s, c, i, ch);
    } else if SleepEnabled(s, c, i) {
      SleepThreadLaw(s, c, i);
      SleepBuildLaw(s, c, i);
      SleepChanLaw(s, c, i);
      SleepScanLaw(s, c, i);
    } else if ForkEnabled(s, c, i) {
      ForkThreadLaw(s, c, i, ch);
      ForkBuildLaw(s, c, i, ch);
      ForkChanLaw(s, c, i, ch);
      ForkScanLaw(s, c, i, ch);
    } else if SignalEnabled(s, c, i) {
      SignalThreadLaw(s, c, i, ch);
      SignalBuildLaw(s, c, i, ch);
      SignalChanLaw(s, c, i, ch);
      SignalScanLaw(s, c, i, ch);
    } else {
      CallLaws(s, c, i, ch);
    }
  }

  lemma CallLaws(s: State, c: nat, i: nat, ch: Choice)
    requires Runs(s, c, i) && CallEnabled(s, c, i, ch) && ThreadOk(s, i)
    ensures var t := CallStep(s, c, i, ch);
            && Sized(t) && |t.pc| == |s.pc|
            && ThreadLaw(s, t, i) && BuildLaw(s, t, i) && ChanLaw(s, t, i) && ScanLaw(s, t, i)
  {
    hide ThreadOk, ThreadLaw, BuildLaw, ChanLaw, ScanLaw, CallStep;
    CallThreadLaw(s, c, i, ch);
    CallBuildLaw(s, c, i, ch);
    CallChanLaw(s, c, i, ch);
    CallScanLaw(s, c, i, ch);
  }

  lemma ReapedIsParked(s: State, c: nat, i: nat)
    requires Locks(s) && Life(s) && Runs(s, c, i) && WaitEnabled(s, c, i) && HeldChild(s, i)
    ensures s.pc[i].WaitHeld? ==> s.pc[i].j < |s.procs|
    ensures s.pc[i].WaitHeld? && s.procs[s.pc[i].j].state == ZOMBIE ==> s.pc[s.pc[i].j] == Parked(Never) && s.pc[i].j != i
  {
    if s.pc[i].WaitHeld? && s.procs[s.pc[i].j].state == ZOMBIE {
      ZombieIsParked(s, c, i);
    }
  }

  lemma StepSlot(s: State, c: nat, i: nat, ch: Choice, x: nat)
    requires Inv(s) && Runs(s, c, i) && Enabled(s, c, ch) && HeldChild(s, i) && x < |s.procs|
    ensures var t := Step(s, c, ch); Sized(t) && |t.procs| == |s.procs| && SlotLaw(s, t, i, x)
  {
    hide Locks, Family, Wake, ThreadOk, BuildOk, EmbryoOk, SlotLaw,
      ExitStep, WaitStep, SleepStep, ForkStep, SignalStep, CallStep, Builders, Threads;
    LifeAt(s, i);
    if (ch == Preempt || ch.Interrupt?) && CallEnabled(s, c, i, ch) {
      CallSlot(s, c, i, ch, x);
    } else if ExitEnabled(s, c, i) {
      ExitSlot(s, c, i, x);
    } else if WaitEnabled(s, c, i) {
      WaitSlot(s, c, i, ch, x);
    } else if SleepEnabled(s, c, i) {
      SleepSlot(s, c, i, x);
    } else if ForkEnabled(s, c, i) {
      ForkSlot(s, c, i, ch, x);
    } else if SignalEnabled(s, c, i) {
      SignalSlot(s, c, i, ch, x);
    } else {
      CallSlot(s, c, i, ch, x);
    }
  }

  // ---------------------------------------------------------------- what every run keeps besides

  /** The slot wait has locked is a child's. */
  ghost predicate HeldChild(s: State, i: nat)
    requires Sized(s) && i < |s.pc|
  {
    s.pc[i].WaitHeld? ==> s.pc[i].j < |s.procs| && s.procs[s.pc[i].j].parent == Some(i)
  }

  ghost predicate HasChild(s: State, q: nat) {
    exists x :: 0 <= x < |s.procs| && s.procs[x].parent == Some(q)
  }

  ghost predicate KidsOk(s: State, i: nat)
    requires Sized(s) && i < |s.pc|
  {
    && HeldChild(s, i) && (SawChild(s.pc[i]) ==> HasChild(s, i))
    && (s.pc[i].WaitScan? && !s.pc[i].kids ==>
          forall x :: 0 <= x < s.pc[i].j && x < |s.procs| ==> s.procs[x].parent != Some(i))
  }

  /** Some fork under way fills slot x. */
  ghost predicate HasBuilder(s: State, x: nat) {
    exists i :: 0 <= i < |s.pc| && Builds(s.pc[i]) == Some(x)
  }

  /** No embryo is abandoned, every process but init has a parent, and only a process in sleep has a channel. */
  ghost predicate SlotKept(s: State, x: nat)
    requires Sized(s) && x < |s.pc|
  {
    && (s.procs[x].state == USED ==> HasBuilder(s, x))
    && (s.procs[x].state != UNUSED && s.procs[x].state != USED && x != s.init ==> s.procs[x].parent.Some?)
    && (!InSleep(s.pc[x]) ==> s.procs[x].chan == NoChan)
  }

  ghost predicate Rest(s: State) {
    && Sized(s)
    && (forall i :: 0 <= i < |s.pc| ==> KidsOk(s, i))
    && (forall x :: 0 <= x < |s.pc| ==> SlotKept(s, x))
  }

  lemma BuilderStays(s: State, t: State, i: nat, x: nat)
    requires Laws(s, t, i) && x < |s.procs| && t.procs[x].state == USED
    requires s.procs[x].state == USED ==> HasBuilder(s, x)
    ensures HasBuilder(t, x)
  {
    hide SlotLaw, ChanLaw, ScanLaw;
    if s.procs[x].state == USED {
      var b :| 0 <= b < |s.pc| && Builds(s.pc[b]) == Some(x);
      assert Builds(t.pc[b]) == Some(x);
    } else {
      assert Builds(t.pc[i]) == Some(x);
    }
  }

  lemma SlotStays(s: State, t: State, i: nat, x: nat)
    requires Laws(s, t, i) && Life(s) && Life(t) && x < |s.procs| && SlotKept(s, x)
    ensures SlotKept(t, x)
  {
    hide ScanLaw, BuildLaw, Life;
    LifeAt(s, x);
    if t.procs[x].state == USED {
      BuilderStays(s, t, i, x);
    }
    assert SlotLaw(s, t, i, x);
  }

  lemma ChildStays(s: State, t: State, i: nat, q: nat)
    requires Laws(s, t, i) && q < |s.pc| && HasChild(s, q) && SawChild(t.pc[q])
    ensures HasChild(t, q)
  {
    hide ChanLaw, BuildLaw;
    var x :| 0 <= x < |s.procs| && s.procs[x].parent == Some(q);
    assert SlotLaw(s, t, i, x);
    assert t.procs[x].parent == Some(q);
  }

  lemma OtherKids(s: State, t: State, i: nat, y: nat)
    requires Locks(s) && Laws(s, t, i) && y < |s.pc| && y != i && KidsOk(s, y)
    ensures KidsOk(t, y)
  {
    hide ChanLaw, BuildLaw, ScanLaw, Locks;
    if SawChild(t.pc[y]) {
      ChildStays(s, t, i, y);
    }
    if t.pc[y].WaitHeld? || t.pc[y].WaitScan? {
      OnlyInWait(s, i, y);
      forall x | 0 <= x < |s.procs|
        ensures s.procs[x].parent == Some(y) <==> t.procs[x].parent == Some(y)
      {
        assert SlotLaw(s, t, i, x);
      }
    }
  }

  lemma OnlyInWait(s: State, i: nat, y: nat)
    requires Locks(s) && i < |s.pc| && y < |s.pc| && i != y && HoldsWait(s.pc[y])
    ensures !HoldsWait(s.pc[i])
  {
    if HoldsWait(s.pc[i]) {
      OneProcessInWaitLock(s, i, y);
    }
  }

  lemma OwnKids(s: State, t: State, i: nat)
    requires Laws(s, t, i) && KidsOk(s, i)
    ensures KidsOk(t, i)
  {
    hide ChanLaw, BuildLaw, SlotLaw;
    if SawChild(t.pc[i]) {
      if SawChild(s.pc[i]) {
        ChildStays(s, t, i, i);
      } else {
        assert t.procs[s.pc[i].j].parent == Some(i);
      }
    }
  }

  lemma StepKeepsRest(s: State, c: nat, i: nat, ch: Choice)
    requires Inv(s) && Rest(s) && Runs(s, c, i) && Enabled(s, c, ch)
    ensures Rest(Step(s, c, ch))
  {
    hide Locks, Life, Family, Wake, KidsOk, SlotKept, SlotLaw, ThreadLaw, BuildLaw, ChanLaw, ScanLaw, Step, SchedEnabled;
    var t := Step(s, c, ch);
    KidsHeld(s, i);
    StepLaws(s, c, i, ch);
    StepKeeps(s, c, ch);
    LawsSized(s, t, i);
    forall y | 0 <= y < |t.pc|
      ensures KidsOk(t, y) && SlotKept(t, y)
    {
      SlotStays(s, t, i, y);
      if y == i {
        OwnKids(s, t, i);
      } else {
        OtherKids(s, t, i, y);
      }
    }
  }

  lemma LawsSized(s: State, t: State, i: nat)
    requires Laws(s, t, i)
    ensures Sized(t) && |t.pc| == |s.pc|
  {
  }

  lemma KidsHeld(s: State, i: nat)
    requires Sized(s) && i < |s.pc| && KidsOk(s, i)
    ensures HeldChild(s, i)
  {
  }

  /** A step of a scheduler changes no parent and no channel, and moves at most one thread: from parked to resumed. */
  ghost predicate SchedLaw(s: State, t: State) {
    && Sized(s) && Sized(t) && |t.pc| == |s.pc| && t.init == s.init && t.waitLock == s.waitLock
    && (forall x :: 0 <= x < |s.procs| ==>
          && t.procs[x].parent == s.procs[x].parent && t.procs[x].chan == s.procs[x].chan
          && t.procs[x].killed == s.procs[x].killed && NextState(s.procs[x].state, t.procs[x].state)
          && (t.procs[x].state == USED <==> s.procs[x].state == USED)
          && (t.procs[x].state == UNUSED <==> s.procs[x].state == UNUSED))
    && (forall y :: 0 <= y < |s.pc| ==>
          || t.pc[y] == s.pc[y]
          || (s.pc[y].Parked? && s.procs[y].state == RUNNABLE && t.pc[y] == Resumed(s.pc[y].resume)))
  }

  lemma SchedObeys(s: State, c: nat, ch: Choice)
    requires Inv(s) && SchedEnabled(s, c, ch)
    ensures SchedLaw(s, SchedStep(s, c, ch))
  {
    hide Locks, Life, Family, Wake;
    if s.cpu[c].place.pc.Check? && s.procs[s.cpu[c].place.pc.i].state == RUNNABLE {
      RunnableIsParked(s, c, s.cpu[c].place.pc.i);
    }
  }

  lemma SchedKeepsRest(s: State, t: State)
    requires Rest(s) && SchedLaw(s, t)
    ensures Rest(t)
  {
    forall y | 0 <= y < |t.pc|
      ensures KidsOk(t, y) && SlotKept(t, y)
    {
      SchedKeepsKids(s, t, y);
      SchedKeepsSlot(s, t, y);
    }
  }

  lemma SchedKeepsKids(s: State, t: State, y: nat)
    requires SchedLaw(s, t) && y < |s.pc| && KidsOk(s, y)
    ensures KidsOk(t, y)
  {
    if HasChild(s, y) {
      var x :| 0 <= x < |s.procs| && s.procs[x].parent == Some(y);
      assert t.procs[x].parent == Some(y);
    }
  }

  lemma SchedKeepsSlot(s: State, t: State, x: nat)
    requires SchedLaw(s, t) && x < |s.pc| && SlotKept(s, x)
    ensures SlotKept(t, x)
  {
    if HasBuilder(s, x) {
      var b :| 0 <= b < |s.pc| && Builds(s.pc[b]) == Some(x);
      assert Builds(t.pc[b]) == Some(x);
    }
  }

  lemma BootRest(nproc: nat, ncpu: nat)
    requires nproc > 0
    ensures Rest(Boot(nproc, ncpu))
  {
    var s := Boot(nproc, ncpu);
    assert forall i :: 1 <= i < nproc ==> s.procs[i] == Proc(UNUSED, NoChan, false, None) && s.pc[i] == NoThread;
    assert s.procs[0] == Proc(RUNNABLE, NoChan, false, None) && s.pc[0] == Parked(ToYield(Free));
  }

  lemma {:induction false} RunKeepsRest(s: State, steps: seq<(nat, Choice)>)
    requires Inv(s) && Rest(s) && Run(s, steps)
    ensures Inv(After(s, steps)) && Rest(After(s, steps))
    decreases |steps|
  {
    hide Inv, Rest, Step, Enabled;
    if steps != [] {
      AnyStepKeeps(s, steps[0].0, steps[0].1);
      RunKeepsRest(Step(s, steps[0].0, steps[0].1), steps[1..]);
    }
  }

  /** Every step of every CPU keeps both invariants. */
  lemma AnyStepKeeps(s: State, c: nat, ch: Choice)
    requires Inv(s) && Rest(s) && Enabled(s, c, ch)
    ensures Inv(Step(s, c, ch)) && Rest(Step(s, c, ch))
  {
    hide Locks, Life, Family, Wake, Rest, SchedStep;
    StepKeeps(s, c, ch);
    if SchedEnabled(s, c, ch) {
      SchedObeys(s, c, ch);
      SchedKeepsRest(s, SchedStep(s, c, ch));
    } else {
      StepKeepsRest(s, c, s.cpu[c].place.i, ch);
    }
  }

  lemma ReachableRest(s: State)
    requires Reachable(s)
    ensures Inv(s) && Rest(s)
  {
    hide Inv, Rest;
    var nproc: nat, ncpu: nat, steps: seq<(nat, Choice)> :|
      nproc > 0 && Run(Boot(nproc, ncpu), steps) && s == After(Boot(nproc, ncpu), steps);
    BootOk(nproc, ncpu);
    BootRest(nproc, ncpu);
    RunKeepsRest(Boot(nproc, ncpu), steps);
  }

  // ---------------------------------------------------------------- what wait delivers

  /** A process asleep in wait has, whenever wait_lock is free, a child that has not exited: somebody is left to wake it
      up. */
  lemma SleeperHasLiveChild(s: State, q: nat)
    requires Reachable(s) && s.waitLock.None? && q < |s.pc| == |s.procs|
    requires s.procs[q].state == SLEEPING && (s.pc[q] == Parked(ToSleep(InWait)) || s.pc[q] == Switch(ToSleep(InWait)))
    ensures exists x :: 0 <= x < |s.procs| && s.procs[x].parent == Some(q)
                        && s.procs[x].state != ZOMBIE && s.procs[x].state != UNUSED
  {
    hide Locks, Life, Family, Wake;
    ReachableRest(s);
    assert KidsOk(s, q);
    var x :| 0 <= x < |s.procs| && s.procs[x].parent == Some(q);
    NoLostWakeup(s, q, x);
    LifeAt(s, x);
  }

  /** In every reachable state every process but init has a parent that is a live process, every embryo belongs to a fork
      under way, and a slot has a channel only while its process is in sleep. */
  lemma EverySlotAccountedFor(s: State, x: nat)
    requires Reachable(s) && x < |s.procs| == |s.pc|
    ensures Alive(s.procs[x]) || s.procs[x].state == ZOMBIE ==> x == s.init || s.procs[x].parent.Some?
    ensures s.procs[x].state == USED ==> exists i :: 0 <= i < |s.pc| && Builds(s.pc[i]) == Some(x)
    ensures s.procs[x].chan != NoChan ==> InSleep(s.pc[x])
    ensures s.procs[x].parent.Some? ==> s.procs[x].parent.value < |s.procs| && Alive(s.procs[s.procs[x].parent.value])
  {
    hide Inv;
    ReachableRest(s);
    assert SlotKept(s, x);
    if s.procs[x].parent.Some? {
      ParentsAreAlive(s, x);
    }
  }
}
