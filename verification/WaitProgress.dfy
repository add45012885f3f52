/** Progress in the Lab 3 protocol: no deadlock, no call that scans forever, no scan that leaves a slot out, and wakeups,
    kills and the scheduler that reach the processes they are meant for. */
module WaitProgress {
  import opened WaitProtocol
  import opened WaitLocks
  import opened WaitInvariant
  import opened WaitEffects

  // ---------------------------------------------------------------- no deadlock

  ghost predicate CanStep(s: State, c: nat) {
    exists ch :: Enabled(s, c, ch)
  }

  /** The process lock that process i is about to take. */
  function Wants(s: State, i: nat): Option<nat>
    requires i < |s.pc|
  {
    match s.pc[i]
    case ReparentWake(_, k) => Some(k)
    case ParentWake(k, _) => Some(k)
    case ExitOwnLock => Some(i)
    case WaitScan(j, _) => Some(j)
    case WaitKilled => Some(i)
    case SleepLock(_) => Some(i)
    case YieldLock(_) => Some(i)
    case ForkScan(j) => Some(j)
    case ForkRun(j) => Some(j)
    case KillScan(j) => Some(j)
    case WakeScan(k, _) => Some(k)
    case _ => None
  }

  predicate WantsWait(pc: Pc) {
    pc == ExitLock || pc == WaitLock || pc.ForkParent?
  }

  /** CPU c waits for a process lock that CPU d holds. */
  ghost predicate BlockedBy(s: State, c: nat, d: nat)
    requires c < |s.cpu|
  {
    exists j :: 0 <= j < |s.lock| && s.lock[j] == Some(d) &&
      match s.cpu[c].place
      case InProcess(i) => i < |s.pc| && Wants(s, i) == Some(j)
      case InScheduler(pc) => pc == AtLock(j)
  }

  /** CPU c waits for wait_lock, and CPU d holds it. */
  ghost predicate BlockedOnWait(s: State, c: nat, d: nat)
    requires c < |s.cpu|
  {
    && s.waitLock == Some(d)
    && s.cpu[c].place.InProcess? && s.cpu[c].place.i < |s.pc| && WantsWait(s.pc[s.cpu[c].place.i])
  }

  /** Whoever holds a process lock never waits. */
  lemma HolderCanStep(s: State, c: nat)
    requires Inv(s) && c < |s.cpu| && CpuHeld(s, c).Some?
    ensures CanStep(s, c)
  {
    hide Family, Wake, Builders;
    assert PlaceOk(s, c);
    if s.cpu[c].place.InScheduler? {
      assert SchedEnabled(s, c, Go);
    } else {
      var i := s.cpu[c].place.i;
      assert ThreadOk(s, i);
      assert CpuHeld(s, c).value < |s.lock|;
      HeldMoves(s, c, i);
      assert ProcEnabled(s, c, i, Go);
    }
    assert Enabled(s, c, Go);
  }

  lemma HeldMoves(s: State, c: nat, i: nat)
    requires Runs(s, c, i) && SavedOk(s.pc[i]) && Held(i, s.pc[i]).Some? && Held(i, s.pc[i]).value < |s.lock|
    ensures ProcEnabled(s, c, i, Go)
  {
  }

  lemma ProcessMoves(s: State, c: nat, i: nat)
    requires Runs(s, c, i) && SavedOk(s.pc[i]) && Active(s.pc[i])
    requires Held(i, s.pc[i]).Some? ==> Held(i, s.pc[i]).value < |s.lock|
    requires Wants(s, i).Some? && Wants(s, i).value < |s.lock| ==> s.lock[Wants(s, i).value].None?
    requires WantsWait(s.pc[i]) ==> s.waitLock.None?
    requires Builds(s.pc[i]).Some? ==> Builds(s.pc[i]).value < |s.lock|
    ensures ProcEnabled(s, c, i, CallWait)
  {
  }

  /** A CPU can take a step unless it waits for a lock that another CPU holds. */
  lemma StepsUnlessBlocked(s: State, c: nat)
    requires Inv(s) && c < |s.cpu|
    ensures CanStep(s, c) || (exists d :: 0 <= d < |s.cpu| && (BlockedBy(s, c, d) || BlockedOnWait(s, c, d)))
  {
    hide Family, Wake;
    assert PlaceOk(s, c);
    match s.cpu[c].place
    case InScheduler(pc) =>
      if pc.AtLock? && pc.i < |s.lock| && s.lock[pc.i].Some? {
        assert BlockedBy(s, c, s.lock[pc.i].value);
      } else {
        assert SchedEnabled(s, c, Go);
        assert Enabled(s, c, Go);
      }
    case InProcess(i) =>
      assert ThreadOk(s, i) && BuildOk(s, i);
      if Wants(s, i).Some? && Wants(s, i).value < |s.lock| && s.lock[Wants(s, i).value].Some? {
        assert BlockedBy(s, c, s.lock[Wants(s, i).value].value);
      } else if WantsWait(s.pc[i]) && s.waitLock.Some? {
        assert BlockedOnWait(s, c, s.waitLock.value);
      } else {
        assert CpuHeld(s, c) == Held(i, s.pc[i]);
        ProcessMoves(s, c, i);
        assert Enabled(s, c, CallWait);
      }
  }

  /** No deadlock. Waiting never goes in a circle: in every reachable state every CPU can take a step, or waits for a
      process lock whose holder can, or waits for wait_lock, whose holder can or in turn waits for a process lock whose
      holder can. */
  lemma NoDeadlock(s: State, c: nat)
    requires Reachable(s) && c < |s.cpu|
    ensures || CanStep(s, c)
            || (exists d :: 0 <= d < |s.cpu| && BlockedBy(s, c, d) && CanStep(s, d))
            || (exists d :: 0 <= d < |s.cpu| && BlockedOnWait(s, c, d) && CanStep(s, d))
            || (exists d, e :: 0 <= d < |s.cpu| && 0 <= e < |s.cpu|
                  && BlockedOnWait(s, c, d) && BlockedBy(s, d, e) && CanStep(s, e))
  {
    hide CanStep, Inv, BlockedBy, BlockedOnWait;
    ReachableInv(s);
    StepsUnlessBlocked(s, c);
    if !CanStep(s, c) {
      var d :| 0 <= d < |s.cpu| && (BlockedBy(s, c, d) || BlockedOnWait(s, c, d));
      if BlockedBy(s, c, d) {
        BlockerCanStep(s, c, d);
      } else {
        StepsUnlessBlocked(s, d);
        if !CanStep(s, d) {
          var e :| 0 <= e < |s.cpu| && (BlockedBy(s, d, e) || BlockedOnWait(s, d, e));
          WaitHolderNotBlocked(s, c, d, e);
          BlockerCanStep(s, d, e);
        }
      }
    }
  }

  lemma BlockerCanStep(s: State, c: nat, d: nat)
    requires Inv(s) && c < |s.cpu| && d < |s.cpu| && BlockedBy(s, c, d)
    ensures CanStep(s, d)
  {
    hide CanStep, Life, Family, Wake;
    HolderCanStep(s, d);
  }

  lemma WaitHolderNotBlocked(s: State, c: nat, d: nat, e: nat)
    requires Inv(s) && c < |s.cpu| && d < |s.cpu| && BlockedOnWait(s, c, d)
    ensures !BlockedOnWait(s, d, e)
  {
    hide Life, Family, Wake;
    assert CpuHoldsWait(s, d);
  }

  // ---------------------------------------------------------------- no call goes round for ever

  function Minus(n: nat, k: nat): nat {
    if k < n then n - k else 0
  }

  /** How far a call is from its end: a phase, then slots left to scan, then slots left to scan within that. */
  datatype Rank = Rank(phase: nat, outer: nat, inner: nat)

  predicate Less(a: Rank, b: Rank) {
    a.phase < b.phase || (a.phase == b.phase && (a.outer < b.outer || (a.outer == b.outer && a.inner < b.inner)))
  }

  function RankOf(pc: Pc, n: nat): Rank {
    match pc
    case ExitLock => Rank(6, 0, 0)
    case ReparentScan(j) => Rank(5, Minus(n, j), 0)
    case ReparentWake(j, k) => Rank(5, Minus(n, j + 1), 1 + 2 * Minus(n, k))
    case ReparentWakeHeld(j, k) => Rank(5, Minus(n, j + 1), 2 * Minus(n, k))
    case ParentWake(k, _) => Rank(4, Minus(n, k), 1)
    case ParentWakeHeld(k, _) => Rank(4, Minus(n, k), 0)
    case ExitOwnLock => Rank(3, 0, 0)
    case ExitZombie => Rank(2, 0, 0)
    case ExitRelease => Rank(1, 0, 0)
    case WaitLock => Rank(10, 0, 0)
    case WaitScan(j, _) => Rank(9, Minus(n, j), 1)
    case WaitHeld(j) => Rank(9, Minus(n, j), 0)
    case WaitKilled => Rank(8, 0, 0)
    case WaitKilledHeld => Rank(7, 0, 0)
    case WaitReturn => Rank(1, 0, 0)
    case SleepLock(_) => Rank(6, 0, 0)
    case SleepRelease(_) => Rank(5, 0, 0)
    case SleepSet(_) => Rank(4, 0, 0)
    case ForkScan(j) => Rank(9, Minus(n, j), 1)
    case ForkScanHeld(j) => Rank(9, Minus(n, j), 0)
    case ForkFill(_) => Rank(8, 0, 0)
    case ForkParent(_) => Rank(7, 0, 0)
    case ForkParentHeld(_) => Rank(6, 0, 0)
    case ForkRun(_) => Rank(5, 0, 0)
    case ForkRunHeld(_) => Rank(4, 0, 0)
    case KillScan(j) => Rank(9, Minus(n, j), 1)
    case KillHeld(j) => Rank(9, Minus(n, j), 0)
    case WakeScan(k, _) => Rank(9, Minus(n, k), 1)
    case WakeHeld(k, _) => Rank(9, Minus(n, k), 0)
    case _ => Rank(0, 0, 0)
  }

  /** Inside exit, wait, sleep, fork, kill or wakeup, before any switch to the scheduler. */
  predicate InCall(pc: Pc) {
    RankOf(pc, 0).phase > 0
  }

  lemma ExitEnds(s: State, c: nat, i: nat)
    requires Runs(s, c, i) && ExitEnabled(s, c, i)
    ensures var t := ExitStep(s, c, i); |t.pc| == |s.pc| && Less(RankOf(t.pc[i], |s.procs|), RankOf(s.pc[i], |s.procs|))
  {
  }

  lemma WaitEnds(s: State, c: nat, i: nat, ch: Choice)
    requires Runs(s, c, i) && WaitEnabled(s, c, i)
    ensures var t := WaitStep(s, c, i, ch);
            |t.pc| == |s.pc| && Less(RankOf(t.pc[i], |s.procs|), RankOf(s.pc[i], |s.procs|))
  {
  }

  lemma SleepEnds(s: State, c: nat, i: nat)
    requires Runs(s, c, i) && SleepEnabled(s, c, i) && InCall(s.pc[i])
    ensures var t := SleepStep(s, c, i); |t.pc| == |s.pc| && Less(RankOf(t.pc[i], |s.procs|), RankOf(s.pc[i], |s.procs|))
  {
  }

  lemma ForkEnds(s: State, c: nat, i: nat, ch: Choice)
    requires Runs(s, c, i) && ForkEnabled(s, c, i)
    ensures var t := ForkStep(s, c, i, ch);
            |t.pc| == |s.pc| && Less(RankOf(t.pc[i], |s.procs|), RankOf(s.pc[i], |s.procs|))
  {
  }

  lemma SignalEnds(s: State, c: nat, i: nat, ch: Choice)
    requires Runs(s, c, i) && SignalEnabled(s, c, i)
    ensures var t := SignalStep(s, c, i, ch);
            |t.pc| == |s.pc| && Less(RankOf(t.pc[i], |s.procs|), RankOf(s.pc[i], |s.procs|))
  {
  }

  /** Every step inside a call, other than an interruption, brings the call nearer its end or its sleep: no lock is held
      for more than a bounded number of its holder's steps. */
  lemma CallsEnd(s: State, c: nat, i: nat, ch: Choice)
    requires Runs(s, c, i) && Enabled(s, c, ch) && InCall(s.pc[i]) && ch != Preempt && !ch.Interrupt?
    ensures var t := Step(s, c, ch);
            |t.pc| == |s.pc| && Less(RankOf(t.pc[i], |s.procs|), RankOf(s.pc[i], |s.procs|))
  {
    hide ExitStep, WaitStep, SleepStep, ForkStep, SignalStep, Less;
    if ExitEnabled(s, c, i) {
      ExitEnds(s, c, i);
    } else if WaitEnabled(s, c, i) {
      WaitEnds(s, c, i, ch);
    } else if SleepEnabled(s, c, i) {
      SleepEnds(s, c, i);
    } else if ForkEnabled(s, c, i) {
      ForkEnds(s, c, i, ch);
    } else {
      SignalEnds(s, c, i, ch);
    }
  }

  // ---------------------------------------------------------------- interruptions are not noticed

  /** Preempting a process, switching it out and in again, and running an interrupt handler move nobody from the place in
      its call where it was. */
  lemma InterruptionsUnnoticed(s: State, c: nat, i: nat, ch: Choice, x: nat)
    requires Reachable(s) && Runs(s, c, i) && Enabled(s, c, ch) && x < |s.pc|
    requires Core(s.pc[i]) != s.pc[i] || ((ch == Preempt || ch.Interrupt?) && CallEnabled(s, c, i, ch))
    ensures |Step(s, c, ch).pc| == |s.pc| && Core(Step(s, c, ch).pc[x]) == Core(s.pc[x])
  {
    hide Inv, Step, Core;
    ReachableInv(s);
    PlaceKept(s, c, i, ch, x);
  }

  lemma PlaceKept(s: State, c: nat, i: nat, ch: Choice, x: nat)
    requires Inv(s) && Runs(s, c, i) && Enabled(s, c, ch) && x < |s.pc|
    requires Core(s.pc[i]) != s.pc[i] || ((ch == Preempt || ch.Interrupt?) && CallEnabled(s, c, i, ch))
    ensures |Step(s, c, ch).pc| == |s.pc| && Core(Step(s, c, ch).pc[x]) == Core(s.pc[x])
  {
    hide Inv, ExitStep, WaitStep, SleepStep, ForkStep, SignalStep, CallStep, Core;
    InvThread(s, i);
    if (ch == Preempt || ch.Interrupt?) && CallEnabled(s, c, i, ch) {
      CallCore(s, c, i, ch, x);
    } else {
      CoreInYield(s, c, i, ch);
      assert Step(s, c, ch) == SleepStep(s, c, i);
      YieldCore(s, c, i, x);
    }
  }

  lemma CoreInYield(s: State, c: nat, i: nat, ch: Choice)
    requires Runs(s, c, i) && SavedOk(s.pc[i]) && Core(s.pc[i]) != s.pc[i]
    ensures !ExitEnabled(s, c, i) && !WaitEnabled(s, c, i) && !ForkEnabled(s, c, i) && !SignalEnabled(s, c, i)
    ensures !CallEnabled(s, c, i, ch)
  {
  }

  lemma CallCore(s: State, c: nat, i: nat, ch: Choice, x: nat)
    requires Runs(s, c, i) && (ch == Preempt || ch.Interrupt?) && CallEnabled(s, c, i, ch) && x < |s.pc|
    ensures |CallStep(s, c, i, ch).pc| == |s.pc| && Core(CallStep(s, c, i, ch).pc[x]) == Core(s.pc[x])
  {
  }

  lemma YieldCore(s: State, c: nat, i: nat, x: nat)
    requires Runs(s, c, i) && SleepEnabled(s, c, i) && Core(s.pc[i]) != s.pc[i] && ThreadOk(s, i) && x < |s.pc|
    ensures |SleepStep(s, c, i).pc| == |s.pc| && Core(SleepStep(s, c, i).pc[x]) == Core(s.pc[x])
  {
  }

  lemma InvThread(s: State, i: nat)
    requires Inv(s) && i < |s.pc|
    ensures Sized(s) && ThreadOk(s, i) && SavedOk(s.pc[i])
  {
    hide Locks, Family, Wake;
  }

  /** The scheduler moves no process from the place in its call either. */
  lemma DispatchUnnoticed(s: State, c: nat, ch: Choice, x: nat)
    requires Reachable(s) && SchedEnabled(s, c, ch) && x < |s.pc|
    ensures |SchedStep(s, c, ch).pc| == |s.pc|
    ensures var p, q := s.pc[x], SchedStep(s, c, ch).pc[x];
            q == p || (p.Parked? && q == Resumed(p.resume) && (p.resume.ToYield? ==> Core(q) == Core(p)))
  {
    hide Inv, SchedStep;
    ReachableInv(s);
    SchedObeys(s, c, ch);
  }

  // ---------------------------------------------------------------- how wait ends

  /** Inside wait, running, asleep, or interrupted. */
  predicate InWaitCall(pc: Pc) {
    match Core(pc)
    case WaitLock => true
    case WaitScan(_, _) => true
    case WaitHeld(_) => true
    case WaitKilled => true
    case WaitKilledHeld => true
    case WaitReturn => true
    case SleepLock(why) => why == InWait
    case SleepRelease(why) => why == InWait
    case SleepSet(why) => why == InWait
    case Switch(r) => r == ToSleep(InWait)
    case Parked(r) => r == ToSleep(InWait)
    case Resumed(r) => r == ToSleep(InWait)
    case _ => false
  }

  /** wait has found, in state s, a reason to return: it has reaped a child, which in state t is a free slot without a
      thread; copying the child's status out failed; the process has no children at all; or it has been killed. */
  ghost predicate WaitDone(s: State, t: State, i: nat, ch: Choice)
    requires Sized(s) && Sized(t) && |s.procs| == |t.procs| && i < |s.procs|
  {
    || (exists j :: 0 <= j < |s.procs| && s.procs[j].parent == Some(i) && s.procs[j].state == ZOMBIE
          && (ch == No || (t.procs[j].state == UNUSED && t.procs[j].parent == None && t.pc[j] == NoThread)))
    || (forall j :: 0 <= j < |s.procs| ==> s.procs[j].parent != Some(i))
    || s.procs[i].killed
  }

  ghost predicate WaitGoesOn(s: State, t: State, i: nat, ch: Choice)
    requires Sized(s) && Sized(t) && |s.procs| == |t.procs| && i < |s.procs|
  {
    && (if s.pc[i] == WaitReturn then t.pc[i] == Free else InWaitCall(t.pc[i]))
    && (t.pc[i] == WaitReturn ==> WaitDone(s, t, i, ch))
    && (t.pc[i] == SleepLock(InWait) && s.pc[i] != t.pc[i] ==> !s.procs[i].killed && HasChild(s, i))
  }

  /** wait returns only when it has a reason to, and goes to sleep only with a child and when not killed. Until it returns
      every step, sleeping and waking included, stays within it. */
  lemma HowWaitEnds(s: State, c: nat, i: nat, ch: Choice)
    requires Reachable(s) && Runs(s, c, i) && Enabled(s, c, ch) && InWaitCall(s.pc[i])
    requires !((ch == Preempt || ch.Interrupt?) && CallEnabled(s, c, i, ch))
    ensures var t := Step(s, c, ch);
            Sized(t) && |t.procs| == |s.procs| && WaitGoesOn(s, t, i, ch)
  {
    hide Inv, WaitGoesOn, WaitStep, SleepStep, ExitStep, ForkStep, SignalStep, CallStep;
    ReachableRest(s);
    assert KidsOk(s, i);
    InvThread(s, i);
    if WaitEnabled(s, c, i) {
      assert Step(s, c, ch) == WaitStep(s, c, i, ch);
      WaitOutcome(s, c, i, ch);
    } else {
      assert SleepEnabled(s, c, i) && Step(s, c, ch) == SleepStep(s, c, i);
      SleepOutcome(s, c, i, ch);
    }
  }

  lemma WaitOutcome(s: State, c: nat, i: nat, ch: Choice)
    requires Runs(s, c, i) && WaitEnabled(s, c, i) && KidsOk(s, i) && ThreadOk(s, i)
    ensures var t := WaitStep(s, c, i, ch);
            Sized(t) && |t.procs| == |s.procs| && WaitGoesOn(s, t, i, ch)
  {
    hide WaitDone, HasChild, KidsOk, ThreadOk, WaitStep, WaitEnabled, InWaitCall;
    WaitPlaces(s, c, i, ch);
    if s.pc[i].WaitHeld? {
      ReapOutcome(s, c, i, ch);
    } else {
      ScanOutcome(s, c, i, ch);
    }
  }

  lemma WaitPlaces(s: State, c: nat, i: nat, ch: Choice)
    requires Runs(s, c, i) && WaitEnabled(s, c, i) && KidsOk(s, i) && ThreadOk(s, i)
    ensures var t := WaitStep(s, c, i, ch);
            && Sized(t) && |t.procs| == |s.procs|
            && (if s.pc[i] == WaitReturn then t.pc[i] == Free else InWaitCall(t.pc[i]))
            && (t.pc[i] == SleepLock(InWait) && s.pc[i] != t.pc[i] ==> !s.procs[i].killed && HasChild(s, i))
  {
    hide HasChild;
  }

  lemma ReapOutcome(s: State, c: nat, i: nat, ch: Choice)
    requires Runs(s, c, i) && WaitEnabled(s, c, i) && KidsOk(s, i) && ThreadOk(s, i) && s.pc[i].WaitHeld?
    ensures var t := WaitStep(s, c, i, ch);
            Sized(t) && |t.procs| == |s.procs| && (t.pc[i] == WaitReturn ==> WaitDone(s, t, i, ch))
  {
    var j, t := s.pc[i].j, WaitStep(s, c, i, ch);
    if s.procs[j].state == ZOMBIE {
      assert j != i && s.procs[j].parent == Some(i);
      assert ch != No ==> t.procs[j] == Freed(s.procs[j]) && t.pc[j] == NoThread;
    }
  }

  lemma ScanOutcome(s: State, c: nat, i: nat, ch: Choice)
    requires Runs(s, c, i) && WaitEnabled(s, c, i) && KidsOk(s, i) && !s.pc[i].WaitHeld?
    ensures var t := WaitStep(s, c, i, ch);
            Sized(t) && |t.procs| == |s.procs| && (t.pc[i] == WaitReturn ==> WaitDone(s, t, i, ch))
  {
  }

  lemma SleepOutcome(s: State, c: nat, i: nat, ch: Choice)
    requires Runs(s, c, i) && SleepEnabled(s, c, i) && InWaitCall(s.pc[i]) && ThreadOk(s, i)
    ensures var t := SleepStep(s, c, i);
            Sized(t) && |t.procs| == |s.procs| && WaitGoesOn(s, t, i, ch)
  {
    hide WaitDone, HasChild;
  }
}
