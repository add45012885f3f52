/** Laws about whole runs of the Lab 3 protocol: what a wakeup, a kill, a fork's search for a slot and an idle CPU's
    scheduler get to, however the CPUs are interleaved. */
module WaitRuns {
  import opened WaitProtocol
  import opened WaitLocks
  import opened WaitInvariant
  import opened WaitEffects
  import opened WaitProgress

  // ---------------------------------------------------------------- one step

  /** In every reachable state a step changes each slot only along its life cycle, with the parent, the killed mark and the
      end of a zombie as SlotLaw says. */
  lemma EveryStepObeysSlotLaw(s: State, c: nat, i: nat, ch: Choice, x: nat)
    requires Reachable(s) && Runs(s, c, i) && Enabled(s, c, ch) && x < |s.procs|
    ensures var t := Step(s, c, ch); Sized(t) && |t.procs| == |s.procs| && SlotLaw(s, t, i, x)
  {
    hide Inv, SlotLaw, Step;
    ReachableRest(s);
    KidsHeld(s, i);
    StepSlot(s, c, i, ch, x);
  }

  /** kill marks the process it was meant for, and wakes it if it sleeps. */
  lemma KillTakesEffect(s: State, c: nat, i: nat, j: nat)
    requires Runs(s, c, i) && s.pc[i] == KillHeld(j) && j < |s.procs| && Enabled(s, c, Yes)
    ensures var t := Step(s, c, Yes);
            && |t.procs| == |s.procs| && t.procs[j].killed && t.procs[j].state != SLEEPING
            && (s.procs[j].state == SLEEPING ==> t.procs[j].state == RUNNABLE)
            && (s.procs[j].state != SLEEPING ==> t.procs[j].state == s.procs[j].state)
            && t.procs[j].parent == s.procs[j].parent && forall x :: 0 <= x < |s.procs| && x != j ==> t.procs[x] == s.procs[x]
  {
  }

  /** The process whose thread waits in sleep on an ordinary channel. */
  ghost predicate AsleepOn(s: State, k: nat, id: nat)
    requires Sized(s) && k < |s.procs|
  {
    s.procs[k].state == SLEEPING && s.pc[k] == Parked(ToSleep(OnChan(id)))
  }

  /** A device interrupt wakes a process it finds asleep on its channel, on whichever CPU it is handled, and no one else. */
  lemma InterruptWakes(s: State, c: nat, k: nat, id: nat)
    requires Reachable(s) && Sized(s) && k < |s.procs| && Enabled(s, c, Interrupt(k, id)) && AsleepOn(s, k, id)
    requires if SchedEnabled(s, c, Interrupt(k, id)) then s.cpu[c].place.pc.AtLock?
             else CallEnabled(s, c, s.cpu[c].place.i, Interrupt(k, id))
    ensures var t := Step(s, c, Interrupt(k, id));
            && |t.procs| == |s.procs| && t.procs[k].state == RUNNABLE
            && forall x :: 0 <= x < |s.procs| && x != k ==> t.procs[x] == s.procs[x]
  {
    hide Inv;
    ReachableInv(s);
    SleeperChan(s, k, id);
  }

  lemma SleeperChan(s: State, k: nat, id: nat)
    requires Inv(s) && k < |s.procs| && AsleepOn(s, k, id)
    ensures s.procs[k].chan == OtherChan(id)
  {
    hide Locks, Family, Wake;
    assert ThreadOk(s, k);
  }

  // ---------------------------------------------------------------- a wakeup reaches every sleeper

  /** Process i is in wakeup(id), and has not got past slot k yet. */
  predicate WakePending(pc: Pc, id: nat, k: nat) {
    match Core(pc)
    case WakeScan(x, d) => d == id && x <= k
    case WakeHeld(x, d) => d == id && x <= k
    case _ => false
  }

  lemma WakeupStarts(s: State, c: nat, i: nat, id: nat, k: nat)
    requires Runs(s, c, i) && s.pc[i] == Free && Enabled(s, c, CallWakeup(id))
    ensures var t := Step(s, c, CallWakeup(id)); |t.pc| == |s.pc| && WakePending(t.pc[i], id, k)
  {
  }

  lemma WakerMoves(s: State, c: nat, i: nat, ch: Choice, id: nat, k: nat)
    requires Runs(s, c, i) && SignalEnabled(s, c, i) && k < |s.procs| && k != i
    requires s.pc[i].WakeScan? || s.pc[i].WakeHeld?
    requires WakePending(s.pc[i], id, k) && AsleepOn(s, k, id) && s.procs[k].chan == OtherChan(id)
    ensures var t := SignalStep(s, c, i, ch);
            && Sized(t) && |t.procs| == |s.procs|
            && (t.procs[k].state == RUNNABLE || WakePending(t.pc[i], id, k))
  {
  }

  /** In a scan of wakeup, kill or the like, a step that is no interruption is a step of that scan. */
  lemma SignalIsNext(s: State, c: nat, i: nat, ch: Choice)
    requires Runs(s, c, i) && Enabled(s, c, ch) && !((ch == Preempt || ch.Interrupt?) && CallEnabled(s, c, i, ch))
    requires s.pc[i].WakeScan? || s.pc[i].WakeHeld? || s.pc[i].KillScan? || s.pc[i].KillHeld?
    ensures SignalEnabled(s, c, i) && Step(s, c, ch) == SignalStep(s, c, i, ch)
  {
    hide SignalStep, ExitStep, WaitStep, SleepStep, ForkStep;
  }

  /** The process that waits in sleep stays there until it is made RUNNABLE. */
  lemma SleeperStays(s: State, c: nat, ch: Choice, id: nat, k: nat)
    requires Inv(s) && Rest(s) && Enabled(s, c, ch) && k < |s.procs| && AsleepOn(s, k, id)
    ensures var t := Step(s, c, ch);
            && Sized(t) && |t.procs| == |s.procs| && (t.procs[k].state == RUNNABLE || AsleepOn(t, k, id))
  {
    hide Life, Family, Wake, KidsOk, SlotKept, SchedStep;
    if SchedEnabled(s, c, ch) {
      SchedObeys(s, c, ch);
    } else {
      var y := s.cpu[c].place.i;
      assert PlaceOk(s, c);
      KidsHeld(s, y);
      StepLaws(s, c, y, ch);
      LawsAt(s, Step(s, c, ch), y, k);
    }
  }

  lemma LawsAt(s: State, t: State, i: nat, k: nat)
    requires Laws(s, t, i) && k < |s.pc|
    ensures SlotLaw(s, t, i, k) && ThreadLaw(s, t, i)
  {
  }

  /** The waking process keeps its place while others move. */
  lemma WakerStays(s: State, c: nat, i: nat, ch: Choice, id: nat, k: nat)
    requires Inv(s) && Rest(s) && Enabled(s, c, ch) && i < |s.pc| && WakePending(s.pc[i], id, k) && c < |s.cpu|
    requires !Runs(s, c, i) || Core(s.pc[i]) != s.pc[i]
             || ((ch == Preempt || ch.Interrupt?) && CallEnabled(s, c, i, ch))
    ensures var t := Step(s, c, ch); |t.pc| == |s.pc| && WakePending(t.pc[i], id, k)
  {
    hide Life, Family, Wake, KidsOk, SlotKept, SchedStep;
    if SchedEnabled(s, c, ch) {
      SchedObeys(s, c, ch);
    } else if s.cpu[c].place == InProcess(i) {
      PlaceKept(s, c, i, ch, i);
    } else {
      var y := s.cpu[c].place.i;
      KidsHeld(s, y);
      StepLaws(s, c, y, ch);
      LawsAt(s, Step(s, c, ch), y, i);
    }
  }

  /** Until wakeup has passed a sleeper's slot, a step leaves the sleeper asleep with the wakeup still to come, or makes it
      RUNNABLE. */
  lemma StillToWake(s: State, c: nat, i: nat, ch: Choice, id: nat, k: nat)
    requires Inv(s) && Rest(s) && Enabled(s, c, ch) && Sized(s) && c < |s.cpu|
    requires i < |s.pc| && k < |s.procs| && k != i && WakePending(s.pc[i], id, k) && AsleepOn(s, k, id)
    ensures var t := Step(s, c, ch);
            && Sized(t) && |t.procs| == |s.procs|
            && (t.procs[k].state == RUNNABLE || (AsleepOn(t, k, id) && WakePending(t.pc[i], id, k)))
  {
    hide Inv, Rest, AsleepOn, WakePending, Step, SchedEnabled, SignalStep;
    SleeperStays(s, c, ch, id, k);
    SleeperChan(s, k, id);
    if Runs(s, c, i) && Core(s.pc[i]) == s.pc[i]
       && !((ch == Preempt || ch.Interrupt?) && CallEnabled(s, c, i, ch)) {
      PendingPlace(s.pc[i], id, k);
      SignalIsNext(s, c, i, ch);
      WakerMoves(s, c, i, ch, id, k);
    } else {
      WakerStays(s, c, i, ch, id, k);
    }
  }

  lemma EnabledCpu(s: State, c: nat, ch: Choice)
    requires Enabled(s, c, ch)
    ensures Sized(s) && c < |s.cpu|
  {
  }

  lemma PendingPlace(pc: Pc, id: nat, k: nat)
    requires WakePending(pc, id, k) && Core(pc) == pc
    ensures pc.WakeScan? || pc.WakeHeld?
  {
  }

  /** At some moment of the run process k is RUNNABLE. */
  ghost predicate SometimeRunnable(s: State, steps: seq<(nat, Choice)>, k: nat)
    requires Run(s, steps)
    decreases |steps|
  {
    || (k < |s.procs| && s.procs[k].state == RUNNABLE)
    || (steps != [] && SometimeRunnable(Step(s, steps[0].0, steps[0].1), steps[1..], k))
  }

  lemma {:induction false} WakeupPasses(s: State, steps: seq<(nat, Choice)>, i: nat, id: nat, k: nat)
    requires Inv(s) && Rest(s) && Run(s, steps) && Sized(s) && i < |s.pc| && k < |s.procs| && k != i
    requires WakePending(s.pc[i], id, k) && AsleepOn(s, k, id)
    requires |After(s, steps).pc| == |s.pc| && !WakePending(After(s, steps).pc[i], id, k)
    ensures SometimeRunnable(s, steps, k)
    decreases |steps|
  {
    hide Inv, Rest, AsleepOn, WakePending, Step, Enabled;
    if steps != [] {
      EnabledCpu(s, steps[0].0, steps[0].1);
      StillToWake(s, steps[0].0, i, steps[0].1, id, k);
      AnyStepKeeps(s, steps[0].0, steps[0].1);
      var t := Step(s, steps[0].0, steps[0].1);
      if t.procs[k].state != RUNNABLE {
        WakeupPasses(t, steps[1..], i, id, k);
      } else {
        assert SometimeRunnable(t, steps[1..], k);
      }
    }
  }

  /** A wakeup reaches every sleeper: when the scan of wakeup(id) has got past the slot of a process that was asleep on
      id, that process has been RUNNABLE in the meantime, whatever the other CPUs did. */
  lemma WakeupReachesAll(s: State, steps: seq<(nat, Choice)>, i: nat, id: nat, k: nat)
    requires Reachable(s) && Run(s, steps) && Sized(s) && i < |s.pc| && k < |s.procs| && k != i
    requires WakePending(s.pc[i], id, k) && AsleepOn(s, k, id)
    requires |After(s, steps).pc| == |s.pc| && !WakePending(After(s, steps).pc[i], id, k)
    ensures SometimeRunnable(s, steps, k)
  {
    hide Inv, Rest, AsleepOn, WakePending, Step, Enabled;
    ReachableRest(s);
    WakeupPasses(s, steps, i, id, k);
  }

  // ---------------------------------------------------------------- fork and kill look at every slot

  datatype Search = ForFork | ForKill

  /** The slot a search has got to. */
  function Reached(pc: Pc, search: Search): Option<nat> {
    match Core(pc)
    case ForkScan(j) => if search.ForFork? then Some(j) else None
    case ForkScanHeld(j) => if search.ForFork? then Some(j) else None
    case KillScan(j) => if search.ForKill? then Some(j) else None
    case KillHeld(j) => if search.ForKill? then Some(j) else None
    case _ => None
  }

  predicate Passed(pc: Pc, search: Search, j: nat) {
    Reached(pc, search).Some? && Reached(pc, search).value > j
  }

  /** Process i has slot j locked in its search, and passes it over. */
  ghost predicate Looks(s: State, i: nat, search: Search, j: nat) {
    && Sized(s) && i < |s.pc| && j < |s.procs|
    && (search.ForFork? ==> s.pc[i] == ForkScanHeld(j) && s.procs[j].state != UNUSED)
    && (search.ForKill? ==> s.pc[i] == KillHeld(j))
  }

  lemma CallLooks(s: State, c: nat, i: nat, ch: Choice, search: Search, j: nat)
    requires Runs(s, c, i) && CallEnabled(s, c, i, ch) && Passed(CallStep(s, c, i, ch).pc[i], search, j)
    ensures Passed(s.pc[i], search, j)
  {
  }

  lemma SignalLooks(s: State, c: nat, i: nat, ch: Choice, search: Search, j: nat)
    requires Runs(s, c, i) && SignalEnabled(s, c, i) && Passed(SignalStep(s, c, i, ch).pc[i], search, j)
    ensures Passed(s.pc[i], search, j) || Looks(s, i, search, j)
  {
  }

  lemma ForkLooks(s: State, c: nat, i: nat, ch: Choice, search: Search, j: nat)
    requires Runs(s, c, i) && ForkEnabled(s, c, i) && BuildOk(s, i) && Passed(ForkStep(s, c, i, ch).pc[i], search, j)
    ensures Passed(s.pc[i], search, j) || Looks(s, i, search, j)
  {
  }

  lemma ExitLooks(s: State, c: nat, i: nat, search: Search, j: nat)
    requires Runs(s, c, i) && ThreadOk(s, i) && ExitEnabled(s, c, i)
    ensures |ExitStep(s, c, i).pc| == |s.pc| && !Passed(ExitStep(s, c, i).pc[i], search, j)
  {
  }

  lemma WaitLooks(s: State, c: nat, i: nat, ch: Choice, search: Search, j: nat)
    requires Runs(s, c, i) && WaitEnabled(s, c, i)
    ensures |WaitStep(s, c, i, ch).pc| == |s.pc| && !Passed(WaitStep(s, c, i, ch).pc[i], search, j)
  {
  }

  lemma SleepLooks(s: State, c: nat, i: nat, search: Search, j: nat)
    requires Runs(s, c, i) && ThreadOk(s, i) && SleepEnabled(s, c, i)
    ensures |SleepStep(s, c, i).pc| == |s.pc|
    ensures Passed(SleepStep(s, c, i).pc[i], search, j) ==> Passed(s.pc[i], search, j)
  {
  }

  lemma MoverLooks(s: State, c: nat, i: nat, ch: Choice, search: Search, j: nat)
    requires Inv(s) && Rest(s) && Runs(s, c, i) && Enabled(s, c, ch)
    requires |Step(s, c, ch).pc| == |s.pc| && Passed(Step(s, c, ch).pc[i], search, j)
    ensures Passed(s.pc[i], search, j) || Looks(s, i, search, j)
  {
    hide Locks, Family, Wake, Builders, KidsOk, BuildOk, ThreadOk, SlotKept, Passed, Looks,
      ExitStep, WaitStep, SleepStep, ForkStep, SignalStep, CallStep;
    LifeAt(s, i);
    if (ch == Preempt || ch.Interrupt?) && CallEnabled(s, c, i, ch) {
      CallLooks(s, c, i, ch, search, j);
    } else if ExitEnabled(s, c, i) {
      ExitLooks(s, c, i, search, j);
    } else if WaitEnabled(s, c, i) {
      WaitLooks(s, c, i, ch, search, j);
    } else if SleepEnabled(s, c, i) {
      SleepLooks(s, c, i, search, j);
    } else if ForkEnabled(s, c, i) {
      ForkLooks(s, c, i, ch, search, j);
    } else if SignalEnabled(s, c, i) {
      SignalLooks(s, c, i, ch, search, j);
    } else {
      CallLooks(s, c, i, ch, search, j);
    }
  }

  /** A search gets past a slot only by looking at it. */
  lemma StepLooks(s: State, c: nat, ch: Choice, i: nat, search: Search, j: nat)
    requires Inv(s) && Rest(s) && Enabled(s, c, ch) && Sized(s) && c < |s.cpu| && i < |s.pc|
    ensures |Step(s, c, ch).pc| == |s.pc|
    ensures Passed(Step(s, c, ch).pc[i], search, j) ==> Passed(s.pc[i], search, j) || Looks(s, i, search, j)
  {
    hide Inv, Looks, Passed, KidsOk, SlotKept, SchedStep, SchedLaw, Laws, ThreadLaw;
    if SchedEnabled(s, c, ch) {
      SchedObeys(s, c, ch);
      SchedPassesNothing(s, SchedStep(s, c, ch), i, search, j);
    } else {
      var y := s.cpu[c].place.i;
      assert KidsOk(s, y);
      KidsHeld(s, y);
      StepLaws(s, c, y, ch);
      LawsAt(s, Step(s, c, ch), y, i);
      OthersPassNothing(s, Step(s, c, ch), y, i, search, j);
      if y == i && Passed(Step(s, c, ch).pc[i], search, j) {
        MoverLooks(s, c, i, ch, search, j);
      }
    }
  }

  lemma SchedPassesNothing(s: State, t: State, i: nat, search: Search, j: nat)
    requires SchedLaw(s, t) && i < |s.pc|
    ensures |t.pc| == |s.pc| && (Passed(t.pc[i], search, j) ==> Passed(s.pc[i], search, j))
  {
  }

  lemma OthersPassNothing(s: State, t: State, y: nat, i: nat, search: Search, j: nat)
    requires ThreadLaw(s, t, y) && i < |s.pc|
    ensures |t.pc| == |s.pc| && (i != y && Passed(t.pc[i], search, j) ==> Passed(s.pc[i], search, j))
  {
  }

  ghost predicate SometimeLooks(s: State, steps: seq<(nat, Choice)>, i: nat, search: Search, j: nat)
    requires Run(s, steps)
    decreases |steps|
  {
    Looks(s, i, search, j) || (steps != [] && SometimeLooks(Step(s, steps[0].0, steps[0].1), steps[1..], i, search, j))
  }

  lemma {:induction false} RunLooks(s: State, steps: seq<(nat, Choice)>, i: nat, search: Search, j: nat)
    requires Inv(s) && Rest(s) && Run(s, steps) && Sized(s) && i < |s.pc| == |After(s, steps).pc|
    requires !Passed(s.pc[i], search, j) && Passed(After(s, steps).pc[i], search, j)
    ensures SometimeLooks(s, steps, i, search, j)
    decreases |steps|
  {
    hide Inv, Rest, Passed, Looks, Step, Enabled;
    if steps != [] {
      var t := Step(s, steps[0].0, steps[0].1);
      EnabledCpu(s, steps[0].0, steps[0].1);
      StepLooks(s, steps[0].0, steps[0].1, i, search, j);
      AnyStepKeeps(s, steps[0].0, steps[0].1);
      if !Passed(t.pc[i], search, j) {
        InvSized(t);
        RunLooks(t, steps[1..], i, search, j);
      }
    }
  }

  lemma InvSized(s: State)
    requires Inv(s)
    ensures Sized(s)
  {
    hide Locks, Family, Wake;
  }

  /** fork and kill leave no slot out: a search that began outside fork or kill and has got past slot j has, at some moment
      in between, held that slot's lock and looked at it; fork then found it in use. So fork gives up for want of a slot
      only when it has seen every slot in use. */
  lemma SearchLooksEverywhere(s: State, steps: seq<(nat, Choice)>, i: nat, search: Search, j: nat)
    requires Reachable(s) && Run(s, steps) && Sized(s) && i < |s.pc| == |After(s, steps).pc|
    requires s.pc[i] == Free && Passed(After(s, steps).pc[i], search, j)
    ensures SometimeLooks(s, steps, i, search, j)
  {
    hide Inv, Rest, Looks, Step, Enabled;
    ReachableRest(s);
    RunLooks(s, steps, i, search, j);
  }

  // ---------------------------------------------------------------- an idle CPU finds work

  ghost predicate NoLocks(s: State) {
    forall x :: 0 <= x < |s.lock| ==> s.lock[x] == None
  }

  /** All the steps are CPU c's. */
  predicate Solo(steps: seq<(nat, Choice)>, c: nat) {
    forall x :: 0 <= x < |steps| ==> steps[x].0 == c
  }

  /** Slots the scan still passes before it is at slot j, going round once. */
  function Distance(a: nat, j: nat, n: nat): nat {
    if a <= j then j - a else Minus(n, a) + 1 + j
  }

  lemma RunPrepend(s: State, c: nat, ch: Choice, rest: seq<(nat, Choice)>)
    requires Enabled(s, c, ch) && Run(Step(s, c, ch), rest) && Solo(rest, c)
    ensures Run(s, [(c, ch)] + rest) && Solo([(c, ch)] + rest, c)
    ensures After(s, [(c, ch)] + rest) == After(Step(s, c, ch), rest)
  {
    var steps := [(c, ch)] + rest;
    assert steps[0] == (c, ch) && steps[1..] == rest;
  }

  /** An idle CPU left to itself finds work: if some process is RUNNABLE and no lock is held, its scheduler comes to run a
      process, wherever in the table its scan was. */
  lemma {:induction false} IdleCpuFindsWork(s: State, c: nat, a: nat, j: nat) returns (steps: seq<(nat, Choice)>)
    requires Sized(s) && c < |s.cpu| && s.cpu[c].place == InScheduler(AtLock(a)) && NoLocks(s)
    requires j < |s.procs| && s.procs[j].state == RUNNABLE
    ensures Run(s, steps) && Solo(steps, c) && c < |After(s, steps).cpu|
    ensures var t := After(s, steps);
            && t.cpu[c].place.InProcess? && t.cpu[c].cur == Some(t.cpu[c].place.i)
            && t.cpu[c].place.i < |s.procs| == |t.procs| && s.procs[t.cpu[c].place.i].state == RUNNABLE
            && t.procs[t.cpu[c].place.i].state == RUNNING
    decreases Distance(a, j, |s.procs|)
  {
    var t := Step(s, c, Go);
    assert SchedEnabled(s, c, Go);
    if a >= |s.procs| {
      steps := IdleCpuFindsWork(t, c, 0, j);
      RunPrepend(s, c, Go, steps);
      steps := [(c, Go)] + steps;
    } else {
      var u := Step(t, c, Go);
      assert SchedEnabled(t, c, Go);
      if s.procs[a].state == RUNNABLE {
        steps := [];
        assert Run(u, []);
      } else {
        steps := IdleCpuFindsWork(u, c, a + 1, j);
      }
      RunPrepend(t, c, Go, steps);
      steps := [(c, Go)] + steps;
      RunPrepend(s, c, Go, steps);
      steps := [(c, Go)] + steps;
    }
  }

  // ---------------------------------------------------------------- the scan of a scheduler is in order

  /** The slot CPU c's scan has got to, or whose process it runs. */
  function Spot(place: Place): nat {
    match place
    case InScheduler(AtLock(i)) => i
    case InScheduler(Check(i)) => i
    case InScheduler(Back(i)) => i
    case InProcess(i) => i
  }

  /** Going round the table from just after slot i, the scan has not got past slot j. */
  predicate Between(i: nat, j: nat, place: Place) {
    var x := Spot(place);
    if i < j then i < x <= j else i < x || x <= j
  }

  lemma ScanMoves(s: State, c: nat, d: nat, ch: Choice, i: nat, j: nat)
    requires Enabled(s, d, ch) && c < |s.cpu| && i != j && j < |s.procs| && Between(i, j, s.cpu[c].place)
    requires s.cpu[c].place != InScheduler(Check(j))
    requires s.cpu[c].place != InProcess(j) && s.cpu[c].place != InScheduler(Back(j))
    ensures var t := Step(s, d, ch);
            && |t.cpu| == |s.cpu| && |t.procs| == |s.procs| && Between(i, j, t.cpu[c].place)
            && t.cpu[c].place != InProcess(j) && t.cpu[c].place != InScheduler(Back(j))
  {
    hide ExitStep, WaitStep, ForkStep, SignalStep, CallStep;
    if SchedEnabled(s, d, ch) {
      hide SleepStep;
    } else {
      SameCpus(s, d, s.cpu[d].place.i, ch);
    }
  }

  /** Only a switch to the scheduler changes what a CPU that runs a process executes. */
  lemma SameCpus(s: State, c: nat, i: nat, ch: Choice)
    requires Runs(s, c, i) && Enabled(s, c, ch)
    ensures var t := Step(s, c, ch);
            |t.procs| == |s.procs| && (t.cpu == s.cpu || t.cpu == s.cpu[c := Cpu(s.cpu[c].cur, InScheduler(Back(i)))])
  {
    CpusInCalls(s, c, i, ch);
    CpusInFork(s, c, i, ch);
  }

  lemma CpusInCalls(s: State, c: nat, i: nat, ch: Choice)
    requires Runs(s, c, i)
    ensures ExitEnabled(s, c, i) ==> ExitStep(s, c, i).cpu == s.cpu && |ExitStep(s, c, i).procs| == |s.procs|
    ensures WaitEnabled(s, c, i) ==> WaitStep(s, c, i, ch).cpu == s.cpu && |WaitStep(s, c, i, ch).procs| == |s.procs|
    ensures CallEnabled(s, c, i, ch) ==> CallStep(s, c, i, ch).cpu == s.cpu && |CallStep(s, c, i, ch).procs| == |s.procs|
  {
  }

  lemma CpusInFork(s: State, c: nat, i: nat, ch: Choice)
    requires Runs(s, c, i)
    ensures ForkEnabled(s, c, i) ==> ForkStep(s, c, i, ch).cpu == s.cpu && |ForkStep(s, c, i, ch).procs| == |s.procs|
    ensures SignalEnabled(s, c, i) ==>
              SignalStep(s, c, i, ch).cpu == s.cpu && |SignalStep(s, c, i, ch).procs| == |s.procs|
  {
  }

  /** At some moment of the run CPU c holds slot j's lock to see whether it is RUNNABLE. */
  ghost predicate SometimeChecks(s: State, steps: seq<(nat, Choice)>, c: nat, j: nat)
    requires Run(s, steps)
    decreases |steps|
  {
    || (c < |s.cpu| && s.cpu[c].place == InScheduler(Check(j)))
    || (steps != [] && SometimeChecks(Step(s, steps[0].0, steps[0].1), steps[1..], c, j))
  }

  lemma {:induction false} ScanRun(s: State, steps: seq<(nat, Choice)>, c: nat, i: nat, j: nat)
    requires Run(s, steps) && c < |s.cpu| && i != j && i < |s.procs| && j < |s.procs| && Between(i, j, s.cpu[c].place)
    requires s.cpu[c].place != InProcess(j) && s.cpu[c].place != InScheduler(Back(j))
    requires c < |After(s, steps).cpu| && After(s, steps).cpu[c].place == InScheduler(Check(i))
    ensures SometimeChecks(s, steps, c, j)
    decreases |steps|
  {
    hide Step, Enabled;
    if steps != [] && s.cpu[c].place != InScheduler(Check(j)) {
      ScanMoves(s, c, steps[0].0, steps[0].1, i, j);
      ScanRun(Step(s, steps[0].0, steps[0].1), steps[1..], c, i, j);
    }
  }

  /** Round robin: a CPU that has just had slot i's process comes back to slot i only after looking at every other slot,
      so a process that stays RUNNABLE is not passed over while another runs twice. */
  lemma RoundRobin(s: State, c: nat, ch: Choice, steps: seq<(nat, Choice)>, i: nat, j: nat)
    requires SchedEnabled(s, c, ch) && s.cpu[c].place == InScheduler(Back(i)) && i != j && i < |s.procs| && j < |s.procs|
    requires Run(Step(s, c, ch), steps)
    requires c < |After(Step(s, c, ch), steps).cpu|
    requires After(Step(s, c, ch), steps).cpu[c].place == InScheduler(Check(i))
    ensures SometimeChecks(Step(s, c, ch), steps, c, j)
  {
    ScanRun(Step(s, c, ch), steps, c, i, j);
  }

  // ---------------------------------------------------------------- calls begin and end

  /** A call puts its process into the function called. */
  lemma CallsBegin(s: State, c: nat, i: nat, ch: Choice)
    requires Runs(s, c, i) && s.pc[i] == Free && Enabled(s, c, ch)
    ensures var t := Step(s, c, ch);
            && |t.pc| == |s.pc|
            && (ch == CallExit ==> ExitPc(t.pc[i])) && (ch == CallWait ==> InWaitCall(t.pc[i]))
            && (ch.CallSleep? ==> InSleepOn(t.pc[i], ch.id))
  {
  }

  /** A process that has called exit never gets out of it: in the end it has no thread any more. */
  lemma ExitIsFinal(s: State, c: nat, ch: Choice, x: nat)
    requires Reachable(s) && Enabled(s, c, ch) && x < |s.pc| && ExitPc(s.pc[x])
    ensures var t := Step(s, c, ch); |t.pc| == |s.pc| && (ExitPc(t.pc[x]) || t.pc[x] == NoThread)
  {
    hide Life, Family, Wake, KidsOk, SlotKept, SchedStep;
    ReachableRest(s);
    if SchedEnabled(s, c, ch) {
      SchedObeys(s, c, ch);
      InvThread(s, x);
    } else {
      var y := s.cpu[c].place.i;
      KidsHeld(s, y);
      StepLaws(s, c, y, ch);
      LawsAt(s, Step(s, c, ch), y, x);
      if y == x {
        InvThread(s, x);
        ExitGoesOn(s, c, x, ch);
      }
    }
  }

  lemma ExitGoesOn(s: State, c: nat, i: nat, ch: Choice)
    requires Inv(s) && Runs(s, c, i) && Enabled(s, c, ch) && ExitPc(s.pc[i]) && SavedOk(s.pc[i])
    ensures |Step(s, c, ch).pc| == |s.pc| && ExitPc(Step(s, c, ch).pc[i])
  {
    hide Inv, ExitStep, WaitStep, SleepStep, ForkStep, SignalStep, CallStep;
    if Core(s.pc[i]) != s.pc[i] || ((ch == Preempt || ch.Interrupt?) && CallEnabled(s, c, i, ch)) {
      PlaceKept(s, c, i, ch, i);
      CoreOfCore(Step(s, c, ch).pc[i]);
      CoreOfCore(s.pc[i]);
    } else if ExitEnabled(s, c, i) {
      ExitStays(s, c, i);
    } else {
      LastSwitch(s, c, i, ch);
    }
  }

  lemma CoreOfCore(pc: Pc)
    ensures ExitPc(pc) == ExitPc(Core(pc)) || Core(pc) != Core(Core(pc))
    ensures SavedOk(pc) ==> Core(Core(pc)) == Core(pc)
  {
  }

  lemma ExitStays(s: State, c: nat, i: nat)
    requires Runs(s, c, i) && ExitEnabled(s, c, i)
    ensures |ExitStep(s, c, i).pc| == |s.pc| && ExitPc(ExitStep(s, c, i).pc[i])
  {
  }

  lemma LastSwitch(s: State, c: nat, i: nat, ch: Choice)
    requires Runs(s, c, i) && Enabled(s, c, ch) && ExitPc(s.pc[i]) && SavedOk(s.pc[i]) && Core(s.pc[i]) == s.pc[i]
    requires !ExitEnabled(s, c, i) && !((ch == Preempt || ch.Interrupt?) && CallEnabled(s, c, i, ch))
    ensures |Step(s, c, ch).pc| == |s.pc| && ExitPc(Step(s, c, ch).pc[i])
  {
    hide ExitStep, WaitStep, ForkStep, SignalStep, CallStep;
  }

  /** Inside sleep on an ordinary channel, from the call to the return. */
  predicate InSleepOn(pc: Pc, id: nat) {
    match pc
    case SleepLock(why) => why == OnChan(id)
    case SleepRelease(why) => why == OnChan(id)
    case SleepSet(why) => why == OnChan(id)
    case Switch(r) => r == ToSleep(OnChan(id))
    case Parked(r) => r == ToSleep(OnChan(id))
    case Resumed(r) => r == ToSleep(OnChan(id))
    case _ => false
  }

  /** sleep returns only through the switch: a step leaves its caller in it, unless it was resumed, which a scheduler does
      only once somebody has made it RUNNABLE. */
  lemma SleepLasts(s: State, c: nat, ch: Choice, x: nat, id: nat)
    requires Reachable(s) && Enabled(s, c, ch) && x < |s.pc| == |s.procs| && InSleepOn(s.pc[x], id)
    ensures var t := Step(s, c, ch);
            && |t.pc| == |s.pc|
            && (InSleepOn(t.pc[x], id) || (s.pc[x] == Resumed(ToSleep(OnChan(id))) && t.pc[x] == Free))
            && (s.pc[x].Parked? && !t.pc[x].Parked? ==> s.procs[x].state == RUNNABLE)
  {
    hide Life, Family, Wake, KidsOk, SlotKept, SchedStep;
    ReachableRest(s);
    if SchedEnabled(s, c, ch) {
      SchedObeys(s, c, ch);
    } else {
      var y := s.cpu[c].place.i;
      KidsHeld(s, y);
      StepLaws(s, c, y, ch);
      LawsAt(s, Step(s, c, ch), y, x);
      if y == x {
        InvThread(s, x);
        SleepGoesOn(s, c, x, ch, id);
      }
    }
  }

  lemma SleepGoesOn(s: State, c: nat, i: nat, ch: Choice, id: nat)
    requires Runs(s, c, i) && Enabled(s, c, ch) && InSleepOn(s.pc[i], id) && SavedOk(s.pc[i])
    ensures var t := Step(s, c, ch);
            && |t.pc| == |s.pc| && !s.pc[i].Parked?
            && (InSleepOn(t.pc[i], id) || (s.pc[i] == Resumed(ToSleep(OnChan(id))) && t.pc[i] == Free))
  {
    hide ExitStep, WaitStep, ForkStep, SignalStep, CallStep;
  }

  /** The timer takes the CPU away: unless someone holds the process's lock, four steps of CPU c leave it in its scheduler
      with the process RUNNABLE and parked at the place where it was. */
  lemma PreemptionGivesUpTheCpu(s: State, c: nat, i: nat)
    requires Runs(s, c, i) && Interruptible(s.pc[i]) && s.lock[i].None?
    ensures var steps := [(c, Preempt), (c, Go), (c, Go), (c, Go)];
            Run(s, steps) &&
            var t := After(s, steps);
            && |t.cpu| == |s.cpu| && t.cpu[c].place == InScheduler(Back(i))
            && |t.pc| == |t.procs| == |s.pc| && t.procs[i].state == RUNNABLE && t.pc[i] == Parked(ToYield(s.pc[i]))
  {
    hide Step, Enabled;
    var a := PreemptStep(s, c, i);
    var b := YieldLockStep(a, c, i, s.pc[i]);
    var d := YieldSetStep(b, c, i, s.pc[i]);
    var t := SwitchStep(d, c, i);
    RunPrepend(d, c, Go, []);
    RunPrepend(b, c, Go, [(c, Go)] + []);
    RunPrepend(a, c, Go, [(c, Go)] + ([(c, Go)] + []));
    RunPrepend(s, c, Preempt, [(c, Go)] + ([(c, Go)] + ([(c, Go)] + [])));
    assert [(c, Preempt)] + ([(c, Go)] + ([(c, Go)] + ([(c, Go)] + []))) == [(c, Preempt), (c, Go), (c, Go), (c, Go)];
  }

  lemma PreemptStep(s: State, c: nat, i: nat) returns (t: State)
    requires Runs(s, c, i) && Interruptible(s.pc[i])
    ensures Enabled(s, c, Preempt) && t == Step(s, c, Preempt) == At(s, i, YieldLock(s.pc[i]))
  {
    assert ProcEnabled(s, c, i, Preempt);
    t := Step(s, c, Preempt);
  }

  lemma YieldLockStep(s: State, c: nat, i: nat, saved: Pc) returns (t: State)
    requires Runs(s, c, i) && s.pc[i] == YieldLock(saved) && s.lock[i].None?
    ensures Enabled(s, c, Go) && t == Step(s, c, Go) == At(Acquire(s, c, i), i, YieldSet(saved))
  {
    assert ProcEnabled(s, c, i, Go);
    t := Step(s, c, Go);
  }

  lemma YieldSetStep(s: State, c: nat, i: nat, saved: Pc) returns (t: State)
    requires Runs(s, c, i) && s.pc[i] == YieldSet(saved)
    ensures Enabled(s, c, Go)
    ensures t == Step(s, c, Go) == At(Store(s, i, s.procs[i].(state := RUNNABLE)), i, Switch(ToYield(saved)))
  {
    assert ProcEnabled(s, c, i, Go);
    t := Step(s, c, Go);
  }

  lemma SwitchStep(s: State, c: nat, i: nat) returns (t: State)
    requires Runs(s, c, i) && s.pc[i].Switch?
    ensures Enabled(s, c, Go) && t == Step(s, c, Go)
    ensures |t.cpu| == |s.cpu| && t.cpu[c].place == InScheduler(Back(i)) && t.procs == s.procs
    ensures t.pc == s.pc[i := Parked(s.pc[i].resume)]
  {
    assert ProcEnabled(s, c, i, Go);
    t := Step(s, c, Go);
  }
}
