/** What every critical section of the Lab 2 process table keeps: a tree of processes rooted at init, distinct
    pids, one CPU per running process, a ticket for every live process, and no lost wakeup. */
module ProcInvariant {
  import opened Rand
  import opened Lottery
  import opened ProcTable

  /** Tables have their fixed sizes and init is a live process without a parent. */
  ghost predicate Shape(s: State) {
    && |s.proc| == NPROC
    && s.initproc < NPROC
    && Alive(s.proc[s.initproc])
    && s.proc[s.initproc].parent == None
  }

  /** Slots that are not UNUSED have a pid already handed out; no two slots share a non-zero pid, and init's is least. */
  ghost predicate Pids(s: State)
    requires Shape(s)
  {
    && (forall i :: 0 <= i < NPROC && s.proc[i].state != UNUSED ==> s.proc[i].pid >= 1)
    && (forall i :: 0 <= i < NPROC && s.proc[i].pid >= 1 ==>
          s.proc[s.initproc].pid <= s.proc[i].pid < s.nextpid)
    && (forall i, j :: 0 <= i < j < NPROC && s.proc[i].pid >= 1 ==> s.proc[i].pid != s.proc[j].pid)
  }

  ghost predicate ParentOk(s: State, i: nat)
    requires Shape(s) && i < NPROC
  {
    && s.proc[i].parent.Some?
    && s.proc[i].parent.value < NPROC
    && Alive(s.proc[s.proc[i].parent.value])
    && s.proc[s.proc[i].parent.value].pid < s.proc[i].pid
  }

  /** Every live or zombie process but init has a live parent with a smaller pid; free slots have none. */
  ghost predicate Parents(s: State)
    requires Shape(s)
  {
    && (forall i :: 0 <= i < NPROC && i != s.initproc && (Alive(s.proc[i]) || s.proc[i].state == ZOMBIE) ==> ParentOk(s, i))
    && (forall i :: 0 <= i < NPROC && s.proc[i].state == UNUSED ==> s.proc[i].parent == None)
  }

  ghost predicate BuilderOk(s: State, p: nat)
    requires Shape(s) && p in s.building
  {
    var b := s.building[p];
    && p < NPROC && Alive(s.proc[p])
    && b.slot < NPROC && s.proc[b.slot].state == EMBRYO
    && s.proc[b.slot].parent == (if b.parentSet then Some(p) else None)
    && s.proc[p].pid < s.proc[b.slot].pid
  }

  /** Every EMBRYO is being built by exactly one live process, older than it. */
  ghost predicate Builders(s: State)
    requires Shape(s)
  {
    && (forall p :: p in s.building ==> BuilderOk(s, p))
    && (forall p, q :: p in s.building && q in s.building && p != q ==> s.building[p].slot != s.building[q].slot)
    && (forall i :: 0 <= i < NPROC && s.proc[i].state == EMBRYO ==> exists p :: p in s.building && s.building[p].slot == i)
  }

  /** RUNNING processes and CPUs with a non-null `proc` match one-to-one. */
  ghost predicate Cpus(s: State)
    requires Shape(s)
  {
    && (forall c :: 0 <= c < |s.cpu| && s.cpu[c].Some? ==> s.cpu[c].value < NPROC && s.proc[s.cpu[c].value].state == RUNNING)
    && (forall c, d :: 0 <= c < d < |s.cpu| && s.cpu[c].Some? ==> s.cpu[c] != s.cpu[d])
    && (forall i :: 0 <= i < NPROC && s.proc[i].state == RUNNING ==> exists c :: 0 <= c < |s.cpu| && s.cpu[c] == Some(i))
  }

  /** Asleep in `wait`: sleeping on its own slot. */
  ghost predicate InWait(s: State, i: nat)
    requires Shape(s) && i < NPROC
  {
    s.proc[i].state == SLEEPING && s.proc[i].chan == ProcChan(i)
  }

  /** Only sleepers and processes woken but not yet resumed carry a channel; a process asleep in `wait` sleeps on
      its own slot and has no ZOMBIE child. */
  ghost predicate Sleepers(s: State)
    requires Shape(s)
  {
    && (forall i :: 0 <= i < NPROC && s.proc[i].state != SLEEPING && s.proc[i].state != RUNNABLE ==> s.proc[i].chan == NoChan)
    && (forall i :: 0 <= i < NPROC && s.proc[i].chan.ProcChan? ==> s.proc[i].chan.slot == i)
    && (forall j :: 0 <= j < NPROC && s.proc[j].state == ZOMBIE && s.proc[j].parent.Some? && s.proc[j].parent.value < NPROC ==>
          !InWait(s, s.proc[j].parent.value))
  }

  ghost predicate Ticketed(s: State)
    requires Shape(s)
  {
    forall i :: 0 <= i < NPROC && s.proc[i].state != UNUSED ==> s.proc[i].tickets >= 1
  }

  ghost predicate NoDuplicates(log: seq<nat>) {
    forall i, j :: 0 <= i < j < |log| ==> log[i] != log[j]
  }

  /** Every exit is in the log once; a pid that exited is either still held by a ZOMBIE or has been reaped once. */
  ghost predicate Logged(s: State)
    requires Shape(s)
  {
    && NoDuplicates(s.exits) && NoDuplicates(s.reaps)
    && (forall pid :: pid in s.exits ==> 1 <= pid < s.nextpid)
    && (forall pid :: pid in s.reaps ==> pid in s.exits)
    && (forall i :: 0 <= i < NPROC && s.proc[i].pid >= 1 ==> s.proc[i].pid !in s.reaps)
    && (forall i :: 0 <= i < NPROC && s.proc[i].pid >= 1 ==> (s.proc[i].pid in s.exits <==> s.proc[i].state == ZOMBIE))
    && (forall pid :: pid in s.exits && pid !in s.reaps ==>
          exists i :: 0 <= i < NPROC && s.proc[i].pid == pid && s.proc[i].state == ZOMBIE)
  }

  /** The three groups of facts are kept separately. */
  ghost predicate Tree(s: State) {
    Shape(s) && Pids(s) && Parents(s)
  }

  ghost predicate Forks(s: State) {
    Shape(s) && Builders(s) && Ticketed(s) && Logged(s)
  }

  ghost predicate Sched(s: State) {
    Shape(s) && Cpus(s) && Sleepers(s)
  }

  ghost predicate Inv(s: State) {
    Tree(s) && Forks(s) && Sched(s)
  }

  // ---------------------------------------------------------------- runs

  datatype Op =
    | Alloc(c: nat) | ForkFail(c: nat) | ForkCopy(c: nat) | ForkCommit(c: nat)
    | Exit(c: nat) | Wait(c: nat) | Sleep(c: nat, chan: nat) | Yield(c: nat)
    | Wakeup(chan: nat) | Kill(pid: nat) | SetTickets(c: nat, number: int)
    | CpuStart(c: nat) | Schedule(c: nat)

  /** A process inside `fork` has not returned to its caller, so it starts no other system call. */
  ghost predicate Idle(s: State, c: nat) {
    OnCpu(s, c) && My(s, c) !in s.building
  }

  ghost predicate Forking(s: State, c: nat) {
    OnCpu(s, c) && My(s, c) in s.building && s.building[My(s, c)].slot < |s.proc|
  }

  /** Which critical sections the code can reach: the scheduler runs on CPUs without a process, everything else on
      CPUs with one; init never exits (line 241); kernel code outside `wait` never sleeps or wakes on a process slot. */
  ghost predicate Enabled(s: State, op: Op) {
    match op
    case Alloc(c) => Idle(s, c)
    case ForkFail(c) => Forking(s, c) && !s.building[My(s, c)].parentSet
    case ForkCopy(c) => Forking(s, c) && !s.building[My(s, c)].parentSet
    case ForkCommit(c) => Forking(s, c) && s.building[My(s, c)].parentSet
    case Exit(c) => Idle(s, c) && My(s, c) != s.initproc
    case Wait(c) => Idle(s, c)
    case Sleep(c, _) => OnCpu(s, c)
    case Yield(c) => OnCpu(s, c)
    case Wakeup(_) => true
    case Kill(_) => true
    case SetTickets(c, _) => Idle(s, c)
    case CpuStart(c) => c < |s.cpu| && s.cpu[c] == None
    case Schedule(c) => c < |s.cpu| && s.cpu[c] == None
  }

  ghost function Apply(s: State, op: Op): State
    requires Enabled(s, op)
  {
    match op
    case Alloc(c) => AllocStep(s, c)
    case ForkFail(c) => ForkFailStep(s, c)
    case ForkCopy(c) => ForkCopyStep(s, c)
    case ForkCommit(c) => ForkCommitStep(s, c)
    case Exit(c) => ExitStep(s, c)
    case Wait(c) => WaitStep(s, c)
    case Sleep(c, chan) => SleepStep(s, c, OtherChan(chan))
    case Yield(c) => YieldStep(s, c)
    case Wakeup(chan) => WakeupStep(s, OtherChan(chan))
    case Kill(pid) => KillStep(s, pid)
    case SetTickets(c, number) => SetTicketsStep(s, c, number)
    case CpuStart(c) => CpuStartStep(s, c)
    case Schedule(c) => ScheduleStep(s, c)
  }

  ghost predicate Run(s: State, ops: seq<Op>)
    decreases |ops|
  {
    ops == [] || (Enabled(s, ops[0]) && Run(Apply(s, ops[0]), ops[1..]))
  }

  ghost function After(s: State, ops: seq<Op>): State
    requires Run(s, ops)
    decreases |ops|
  {
    if ops == [] then s else After(Apply(s, ops[0]), ops[1..])
  }

  // ---------------------------------------------------------------- what keeps each part

  /** Same table size and init, and init has stayed alive and parentless. */
  ghost predicate Frame(s: State, t: State) {
    && Shape(s) && Shape(t) && t.initproc == s.initproc && s.nextpid <= t.nextpid
  }

  /** Slots keep their pid, lose it, or (slot j only) take the next one. */
  lemma PidsKept(s: State, t: State, j: nat)
    requires Frame(s, t) && Pids(s) && j < NPROC && s.proc[s.initproc].pid >= 1
    requires t.proc[s.initproc].pid == s.proc[s.initproc].pid
    requires forall i :: 0 <= i < NPROC && i != j ==> t.proc[i].pid == s.proc[i].pid
    requires t.proc[j].pid == s.proc[j].pid || t.proc[j].pid == 0 || (t.proc[j].pid == s.nextpid && s.nextpid < t.nextpid)
    requires forall i :: 0 <= i < NPROC && t.proc[i].state != UNUSED ==> t.proc[i].pid >= 1
    ensures Pids(t)
  {
  }

  /** A process that was not just adopted keeps its parent, and the parent is still alive. */
  ghost predicate KeepsParent(s: State, t: State, i: nat)
    requires Shape(s) && Shape(t) && i < NPROC
  {
    && (Alive(s.proc[i]) || s.proc[i].state == ZOMBIE)
    && t.proc[i].parent == s.proc[i].parent
    && t.proc[i].pid == s.proc[i].pid
  }

  ghost predicate ParentsStay(s: State, t: State)
    requires Shape(s) && Shape(t)
  {
    forall i :: 0 <= i < NPROC && Alive(s.proc[i]) ==> Alive(t.proc[i]) && t.proc[i].pid == s.proc[i].pid
  }

  lemma ParentsKept(s: State, t: State, j: nat)
    requires Frame(s, t) && Parents(s) && ParentsStay(s, t)
    requires forall i :: 0 <= i < NPROC && i != j && i != s.initproc && (Alive(t.proc[i]) || t.proc[i].state == ZOMBIE) ==> KeepsParent(s, t, i)
    requires j < NPROC && j != s.initproc && (Alive(t.proc[j]) || t.proc[j].state == ZOMBIE) ==> ParentOk(t, j)
    requires forall i :: 0 <= i < NPROC && t.proc[i].state == UNUSED ==> t.proc[i].parent == None
    ensures Parents(t)
  {
    forall i | 0 <= i < NPROC && i != j && i != s.initproc && (Alive(t.proc[i]) || t.proc[i].state == ZOMBIE)
      ensures ParentOk(t, i)
    {
      assert KeepsParent(s, t, i);
      assert ParentOk(s, i);
    }
  }

  /** Forks in progress other than p's keep their embryo. */
  lemma BuildersKept(s: State, t: State)
    requires Frame(s, t) && Builders(s) && ParentsStay(s, t)
    requires t.building == s.building
    requires forall i :: 0 <= i < NPROC && s.proc[i].state == EMBRYO ==>
               t.proc[i].state == EMBRYO && t.proc[i].parent == s.proc[i].parent && t.proc[i].pid == s.proc[i].pid
    requires forall i :: 0 <= i < NPROC && t.proc[i].state == EMBRYO ==> s.proc[i].state == EMBRYO
    ensures Builders(t)
  {
    forall p | p in t.building
      ensures BuilderOk(t, p)
    {
      assert BuilderOk(s, p);
    }
  }

  /** The fork of process p ends: its slot stops being an embryo. */
  lemma BuilderLeaves(s: State, t: State, p: nat)
    requires Frame(s, t) && Builders(s) && p in s.building && BuilderOk(s, p)
    requires t.building == s.building - {p}
    requires t.proc[s.building[p].slot].state != EMBRYO
    requires forall i :: 0 <= i < NPROC && i != s.building[p].slot ==> t.proc[i] == s.proc[i]
    ensures Builders(t)
  {
    forall q | q in t.building
      ensures BuilderOk(t, q)
    {
      assert BuilderOk(s, q);
    }
    forall i | 0 <= i < NPROC && t.proc[i].state == EMBRYO
      ensures exists q :: q in t.building && t.building[q].slot == i
    {
      var q :| q in s.building && s.building[q].slot == i;
      assert q in t.building;
    }
  }

  /** Process p starts a fork, or its fork stores the parent of its embryo. */
  lemma BuilderMoves(s: State, t: State, p: nat, b: Building)
    requires Frame(s, t) && Builders(s) && b.slot < NPROC && p < NPROC
    requires t.building == s.building[p := b] && BuilderOk(t, p)
    requires p in s.building ==> s.building[p].slot == b.slot
    requires p !in s.building ==> s.proc[b.slot].state == UNUSED
    requires forall i :: 0 <= i < NPROC && i != b.slot ==> t.proc[i] == s.proc[i]
    ensures Builders(t)
  {
    forall q | q in t.building
      ensures BuilderOk(t, q)
    {
      if q != p {
        assert BuilderOk(s, q);
      }
    }
    forall i | 0 <= i < NPROC && t.proc[i].state == EMBRYO
      ensures exists q :: q in t.building && t.building[q].slot == i
    {
      if i == b.slot {
        assert t.building[p].slot == i;
      } else {
        var q :| q in s.building && s.building[q].slot == i;
        assert t.building[q].slot == i;
      }
    }
  }

  lemma CpusKept(s: State, t: State)
    requires Frame(s, t) && Cpus(s) && t.cpu == s.cpu
    requires forall i :: 0 <= i < NPROC ==> (t.proc[i].state == RUNNING <==> s.proc[i].state == RUNNING)
    ensures Cpus(t)
  {
  }

  lemma CpuLeaves(s: State, t: State, c: nat)
    requires Frame(s, t) && Cpus(s) && OnCpu(s, c) && t.cpu == s.cpu[c := None]
    requires forall i :: 0 <= i < NPROC ==> (t.proc[i].state == RUNNING <==> s.proc[i].state == RUNNING && i != My(s, c))
    ensures Cpus(t)
  {
    forall i | 0 <= i < NPROC && t.proc[i].state == RUNNING
      ensures exists d :: 0 <= d < |t.cpu| && t.cpu[d] == Some(i)
    {
      var d :| 0 <= d < |s.cpu| && s.cpu[d] == Some(i);
      assert t.cpu[d] == Some(i);
    }
  }

  lemma CpuEnters(s: State, t: State, c: nat, p: nat)
    requires Frame(s, t) && Cpus(s) && c < |s.cpu| && s.cpu[c] == None && t.cpu == s.cpu[c := Some(p)]
    requires p < NPROC && s.proc[p].state != RUNNING
    requires forall i :: 0 <= i < NPROC ==> (t.proc[i].state == RUNNING <==> s.proc[i].state == RUNNING || i == p)
    ensures Cpus(t)
  {
    assert t.cpu[c] == Some(p);
    forall i | 0 <= i < NPROC && t.proc[i].state == RUNNING && i != p
      ensures exists d :: 0 <= d < |t.cpu| && t.cpu[d] == Some(i)
    {
      var d :| 0 <= d < |s.cpu| && s.cpu[d] == Some(i);
      assert t.cpu[d] == Some(i);
    }
  }

  /** No process falls asleep in `wait`, and no sleeper gains a ZOMBIE child. */
  lemma SleepersKept(s: State, t: State)
    requires Frame(s, t) && Sleepers(s)
    requires forall i :: 0 <= i < NPROC ==> t.proc[i].chan == NoChan || t.proc[i].chan == s.proc[i].chan || t.proc[i].chan.OtherChan?
    requires forall i :: 0 <= i < NPROC && t.proc[i].state != SLEEPING && t.proc[i].state != RUNNABLE ==> t.proc[i].chan == NoChan
    requires forall i :: 0 <= i < NPROC && InWait(t, i) ==> InWait(s, i)
    requires forall j :: 0 <= j < NPROC && t.proc[j].state == ZOMBIE ==> s.proc[j].state == ZOMBIE && t.proc[j].parent == s.proc[j].parent
    ensures Sleepers(t)
  {
  }

  /** No exit and no reap: slots keep their pid, or take a new one, and stay zombies or not. */
  lemma LogsKept(s: State, t: State)
    requires Frame(s, t) && Logged(s) && t.exits == s.exits && t.reaps == s.reaps
    requires forall i :: 0 <= i < NPROC ==>
               || (t.proc[i].pid == s.proc[i].pid && (t.proc[i].state == ZOMBIE <==> s.proc[i].state == ZOMBIE))
               || (t.proc[i].pid == s.nextpid && t.proc[i].state != ZOMBIE && s.proc[i].state != ZOMBIE)
    ensures Logged(t)
  {
  }

  /** The steps that only move live processes between SLEEPING, RUNNABLE and RUNNING. */
  ghost predicate Churn(s: State, t: State) {
    && |s.proc| == |t.proc|
    && t.nextpid == s.nextpid && t.initproc == s.initproc && t.building == s.building && t.exits == s.exits && t.reaps == s.reaps
    && forall i :: 0 <= i < |s.proc| ==>
         && t.proc[i].pid == s.proc[i].pid && t.proc[i].parent == s.proc[i].parent
         && (t.proc[i].tickets == s.proc[i].tickets || t.proc[i].tickets >= 1)
         && (t.proc[i].state == s.proc[i].state || (Alive(t.proc[i]) && Alive(s.proc[i])))
  }

  lemma ChurnKeepsTree(s: State, t: State)
    requires Tree(s) && Churn(s, t)
    ensures Frame(s, t) && Tree(t)
  {
    PidsKept(s, t, 0);
    ParentsKept(s, t, NPROC);
  }

  lemma ChurnKeepsForks(s: State, t: State)
    requires Frame(s, t) && Forks(s) && Churn(s, t)
    ensures Forks(t)
  {
    BuildersKept(s, t);
    LogsKept(s, t);
  }

  /** A churn that keeps the CPU and sleeper facts keeps everything. */
  lemma ChurnKeeps(s: State, t: State)
    requires Tree(s) && Forks(s) && Churn(s, t) && Cpus(t) && Sleepers(t)
    ensures Inv(t)
  {
    ChurnKeepsTree(s, t);
    ChurnKeepsForks(s, t);
  }

  /** The state after boot satisfies every part. */
  lemma BootOk(ncpu: nat)
    ensures Inv(Boot(ncpu))
  {
    var s := Boot(ncpu);
    assert s.proc[0] == Proc(RUNNABLE, 1, None, NoChan, false, DEFAULT_TICKETS, 0);
    assert forall i :: 1 <= i < NPROC ==> s.proc[i] == Proc(UNUSED, 0, None, NoChan, false, 0, 0);
    assert Pids(s) && Parents(s);
    assert Builders(s) && Cpus(s);
    assert Sleepers(s) && Ticketed(s) && Logged(s);
  }

  // ---------------------------------------------------------------- steps among live processes

  lemma SleepSched(s: State, c: nat, chan: Chan)
    requires Sched(s) && OnCpu(s, c)
    requires chan.ProcChan? ==> chan.slot == My(s, c) && !HasZombieChild(s.proc, My(s, c))
    ensures Sched(SleepStep(s, c, chan)) && Churn(s, SleepStep(s, c, chan))
  {
    CpuLeaves(s, SleepStep(s, c, chan), c);
  }

  lemma SleepKeeps(s: State, c: nat, chan: Chan)
    requires Inv(s) && OnCpu(s, c)
    requires chan.ProcChan? ==> chan.slot == My(s, c) && !HasZombieChild(s.proc, My(s, c))
    ensures Inv(SleepStep(s, c, chan))
  {
    SleepSched(s, c, chan);
    ChurnKeeps(s, SleepStep(s, c, chan));
  }

  lemma YieldSched(s: State, c: nat)
    requires Sched(s) && OnCpu(s, c)
    ensures Sched(YieldStep(s, c)) && Churn(s, YieldStep(s, c))
  {
    CpuLeaves(s, YieldStep(s, c), c);
    SleepersKept(s, YieldStep(s, c));
  }

  lemma YieldKeeps(s: State, c: nat)
    requires Inv(s) && OnCpu(s, c)
    ensures Inv(YieldStep(s, c))
  {
    YieldSched(s, c);
    ChurnKeeps(s, YieldStep(s, c));
  }

  lemma WakeupSched(s: State, chan: Chan)
    requires Sched(s)
    ensures Sched(WakeupStep(s, chan)) && Churn(s, WakeupStep(s, chan))
  {
    CpusKept(s, WakeupStep(s, chan));
    SleepersKept(s, WakeupStep(s, chan));
  }

  lemma WakeupKeeps(s: State, chan: Chan)
    requires Inv(s)
    ensures Inv(WakeupStep(s, chan))
  {
    WakeupSched(s, chan);
    ChurnKeeps(s, WakeupStep(s, chan));
  }

  lemma KillSched(s: State, pid: nat)
    requires Sched(s)
    ensures Sched(KillStep(s, pid)) && Churn(s, KillStep(s, pid))
  {
    if FirstPid(s.proc, pid, 0).Some? {
      CpusKept(s, KillStep(s, pid));
      SleepersKept(s, KillStep(s, pid));
    }
  }

  lemma KillKeeps(s: State, pid: nat)
    requires Inv(s)
    ensures Inv(KillStep(s, pid))
  {
    KillSched(s, pid);
    ChurnKeeps(s, KillStep(s, pid));
  }

  lemma SetTicketsSched(s: State, c: nat, number: int)
    requires Sched(s) && OnCpu(s, c)
    ensures Sched(SetTicketsStep(s, c, number)) && Churn(s, SetTicketsStep(s, c, number))
  {
    CpusKept(s, SetTicketsStep(s, c, number));
    SleepersKept(s, SetTicketsStep(s, c, number));
  }

  lemma SetTicketsKeeps(s: State, c: nat, number: int)
    requires Inv(s) && OnCpu(s, c)
    ensures Inv(SetTicketsStep(s, c, number))
  {
    SetTicketsSched(s, c, number);
    ChurnKeeps(s, SetTicketsStep(s, c, number));
  }

  lemma CpuStartKeeps(s: State, c: nat)
    requires Inv(s) && c < |s.cpu| && s.cpu[c] == None
    ensures Inv(CpuStartStep(s, c))
  {
    CpuStartSched(s, c);
    ChurnKeeps(s, CpuStartStep(s, c));
  }

  lemma CpuStartSched(s: State, c: nat)
    requires Sched(s) && c < |s.cpu| && s.cpu[c] == None
    ensures Sched(CpuStartStep(s, c)) && Churn(s, CpuStartStep(s, c))
  {
    assert CpuStartStep(s, c).cpu == s.cpu;
    CpusKept(s, CpuStartStep(s, c));
    SleepersKept(s, CpuStartStep(s, c));
  }

  /** The winner of a draw is RUNNABLE and holds a ticket. */
  lemma WinnerIsRunnable(s: State, i: nat, ticket: nat)
    requires Owns(Weights(s.proc), i, ticket)
    ensures i < |s.proc| && s.proc[i].state == RUNNABLE && s.proc[i].tickets >= 1
  {
    assert Weight(s.proc[i]) > 0;
  }

  lemma ScheduleSched(s: State, c: nat)
    requires Sched(s) && c < |s.cpu| && s.cpu[c] == None
    ensures Sched(ScheduleStep(s, c)) && Churn(s, ScheduleStep(s, c))
  {
    var weights := Weights(s.proc);
    var total := Total(weights);
    if total > 0 {
      var i := Winner(weights, Ticket(total, s.seed), 0);
      WinnerIsRunnable(s, i, Ticket(total, s.seed));
      CpuEnters(s, ScheduleStep(s, c), c, i);
      SleepersKept(s, ScheduleStep(s, c));
    }
  }

  lemma ScheduleKeeps(s: State, c: nat)
    requires Inv(s) && c < |s.cpu| && s.cpu[c] == None
    ensures Inv(ScheduleStep(s, c))
  {
    ScheduleSched(s, c);
    ChurnKeeps(s, ScheduleStep(s, c));
  }

  // ---------------------------------------------------------------- fork

  lemma AllocTree(s: State, c: nat)
    requires Tree(s) && OnCpu(s, c)
    ensures Tree(AllocStep(s, c)) && Frame(s, AllocStep(s, c))
  {
    if FirstUnused(s.proc, 0).Some? {
      PidsKept(s, AllocStep(s, c), FirstUnused(s.proc, 0).value);
      ParentsKept(s, AllocStep(s, c), NPROC);
    }
  }

  lemma AllocForks(s: State, c: nat)
    requires Tree(s) && Forks(s) && Idle(s, c) && Alive(s.proc[My(s, c)])
    requires Frame(s, AllocStep(s, c))
    ensures Forks(AllocStep(s, c))
  {
    if FirstUnused(s.proc, 0).Some? {
      AllocBuilders(s, c);
      AllocLogs(s, c);
    }
  }

  lemma AllocBuilders(s: State, c: nat)
    requires Tree(s) && Builders(s) && Idle(s, c) && Alive(s.proc[My(s, c)])
    requires Frame(s, AllocStep(s, c)) && FirstUnused(s.proc, 0).Some?
    ensures Builders(AllocStep(s, c))
  {
    var p, t := My(s, c), AllocStep(s, c);
    assert BuilderOk(t, p);
    BuilderMoves(s, t, p, Building(FirstUnused(s.proc, 0).value, false));
  }

  lemma AllocLogs(s: State, c: nat)
    requires Shape(s) && Logged(s) && Ticketed(s) && OnCpu(s, c) && Frame(s, AllocStep(s, c))
    ensures Logged(AllocStep(s, c)) && Ticketed(AllocStep(s, c))
  {
    LogsKept(s, AllocStep(s, c));
  }

  lemma AllocSched(s: State, c: nat)
    requires Sched(s) && OnCpu(s, c) && Frame(s, AllocStep(s, c))
    ensures Sched(AllocStep(s, c))
  {
    CpusKept(s, AllocStep(s, c));
    SleepersKept(s, AllocStep(s, c));
  }

  lemma AllocKeeps(s: State, c: nat)
    requires Inv(s) && Idle(s, c)
    ensures Inv(AllocStep(s, c))
  {
    AllocTree(s, c);
    AllocForks(s, c);
    AllocSched(s, c);
  }

  lemma ForkFailTree(s: State, c: nat)
    requires Tree(s) && Forking(s, c) && BuilderOk(s, My(s, c)) && !s.building[My(s, c)].parentSet
    ensures Tree(ForkFailStep(s, c)) && Frame(s, ForkFailStep(s, c))
  {
    PidsKept(s, ForkFailStep(s, c), 0);
    ParentsKept(s, ForkFailStep(s, c), NPROC);
  }

  lemma ForkFailForks(s: State, c: nat)
    requires Forks(s) && Forking(s, c) && BuilderOk(s, My(s, c)) && Frame(s, ForkFailStep(s, c))
    ensures Forks(ForkFailStep(s, c))
  {
    BuilderLeaves(s, ForkFailStep(s, c), My(s, c));
    LogsKept(s, ForkFailStep(s, c));
  }

  lemma ForkFailSched(s: State, c: nat)
    requires Sched(s) && Forking(s, c) && BuilderOk(s, My(s, c)) && Frame(s, ForkFailStep(s, c))
    ensures Sched(ForkFailStep(s, c))
  {
    CpusKept(s, ForkFailStep(s, c));
    SleepersKept(s, ForkFailStep(s, c));
  }

  lemma ForkFailKeeps(s: State, c: nat)
    requires Inv(s) && Forking(s, c) && !s.building[My(s, c)].parentSet
    ensures Inv(ForkFailStep(s, c))
  {
    assert BuilderOk(s, My(s, c));
    ForkFailTree(s, c);
    ForkFailForks(s, c);
    ForkFailSched(s, c);
  }

  lemma ForkCopyTree(s: State, c: nat)
    requires Tree(s) && Forking(s, c) && BuilderOk(s, My(s, c))
    ensures Tree(ForkCopyStep(s, c)) && Frame(s, ForkCopyStep(s, c))
  {
    PidsKept(s, ForkCopyStep(s, c), 0);
    ParentsKept(s, ForkCopyStep(s, c), NPROC);
  }

  lemma ForkCopyForks(s: State, c: nat)
    requires Forks(s) && Forking(s, c) && BuilderOk(s, My(s, c)) && Frame(s, ForkCopyStep(s, c))
    ensures Forks(ForkCopyStep(s, c))
  {
    var p := My(s, c);
    assert BuilderOk(ForkCopyStep(s, c), p);
    BuilderMoves(s, ForkCopyStep(s, c), p, Building(s.building[p].slot, true));
    LogsKept(s, ForkCopyStep(s, c));
  }

  lemma ForkCopySched(s: State, c: nat)
    requires Sched(s) && Forking(s, c) && BuilderOk(s, My(s, c)) && Frame(s, ForkCopyStep(s, c))
    ensures Sched(ForkCopyStep(s, c))
  {
    CpusKept(s, ForkCopyStep(s, c));
    SleepersKept(s, ForkCopyStep(s, c));
  }

  lemma ForkCopyKeeps(s: State, c: nat)
    requires Inv(s) && Forking(s, c)
    ensures Inv(ForkCopyStep(s, c))
  {
    assert BuilderOk(s, My(s, c));
    ForkCopyTree(s, c);
    ForkCopyForks(s, c);
    ForkCopySched(s, c);
  }

  lemma ForkCommitTree(s: State, c: nat)
    requires Tree(s) && Forking(s, c) && BuilderOk(s, My(s, c)) && s.building[My(s, c)].parentSet
    ensures Tree(ForkCommitStep(s, c)) && Frame(s, ForkCommitStep(s, c))
  {
    PidsKept(s, ForkCommitStep(s, c), 0);
    ParentsKept(s, ForkCommitStep(s, c), s.building[My(s, c)].slot);
  }

  lemma ForkCommitForks(s: State, c: nat)
    requires Forks(s) && Forking(s, c) && BuilderOk(s, My(s, c)) && Frame(s, ForkCommitStep(s, c))
    ensures Forks(ForkCommitStep(s, c))
  {
    BuilderLeaves(s, ForkCommitStep(s, c), My(s, c));
    LogsKept(s, ForkCommitStep(s, c));
  }

  lemma ForkCommitSched(s: State, c: nat)
    requires Sched(s) && Forking(s, c) && BuilderOk(s, My(s, c)) && Frame(s, ForkCommitStep(s, c))
    ensures Sched(ForkCommitStep(s, c))
  {
    CpusKept(s, ForkCommitStep(s, c));
    SleepersKept(s, ForkCommitStep(s, c));
  }

  lemma ForkCommitKeeps(s: State, c: nat)
    requires Inv(s) && Forking(s, c) && s.building[My(s, c)].parentSet
    ensures Inv(ForkCommitStep(s, c))
  {
    assert BuilderOk(s, My(s, c));
    ForkCommitTree(s, c);
    ForkCommitForks(s, c);
    ForkCommitSched(s, c);
  }

  // ---------------------------------------------------------------- exit

  /** What the hand-over does to one slot: children of p go to init; sleepers wake when p's parent, or init with a
      zombie to reap, waits on its own slot. */
  ghost predicate Orphaned(s: State, p: nat, q: Proc, q': Proc)
    requires p < |s.proc|
  {
    && q' == q.(parent := q'.parent, state := q'.state)
    && q'.parent == (if q.parent == Some(p) then Some(s.initproc) else q.parent)
    && (q'.state == q.state || (q.state == SLEEPING && q'.state == RUNNABLE))
    && (q'.state == SLEEPING ==> q.chan != SlotChan(s.proc[p].parent))
    && (q'.state == SLEEPING && HasZombieChild(s.proc, p) ==> q.chan != ProcChan(s.initproc))
  }

  lemma OrphanSlots(s: State, p: nat)
    requires p < |s.proc|
    ensures |Orphan(s, p)| == |s.proc|
    ensures forall i :: 0 <= i < |s.proc| ==> Orphaned(s, p, s.proc[i], Orphan(s, p)[i])
  {
  }

  ghost predicate Exiting(s: State, p: nat) {
    Shape(s) && p < NPROC && p != s.initproc && s.proc[p].state == RUNNING
  }

  lemma ExitTree(s: State, c: nat)
    requires Tree(s) && OnCpu(s, c) && Exiting(s, My(s, c))
    ensures Tree(ExitStep(s, c)) && Frame(s, ExitStep(s, c))
  {
    var p, t := My(s, c), ExitStep(s, c);
    ExitPids(s, c);
    ExitFree(s, c);
    forall i | 0 <= i < NPROC && i != s.initproc && (Alive(t.proc[i]) || t.proc[i].state == ZOMBIE)
      ensures ParentOk(t, i)
    {
      ExitParent(s, c, i);
    }
  }

  lemma ExitFree(s: State, c: nat)
    requires Shape(s) && Parents(s) && OnCpu(s, c) && Exiting(s, My(s, c)) && Frame(s, ExitStep(s, c))
    ensures forall i :: 0 <= i < NPROC && ExitStep(s, c).proc[i].state == UNUSED ==> ExitStep(s, c).proc[i].parent == None
  {
    OrphanSlots(s, My(s, c));
  }

  lemma ExitPids(s: State, c: nat)
    requires Shape(s) && Pids(s) && OnCpu(s, c) && Exiting(s, My(s, c))
    ensures Frame(s, ExitStep(s, c)) && Pids(ExitStep(s, c))
  {
    OrphanSlots(s, My(s, c));
    PidsKept(s, ExitStep(s, c), 0);
  }

  /** A child of the exiting process gets init, which is alive and older; any other slot keeps its parent. */
  lemma ExitParent(s: State, c: nat, i: nat)
    requires Tree(s) && OnCpu(s, c) && Exiting(s, My(s, c)) && Frame(s, ExitStep(s, c))
    requires i < NPROC && i != s.initproc && (Alive(s.proc[i]) || s.proc[i].state == ZOMBIE)
    ensures ParentOk(ExitStep(s, c), i)
  {
    var p := My(s, c);
    OrphanSlots(s, p);
    assert ParentOk(s, i);
    var q := if s.proc[i].parent == Some(p) then s.initproc else s.proc[i].parent.value;
    assert Orphaned(s, p, s.proc[i], Orphan(s, p)[i]);
    assert Orphaned(s, p, s.proc[q], Orphan(s, p)[q]);
  }

  /** A running process that exits is not building an embryo. */
  lemma ExitForks(s: State, c: nat)
    requires Forks(s) && Idle(s, c) && Exiting(s, My(s, c)) && s.proc[My(s, c)].pid >= 1
    requires Pids(s) && Frame(s, ExitStep(s, c))
    ensures Forks(ExitStep(s, c))
  {
    var p, t := My(s, c), ExitStep(s, c);
    OrphanSlots(s, p);
    ExitBuilders(s, c);
    ExitLogs(s, c);
  }

  lemma ExitBuilders(s: State, c: nat)
    requires Shape(s) && Builders(s) && Ticketed(s) && Idle(s, c) && Exiting(s, My(s, c)) && Frame(s, ExitStep(s, c))
    ensures Builders(ExitStep(s, c)) && Ticketed(ExitStep(s, c))
  {
    var p, t := My(s, c), ExitStep(s, c);
    OrphanSlots(s, p);
    forall b | b in t.building
      ensures BuilderOk(t, b)
    {
      assert BuilderOk(s, b);
      assert Orphaned(s, p, s.proc[b], Orphan(s, p)[b]);
      assert Orphaned(s, p, s.proc[s.building[b].slot], Orphan(s, p)[s.building[b].slot]);
    }
  }

  lemma ExitZombies(s: State, c: nat)
    requires Shape(s) && OnCpu(s, c) && Exiting(s, My(s, c))
    ensures |ExitStep(s, c).proc| == NPROC
    ensures forall i :: 0 <= i < NPROC ==>
              && ExitStep(s, c).proc[i].pid == s.proc[i].pid
              && (ExitStep(s, c).proc[i].state == ZOMBIE <==> s.proc[i].state == ZOMBIE || i == My(s, c))
  {
    OrphanSlots(s, My(s, c));
  }

  lemma ExitLogs(s: State, c: nat)
    requires Shape(s) && Logged(s) && Pids(s) && OnCpu(s, c) && Exiting(s, My(s, c)) && Frame(s, ExitStep(s, c))
    ensures Logged(ExitStep(s, c))
  {
    var p, t := My(s, c), ExitStep(s, c);
    ExitZombies(s, c);
    forall pid | pid in t.exits && pid !in t.reaps
      ensures exists i :: 0 <= i < NPROC && t.proc[i].pid == pid && t.proc[i].state == ZOMBIE
    {
      if pid == s.proc[p].pid {
        assert t.proc[p].pid == pid && t.proc[p].state == ZOMBIE;
      } else {
        var i :| 0 <= i < NPROC && s.proc[i].pid == pid && s.proc[i].state == ZOMBIE;
        assert t.proc[i].pid == pid && t.proc[i].state == ZOMBIE;
      }
    }
  }

  lemma ExitSched(s: State, c: nat)
    requires Sched(s) && OnCpu(s, c) && Exiting(s, My(s, c)) && Frame(s, ExitStep(s, c))
    requires s.proc[My(s, c)].parent.Some? && s.proc[My(s, c)].parent != Some(My(s, c))
    ensures Sched(ExitStep(s, c))
  {
    var p, t := My(s, c), ExitStep(s, c);
    OrphanSlots(s, p);
    CpuLeaves(s, t, c);
    forall j | 0 <= j < NPROC && t.proc[j].state == ZOMBIE && t.proc[j].parent.Some? && t.proc[j].parent.value < NPROC
      ensures !InWait(t, t.proc[j].parent.value)
    {
      var q := t.proc[j].parent.value;
      assert Orphaned(s, p, s.proc[j], Orphan(s, p)[j]);
      assert Orphaned(s, p, s.proc[q], Orphan(s, p)[q]);
      if j != p && s.proc[j].parent == Some(p) {
        assert ZombieChild(s.proc[j], p);
      }
    }
  }

  lemma ExitKeeps(s: State, c: nat)
    requires Inv(s) && Idle(s, c) && My(s, c) != s.initproc
    ensures Inv(ExitStep(s, c))
  {
    assert Exiting(s, My(s, c)) && ParentOk(s, My(s, c));
    ExitTree(s, c);
    ExitForks(s, c);
    ExitSched(s, c);
  }

  // ---------------------------------------------------------------- wait

  ghost predicate Reaping(s: State, c: nat) {
    Shape(s) && OnCpu(s, c) && FirstZombie(s.proc, My(s, c), 0).Some?
  }

  /** Nobody is the child of a zombie, so reaping one orphans nobody. */
  lemma ReapTree(s: State, c: nat)
    requires Tree(s) && Reaping(s, c)
    ensures Tree(WaitStep(s, c)) && Frame(s, WaitStep(s, c))
  {
    ReapPids(s, c);
    ReapParents(s, c);
  }

  lemma ReapPids(s: State, c: nat)
    requires Shape(s) && Pids(s) && Reaping(s, c)
    ensures Frame(s, WaitStep(s, c)) && Pids(WaitStep(s, c))
  {
    PidsKept(s, WaitStep(s, c), FirstZombie(s.proc, My(s, c), 0).value);
  }

  lemma ReapParents(s: State, c: nat)
    requires Shape(s) && Parents(s) && Reaping(s, c) && Frame(s, WaitStep(s, c))
    ensures Parents(WaitStep(s, c))
  {
    ParentsKept(s, WaitStep(s, c), NPROC);
  }

  lemma ReapForks(s: State, c: nat)
    requires Forks(s) && Pids(s) && Reaping(s, c) && Frame(s, WaitStep(s, c))
    ensures Forks(WaitStep(s, c))
  {
    BuildersKept(s, WaitStep(s, c));
    ReapLogs(s, c);
  }

  lemma ReapLogs(s: State, c: nat)
    requires Shape(s) && Logged(s) && Pids(s) && Reaping(s, c) && Frame(s, WaitStep(s, c))
    ensures Logged(WaitStep(s, c))
  {
    var j, t := FirstZombie(s.proc, My(s, c), 0).value, WaitStep(s, c);
    assert s.proc[j].pid in s.exits && s.proc[j].pid !in s.reaps;
    forall pid | pid in t.exits && pid !in t.reaps
      ensures exists i :: 0 <= i < NPROC && t.proc[i].pid == pid && t.proc[i].state == ZOMBIE
    {
      assert pid !in s.reaps by {
        assert forall x :: x in s.reaps ==> x in t.reaps;
      }
      assert pid != s.proc[j].pid by {
        assert t.reaps[|s.reaps|] == s.proc[j].pid;
      }
      var i :| 0 <= i < NPROC && s.proc[i].pid == pid && s.proc[i].state == ZOMBIE;
      assert t.proc[i] == s.proc[i];
    }
  }

  lemma ReapSched(s: State, c: nat)
    requires Sched(s) && Reaping(s, c) && Frame(s, WaitStep(s, c))
    ensures Sched(WaitStep(s, c))
  {
    CpusKept(s, WaitStep(s, c));
    SleepersKept(s, WaitStep(s, c));
  }

  lemma WaitKeeps(s: State, c: nat)
    requires Inv(s) && OnCpu(s, c)
    ensures Inv(WaitStep(s, c))
  {
    if Reaping(s, c) {
      ReapTree(s, c);
      ReapForks(s, c);
      ReapSched(s, c);
    } else if HasChild(s.proc, My(s, c)) && !s.proc[My(s, c)].killed {
      SleepKeeps(s, c, ProcChan(My(s, c)));
    }
  }

  // ---------------------------------------------------------------- every run

  /** Every critical section the kernel can reach keeps the invariant. */
  lemma StepKeeps(s: State, op: Op)
    requires Inv(s) && Enabled(s, op)
    ensures Inv(Apply(s, op))
  {
    match op
    case Alloc(c) => AllocKeeps(s, c);
    case ForkFail(c) => ForkFailKeeps(s, c);
    case ForkCopy(c) => ForkCopyKeeps(s, c);
    case ForkCommit(c) => ForkCommitKeeps(s, c);
    case Exit(c) => ExitKeeps(s, c);
    case Wait(c) => WaitKeeps(s, c);
    case Sleep(c, chan) => SleepKeeps(s, c, OtherChan(chan));
    case Yield(c) => YieldKeeps(s, c);
    case Wakeup(chan) => WakeupKeeps(s, OtherChan(chan));
    case Kill(pid) => KillKeeps(s, pid);
    case SetTickets(c, number) => SetTicketsKeeps(s, c, number);
    case CpuStart(c) => CpuStartKeeps(s, c);
    case Schedule(c) => ScheduleKeeps(s, c);
  }

  lemma {:induction false} RunKeeps(s: State, ops: seq<Op>)
    requires Inv(s) && Run(s, ops)
    ensures Inv(After(s, ops))
    decreases |ops|
  {
    if ops != [] {
      StepKeeps(s, ops[0]);
      RunKeeps(Apply(s, ops[0]), ops[1..]);
    }
  }

  // ---------------------------------------------------------------- what holds in every reachable state

  ghost predicate Reachable(s: State) {
    exists ncpu: nat, ops: seq<Op> :: Run(Boot(ncpu), ops) && s == After(Boot(ncpu), ops)
  }

  lemma ReachableInv(s: State)
    requires Reachable(s)
    ensures Inv(s)
  {
    var ncpu: nat, ops: seq<Op> :| Run(Boot(ncpu), ops) && s == After(Boot(ncpu), ops);
    BootOk(ncpu);
    RunKeeps(Boot(ncpu), ops);
  }

  /** Following parents from slot i leads to init through live processes of ever smaller pid. */
  ghost predicate RootedAtInit(s: State, i: nat)
    requires Shape(s) && i < NPROC
    decreases s.proc[i].pid
  {
    i == s.initproc || (ParentOk(s, i) && RootedAtInit(s, s.proc[i].parent.value))
  }

  lemma {:induction false} AncestorsReachInit(s: State, i: nat)
    requires Tree(s) && i < NPROC && (Alive(s.proc[i]) || s.proc[i].state == ZOMBIE)
    ensures RootedAtInit(s, i)
    decreases s.proc[i].pid
  {
    if i != s.initproc {
      assert ParentOk(s, i);
      AncestorsReachInit(s, s.proc[i].parent.value);
    }
  }

  /** In every reachable state the process table is a tree rooted at init. */
  lemma TreeRootedAtInit(s: State)
    requires Reachable(s)
    ensures Shape(s)
    ensures forall i :: 0 <= i < NPROC && (Alive(s.proc[i]) || s.proc[i].state == ZOMBIE) ==> RootedAtInit(s, i)
    ensures forall i, j :: 0 <= i < j < NPROC && s.proc[i].state != UNUSED ==> s.proc[i].pid != s.proc[j].pid
  {
    ReachableInv(s);
    forall i | 0 <= i < NPROC && (Alive(s.proc[i]) || s.proc[i].state == ZOMBIE)
      ensures RootedAtInit(s, i)
    {
      AncestorsReachInit(s, i);
    }
  }

  /** In every reachable state the RUNNING processes are exactly those on a CPU, and no process is on two. */
  lemma OneCpuPerRunningProcess(s: State)
    requires Reachable(s)
    ensures |s.proc| == NPROC
    ensures forall i :: 0 <= i < NPROC ==> (s.proc[i].state == RUNNING <==> exists c :: 0 <= c < |s.cpu| && s.cpu[c] == Some(i))
    ensures forall c, d :: 0 <= c < |s.cpu| && 0 <= d < |s.cpu| && s.cpu[c].Some? && s.cpu[c] == s.cpu[d] ==> c == d
  {
    ReachableInv(s);
  }

  /** In every reachable state a process asleep in `wait` has no zombie to reap. */
  lemma NoLostWakeup(s: State, i: nat)
    requires Reachable(s) && i < NPROC
    ensures Shape(s) && (InWait(s, i) ==> !HasZombieChild(s.proc, i))
  {
    ReachableInv(s);
  }

  /** wait puts its caller to sleep exactly when there is a child but no zombie to reap and the caller is not killed; the
      caller is then a process asleep in wait in the sense of NoLostWakeup. */
  lemma WaitSleepsInWait(s: State, c: nat)
    requires Reachable(s) && Enabled(s, Wait(c))
    ensures var t, p := Apply(s, Wait(c)), My(s, c);
            && Shape(t) && p < NPROC
            && (InWait(t, p) <==> HasChild(s.proc, p) && !HasZombieChild(s.proc, p) && !s.proc[p].killed)
  {
    ReachableInv(s);
    var p := My(s, c);
    match FirstZombie(s.proc, p, 0)
    case None =>
    case Some(j) => assert ZombieChild(s.proc[j], p);
  }

  /** The slot of a sleeping process after one operation: unchanged but, perhaps, for its parent, its killed mark and
      its being woken. */
  ghost predicate SleepsOn(p: Proc, q: Proc) {
    p.state == SLEEPING ==> q.state == RUNNABLE || (q.state == SLEEPING && q.chan == p.chan)
  }

  lemma ForkSleepers(s: State, op: Op, i: nat)
    requires Shape(s) && Builders(s) && Enabled(s, op) && i < NPROC
    requires op.Alloc? || op.ForkFail? || op.ForkCopy? || op.ForkCommit?
    ensures |Apply(s, op).proc| == NPROC && SleepsOn(s.proc[i], Apply(s, op).proc[i])
  {
  }

  lemma OwnSleepers(s: State, op: Op, i: nat)
    requires Shape(s) && Cpus(s) && Enabled(s, op) && i < NPROC
    requires op.Sleep? || op.Yield? || op.SetTickets? || op.Wait?
    ensures |Apply(s, op).proc| == NPROC && SleepsOn(s.proc[i], Apply(s, op).proc[i])
  {
  }

  lemma SignalSleepers(s: State, op: Op, i: nat)
    requires Shape(s) && Enabled(s, op) && i < NPROC
    requires op.Wakeup? || op.Kill? || op.CpuStart?
    ensures |Apply(s, op).proc| == NPROC && SleepsOn(s.proc[i], Apply(s, op).proc[i])
  {
  }

  lemma ExitSleepers(s: State, c: nat, i: nat)
    requires Shape(s) && Cpus(s) && OnCpu(s, c) && i < NPROC
    ensures |ExitStep(s, c).proc| == NPROC && SleepsOn(s.proc[i], ExitStep(s, c).proc[i])
    ensures s.proc[My(s, c)].parent == Some(i) && InWait(s, i) ==> ExitStep(s, c).proc[i].state == RUNNABLE
  {
  }

  lemma ScheduleSleepers(s: State, c: nat, i: nat)
    requires Shape(s) && c < |s.cpu| && i < NPROC
    ensures |ScheduleStep(s, c).proc| == NPROC && SleepsOn(s.proc[i], ScheduleStep(s, c).proc[i])
  {
    var weights := Weights(s.proc);
    var total := Total(weights);
    if total > 0 {
      var k := Winner(weights, Ticket(total, s.seed), 0);
      WinnerIsRunnable(s, k, Ticket(total, s.seed));
    }
  }

  /** Whoever is asleep in wait stays asleep in wait until it is made RUNNABLE, and an exiting child makes it so. */
  lemma AsleepInWaitUntilWoken(s: State, op: Op, i: nat)
    requires Reachable(s) && Enabled(s, op) && i < NPROC && Shape(s) && InWait(s, i)
    ensures Shape(Apply(s, op)) && (InWait(Apply(s, op), i) || Apply(s, op).proc[i].state == RUNNABLE)
    ensures op.Exit? && s.proc[My(s, op.c)].parent == Some(i) ==> Apply(s, op).proc[i].state == RUNNABLE
  {
    hide Shape, Pids, Parents, Builders, Ticketed, Logged, Cpus, Sleepers, AllocStep, ForkFailStep, ForkCopyStep,
      ForkCommitStep, ExitStep, WaitStep, SleepStep, YieldStep, WakeupStep, KillStep, SetTicketsStep, CpuStartStep,
      ScheduleStep;
    ReachableInv(s);
    StepKeeps(s, op);
    match op
    case Exit(c) => ExitSleepers(s, c, i);
    case Schedule(c) => ScheduleSleepers(s, c, i);
    case Wakeup(_) => SignalSleepers(s, op, i);
    case Kill(_) => SignalSleepers(s, op, i);
    case CpuStart(_) => SignalSleepers(s, op, i);
    case Sleep(_, _) => OwnSleepers(s, op, i);
    case Yield(_) => OwnSleepers(s, op, i);
    case SetTickets(_, _) => OwnSleepers(s, op, i);
    case Wait(_) => OwnSleepers(s, op, i);
    case _ => ForkSleepers(s, op, i);
  }

  /** Each pid exits at most once, is reaped at most once and only after it exited; between the two a zombie holds it. */
  lemma ReapedAtMostOnce(s: State, pid: nat)
    requires Reachable(s)
    ensures multiset(s.exits)[pid] <= 1 && multiset(s.reaps)[pid] <= 1
    ensures pid in s.reaps ==> pid in s.exits
    ensures pid in s.exits && pid !in s.reaps <==> exists i :: 0 <= i < |s.proc| && s.proc[i].pid == pid && s.proc[i].state == ZOMBIE
  {
    ReachableInv(s);
    AtMostOnce(s.exits, pid);
    AtMostOnce(s.reaps, pid);
  }

  lemma {:induction false} AtMostOnce(log: seq<nat>, pid: nat)
    requires NoDuplicates(log)
    ensures multiset(log)[pid] <= 1
  {
    if log != [] {
      var n := |log| - 1;
      AtMostOnce(log[..n], pid);
      assert log == log[..n] + [log[n]];
      if log[n] == pid {
        assert pid !in log[..n];
      }
    }
  }

  /** `kill` of the pid of a process that is not UNUSED marks that process, not a free slot with a stale pid. */
  lemma KillHitsThatProcess(s: State, i: nat)
    requires Reachable(s) && i < |s.proc| && s.proc[i].state != UNUSED
    ensures KillStep(s, s.proc[i].pid) == s.(proc := s.proc[i := Killed(s.proc[i])])
  {
    hide Forks, Sched, Parents, Killed;
    ReachableInv(s);
  }

  // ---------------------------------------------------------------- the lottery in the running kernel

  lemma {:induction false} BeforeZero(weights: seq<nat>, k: nat)
    requires k <= |weights|
    ensures Before(weights, k) == 0 <==> forall i :: 0 <= i < k ==> weights[i] == 0
  {
    if k > 0 {
      BeforeZero(weights, k - 1);
    }
  }

  /** No tickets in play means nothing to run: the scheduler idles exactly when no process is RUNNABLE. */
  lemma IdleIffNothingRunnable(s: State)
    requires Reachable(s)
    ensures Total(Weights(s.proc)) == 0 <==> forall i :: 0 <= i < |s.proc| ==> s.proc[i].state != RUNNABLE
  {
    ReachableInv(s);
    var w := Weights(s.proc);
    BeforeZero(w, |w|);
    forall i | 0 <= i < |s.proc|
      ensures w[i] == 0 <==> s.proc[i].state != RUNNABLE
    {
      assert w[i] == Weight(s.proc[i]);
    }
  }

  /** The scheduler dispatches slot i exactly when i owns the winning ticket. */
  lemma DispatchesTheWinner(s: State, c: nat, i: nat)
    requires c < |s.cpu| && s.cpu[c] == None
    ensures ScheduleStep(s, c).cpu[c] == Some(i) <==> WinsDraw(Weights(s.proc), s.seed, i)
  {
    var w := Weights(s.proc);
    if Total(w) > 0 {
      var ticket := Ticket(Total(w), s.seed);
      if Owns(w, i, ticket) {
        OwnerUnique(w, i, Winner(w, ticket, 0), ticket);
      }
    }
  }

  /** The states in which the kernel holds its next n lotteries: `history[k]` on CPU `at[k]`, all with the same tickets
      in play, the seed carried from each to the next because no CPU enters its scheduler anew. */
  ghost predicate SameLottery(history: seq<State>, at: seq<nat>, weights: seq<nat>) {
    && |at| == |history|
    && (forall k :: 0 <= k < |history| ==> at[k] < |history[k].cpu| && history[k].cpu[at[k]] == None)
    && (forall k :: 0 <= k < |history| ==> Weights(history[k].proc) == weights)
    && (forall k :: 0 < k < |history| ==> history[k].seed == ScheduleStep(history[k - 1], at[k - 1]).seed)
  }

  /** How many of the first n lotteries dispatch slot i. */
  ghost function Dispatches(history: seq<State>, at: seq<nat>, n: nat, i: nat): nat
    requires n <= |history| == |at| && forall k :: 0 <= k < |history| ==> at[k] < |history[k].cpu|
  {
    if n == 0 then 0
    else Dispatches(history, at, n - 1, i) + if ScheduleStep(history[n - 1], at[n - 1]).cpu[at[n - 1]] == Some(i) then 1 else 0
  }

  ghost function WeightHistory(n: nat, weights: seq<nat>): (h: seq<seq<nat>>)
    ensures |h| == n && forall k :: 0 <= k < n ==> h[k] == weights
  {
    seq(n, k => weights)
  }

  lemma {:induction false} SeedsFollow(history: seq<State>, at: seq<nat>, weights: seq<nat>, k: nat)
    requires SameLottery(history, at, weights) && k < |history|
    ensures history[k].seed == SeedAt(Total(weights), history[0].seed, k)
  {
    if k > 0 {
      SeedsFollow(history, at, weights, k - 1);
    }
  }

  lemma {:induction false} DispatchesAreWins(history: seq<State>, at: seq<nat>, weights: seq<nat>, n: nat, i: nat)
    requires SameLottery(history, at, weights) && n <= |history| && history != []
    ensures Dispatches(history, at, n, i) == Wins(WeightHistory(|history|, weights), history[0].seed, n, i)
  {
    if n > 0 {
      DispatchesAreWins(history, at, weights, n - 1, i);
      SeedsFollow(history, at, weights, n - 1);
      DispatchesTheWinner(history[n - 1], at[n - 1], i);
    }
  }

  /** Over any 2^32 consecutive lotteries with the same RUNNABLE set and tickets, a process holding t of `total` tickets
      is dispatched between t * floor(2^32 / total) and t * (floor(2^32 / total) + 1) times, so it never starves. */
  lemma SchedulerIsProportional(history: seq<State>, at: seq<nat>, weights: seq<nat>, i: nat)
    requires |history| == MODULUS && SameLottery(history, at, weights)
    requires i < |weights| && 2 <= Total(weights) < 0x8000_0000
    ensures weights[i] * (MODULUS / Total(weights)) <= Dispatches(history, at, MODULUS, i)
    ensures Dispatches(history, at, MODULUS, i) <= weights[i] * (MODULUS / Total(weights) + 1)
    ensures weights[i] > 0 ==> Dispatches(history, at, MODULUS, i) > 0
  {
    DispatchesAreWins(history, at, weights, MODULUS, i);
    ProportionalShare(WeightHistory(MODULUS, weights), weights, history[0].seed, i);
  }
}
