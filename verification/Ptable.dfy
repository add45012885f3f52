/** The Lab 2 process table as the code keeps it: arrays scanned and overwritten in place. Every method is one
    critical section, proved to have exactly the effect of the corresponding step function. */
module Ptable {
  import opened Rand
  import opened Lottery
  import opened ProcTable
  import opened ProcInvariant

  class Table {
    var proc: seq<Proc>
    var cpu: seq<Option<nat>>
    var nextpid: nat
    var initproc: nat
    const rand: Generator
    ghost var building: map<nat, Building>
    ghost var exits: seq<nat>
    ghost var reaps: seq<nat>

    ghost function View(): State
      reads this, rand
    {
      State(proc, cpu, nextpid, rand.seed, initproc, building, exits, reaps)
    }

    /** `pinit` and `userinit`: the first free slot becomes init. */
    constructor (ncpu: nat)
      ensures View() == Boot(ncpu)
      ensures Inv(View()) && |proc| == 64 && proc[initproc].pid == 1 && proc[initproc].tickets == 5
      ensures fresh(rand)
    {
      rand := new Generator();
      proc := seq(NPROC, i => Proc(UNUSED, 0, None, NoChan, false, 0, 0));
      cpu := seq(ncpu, i => None);
      nextpid := 1;
      initproc := 0;
      building, exits, reaps := map[], [], [];
      new;
      var p := FindUnused();
      assert p == Some(0);
      proc := proc[p.value := proc[p.value].(state := EMBRYO, pid := nextpid, tickets := DEFAULT_TICKETS, ticks := 0)];
      nextpid := nextpid + 1;
      initproc := p.value;
      proc := proc[initproc := proc[initproc].(state := RUNNABLE)];
      BootOk(ncpu);
    }

    method FindUnused() returns (r: Option<nat>)
      ensures r == FirstUnused(proc, 0)
    {
      var i := 0;
      while i < |proc|
        invariant 0 <= i <= |proc|
        invariant FirstUnused(proc, 0) == FirstUnused(proc, i)
      {
        if proc[i].state == UNUSED {
          return Some(i);
        }
        i := i + 1;
      }
      return None;
    }

    /** allocproc up to the release of the lock: the embryo's slot, or None when the table is full. */
    method AllocProc(c: nat) returns (np: Option<nat>)
      requires |proc| == NPROC && Idle(View(), c)
      modifies this
      ensures View() == old(AllocStep(View(), c))
      ensures np == old(FirstUnused(proc, 0))
      ensures np.Some? ==>
                var q := proc[np.value];
                && q.state == EMBRYO && q.pid == old(nextpid) && nextpid == old(nextpid) + 1
                && q.tickets == 5 && q.ticks == 0 && q.parent == old(proc)[np.value].parent
    {
      np := FindUnused();
      if np.Some? {
        var j := np.value;
        proc := proc[j := proc[j].(state := EMBRYO)];
        proc := proc[j := proc[j].(pid := nextpid)];
        nextpid := nextpid + 1;
        proc := proc[j := proc[j].(tickets := DEFAULT_TICKETS)];
        proc := proc[j := proc[j].(ticks := 0)];
        building := building[cpu[c].value := Building(j, false)];
      }
    }

    method ForkFail(c: nat, np: nat)
      requires |proc| == NPROC && Forking(View(), c) && View().building[My(View(), c)] == Building(np, false)
      modifies this
      ensures View() == old(ForkFailStep(View(), c))
      ensures proc[np].state == UNUSED
    {
      proc := proc[np := proc[np].(state := UNUSED)];
      building := building - {cpu[c].value};
    }

    method ForkCopy(c: nat, np: nat)
      requires |proc| == NPROC && Forking(View(), c) && View().building[My(View(), c)] == Building(np, false)
      modifies this
      ensures View() == old(ForkCopyStep(View(), c))
      ensures var p := old(cpu)[c].value; proc[np].parent == Some(p) && proc[np].tickets == old(proc)[p].tickets
    {
      var p := cpu[c].value;
      proc := proc[np := proc[np].(parent := Some(p))];
      proc := proc[np := proc[np].(tickets := proc[p].tickets)];
      building := building[p := Building(np, true)];
    }

    /** The end of fork: the child's pid goes back to the caller. */
    method ForkCommit(c: nat, np: nat) returns (pid: nat)
      requires |proc| == NPROC && Forking(View(), c) && View().building[My(View(), c)] == Building(np, true)
      modifies this
      ensures View() == old(ForkCommitStep(View(), c))
      ensures pid == old(proc[np].pid) && proc[np].state == RUNNABLE
    {
      pid := proc[np].pid;
      proc := proc[np := proc[np].(state := RUNNABLE)];
      building := building - {cpu[c].value};
    }

    /** wakeup1 */
    method WakeupOne(chan: Chan)
      modifies this`proc
      ensures proc == WakeAll(old(proc), chan)
    {
      var i := 0;
      while i < |proc|
        invariant 0 <= i <= |proc| == |old(proc)|
        invariant forall k :: 0 <= k < i ==> proc[k] == WakeOne(old(proc)[k], chan)
        invariant forall k :: i <= k < |proc| ==> proc[k] == old(proc)[k]
      {
        if proc[i].state == SLEEPING && proc[i].chan == chan {
          proc := proc[i := proc[i].(state := RUNNABLE)];
        }
        i := i + 1;
      }
    }

    /** The hand-over loop of exit: children of p go to init, which is woken for each zombie among them. */
    method HandOver(p: nat)
      modifies this`proc
      ensures proc == (var adopted := Adopt(old(proc), p, initproc);
                       if HasZombieChild(old(proc), p) then WakeAll(adopted, ProcChan(initproc)) else adopted)
    {
      ghost var was := proc;
      ghost var adopted := Adopt(was, p, initproc);
      ghost var awake := false;
      var i := 0;
      while i < |proc|
        invariant 0 <= i <= |proc| == |was|
        invariant awake <==> exists k :: 0 <= k < i && ZombieChild(was[k], p)
        invariant forall k :: 0 <= k < i ==> proc[k] == Woken(awake, adopted[k])
        invariant forall k :: i <= k < |proc| ==> proc[k] == Woken(awake, was[k])
      {
        if proc[i].parent == Some(p) {
          proc := proc[i := proc[i].(parent := Some(initproc))];
          assert proc[i] == Woken(awake, adopted[i]);
          if proc[i].state == ZOMBIE {
            WakeupOne(ProcChan(initproc));
            assert ZombieChild(was[i], p);
            awake := true;
          }
        }
        i := i + 1;
      }
    }

    ghost function Woken(awake: bool, q: Proc): Proc
      reads this
    {
      if awake then WakeOne(q, ProcChan(initproc)) else q
    }

    method Exit(c: nat)
      requires |proc| == NPROC && Idle(View(), c)
      requires My(View(), c) != initproc
      modifies this
      ensures View() == old(ExitStep(View(), c))
      ensures var p := old(cpu)[c].value;
              && proc[p].state == ZOMBIE && cpu[c] == None
              && (old(proc)[p].parent.Some? && old(proc)[p].parent != Some(p) && old(proc)[p].parent.value < NPROC ==>
                    var q := old(proc)[p].parent.value;
                    old(proc)[q].state == SLEEPING && old(proc)[q].chan == ProcChan(q) ==> proc[q].state == RUNNABLE)
              && forall i :: 0 <= i < NPROC && old(proc)[i].parent == Some(p) ==> proc[i].parent == Some(initproc)
    {
      var p := cpu[c].value;
      SameZombieChildren(proc, SlotChan(proc[p].parent), p);
      WakeupOne(SlotChan(proc[p].parent));
      HandOver(p);
      assert proc == old(Orphan(View(), p));
      exits := exits + [proc[p].pid];
      proc := proc[p := proc[p].(state := ZOMBIE)];
      cpu := cpu[c := None];
    }

    /** One scan of wait under the lock: the pid of the reaped child, -1, or asleep until woken. */
    method WaitScan(c: nat) returns (pid: int, asleep: bool)
      requires |proc| == NPROC && Idle(View(), c)
      modifies this
      ensures View() == old(WaitStep(View(), c))
      ensures !asleep ==> pid == (match old(FirstZombie(proc, My(View(), c), 0)) case Some(j) => old(proc)[j].pid case None => -1)
      ensures !asleep && pid != -1 ==>
                exists j :: 0 <= j < NPROC && old(proc)[j].parent == Some(old(cpu)[c].value) && old(proc)[j].state == ZOMBIE
                            && old(proc)[j].pid == pid && proc[j].state == UNUSED && proc[j].pid == 0
                            && proc[j].parent == None && !proc[j].killed
      ensures asleep ==>
                var p := old(cpu)[c].value; proc[p].state == SLEEPING && proc[p].chan == ProcChan(p) && cpu[c] == None
      ensures asleep <==> old(FirstZombie(proc, My(View(), c), 0).None? && HasChild(proc, My(View(), c)) && !proc[My(View(), c)].killed)
    {
      var p := cpu[c].value;
      var havekids := false;
      var i := 0;
      while i < NPROC
        invariant 0 <= i <= NPROC && View() == old(View())
        invariant havekids <==> exists k :: 0 <= k < i && proc[k].parent == Some(p)
        invariant FirstZombie(proc, p, 0) == FirstZombie(proc, p, i)
      {
        if proc[i].parent == Some(p) {
          havekids := true;
          if proc[i].state == ZOMBIE {
            pid := proc[i].pid;
            ghost var j := i;
            reaps := reaps + [proc[i].pid];
            proc := proc[i := proc[i].(pid := 0)];
            proc := proc[i := proc[i].(parent := None)];
            proc := proc[i := proc[i].(killed := false)];
            proc := proc[i := proc[i].(state := UNUSED)];
            assert old(proc)[j].state == ZOMBIE && proc[j].state == UNUSED;
            return pid, false;
          }
        }
        i := i + 1;
      }
      if !havekids || proc[p].killed {
        return -1, false;
      }
      Sleep(c, ProcChan(p));
      return -1, true;
    }

    /** sleep: the fields it stores and the return to the scheduler. */
    method Sleep(c: nat, chan: Chan)
      requires OnCpu(View(), c)
      modifies this
      ensures View() == old(SleepStep(View(), c, chan))
      ensures var p := old(cpu)[c].value; proc[p].state == SLEEPING && proc[p].chan == chan && cpu[c] == None
    {
      var p := cpu[c].value;
      proc := proc[p := proc[p].(chan := chan)];
      proc := proc[p := proc[p].(state := SLEEPING)];
      cpu := cpu[c := None];
    }

    method Yield(c: nat)
      requires |proc| == NPROC && OnCpu(View(), c)
      modifies this
      ensures View() == old(YieldStep(View(), c))
      ensures proc[old(cpu)[c].value].state == RUNNABLE && cpu[c] == None
    {
      var p := cpu[c].value;
      proc := proc[p := proc[p].(state := RUNNABLE)];
      cpu := cpu[c := None];
    }

    /** 0 when some slot holds the pid, otherwise -1. */
    method Kill(pid: nat) returns (r: int)
      requires |proc| == NPROC
      modifies this
      ensures View() == old(KillStep(View(), pid))
      ensures r == if exists i :: 0 <= i < |old(proc)| && old(proc)[i].pid == pid then 0 else -1
      ensures r == 0 ==>
                exists i :: 0 <= i < |proc| && old(proc)[i].pid == pid && proc[i].killed && proc[i].state != SLEEPING
                            && (old(proc)[i].state == SLEEPING ==> proc[i].state == RUNNABLE)
                            && (old(proc)[i].state != SLEEPING ==> proc[i].state == old(proc)[i].state)
    {
      var i := 0;
      while i < NPROC
        invariant 0 <= i <= NPROC && View() == old(View())
        invariant FirstPid(proc, pid, 0) == FirstPid(proc, pid, i)
        invariant forall k :: 0 <= k < i ==> proc[k].pid != pid
      {
        if proc[i].pid == pid {
          proc := proc[i := proc[i].(killed := true)];
          if proc[i].state == SLEEPING {
            proc := proc[i := proc[i].(state := RUNNABLE)];
          }
          return 0;
        }
        i := i + 1;
      }
      return -1;
    }

    method SetTickets(c: nat, number: int) returns (r: int)
      requires |proc| == NPROC && OnCpu(View(), c)
      modifies this
      ensures View() == old(SetTicketsStep(View(), c, number))
      ensures r == if number < 1 then -1 else 0
      ensures r == 0 ==> proc[old(cpu)[c].value].tickets == number
    {
      if number < 1 {
        return -1;
      }
      var p := cpu[c].value;
      proc := proc[p := proc[p].(tickets := number)];
      return 0;
    }

    /** The scheduler's first loop: the tickets of the RUNNABLE slots. */
    method CountTickets() returns (total: int)
      requires |proc| == NPROC
      requires forall i :: 0 <= i < NPROC && proc[i].state == RUNNABLE ==> proc[i].tickets >= 1
      ensures total == Total(Weights(proc))
      ensures total == 0 <==> forall i :: 0 <= i < NPROC ==> proc[i].state != RUNNABLE
    {
      ghost var weights := Weights(proc);
      BeforeZero(weights, NPROC);
      total := 0;
      var i := 0;
      while i < NPROC
        invariant 0 <= i <= NPROC && total == Before(weights, i)
      {
        if proc[i].state == RUNNABLE {
          total := total + proc[i].tickets;
        }
        i := i + 1;
      }
      assert forall k :: 0 <= k < NPROC ==> (weights[k] == 0 <==> proc[k].state != RUNNABLE);
    }

    /** The second loop: the slot that owns the winning ticket. */
    method FindWinner(winner: nat) returns (i: nat)
      requires |proc| == NPROC && winner < Total(Weights(proc))
      requires forall k :: 0 <= k < NPROC && proc[k].state == RUNNABLE ==> proc[k].tickets >= 1
      ensures i == Winner(Weights(proc), winner, 0) && i < NPROC && Owns(Weights(proc), i, winner)
      ensures proc[i].state == RUNNABLE
    {
      ghost var weights := Weights(proc);
      var counter := 0;
      i := 0;
      while i < NPROC
        invariant 0 <= i <= NPROC && counter == Before(weights, i) <= winner
        invariant Winner(weights, winner, 0) == Winner(weights, winner, i)
        decreases NPROC - i
      {
        if proc[i].state == RUNNABLE {
          counter := counter + proc[i].tickets;
          if counter > winner {
            break;
          }
        }
        i := i + 1;
      }
    }

    /** One round of the scheduler loop: the dispatched slot, or None when nothing is RUNNABLE. `total_tickets` and
        `counter` are C ints, so the tickets in play must sum to less than 2^31. The exit of the second loop without a
        winner (lines 375-378) is never taken. */
    method Schedule(c: nat) returns (dispatched: Option<nat>)
      requires |proc| == NPROC && c < |cpu| && cpu[c] == None
      requires forall i :: 0 <= i < NPROC && proc[i].state == RUNNABLE ==> proc[i].tickets >= 1
      requires Total(Weights(proc)) < 0x8000_0000
      modifies this, rand
      ensures View() == old(ScheduleStep(View(), c))
      ensures dispatched.None? <==> forall i :: 0 <= i < |old(proc)| ==> old(proc)[i].state != RUNNABLE
      ensures dispatched.Some? ==> WinsDraw(old(Weights(proc)), old(rand.seed), dispatched.value)
      ensures dispatched.Some? ==>
                && dispatched.value < NPROC && cpu[c] == dispatched && old(proc)[dispatched.value].state == RUNNABLE
                && proc[dispatched.value].state == RUNNING && proc[dispatched.value].chan == NoChan
                && proc[dispatched.value].ticks == old(proc)[dispatched.value].ticks + 1
    {
      hide Next, Before, Total, Winner, Owns;
      var total := CountTickets();
      if total == 0 {
        return None;
      }
      var winner := rand.RandomAtMost(total - 1);
      assert winner == Ticket(total, old(rand.seed)) && rand.seed == SeedAfter(total, old(rand.seed));
      var i := FindWinner(winner);
      proc := proc[i := proc[i].(ticks := proc[i].ticks + 1)];
      cpu := cpu[c := Some(i)];
      proc := proc[i := proc[i].(state := RUNNING)];
      proc := proc[i := proc[i].(chan := NoChan)];
      return Some(i);
    }
  }

  /** Waking sleepers makes and unmakes no zombie and moves no child. */
  lemma SameZombieChildren(proc: seq<Proc>, chan: Chan, p: nat)
    ensures HasZombieChild(WakeAll(proc, chan), p) <==> HasZombieChild(proc, p)
  {
    var woken := WakeAll(proc, chan);
    if HasZombieChild(proc, p) {
      var i :| 0 <= i < |proc| && ZombieChild(proc[i], p);
      assert ZombieChild(woken[i], p);
    }
    if HasZombieChild(woken, p) {
      var i :| 0 <= i < |proc| && ZombieChild(woken[i], p);
      assert ZombieChild(proc[i], p);
    }
  }
}
