// The scheduler as the driver runs it: the device object, its per-core data and
// the counters of the jobs, changed by one method for each atomic section of
// rknpu_job.c. Every method is one step of the model in Scheduler.
module Npu {
  import opened Batching
  import opened Kernel
  import opened Scheduler
  import opened SchedulerSafety
  import opened SchedulerLoad
  import Placement

  class Device {
    const max: nat  // max_submit_number
    var cores: seq<Core>
    var counters: map<Job, Counters>
    ghost var ticket: map<Job, nat>
    ghost var clock: nat

    ghost function Abs(): State
      reads this
    {
      State(cores, counters, ticket, clock, max)
    }

    constructor (n: nat, max: nat)
      requires max > 0
      ensures Abs() == Init(n, max) && Inv(Abs())
    {
      this.max := max;
      cores := seq(n, _ => Core([], Idle, 0, 0, {}));
      counters := map[];
      ticket := map[];
      clock := 0;
    }

    // rknpu_job_alloc sets the counters; the locked loop of rknpu_job_schedule
    // appends the job to the queue of each of its cores and counts its tasks.
    method Schedule(j: Job)
      requires WellFormed(Abs()) && Enabled(Abs(), Enqueue(j))
      modifies this
      ensures Abs() == Apply(old(Abs()), Enqueue(j))
      ensures |cores| == |old(cores)|
      ensures forall c :: 0 <= c < |cores| ==>
                var k := old(cores)[c];
                cores[c] == if c in j.mask && c < |j.tasks|
                            then Core(k.todo + [j], k.slot, k.load + j.tasks[c], k.nexts + 1, k.finishing)
                            else k
      ensures counters == old(counters)[j := Counters(|j.mask|, |j.mask|, seq(|cores|, _ => 0), 0, 0)]
    {
      ghost var k := cores;
      counters := counters[j := Counters(|j.mask|, |j.mask|, seq(|cores|, _ => 0), 0, 0)];
      ticket := ticket[j := clock];
      clock := clock + 1;
      for i := 0 to |cores|
        invariant |cores| == |k|
        invariant counters == old(counters)[j := Counters(|j.mask|, |j.mask|, seq(|k|, _ => 0), 0, 0)]
        invariant ticket == old(ticket)[j := old(clock)] && clock == old(clock) + 1
        invariant forall c :: 0 <= c < i ==> cores[c] == AfterEnqueue(k[c], c, j)
        invariant forall c :: i <= c < |cores| ==> cores[c] == k[c]
      {
        if i in j.mask {
          cores := cores[i := cores[i].(todo := cores[i].todo + [j])];
          cores := cores[i := cores[i].(load := cores[i].load + j.tasks[i])];
          cores := cores[i := cores[i].(nexts := cores[i].nexts + 1)];  // the caller now owes job_next
        }
      }
      assert cores == Apply(old(Abs()), Enqueue(j)).cores;
    }

    // rknpu_schedule_core_index over the device's own fields. The lock is not held.
    method ChooseCore() returns (core: nat)
      requires |cores| > 0
      ensures Placement.IsChoice(TaskNums(Abs()), core)
    {
      var loads: seq<int> := seq(|cores|, c requires 0 <= c < |cores| reads this => cores[c].load);
      core := Placement.ScheduleCoreIndex(loads);
      assert loads == TaskNums(Abs());
    }

    // The automatic branch at the head of rknpu_job_schedule followed, without
    // interference, by the enqueueing: the job goes to the first core with the
    // smallest task_num.
    method ScheduleAuto(id: nat, domain: int, tasks: seq<nat>, pc: bool, addressed: bool) returns (j: Job)
      requires WellFormed(Abs()) && |tasks| == |cores| > 0 && forall t :: t in tasks ==> t > 0
      requires forall c: nat :: c < |cores| ==> Job(id, domain, {c}, tasks, pc, addressed) !in ticket
      modifies this
      ensures exists c: nat :: && j == Job(id, domain, {c}, tasks, pc, addressed)
                               && Placement.IsChoice(TaskNums(old(Abs())), c)
      ensures Enabled(old(Abs()), Enqueue(j)) && Abs() == Apply(old(Abs()), Enqueue(j))
    {
      var core := ChooseCore();
      j := Job(id, domain, {core}, tasks, pc, addressed);
      assert tasks[core] in tasks && j !in ticket;
      Schedule(j);
    }

    // rknpu_job_next under the lock; `claimed` tells that run_count is to be
    // decremented.
    method JobNext(c: nat) returns (claimed: bool)
      requires WellFormed(Abs()) && Enabled(Abs(), Next(c))
      modifies this
      ensures Abs() == Apply(old(Abs()), Next(c))
      ensures claimed <==> old(cores[c].slot.Idle? && cores[c].todo != [])
      ensures counters == old(counters)
      ensures var k := old(cores)[c];
              cores == old(cores)[c := if claimed then
                                         k.(todo := k.todo[1..], slot := Held(k.todo[0], Claimed), nexts := k.nexts - 1)
                                       else k.(nexts := k.nexts - 1)]
    {
      cores := cores[c := cores[c].(nexts := cores[c].nexts - 1)];
      if cores[c].slot.Held? || cores[c].todo == [] {
        return false;
      }
      var job := cores[c].todo[0];
      cores := cores[c := cores[c].(todo := cores[c].todo[1..])];
      cores := cores[c := cores[c].(slot := Held(job, Claimed))];
      claimed := true;
    }

    // rknpu_job_subcore_commit and the checks of rknpu_job_subcore_commit_pc, up
    // to the register writes.
    method SubcoreCommit(j: Job) returns (ret: int)
      ensures ret == 0 <==> j.pc && j.addressed
      ensures ret != 0 ==> ret == -EINVAL
    {
      if !j.pc {
        return -EINVAL;
      }
      if !j.addressed {
        return -EINVAL;
      }
      ret := 0;
    }

    // rknpu_job_commit: for a mask that the switch lists, a batch is to be
    // submitted on each of its cores; for another one nothing happens.
    method Commit(j: Job)
      requires forall i :: 0 <= i < |cores| ==>
                 (i in j.mask <==> cores[i].slot.Held? && cores[i].slot.job == j)
      modifies this`cores
      ensures cores == seq(|old(cores)|, i requires 0 <= i < |old(cores)| => AfterCommit(old(cores)[i], j))
      ensures forall i :: 0 <= i < |cores| && i in j.mask ==>
                cores[i].slot == Held(j, if Listed(j.mask) && j.pc && j.addressed then Submitting else Refused)
      ensures forall i :: 0 <= i < |cores| && i !in j.mask ==> cores[i] == old(cores)[i]
    {
      hide Listed;
      ghost var k := cores;
      for i := 0 to |cores|
        invariant |cores| == |k|
        invariant forall x :: 0 <= x < i ==> cores[x] == AfterCommit(k[x], j)
        invariant forall x :: i <= x < |cores| ==> cores[x] == k[x]
      {
        if i in j.mask {
          var ret := -EINVAL;
          if Listed(j.mask) {
            ret := SubcoreCommit(j);
          }
          cores := cores[i := cores[i].(slot := Held(j, if ret == 0 then Submitting else Refused))];
        }
      }
    }

    // atomic_dec_and_test(run_count) and, at zero, the commit.
    method DropRunCount(c: nat) returns (commit: bool)
      requires Inv(Abs()) && WellFormed(Abs()) && Enabled(Abs(), Decrement(c))
      modifies this
      ensures Abs() == Apply(old(Abs()), Decrement(c))
      ensures commit <==> Pending(old(Abs()), old(cores[c].slot.job)) == {c}
      ensures var j := old(cores)[c].slot.job; var k := old(counters)[j];
              counters == old(counters)[j := Counters(k.run - 1, k.intr, k.sub,
                                                      if commit then k.commits + 1 else k.commits, k.dones)]
    {
      hide JobOk, CoreOk, Inv, StageOf, Pending, AfterCommit;
      var j := cores[c].slot.job;
      LastToClaim(Abs(), c);
      var k := counters[j];
      counters := counters[j := k.(run := k.run - 1)];
      commit := counters[j].run == 0;
      if commit {
        counters := counters[j := counters[j].(commits := counters[j].commits + 1)];
        Commit(j);
      } else {
        cores := cores[c := cores[c].(slot := Held(j, Waiting))];
      }
    }

    static lemma {:induction false} LastToClaim(s: State, c: nat)
      requires Inv(s) && WellFormed(s) && Enabled(s, Decrement(c))
      ensures var j := s.cores[c].slot.job;
              && j in s.counters && (s.counters[j].run == 1 <==> Pending(s, j) == {c})
              && (s.counters[j].run == 1 ==>
                    forall i :: 0 <= i < |s.cores| ==>
                      (i in j.mask <==> s.cores[i].slot.Held? && s.cores[i].slot.job == j))
    {
      hide JobOk, CoreOk, Inv, Pending;
      var j := s.cores[c].slot.job;
      CurrentJob(s, c);
      RunIsPending(s, j);
      if s.counters[j].run == 1 {
        CommitIsGang(s, c);
        forall i | 0 <= i < |s.cores| && s.cores[i].slot.Held?
          ensures i in s.cores[i].slot.job.mask
        {
          CurrentJob(s, i);
        }
      }
    }

    static lemma {:induction false} RunIsPending(s: State, j: Job)
      requires Inv(s) && j in s.counters
      ensures s.counters[j].run == |Pending(s, j)|
    {
      JobBasics(s, j);
    }

    // rknpu_job_subcore_commit has written a batch: the hardware runs.
    method StartBatch(c: nat)
      requires WellFormed(Abs()) && Enabled(Abs(), Submit(c))
      modifies this
      ensures Abs() == Apply(old(Abs()), Submit(c))
    {
      cores := cores[c := cores[c].(slot := Held(cores[c].slot.job, Running))];
    }

    // The head of rknpu_job_done: another batch, or the core is drained.
    method CountBatch(c: nat) returns (again: bool)
      requires WellFormed(Abs()) && Enabled(Abs(), Interrupt(c))
      modifies this
      ensures Abs() == Apply(old(Abs()), Interrupt(c))
      // another batch exactly if tasks are left behind those counted
      ensures var j := old(cores)[c].slot.job;
              again <==> (old(counters)[j].sub[c] + 1) * max < j.tasks[c]
      ensures var j := old(cores)[c].slot.job; var k := old(counters)[j];
              && counters == old(counters)[j := k.(sub := k.sub[c := k.sub[c] + 1])]
              && cores == old(cores)[c := old(cores)[c].(slot := Held(j, if again then Submitting else Drained))]
    {
      var j := cores[c].slot.job;
      assert Known(cores[c], c, ticket);
      var k := counters[j];
      counters := counters[j := k.(sub := k.sub[c := k.sub[c] + 1])];
      StopTestAgrees(j.tasks[c], max, counters[j].sub[c]);
      again := counters[j].sub[c] < Batches(j.tasks[c], max);
      cores := cores[c := cores[c].(slot := Held(j, if again then Submitting else Drained))];
    }

    // The locked section of rknpu_job_done.
    method ReleaseCore(c: nat)
      requires WellFormed(Abs()) && Enabled(Abs(), Release(c))
      modifies this
      ensures Abs() == Apply(old(Abs()), Release(c))
      ensures var k := old(cores)[c]; var j := k.slot.job;
              c < |j.tasks| &&
              cores == old(cores)[c := Core(k.todo, Idle, k.load - j.tasks[c], k.nexts, k.finishing + {j})]
      ensures counters == old(counters)
    {
      var j := cores[c].slot.job;
      assert Known(cores[c], c, ticket);
      cores := cores[c := cores[c].(slot := Idle)];
      cores := cores[c := cores[c].(load := cores[c].load - j.tasks[c])];
      cores := cores[c := cores[c].(finishing := cores[c].finishing + {j})];
    }

    // atomic_dec_and_test(interrupt_count): the last core completes the job.
    method DropInterruptCount(c: nat, j: Job) returns (done: bool)
      requires WellFormed(Abs()) && Enabled(Abs(), Finish(c, j))
      modifies this
      ensures Abs() == Apply(old(Abs()), Finish(c, j))
      ensures done <==> old(counters)[j].intr == 1
      ensures var k := old(cores)[c];
              cores == old(cores)[c := Core(k.todo, k.slot, k.load, k.nexts + 1, k.finishing - {j})]
      ensures var k := old(counters)[j];
              counters == old(counters)[j := Counters(k.run, k.intr - 1, k.sub, k.commits,
                                                      if done then k.dones + 1 else k.dones)]
    {
      assert Known(cores[c], c, ticket);
      cores := cores[c := cores[c].(finishing := cores[c].finishing - {j}, nexts := cores[c].nexts + 1)];
      counters := counters[j := counters[j].(intr := counters[j].intr - 1)];
      done := counters[j].intr == 0;
      if done {
        counters := counters[j := counters[j].(dones := counters[j].dones + 1)];
      }
    }

    // The locked loop of rknpu_job_abort; `entered` are the cores whose
    // interrupt handler has seen the job.
    method Abort(j: Job, entered: set<nat>)
      requires WellFormed(Abs()) && ValidJob(j, |cores|)
      modifies this
      ensures Abs() == Do(old(Abs()), Act.Abort(j, entered))
      ensures |cores| == |old(cores)|
      ensures forall c :: 0 <= c < |cores| ==>
                cores[c] == if HoldsJob(old(cores)[c], j) && c !in entered && c < |j.tasks|
                            then old(cores)[c].(slot := Idle, load := old(cores)[c].load - j.tasks[c])
                            else old(cores)[c]
    {
      ghost var k := cores;
      for i := 0 to |cores|
        invariant |cores| == |k| && counters == old(counters) && ticket == old(ticket) && clock == old(clock)
        invariant forall c :: 0 <= c < i ==> cores[c] == AfterAbort(k[c], c, j, entered)
        invariant forall c :: i <= c < |cores| ==> cores[c] == k[c]
      {
        if i in j.mask && cores[i].slot.Held? && cores[i].slot.job == j && i !in entered {
          cores := cores[i := cores[i].(slot := Idle)];
          cores := cores[i := cores[i].(load := cores[i].load - j.tasks[i])];
        }
      }
      assert cores == Do(old(Abs()), Act.Abort(j, entered)).cores;
      forall c | 0 <= c < |cores|
        ensures HoldsJob(k[c], j) ==> c in j.mask
      {
        assert Known(k[c], c, ticket);
      }
    }
  }
}
