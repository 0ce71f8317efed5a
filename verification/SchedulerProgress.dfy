// What the scheduler gets done. Every step of the driver or the hardware uses up
// work, so every run without new submissions ends; and where it ends, exactly
// the jobs that are not blocked by a refused submission are complete.
module SchedulerProgress {
  import opened Batching
  import opened Scheduler
  import opened SchedulerBlocking
  import opened SchedulerSafety

  // ---------- Some step is enabled ----------

  lemma {:induction false} UnfinishedCore(s: State, j: Job) returns (c: nat)
    requires Inv(s) && j in s.counters && s.counters[j].dones != 1
    ensures c in j.mask && c < |s.cores| && StageOf(s.cores[c], j) != Gone && s.counters[j].dones == 0
  {
    hide StageOf, Batches, StageFits;
    JobBasics(s, j);
    assert Unfinished(s, j) != {};
    c :| c in Unfinished(s, j);
  }

  lemma {:induction false} UnclaimedCore(s: State, j: Job, c: nat) returns (d: nat)
    requires Inv(s) && j in s.counters && c in j.mask && c < |s.cores| && StageOf(s.cores[c], j) == At(Waiting)
    ensures d in j.mask && d < |s.cores| && Unclaimed(StageOf(s.cores[d], j))
  {
    hide StageOf, Inv, Batches, Submittable;
    FitsAt(s, j, c);
    d :| d in Pending(s, j);
  }

  // Behind whom a queued job waits when its core has nothing else to do.
  lemma {:induction false} HeldAhead(k: Core, c: nat, ticket: map<Job, nat>, j: Job)
    requires CoreOk(k, c, ticket) && StageOf(k, j) == Queued && k.nexts == 0 && k.finishing == {}
    ensures k.slot.Held? && k.slot.job in ticket && j in ticket && ticket[k.slot.job] < ticket[j]
    ensures InLine(StageOf(k, k.slot.job)) && c in k.slot.job.mask && c in j.mask
  {
    hide SumTasks;
  }

  // From any unfinished job that is not blocked, follow the chain of the jobs it
  // waits for: each is older and not blocked either, so the chain ends at a step.
  lemma {:induction false} FindStep(s: State, j: Job) returns (e: Event)
    requires Inv(s) && j in s.counters && s.counters[j].dones != 1 && !Blocked(s, j)
    ensures !e.Enqueue? && Enabled(s, e)
    decreases if j in s.ticket then s.ticket[j] + 1 else 0
  {
    hide Inv, Batches, StageOf, Submittable, Pending, Unfinished, CoreOk, Ahead;
    TicketOf(s, j);
    var c := UnfinishedCore(s, j);
    FitsAt(s, j, c);
    StageTells(s.cores[c], j);
    FinishingTells(s.cores[c], j);
    match StageOf(s.cores[c], j) {
      case Finishing => return Finish(c, j);
      case At(Claimed) => return Decrement(c);
      case At(Submitting) => return Submit(c);
      case At(Running) => return Interrupt(c);
      case At(Drained) => return Release(c);
      case At(Waiting) =>
        c := UnclaimedCore(s, j, c);
        StageTells(s.cores[c], j);
        if StageOf(s.cores[c], j) == At(Claimed) {
          return Decrement(c);
        }
      case _ =>
    }
    var k := s.cores[c];
    CoreIsOk(s, c);
    if k.finishing != {} {
      var f :| f in k.finishing;
      return Finish(c, f);
    }
    if k.nexts > 0 {
      return Next(c);
    }
    HeldAhead(k, c, s.ticket, j);
    HeldIsAhead(s, j, c);
    e := FindStep(s, k.slot.job);
  }

  lemma {:induction false} TicketOf(s: State, j: Job)
    requires Inv(s)
    ensures j in s.counters <==> j in s.ticket
  {
  }

  lemma {:induction false} FinishingTells(k: Core, j: Job)
    ensures StageOf(k, j) == Finishing ==> j in k.finishing
  {
  }

  lemma {:induction false} HeldIsAhead(s: State, j: Job, c: nat)
    requires Inv(s) && j in s.counters && s.counters[j].dones == 0 && !Blocked(s, j) && c < |s.cores|
    requires StageOf(s.cores[c], j) == Queued && s.cores[c].nexts == 0 && s.cores[c].finishing == {}
    ensures var i := s.cores[c].slot.job;
            && s.cores[c].slot.Held? && i in s.counters && i in s.ticket && j in s.ticket && s.ticket[i] < s.ticket[j]
            && s.counters[i].dones == 0 && !Blocked(s, i)
  {
    hide Inv, StageOf, Submittable, CoreOk;
    CoreIsOk(s, c);
    HeldAhead(s.cores[c], c, s.ticket, j);
    var i := s.cores[c].slot.job;
    TicketOf(s, i);
    InLineHasNoDone(s, i, c);
    assert Ahead(s, i, j, c);
  }

  // ---------- Every step uses up work ----------

  // Steps a job on a core is still good for, by its phase and its batches left.
  function PhaseWork(p: Phase, batches: nat, sub: nat): nat {
    var left := if sub <= batches then batches - sub else 0;
    match p
    case Claimed => 2 * batches + 5
    case Waiting => 2 * batches + 4
    case Submitting => 2 * left + 3
    case Running => 2 * left + 2
    case Drained => 3
    case Refused => 0
  }

  ghost function SlotWork(s: State, c: nat): nat
    requires WellFormed(s) && c < |s.cores|
  {
    if s.cores[c].slot.Idle? then 0
    else
      var j := s.cores[c].slot.job;
      PhaseWork(s.cores[c].slot.phase, Batches(j.tasks[c], s.max), s.counters[j].sub[c])
  }

  ghost function QueueWork(js: seq<Job>, c: nat, max: nat): nat
    requires max > 0 && forall j :: j in js ==> c < |j.tasks|
  {
    if js == [] then 0 else 2 * Batches(js[0].tasks[c], max) + 6 + QueueWork(js[1..], c, max)
  }

  ghost function CoreWork(s: State, c: nat): nat
    requires WellFormed(s) && c < |s.cores|
  {
    assert Known(s.cores[c], c, s.ticket);
    s.cores[c].nexts + SlotWork(s, c) + QueueWork(s.cores[c].todo, c, s.max) + 2 * |s.cores[c].finishing|
  }

  ghost function Work(s: State, n: nat): nat
    requires WellFormed(s) && n <= |s.cores|
  {
    if n == 0 then 0 else Work(s, n - 1) + CoreWork(s, n - 1)
  }

  lemma {:induction false} WorkDrops(s: State, s': State, n: nat, c: nat)
    requires WellFormed(s) && WellFormed(s') && |s'.cores| == |s.cores| && n <= |s.cores|
    requires forall i :: 0 <= i < |s.cores| ==> CoreWork(s', i) <= CoreWork(s, i)
    requires c < |s.cores| && CoreWork(s', c) < CoreWork(s, c)
    ensures Work(s', n) <= Work(s, n) && (c < n ==> Work(s', n) < Work(s, n))
  {
    hide CoreWork, WellFormed;
    if n > 0 {
      WorkDrops(s, s', n - 1, c);
    }
  }

  // A core neither touched by a step nor holding the job it counts for.
  lemma {:induction false} SameWork(s: State, s': State, c: nat)
    requires WellFormed(s) && WellFormed(s') && c < |s.cores| == |s'.cores| && s'.max == s.max
    requires s'.cores[c] == s.cores[c]
    requires s.cores[c].slot.Held? ==> s'.counters[s.cores[c].slot.job].sub[c] == s.counters[s.cores[c].slot.job].sub[c]
    ensures CoreWork(s', c) == CoreWork(s, c)
  {
  }

  // When only the slot of a core changes, so does its work.
  lemma {:induction false} SlotDecides(s: State, s': State, c: nat)
    requires WellFormed(s) && WellFormed(s') && c < |s.cores| == |s'.cores| && s'.max == s.max
    requires s'.cores[c] == s.cores[c].(slot := s'.cores[c].slot)
    ensures CoreWork(s', c) - CoreWork(s, c) == SlotWork(s', c) - SlotWork(s, c)
  {
    hide SlotWork;
  }

  // The step on core c takes at least one unit from it.
  lemma {:induction false} NextOnCore(s: State, c: nat)
    requires Inv(s) && WellFormed(s) && Enabled(s, Next(c)) && WellFormed(Apply(s, Next(c)))
    ensures CoreWork(Apply(s, Next(c)), c) < CoreWork(s, c)
  {
    hide JobOk, Batches, Inv;
    if s.cores[c].slot.Idle? && s.cores[c].todo != [] {
      FreshBatches(s, c);
    }
  }

  lemma {:induction false} SlotOnCore(s: State, e: Event, c: nat)
    requires Inv(s) && WellFormed(s) && Enabled(s, e) && WellFormed(Apply(s, e))
    requires e == Submit(c) || e == Interrupt(c)
    ensures CoreWork(Apply(s, e), c) < CoreWork(s, c)
  {
    hide JobOk, CoreOk, Batches, Inv, CoreWork;
    CurrentJob(s, c);
    SlotDecides(s, Apply(s, e), c);
    if e.Interrupt? {
      InterruptHasBatch(s, c);
    }
  }

  lemma {:induction false} ReleaseOnCore(s: State, c: nat)
    requires Inv(s) && WellFormed(s) && Enabled(s, Release(c)) && WellFormed(Apply(s, Release(c)))
    ensures CoreWork(Apply(s, Release(c)), c) < CoreWork(s, c)
  {
    hide JobOk, Batches, Inv;
    CurrentJob(s, c);
    assert s.cores[c].slot.job !in s.cores[c].finishing;
  }

  lemma {:induction false} FinishOnCore(s: State, c: nat, j: Job)
    requires Inv(s) && WellFormed(s) && Enabled(s, Finish(c, j)) && WellFormed(Apply(s, Finish(c, j)))
    ensures CoreWork(Apply(s, Finish(c, j)), c) < CoreWork(s, c)
  {
    hide JobOk, CoreOk, Batches, Inv;
    var k, k' := s.cores[c], Apply(s, Finish(c, j)).cores[c];
    assert |k'.finishing| == |k.finishing| - 1;
    assert k'.slot == k.slot && k'.todo == k.todo;
  }

  lemma {:induction false} InterruptHasBatch(s: State, c: nat)
    requires Inv(s) && WellFormed(s) && Enabled(s, Interrupt(c))
    ensures var j := s.cores[c].slot.job; s.counters[j].sub[c] < Batches(j.tasks[c], s.max)
  {
    hide StageOf, Batches, WellFormed, Inv, CoreOk, Pending, Unfinished;
    var j := s.cores[c].slot.job;
    CurrentJob(s, c);
    JobBasics(s, j);
    assert StageFits(StageOf(s.cores[c], j), Pending(s, j) == {}, Submittable(j), s.counters[j].sub[c],
                     Batches(j.tasks[c], s.max));
  }

  lemma {:induction false} FreshBatches(s: State, c: nat)
    requires Inv(s) && c < |s.cores| && s.cores[c].todo != []
    ensures s.cores[c].todo[0] in s.counters && c in s.cores[c].todo[0].mask
  {
    assert CoreOk(s.cores[c], c, s.ticket);
  }

  // The decrement takes work from every core it moves.
  lemma {:induction false} DecrementOnCore(s: State, c: nat, i: nat)
    requires Inv(s) && WellFormed(s) && Enabled(s, Decrement(c)) && WellFormed(ApplyDecrement(s, c)) && i < |s.cores|
    ensures CoreWork(ApplyDecrement(s, c), i) <= CoreWork(s, i)
    ensures i == c ==> CoreWork(ApplyDecrement(s, c), i) < CoreWork(s, i)
  {
    hide CoreWork, Inv, WellFormed, ApplyDecrement;
    CurrentJob(s, c);
    if s.counters[s.cores[c].slot.job].run == 1 {
      CommitOnCore(s, c, i);
    } else {
      WaitOnCore(s, c, i);
    }
  }

  lemma {:induction false} WaitOnCore(s: State, c: nat, i: nat)
    requires Inv(s) && WellFormed(s) && Enabled(s, Decrement(c)) && WellFormed(ApplyDecrement(s, c)) && i < |s.cores|
    requires s.cores[c].slot.job in s.counters && s.counters[s.cores[c].slot.job].run != 1
    ensures CoreWork(ApplyDecrement(s, c), i) <= CoreWork(s, i)
    ensures i == c ==> CoreWork(ApplyDecrement(s, c), i) < CoreWork(s, i)
  {
    hide JobOk, CoreOk, Batches, Inv, CoreWork, AfterCommit;
    SlotDecides(s, ApplyDecrement(s, c), i);
  }

  lemma {:induction false} CommitOnCore(s: State, c: nat, i: nat)
    requires Inv(s) && WellFormed(s) && Enabled(s, Decrement(c)) && WellFormed(ApplyDecrement(s, c)) && i < |s.cores|
    requires s.cores[c].slot.job in s.counters && s.counters[s.cores[c].slot.job].run == 1
    ensures CoreWork(ApplyDecrement(s, c), i) <= CoreWork(s, i)
    ensures i == c ==> CoreWork(ApplyDecrement(s, c), i) < CoreWork(s, i)
  {
    hide JobOk, CoreOk, Batches, Inv, CoreWork, Submittable, StageOf, Pending, Unfinished;
    SlotDecides(s, ApplyDecrement(s, c), i);
    CommitIsGang(s, c);
    if s.cores[i].slot.Held? && s.cores[i].slot.job == s.cores[c].slot.job {
      CurrentJob(s, i);
    }
  }

  lemma {:induction false} StepDrops(s: State, e: Event)
    requires Inv(s) && Enabled(s, e) && !e.Enqueue? && WellFormed(s) && WellFormed(Apply(s, e))
    ensures |Apply(s, e).cores| == |s.cores| && Work(Apply(s, e), |s.cores|) < Work(s, |s.cores|)
  {
    hide CoreWork, WellFormed, Inv, Work;
    var s' := Apply(s, e);
    if e.Decrement? {
      forall i | 0 <= i < |s.cores|
        ensures CoreWork(s', i) <= CoreWork(s, i)
        ensures i == e.core ==> CoreWork(s', i) < CoreWork(s, i)
      {
        DecrementOnCore(s, e.core, i);
      }
    } else {
      OwnCore(s, e);
      forall i | 0 <= i < |s.cores| && i != e.core
        ensures CoreWork(s', i) == CoreWork(s, i)
      {
        SameElsewhere(s, e, i);
      }
    }
    WorkDrops(s, s', |s.cores|, e.core);
  }

  lemma {:induction false} OwnCore(s: State, e: Event)
    requires Inv(s) && Enabled(s, e) && !e.Enqueue? && !e.Decrement? && WellFormed(s) && WellFormed(Apply(s, e))
    ensures e.core < |s.cores| && CoreWork(Apply(s, e), e.core) < CoreWork(s, e.core)
  {
    hide CoreWork, WellFormed, Inv;
    match e
    case Next(c) => NextOnCore(s, c);
    case Submit(c) => SlotOnCore(s, e, c);
    case Interrupt(c) => SlotOnCore(s, e, c);
    case Release(c) => ReleaseOnCore(s, c);
    case Finish(c, j) => FinishOnCore(s, c, j);
  }

  lemma {:induction false} SameElsewhere(s: State, e: Event, i: nat)
    requires Inv(s) && Enabled(s, e) && !e.Enqueue? && !e.Decrement? && WellFormed(s) && WellFormed(Apply(s, e))
    requires i < |s.cores| && i != e.core
    ensures CoreWork(Apply(s, e), i) == CoreWork(s, i)
  {
    hide CoreWork, Inv;
    assert Known(s.cores[i], i, s.ticket);
    SameWork(s, Apply(s, e), i);
  }

  // ---------- Completion ----------

  ghost predicate Internal(es: seq<Event>) {
    forall i :: 0 <= i < |es| ==> !es[i].Enqueue?
  }

  ghost predicate AllDone(s: State) {
    forall j :: j in s.counters ==> s.counters[j].dones == 1
  }

  // Only a new submission could make a step possible.
  ghost predicate Stuck(s: State) {
    forall e: Event :: !e.Enqueue? ==> !Enabled(s, e)
  }

  // No run without new submissions takes more steps than there is work.
  lemma {:induction false} RunsAreBounded(s: State, es: seq<Event>)
    requires Inv(s) && Legal(s, es) && Internal(es)
    ensures WellFormed(s) && |es| <= Work(s, |s.cores|)
    decreases |es|
  {
    hide Inv, WellFormed, Work;
    InvIsWellFormed(s);
    if es != [] {
      StepInv(s, es[0]);
      InvIsWellFormed(Apply(s, es[0]));
      StepDrops(s, es[0]);
      RunsAreBounded(Apply(s, es[0]), es[1..]);
    }
  }

  // Deadlock freedom: where no step is enabled, every job is done or blocked.
  lemma {:induction false} NoDeadlock(s: State, j: Job)
    requires Inv(s) && Stuck(s) && j in s.counters
    ensures s.counters[j].dones == 1 <==> !Blocked(s, j)
  {
    hide Inv, Enabled;
    if !Blocked(s, j) && s.counters[j].dones != 1 {
      var e := FindStep(s, j);
    }
  }

  // Completion: in a run that cannot be continued without new submissions, the
  // jobs that were there at its start are complete exactly if they were not
  // blocked then, whatever was submitted in between.
  lemma {:induction false} StuckMeansDone(s: State, es: seq<Event>, j: Job)
    requires Inv(s) && Legal(s, es) && Stuck(Run(s, es)) && j in s.counters
    ensures j in Run(s, es).counters && (Run(s, es).counters[j].dones == 1 <==> !Blocked(s, j))
  {
    hide Inv, Stuck, Blocked, Run, Legal;
    RunInv(s, es);
    BlockedForGood(s, es, j);
    NoDeadlock(Run(s, es), j);
  }

  lemma {:induction false} NoNewJobs(s: State, es: seq<Event>)
    requires Inv(s) && Legal(s, es) && Internal(es)
    ensures Run(s, es).counters.Keys == s.counters.Keys
    decreases |es|
  {
    hide Inv, WellFormed, Enabled, Apply;
    if es != [] {
      StepInv(s, es[0]);
      InternalKeepsJobs(s, es[0]);
      NoNewJobs(Apply(s, es[0]), es[1..]);
    }
  }

  lemma {:induction false} InternalKeepsJobs(s: State, e: Event)
    requires Inv(s) && WellFormed(s) && Enabled(s, e) && !e.Enqueue?
    ensures Apply(s, e).counters.Keys == s.counters.Keys
  {
    hide CoreOk, JobOk, Known, AfterNext, AfterRelease, AfterCommit, Batches, ValidJob;
    match e
    case Interrupt(c) => CurrentJob(s, c);
    case Decrement(c) => CurrentJob(s, c);
    case Finish(c, f) => FinishingKnown(s, c, f);
    case _ =>
  }

  // A run completes all jobs only if every unfinished one is submittable ...
  lemma {:induction false} CompleteNeedsSubmittable(s: State, es: seq<Event>)
    requires Inv(s) && Legal(s, es) && AllDone(Run(s, es))
    ensures AllSubmittable(s)
  {
    hide Inv, Run, Legal, Submittable;
    forall j | j in s.counters && s.counters[j].dones == 0
      ensures Submittable(j)
    {
      TicketOf(s, j);
      BlockedForGood(s, es, j);
    }
  }

  // ... and then every run that cannot go on does.
  lemma {:induction false} StuckIsComplete(s: State, es: seq<Event>)
    requires Inv(s) && Legal(s, es) && Internal(es) && Stuck(Run(s, es))
    ensures AllDone(Run(s, es)) <==> AllSubmittable(s)
  {
    hide Inv, Run, Legal, Submittable, Stuck, Blocked, AllSubmittable;
    NoNewJobs(s, es);
    if AllSubmittable(s) {
      forall j | j in s.counters
        ensures Run(s, es).counters[j].dones == 1
      {
        SubmittableIsFree(s, j);
        StuckMeansDone(s, es, j);
      }
    }
    if AllDone(Run(s, es)) {
      CompleteNeedsSubmittable(s, es);
    }
  }

  // Every run can be continued to one that cannot go on.
  lemma {:induction false} MaximalRun(s: State) returns (es: seq<Event>)
    requires Inv(s) && WellFormed(s)
    ensures Legal(s, es) && Internal(es) && Stuck(Run(s, es))
    decreases Work(s, |s.cores|)
  {
    hide Inv, Enabled, WellFormed, Work;
    if Stuck(s) {
      return [];
    }
    var e: Event :| !e.Enqueue? && Enabled(s, e);
    StepInv(s, e);
    InvIsWellFormed(Apply(s, e));
    StepDrops(s, e);
    var rest := MaximalRun(Apply(s, e));
    es := [e] + rest;
    assert es[1..] == rest;
  }

  // The exact condition: some run without new submissions completes all jobs if
  // and only if every unfinished job is submittable.
  lemma {:induction false} EveryJobFinishes(s: State)
    requires Inv(s)
    ensures (exists es :: Legal(s, es) && Internal(es) && AllDone(Run(s, es))) <==> AllSubmittable(s)
  {
    hide Inv, Run, Legal, AllDone, AllSubmittable, WellFormed, Stuck;
    InvIsWellFormed(s);
    if AllSubmittable(s) {
      var es := MaximalRun(s);
      StuckIsComplete(s, es);
    }
    if es :| Legal(s, es) && Internal(es) && AllDone(Run(s, es)) {
      CompleteNeedsSubmittable(s, es);
    }
  }

  // The core_mask field of a submission.
  function Bits(mask: set<nat>): nat {
    (if 0 in mask then 1 else 0) + (if 1 in mask then 2 else 0) + (if 2 in mask then 4 else 0)
  }

  // Which masks the test of rknpu_submit, core_mask <= 0x7, lets through that the
  // switch does not list: with one or two cores there is none.
  lemma {:induction false} UnlistedMasks(mask: set<nat>)
    requires mask != {} && forall c :: c in mask ==> c < 3
    ensures Bits(mask) <= 7
    ensures !Listed(mask) <==> mask == {0, 2} || mask == {1, 2}
    ensures !Listed(mask) <==> Bits(mask) == 5 || Bits(mask) == 6
  {
    assert mask == set c: nat | c < 3 && c in mask;
    var zero, one, two := 0 in mask, 1 in mask, 2 in mask;
    assert mask == (if zero then {0} else {}) + (if one then {1} else {}) + (if two then {2} else {});
  }

  // The failing input: on three cores, mask {0, 2} passes the test of rknpu_submit,
  // which only compares it with the largest mask, but the switch of the commit does
  // not list it. The job never completes, and nor does a later one on core 0,
  // whatever happens after their submission.
  lemma {:induction false} UnlistedMaskBlocks(s: State, j: Job, k: Job, es: seq<Event>)
    requires s.max > 0 && s == Init(3, s.max)
    requires j == Job(0, 0, {0, 2}, [1, 0, 1], true, true) && k == Job(1, 0, {0}, [1, 0, 0], true, true)
    ensures Submittable(k) && !Submittable(j) && Legal(s, [Enqueue(j), Enqueue(k)])
    ensures Legal(s, [Enqueue(j), Enqueue(k)] + es) ==>
              var s' := Run(s, [Enqueue(j), Enqueue(k)] + es);
              j in s'.counters && s'.counters[j].dones == 0 && k in s'.counters && s'.counters[k].dones == 0
  {
    hide Inv, WellFormed, Apply, Enabled;
    var two := [Enqueue(j), Enqueue(k)];
    var all := two + es;
    assert all[1..][1..] == es && all[0] == Enqueue(j) && all[1..][0] == Enqueue(k);
    InvIsWellFormed(s);
    FreshIsEnabled(s, j);
    FreshIsEnabled(s, k);
    StepInv(s, Enqueue(j));
    var s1 := Apply(s, Enqueue(j));
    SecondIsEnabled(s, j, k);
    StepInv(s1, Enqueue(k));
    var s2 := Apply(s1, Enqueue(k));
    assert two[1..][1..] == [] && two[1..][0] == Enqueue(k);
    assert Legal(s2, two[1..][1..]) && Legal(s1, two[1..]);
    TwoEnqueued(s, s1, s2, j, k);
    if Legal(s, all) {
      assert Legal(s1, all[1..]) && Legal(s2, es);
      BlockedForGood(s2, es, j);
      BlockedForGood(s2, es, k);
    }
  }

  lemma {:induction false} FreshIsEnabled(s: State, j: Job)
    requires s.max > 0 && s == Init(3, s.max) && j.mask != {} && |j.tasks| == 3
    requires forall c :: c in j.mask ==> c < 3 && j.tasks[c] > 0
    ensures Enabled(s, Enqueue(j))
  {
  }

  lemma {:induction false} SecondIsEnabled(s: State, j: Job, k: Job)
    requires WellFormed(s) && Enabled(s, Enqueue(j)) && Enabled(s, Enqueue(k)) && k != j
    ensures Enabled(Apply(s, Enqueue(j)), Enqueue(k))
  {
  }

  lemma {:induction false} TwoEnqueued(s: State, s1: State, s2: State, j: Job, k: Job)
    requires s.max > 0 && s == Init(3, s.max) && WellFormed(s) && Enabled(s, Enqueue(j)) && s1 == Apply(s, Enqueue(j))
    requires WellFormed(s1) && Enabled(s1, Enqueue(k)) && s2 == Apply(s1, Enqueue(k)) && Inv(s2)
    requires 0 in j.mask && 0 in k.mask && !Submittable(j) && j != k
    ensures j in s2.counters && k in s2.counters && Blocked(s2, j) && Blocked(s2, k)
  {
    hide Inv, Submittable, WellFormed;
    assert s2.cores[0].todo == [j, k];
    assert Ahead(s2, j, k, 0);
    assert Blocked(s2, j);
  }
}
