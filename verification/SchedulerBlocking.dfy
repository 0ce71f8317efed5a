// Which jobs can ever finish. A job whose commit writes nothing to the hardware
// keeps its cores, so it never finishes, nor does a job queued behind it on some
// core, nor one queued behind that one, and so on. Whether a job is blocked in
// this way is settled when it is enqueued: no later step changes it.
module SchedulerBlocking {
  import opened Batching
  import opened Scheduler
  import opened SchedulerSafety

  // ---------- How far a job is on a core ----------

  function Rank(t: Stage): nat {
    match t
    case Queued => 0
    case At(_) => 1
    case Finishing => 2
    case Gone => 3
  }

  // Current on the core, or in its queue.
  predicate InLine(t: Stage) {
    Rank(t) <= 1
  }

  lemma {:induction false} EnqueueStage(s: State, i: Job, c: nat, j: Job)
    requires Inv(s) && WellFormed(s) && Enabled(s, Enqueue(i)) && c < |s.cores| && j in s.counters
    ensures |ApplyEnqueue(s, i).cores| == |s.cores|
    ensures StageOf(ApplyEnqueue(s, i).cores[c], j) == StageOf(s.cores[c], j)
  {
    hide Inv, StageOf, AfterEnqueue;
    EnqueueKeepsStages(s.cores[c], c, i, j);
  }

  lemma {:induction false} DecrementStage(s: State, i: nat, c: nat, j: Job)
    requires Inv(s) && WellFormed(s) && Enabled(s, Decrement(i)) && c < |s.cores|
    ensures |ApplyDecrement(s, i).cores| == |s.cores|
    ensures var t, t' := StageOf(s.cores[c], j), StageOf(ApplyDecrement(s, i).cores[c], j); t' == t || (t.At? && t'.At?)
  {
    hide Inv, StageOf, AfterCommit, WellFormed, Submittable;
    var current := s.cores[i].slot.job;
    CurrentJob(s, i);
    if s.cores[c].slot.Held? && s.cores[c].slot.job == current {
      CurrentJob(s, c);
      CommitMoves(s.cores[c], c, s.ticket, current);
      PhaseMoves(s.cores[c], c, s.ticket, Waiting);
    } else {
      CommitElsewhere(s.cores[c], current);
    }
  }

  lemma {:induction false} CommitElsewhere(k: Core, j: Job)
    requires !(k.slot.Held? && k.slot.job == j)
    ensures AfterCommit(k, j) == k
  {
  }

  // The stage of a job on a core only moves on, and it leaves the queue only by
  // a job_next of that core.
  lemma {:induction false} StageMovesOn(s: State, e: Event, c: nat, j: Job)
    requires Inv(s) && WellFormed(s) && Enabled(s, e) && c < |s.cores| && j in s.counters
    ensures |Apply(s, e).cores| == |s.cores|
    ensures var t, t' := StageOf(s.cores[c], j), StageOf(Apply(s, e).cores[c], j);
            Rank(t') >= Rank(t) && (t == Queued && e != Next(c) ==> t' == Queued)
  {
    hide Inv, StageOf, AfterNext, AfterRelease, AfterCommit, AfterEnqueue, WellFormed, ApplyDecrement, ApplyEnqueue;
    match e
    case Enqueue(i) => EnqueueStage(s, i, c, j);
    case Next(i) => if i == c { NextStage(s, c, j); }
    case Decrement(i) => DecrementStage(s, i, c, j);
    case Submit(i) =>
      CurrentJob(s, i);
      PhaseMoves(s.cores[i], i, s.ticket, Running);
    case Interrupt(i) =>
      CurrentJob(s, i);
      PhaseMoves(s.cores[i], i, s.ticket, ApplyInterrupt(s, i).cores[i].slot.phase);
    case Release(i) =>
      CurrentJob(s, i);
      HasTasks(s, i);
      ReleaseMoves(s.cores[i], i, s.ticket);
    case Finish(i, f) =>
      assert CoreOk(s.cores[i], i, s.ticket) by { CoreIsOk(s, i); }
      FinishMoves(s.cores[i], i, s.ticket, f);
  }

  lemma {:induction false} HasTasks(s: State, c: nat)
    requires WellFormed(s) && c < |s.cores| && s.cores[c].slot.Held?
    ensures c < |s.cores[c].slot.job.tasks|
  {
    assert Known(s.cores[c], c, s.ticket);
  }

  lemma {:induction false} CoreIsOk(s: State, c: nat)
    requires Inv(s) && c < |s.cores|
    ensures CoreOk(s.cores[c], c, s.ticket)
  {
  }

  lemma {:induction false} NextStage(s: State, c: nat, j: Job)
    requires Inv(s) && Enabled(s, Next(c))
    ensures Rank(StageOf(AfterNext(s.cores[c]), j)) >= Rank(StageOf(s.cores[c], j))
  {
    hide Inv, CoreOk;
    CoreIsOk(s, c);
    if s.cores[c].slot.Idle? && s.cores[c].todo != [] {
      NextMoves(s.cores[c], c, s.ticket);
    }
  }

  // A job does not overtake an older one in the same line.
  lemma {:induction false} QueuedStays(k: Core, c: nat, ticket: map<Job, nat>, i: Job, j: Job)
    requires CoreOk(k, c, ticket) && k.nexts > 0 && i in ticket && j in ticket && ticket[i] < ticket[j]
    requires InLine(StageOf(k, i)) && StageOf(k, j) == Queued
    ensures StageOf(AfterNext(k), j) == Queued
  {
    hide SumTasks, Known;
    if k.slot.Idle? {
      assert i in k.todo && CoreOk(k, c, ticket);
      assert Known(k, c, ticket);
      HeadOfQueue(k, c, ticket, i, j);
      NextMoves(k, c, ticket);
    }
  }

  lemma {:induction false} HeadOfQueue(k: Core, c: nat, ticket: map<Job, nat>, i: Job, j: Job)
    requires CoreOk(k, c, ticket) && i in k.todo && i in ticket && j in ticket && ticket[i] < ticket[j]
    ensures k.todo[0] != j
  {
    hide SumTasks;
    HeadIsOldest(k.todo, ticket);
    var b :| 0 <= b < |k.todo| && k.todo[b] == i;
    if b > 0 {
      assert k.todo[1..][b - 1] == i;
    }
  }

  // ---------- Blocked jobs ----------

  // Job i is in line before job j on core c.
  ghost predicate Ahead(s: State, i: Job, j: Job, c: nat) {
    && c < |s.cores| && c in i.mask && c in j.mask
    && i in s.counters && i in s.ticket && j in s.ticket && s.ticket[i] < s.ticket[j]
    && InLine(StageOf(s.cores[c], i)) && StageOf(s.cores[c], j) == Queued
  }

  // Unfinished, and refused by the hardware or queued behind a blocked job.
  ghost predicate Blocked(s: State, j: Job)
    decreases if j in s.ticket then s.ticket[j] + 1 else 0
  {
    && j in s.counters && j in s.ticket && s.counters[j].dones == 0
    && (!Submittable(j) || exists i, c :: Ahead(s, i, j, c) && Blocked(s, i))
  }

  // What the invariant says of one job on one core.
  lemma {:induction false} FitsAt(s: State, j: Job, c: nat)
    requires Inv(s) && j in s.counters && c in j.mask
    ensures c < |s.cores| && c < |j.tasks| && c < |s.counters[j].sub| && s.max > 0
    ensures StageFits(StageOf(s.cores[c], j), Pending(s, j) == {}, Submittable(j), s.counters[j].sub[c],
                      Batches(j.tasks[c], s.max))
    ensures s.counters[j].dones == if Unfinished(s, j) == {} then 1 else 0
  {
    hide StageOf, CoreOk, Batches, Submittable, Unfinished, Pending, StageFits;
    JobBasics(s, j);
  }

  // A blocked job is still in line on all its cores.
  lemma {:induction false} BlockedInLine(s: State, j: Job, c: nat)
    requires Inv(s) && Blocked(s, j) && c in j.mask
    ensures c < |s.cores| && InLine(StageOf(s.cores[c], j))
  {
    hide StageOf, Inv, Batches, Submittable;
    FitsAt(s, j, c);
    if Submittable(j) {
      var i, d :| Ahead(s, i, j, d) && Blocked(s, i);
      assert d in Pending(s, j);
    }
  }

  lemma {:induction false} InLineHasNoDone(s: State, j: Job, c: nat)
    requires Inv(s) && j in s.counters && c in j.mask && c < |s.cores| && InLine(StageOf(s.cores[c], j))
    ensures s.counters[j].dones == 0
  {
    hide StageOf, Inv, Batches, StageFits;
    FitsAt(s, j, c);
    assert c in Unfinished(s, j);
  }

  // ---------- Blocked for good ----------

  // The jobs enqueued before a step keep their tickets.
  lemma {:induction false} TicketsStay(s: State, e: Event, j: Job)
    requires Inv(s) && WellFormed(s) && Enabled(s, e) && j in s.counters
    ensures |Apply(s, e).cores| == |s.cores|
    ensures j in s.ticket && j in Apply(s, e).counters && j in Apply(s, e).ticket
    ensures Apply(s, e).ticket[j] == s.ticket[j]
    ensures forall i :: i in Apply(s, e).ticket && Apply(s, e).ticket[i] < s.ticket[j] ==> i in s.counters
  {
    hide CoreOk, JobOk, Known, AfterNext, AfterRelease, AfterCommit, AfterEnqueue, Batches, ValidJob;
    match e
    case Interrupt(c) => CurrentJob(s, c);
    case Decrement(c) => CurrentJob(s, c);
    case Finish(c, f) => FinishingKnown(s, c, f);
    case _ =>
  }

  lemma {:induction false} FinishingKnown(s: State, c: nat, j: Job)
    requires WellFormed(s) && c < |s.cores| && j in s.cores[c].finishing
    ensures j in s.counters
  {
    assert Known(s.cores[c], c, s.ticket);
  }

  lemma {:induction false} AheadStays(s: State, e: Event, i: Job, j: Job, c: nat)
    requires Inv(s) && WellFormed(s) && Enabled(s, e) && WellFormed(Apply(s, e)) && Inv(Apply(s, e))
    requires Ahead(s, i, j, c) && j in s.counters && Blocked(Apply(s, e), i)
    ensures Ahead(Apply(s, e), i, j, c)
  {
    hide Inv, Apply, Enabled, StageOf, WellFormed, Blocked;
    TicketsStay(s, e, i);
    TicketsStay(s, e, j);
    StageMovesOn(s, e, c, j);
    BlockedInLine(Apply(s, e), i, c);
    if e == Next(c) {
      NextKeepsQueued(s, i, j, c);
    }
  }

  lemma {:induction false} NextKeepsQueued(s: State, i: Job, j: Job, c: nat)
    requires Inv(s) && WellFormed(s) && Enabled(s, Next(c)) && Ahead(s, i, j, c)
    ensures StageOf(Apply(s, Next(c)).cores[c], j) == Queued
  {
    hide Inv, StageOf, CoreOk, AfterNext;
    CoreIsOk(s, c);
    QueuedStays(s.cores[c], c, s.ticket, i, j);
  }

  lemma {:induction false} AheadWas(s: State, e: Event, i: Job, j: Job, c: nat)
    requires Inv(s) && WellFormed(s) && Enabled(s, e)
    requires j in s.counters && j in s.ticket && Ahead(Apply(s, e), i, j, c)
    ensures i in s.counters && Ahead(s, i, j, c)
  {
    hide Inv, Apply, Enabled, StageOf, WellFormed;
    TicketsStay(s, e, j);
    TicketsStay(s, e, i);
    StageMovesOn(s, e, c, j);
    StageMovesOn(s, e, c, i);
  }

  lemma {:induction false} DoneStays(s: State, e: Event, j: Job)
    requires Inv(s) && WellFormed(s) && Enabled(s, e) && Inv(Apply(s, e)) && j in s.counters
    ensures j in Apply(s, e).counters && (s.counters[j].dones != 0 ==> Apply(s, e).counters[j].dones != 0)
  {
    hide Inv, Apply, Enabled, StageOf, WellFormed;
    TicketsStay(s, e, j);
    JobBasics(s, j);
    JobBasics(Apply(s, e), j);
    if s.counters[j].dones != 0 {
      forall c | c in j.mask && c < |s.cores|
        ensures StageOf(Apply(s, e).cores[c], j) == Gone
      {
        assert c !in Unfinished(s, j);
        StageMovesOn(s, e, c, j);
      }
      assert Unfinished(Apply(s, e), j) == {};
    }
  }

  // No step blocks a job or frees a blocked one, submissions included.
  lemma {:induction false} BlockedStays(s: State, e: Event, j: Job)
    requires Inv(s) && WellFormed(s) && Enabled(s, e) && WellFormed(Apply(s, e)) && Inv(Apply(s, e)) && j in s.counters
    ensures Blocked(Apply(s, e), j) <==> Blocked(s, j)
    decreases if j in s.ticket then s.ticket[j] + 1 else 0
  {
    hide Inv, Apply, Enabled, StageOf, WellFormed, Submittable, Ahead;
    var s' := Apply(s, e);
    TicketsStay(s, e, j);
    DoneStays(s, e, j);
    if Blocked(s, j) {
      BlockedForward(s, e, j);
    }
    if Blocked(s', j) && Submittable(j) {
      var i, c :| Ahead(s', i, j, c) && Blocked(s', i);
      AheadWas(s, e, i, j, c);
      AheadIsOlder(s, i, j, c);
      BlockedStays(s, e, i);
    }
  }

  lemma {:induction false} AheadIsOlder(s: State, i: Job, j: Job, c: nat)
    requires Ahead(s, i, j, c)
    ensures i in s.counters && i in s.ticket && j in s.ticket && s.ticket[i] < s.ticket[j]
    ensures c in j.mask && c < |s.cores| && InLine(StageOf(s.cores[c], j))
  {
  }

  lemma {:induction false} BlockedForward(s: State, e: Event, j: Job)
    requires Inv(s) && WellFormed(s) && Enabled(s, e) && WellFormed(Apply(s, e)) && Inv(Apply(s, e))
    requires j in s.counters && Blocked(s, j)
    ensures Blocked(Apply(s, e), j)
    decreases if j in s.ticket then s.ticket[j] + 1 else 0
  {
    hide Inv, Apply, Enabled, StageOf, WellFormed, Submittable, Ahead;
    var s' := Apply(s, e);
    TicketsStay(s, e, j);
    if !Submittable(j) {
      RefusedHasNoDone(s', j);
    } else {
      var i, c :| Ahead(s, i, j, c) && Blocked(s, i);
      AheadIsOlder(s, i, j, c);
      BlockedForward(s, e, i);
      AheadStays(s, e, i, j, c);
      AheadIsOlder(s', i, j, c);
      InLineHasNoDone(s', j, c);
    }
  }

  lemma {:induction false} SomeCore(s: State, j: Job) returns (c: nat)
    requires Inv(s) && j in s.counters
    ensures c in j.mask
  {
    JobBasics(s, j);
    c :| c in j.mask;
  }

  // A job that is not submittable is never completed.
  lemma {:induction false} RefusedHasNoDone(s: State, j: Job)
    requires Inv(s) && j in s.counters && !Submittable(j)
    ensures s.counters[j].dones == 0
  {
    hide StageOf, Inv, Batches, Submittable;
    var c := SomeCore(s, j);
    FitsAt(s, j, c);
    assert c in Unfinished(s, j);
  }

  // Over a whole run.
  lemma {:induction false} BlockedForGood(s: State, es: seq<Event>, j: Job)
    requires Inv(s) && Legal(s, es) && j in s.counters
    ensures j in Run(s, es).counters
    ensures Blocked(Run(s, es), j) <==> Blocked(s, j)
    decreases |es|
  {
    hide Inv, Apply, Enabled, WellFormed, Blocked;
    if es != [] {
      StepInv(s, es[0]);
      InvIsWellFormed(s);
      InvIsWellFormed(Apply(s, es[0]));
      TicketsStay(s, es[0], j);
      BlockedStays(s, es[0], j);
      BlockedForGood(Apply(s, es[0]), es[1..], j);
    }
  }

  // If every unfinished job is submittable, none is blocked.
  ghost predicate AllSubmittable(s: State) {
    forall j :: j in s.counters && s.counters[j].dones == 0 ==> Submittable(j)
  }

  lemma {:induction false} SubmittableIsFree(s: State, j: Job)
    requires AllSubmittable(s)
    ensures !Blocked(s, j)
    decreases if j in s.ticket then s.ticket[j] + 1 else 0
  {
    hide Ahead, Submittable;
    if Blocked(s, j) {
      var i, c :| Ahead(s, i, j, c) && Blocked(s, i);
      AheadIsOlder(s, i, j, c);
      SubmittableIsFree(s, i);
    }
  }
}
