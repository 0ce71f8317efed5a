// Every step of the scheduler keeps its invariant: the counters say how many
// cores still queue and still have to finish a job, a job is committed once and
// on all its cores together, and completed once, after all its batches.
module SchedulerSafety {
  import opened Batching
  import opened Scheduler

  // ---------- One core ----------

  lemma {:induction false} SumTasksAppend(js: seq<Job>, j: Job, c: nat)
    ensures SumTasks(js + [j], c) == SumTasks(js, c) + (if c < |j.tasks| then j.tasks[c] else 0)
  {
    if js != [] {
      SumTasksAppend(js[1..], j, c);
      assert (js + [j])[1..] == js[1..] + [j];
    }
  }

  lemma {:induction false} EnqueueOrder(k: Core, c: nat, ticket: map<Job, nat>, clock: nat, j: Job)
    requires Known(k, c, ticket) && Ordered(k, ticket) && j !in ticket
    requires forall i :: i in ticket ==> ticket[i] < clock
    requires c in j.mask ==> c < |j.tasks|
    ensures Known(AfterEnqueue(k, c, j), c, ticket[j := clock])
    ensures Ordered(AfterEnqueue(k, c, j), ticket[j := clock])
  {
    var k', ticket' := AfterEnqueue(k, c, j), ticket[j := clock];
    assert forall i :: i in ticket ==> i in ticket' && ticket'[i] == ticket[i];
    if c in j.mask {
      assert forall i :: i in k'.todo ==> i == j || i in k.todo;
      AppendIncreases(k.todo, ticket, clock, j);
    }
  }

  lemma {:induction false} AppendIncreases(js: seq<Job>, ticket: map<Job, nat>, clock: nat, j: Job)
    requires (forall i :: i in js ==> i in ticket) && (forall i :: i in ticket ==> ticket[i] < clock) && j !in ticket
    requires forall a, b :: 0 <= a < b < |js| ==> ticket[js[a]] < ticket[js[b]]
    ensures var js', ticket' := js + [j], ticket[j := clock];
            forall a, b :: 0 <= a < b < |js'| ==> ticket'[js'[a]] < ticket'[js'[b]]
  {
    var js', ticket' := js + [j], ticket[j := clock];
    forall a, b | 0 <= a < b < |js'|
      ensures ticket'[js'[a]] < ticket'[js'[b]]
    {
      assert js'[a] in js;
      assert b < |js| ==> js'[b] in js;
    }
  }

  lemma {:induction false} EnqueueLoad(k: Core, c: nat, j: Job)
    requires k.load == SumTasks(Line(k), c) && (c in j.mask ==> c < |j.tasks|)
    ensures AfterEnqueue(k, c, j).load == SumTasks(Line(AfterEnqueue(k, c, j)), c)
  {
    if c in j.mask {
      SumTasksAppend(Line(k), j, c);
      assert Line(AfterEnqueue(k, c, j)) == Line(k) + [j];
    }
  }

  lemma {:induction false} CoreEnqueue(k: Core, c: nat, ticket: map<Job, nat>, clock: nat, j: Job)
    requires CoreOk(k, c, ticket) && j !in ticket && (forall i :: i in ticket ==> ticket[i] < clock)
    requires c in j.mask ==> c < |j.tasks|
    ensures CoreOk(AfterEnqueue(k, c, j), c, ticket[j := clock])
  {
    hide SumTasks, Line, Ordered;
    EnqueueOrder(k, c, ticket, clock, j);
    EnqueueLoad(k, c, j);
  }

  lemma {:induction false} CoreNext(k: Core, c: nat, ticket: map<Job, nat>)
    requires CoreOk(k, c, ticket) && k.nexts > 0
    ensures CoreOk(AfterNext(k), c, ticket)
  {
    hide SumTasks;
    assert Line(AfterNext(k)) == Line(k);
    if k.slot.Idle? && k.todo != [] {
      HeadIsOldest(k.todo, ticket);
    }
  }

  lemma {:induction false} HeadIsOldest(js: seq<Job>, ticket: map<Job, nat>)
    requires js != [] && forall j :: j in js ==> j in ticket
    requires forall a, b :: 0 <= a < b < |js| ==> ticket[js[a]] < ticket[js[b]]
    ensures forall j :: j in js[1..] ==> j in js && ticket[js[0]] < ticket[j]
    ensures forall a, b :: 0 <= a < b < |js[1..]| ==> ticket[js[1..][a]] < ticket[js[1..][b]]
  {
    forall j | j in js[1..]
      ensures j in js && ticket[js[0]] < ticket[j]
    {
      var b :| 0 <= b < |js[1..]| && js[1..][b] == j;
      assert js[b + 1] == j;
    }
    forall a, b | 0 <= a < b < |js[1..]|
      ensures ticket[js[1..][a]] < ticket[js[1..][b]]
    {
      assert js[1..][a] == js[a + 1] && js[1..][b] == js[b + 1];
    }
  }

  lemma {:induction false} CorePhase(k: Core, c: nat, ticket: map<Job, nat>, p: Phase)
    requires CoreOk(k, c, ticket) && k.slot.Held?
    ensures CoreOk(k.(slot := Held(k.slot.job, p)), c, ticket)
  {
    assert Line(k.(slot := Held(k.slot.job, p))) == Line(k);
  }

  lemma {:induction false} SameLine(k: Core, k': Core)
    requires k'.todo == k.todo && k'.slot.Held? == k.slot.Held? && (k.slot.Held? ==> k'.slot.job == k.slot.job)
    ensures Line(k') == Line(k)
  {
  }

  lemma {:induction false} ClearedLine(k: Core, c: nat)
    requires k.slot.Held? && c < |k.slot.job.tasks|
    ensures Line(k.(slot := Idle)) == k.todo
    ensures SumTasks(Line(k), c) == k.slot.job.tasks[c] + SumTasks(k.todo, c)
  {
    assert Line(k)[0] == k.slot.job && Line(k)[1..] == k.todo;
  }

  lemma {:induction false} CoreRelease(k: Core, c: nat, ticket: map<Job, nat>)
    requires CoreOk(k, c, ticket) && k.slot.Held? && c < |k.slot.job.tasks|
    ensures CoreOk(AfterRelease(k, c), c, ticket)
  {
    hide SumTasks, Line;
    ClearedLine(k, c);
    SameLine(k.(slot := Idle), AfterRelease(k, c));
    assert k.slot.job in AfterRelease(k, c).finishing;
  }

  lemma {:induction false} CoreFinish(k: Core, c: nat, ticket: map<Job, nat>, j: Job)
    requires CoreOk(k, c, ticket) && j in k.finishing
    ensures CoreOk(k.(finishing := k.finishing - {j}, nexts := k.nexts + 1), c, ticket)
  {
    assert Line(k.(finishing := k.finishing - {j}, nexts := k.nexts + 1)) == Line(k);
  }

  // ---------- One job ----------

  // Only the stage on core c may differ.
  ghost predicate MovesOnly(s: State, s': State, j: Job, c: nat) {
    && |s'.cores| == |s.cores| && s'.max == s.max
    && forall i :: i in j.mask && i < |s.cores| && i != c ==> StageOf(s'.cores[i], j) == StageOf(s.cores[i], j)
  }

  lemma {:induction false} SetsMove(s: State, s': State, j: Job, c: nat)
    requires MovesOnly(s, s', j, c) && c in j.mask && c < |s.cores|
    ensures Pending(s', j) == if Unclaimed(StageOf(s'.cores[c], j)) then Pending(s, j) + {c} else Pending(s, j) - {c}
    ensures Unfinished(s', j) == if StageOf(s'.cores[c], j) != Gone then Unfinished(s, j) + {c}
                                 else Unfinished(s, j) - {c}
  {
  }

  // A job none of whose stages and counters changes stays in order.
  lemma {:induction false} JobFrame(s: State, s': State, j: Job)
    requires j in s.counters && JobOk(s, j) && j in s'.counters && s'.counters[j] == s.counters[j]
    requires |s'.cores| == |s.cores| && s'.max == s.max
    requires forall i :: i in j.mask && i < |s.cores| ==> StageOf(s'.cores[i], j) == StageOf(s.cores[i], j)
    ensures JobOk(s', j)
  {
    assert Pending(s', j) == Pending(s, j);
    assert Unfinished(s', j) == Unfinished(s, j);
  }

  // A job that moves on one core keeps its counters right when they are
  // adjusted for the core that leaves a set.
  lemma {:induction false} JobMoves(s: State, s': State, j: Job, c: nat)
    requires j in s.counters && JobOk(s, j) && j in s'.counters
    requires MovesOnly(s, s', j, c) && c in j.mask
    requires |s'.counters[j].sub| == |s.cores|
    requires forall i :: 0 <= i < |s.cores| && i != c ==> s'.counters[j].sub[i] == s.counters[j].sub[i]
    requires Pending(s', j) == {} <==> Pending(s, j) == {}
    requires s'.counters[j].commits == s.counters[j].commits
    requires s'.counters[j].run == |Pending(s', j)| && s'.counters[j].intr == |Unfinished(s', j)|
    requires s'.counters[j].dones == if Unfinished(s', j) == {} then 1 else 0
    requires StageFits(StageOf(s'.cores[c], j), Pending(s, j) == {}, Submittable(j), s'.counters[j].sub[c],
                       Batches(j.tasks[c], s.max))
    ensures JobOk(s', j)
  {
  }

  // The counters of a job after it moves to stage t' on core c.
  function Adjusted(k: Counters, t': Stage, c: nat, sub: nat): Counters
    requires c < |k.sub|
  {
    if t' == Gone then
      k.(sub := k.sub[c := sub], intr := k.intr - 1, dones := if k.intr - 1 == 0 then k.dones + 1 else k.dones)
    else k.(sub := k.sub[c := sub])
  }

  // A move that does not claim the job keeps its counters right.
  lemma {:induction false} JobStep(s: State, s': State, j: Job, c: nat, sub: nat)
    requires j in s.counters && JobOk(s, j) && j in s'.counters && c in j.mask
    requires MovesOnly(s, s', j, c)
    requires var t, t' := StageOf(s.cores[c], j), StageOf(s'.cores[c], j);
             && Unclaimed(t) == Unclaimed(t') && t != Gone
             && s'.counters[j] == Adjusted(s.counters[j], t', c, sub)
             && forall committed ::
                  StageFits(t, committed, Submittable(j), s.counters[j].sub[c], Batches(j.tasks[c], s.max)) ==>
                    StageFits(t', committed, Submittable(j), sub, Batches(j.tasks[c], s.max))
    ensures JobOk(s', j)
  {
    hide StageOf, Batches, StageFits, Pending, Unfinished, Unclaimed;
    StepSets(s, s', j, c);
    JobMoves(s, s', j, c);
  }

  lemma {:induction false} StepSets(s: State, s': State, j: Job, c: nat)
    requires MovesOnly(s, s', j, c) && c in j.mask && c < |s.cores|
    requires var t, t' := StageOf(s.cores[c], j), StageOf(s'.cores[c], j); Unclaimed(t) == Unclaimed(t') && t != Gone
    ensures Pending(s', j) == Pending(s, j)
    ensures if StageOf(s'.cores[c], j) == Gone then
              |Unfinished(s', j)| == |Unfinished(s, j)| - 1
            else
              Unfinished(s', j) == Unfinished(s, j) && Unfinished(s, j) != {}
  {
    hide StageOf;
    SetsMove(s, s', j, c);
    assert c in Pending(s, j) <==> Unclaimed(StageOf(s.cores[c], j));
    assert c in Unfinished(s, j);
  }

  // ---------- The steps ----------

  lemma {:induction false} InvIsWellFormed(s: State)
    requires Inv(s)
    ensures WellFormed(s)
  {
  }

  lemma {:induction false} EnqueueKeepsStages(k: Core, c: nat, j: Job, i: Job)
    requires i != j && (c in j.mask ==> c < |j.tasks|)
    ensures StageOf(AfterEnqueue(k, c, j), i) == StageOf(k, i)
  {
  }

  lemma {:induction false} EnqueuedJob(s: State, j: Job)
    requires Inv(s) && Enabled(s, Enqueue(j))
    ensures JobOk(ApplyEnqueue(s, j), j)
  {
    var s' := ApplyEnqueue(s, j);
    forall c | c in j.mask
      ensures StageOf(s'.cores[c], j) == Queued && Batches(j.tasks[c], s.max) > 0
    {
      assert s'.cores[c] == AfterEnqueue(s.cores[c], c, j);
      BatchesPositive(j.tasks[c], s.max);
    }
    assert Pending(s', j) == j.mask && Unfinished(s', j) == j.mask;
  }

  lemma {:induction false} EnqueueInv(s: State, j: Job)
    requires Inv(s) && Enabled(s, Enqueue(j))
    ensures Inv(ApplyEnqueue(s, j))
  {
    hide CoreOk, JobOk, StageOf, AfterEnqueue;
    var s' := ApplyEnqueue(s, j);
    forall c | 0 <= c < |s'.cores|
      ensures CoreOk(s'.cores[c], c, s'.ticket)
    {
      CoreEnqueue(s.cores[c], c, s.ticket, s.clock, j);
    }
    forall i | i in s'.counters
      ensures JobOk(s', i)
    {
      if i == j {
        EnqueuedJob(s, j);
      } else {
        forall c | c in i.mask && c < |s.cores|
          ensures StageOf(s'.cores[c], i) == StageOf(s.cores[c], i)
        {
          EnqueueKeepsStages(s.cores[c], c, j, i);
        }
        JobFrame(s, s', i);
      }
    }
  }

  lemma {:induction false} JobBasics(s: State, j: Job)
    requires Inv(s) && j in s.counters
    ensures JobOk(s, j) && |s.counters[j].sub| == |s.cores|
  {
  }

  // A step on core c that moves at most job j keeps the invariant if the core
  // and the job are in order afterwards.
  lemma {:induction false} OneCoreInv(s: State, s': State, c: nat, j: Job)
    requires Inv(s) && c < |s.cores| && |s'.cores| == |s.cores|
    requires s'.ticket == s.ticket && s'.clock == s.clock && s'.max == s.max && s'.counters.Keys == s.counters.Keys
    requires forall i :: 0 <= i < |s.cores| && i != c ==> s'.cores[i] == s.cores[i]
    requires forall i :: i in s.counters && i != j ==> s'.counters[i] == s.counters[i]
    requires forall i :: i in s.counters && i != j ==> StageOf(s'.cores[c], i) == StageOf(s.cores[c], i)
    requires CoreOk(s'.cores[c], c, s.ticket)
    requires j in s.counters ==> JobOk(s', j)
    ensures Inv(s')
  {
    hide CoreOk, JobOk, StageOf;
    forall i | i in s'.counters
      ensures JobOk(s', i)
    {
      if i != j {
        JobFrame(s, s', i);
      }
    }
  }

  lemma {:induction false} NextInv(s: State, c: nat)
    requires Inv(s) && Enabled(s, Next(c))
    ensures Inv(s.(cores := s.cores[c := AfterNext(s.cores[c])]))
  {
    hide JobOk, CoreOk;
    var k := s.cores[c];
    var s' := s.(cores := s.cores[c := AfterNext(k)]);
    assert CoreOk(k, c, s.ticket);
    CoreNext(k, c, s.ticket);
    if k.slot.Held? || k.todo == [] {
      forall i | i in s.counters
        ensures JobOk(s', i)
      {
        JobFrame(s, s', i);
      }
    } else {
      var j := k.todo[0];
      NextMoves(k, c, s.ticket);
      NextJob(s, c);
      OneCoreInv(s, s', c, j);
    }
  }

  // The head of the queue is claimed, and nothing else moves.
  lemma {:induction false} NextMoves(k: Core, c: nat, ticket: map<Job, nat>)
    requires CoreOk(k, c, ticket) && k.nexts > 0 && k.slot.Idle? && k.todo != []
    ensures StageOf(k, k.todo[0]) == Queued && StageOf(AfterNext(k), k.todo[0]) == At(Claimed)
    ensures forall i :: i != k.todo[0] ==> StageOf(AfterNext(k), i) == StageOf(k, i)
    ensures k.todo[0] in ticket && c in k.todo[0].mask
  {
    hide SumTasks;
    HeadIsOldest(k.todo, ticket);
    forall i | i != k.todo[0]
      ensures i in k.todo <==> i in k.todo[1..]
    {
      assert k.todo == [k.todo[0]] + k.todo[1..];
    }
  }

  lemma {:induction false} NextJob(s: State, c: nat)
    requires Inv(s) && Enabled(s, Next(c)) && s.cores[c].slot.Idle? && s.cores[c].todo != []
    ensures s.cores[c].todo[0] in s.counters
    ensures JobOk(s.(cores := s.cores[c := AfterNext(s.cores[c])]), s.cores[c].todo[0])
  {
    hide CoreOk, StageOf, AfterNext, JobOk;
    var k, j := s.cores[c], s.cores[c].todo[0];
    var s' := s.(cores := s.cores[c := AfterNext(k)]);
    assert CoreOk(k, c, s.ticket);
    NextMoves(k, c, s.ticket);
    JobBasics(s, j);
    JobStep(s, s', j, c, s'.counters[j].sub[c]);
  }

  // A step that only changes the phase of the current job of core c.
  lemma {:induction false} PhaseMoves(k: Core, c: nat, ticket: map<Job, nat>, p: Phase)
    requires CoreOk(k, c, ticket) && k.slot.Held?
    ensures var k' := k.(slot := Held(k.slot.job, p));
            && StageOf(k, k.slot.job) == At(k.slot.phase) && StageOf(k', k.slot.job) == At(p)
            && (forall i :: i != k.slot.job ==> StageOf(k', i) == StageOf(k, i))
    ensures k.slot.job in ticket && c in k.slot.job.mask
  {
    hide SumTasks;
  }

  lemma {:induction false} SubmitInv(s: State, c: nat)
    requires Inv(s) && Enabled(s, Submit(c))
    ensures Inv(s.(cores := s.cores[c := s.cores[c].(slot := Held(s.cores[c].slot.job, Running))]))
  {
    hide CoreOk, StageOf, JobOk;
    var k := s.cores[c];
    var j := k.slot.job;
    var s' := s.(cores := s.cores[c := k.(slot := Held(j, Running))]);
    assert CoreOk(k, c, s.ticket);
    CorePhase(k, c, s.ticket, Running);
    PhaseMoves(k, c, s.ticket, Running);
    JobBasics(s, j);
    JobStep(s, s', j, c, s'.counters[j].sub[c]);
    OneCoreInv(s, s', c, j);
  }

  lemma {:induction false} InterruptInv(s: State, c: nat)
    requires Inv(s) && WellFormed(s) && Enabled(s, Interrupt(c))
    ensures Inv(ApplyInterrupt(s, c))
  {
    hide CoreOk, StageOf, WellFormed, JobOk;
    var k := s.cores[c];
    var j := k.slot.job;
    var s' := ApplyInterrupt(s, c);
    var p := s'.cores[c].slot.phase;
    assert CoreOk(k, c, s.ticket);
    CorePhase(k, c, s.ticket, p);
    PhaseMoves(k, c, s.ticket, p);
    JobBasics(s, j);
    JobStep(s, s', j, c, s'.counters[j].sub[c]);
    OneCoreInv(s, s', c, j);
  }

  lemma {:induction false} ReleaseMoves(k: Core, c: nat, ticket: map<Job, nat>)
    requires CoreOk(k, c, ticket) && k.slot.Held? && c < |k.slot.job.tasks|
    ensures var k' := AfterRelease(k, c);
            && StageOf(k, k.slot.job) == At(k.slot.phase) && StageOf(k', k.slot.job) == Finishing
            && (forall i :: i != k.slot.job ==> StageOf(k', i) == StageOf(k, i))
    ensures k.slot.job in ticket && c in k.slot.job.mask
  {
    hide SumTasks;
  }

  lemma {:induction false} ReleaseInv(s: State, c: nat)
    requires Inv(s) && WellFormed(s) && Enabled(s, Release(c))
    ensures Inv(s.(cores := s.cores[c := AfterRelease(s.cores[c], c)]))
  {
    hide CoreOk, StageOf, AfterRelease, JobOk;
    var k := s.cores[c];
    var j := k.slot.job;
    var s' := s.(cores := s.cores[c := AfterRelease(k, c)]);
    assert CoreOk(k, c, s.ticket);
    CoreRelease(k, c, s.ticket);
    ReleaseMoves(k, c, s.ticket);
    JobBasics(s, j);
    JobStep(s, s', j, c, s'.counters[j].sub[c]);
    OneCoreInv(s, s', c, j);
  }

  lemma {:induction false} FinishMoves(k: Core, c: nat, ticket: map<Job, nat>, j: Job)
    requires CoreOk(k, c, ticket) && j in k.finishing
    ensures var k' := k.(finishing := k.finishing - {j}, nexts := k.nexts + 1);
            && StageOf(k, j) == Finishing && StageOf(k', j) == Gone
            && (forall i :: i != j ==> StageOf(k', i) == StageOf(k, i))
    ensures j in ticket && c in j.mask
  {
    hide SumTasks;
  }

  lemma {:induction false} FinishInv(s: State, c: nat, j: Job)
    requires Inv(s) && WellFormed(s) && Enabled(s, Finish(c, j))
    ensures Inv(ApplyFinish(s, c, j))
  {
    hide CoreOk, StageOf, WellFormed, JobOk;
    var k := s.cores[c];
    var s' := ApplyFinish(s, c, j);
    assert CoreOk(k, c, s.ticket);
    CoreFinish(k, c, s.ticket, j);
    FinishMoves(k, c, s.ticket, j);
    JobBasics(s, j);
    JobStep(s, s', j, c, s'.counters[j].sub[c]);
    OneCoreInv(s, s', c, j);
  }

  lemma {:induction false} CurrentJob(s: State, c: nat)
    requires Inv(s) && c < |s.cores| && s.cores[c].slot.Held?
    ensures s.cores[c].slot.job in s.counters && c in s.cores[c].slot.job.mask
    ensures CoreOk(s.cores[c], c, s.ticket)
    ensures StageOf(s.cores[c], s.cores[c].slot.job) == At(s.cores[c].slot.phase)
  {
    assert CoreOk(s.cores[c], c, s.ticket);
    PhaseMoves(s.cores[c], c, s.ticket, Waiting);
  }

  lemma {:induction false} DecrementWaits(s: State, c: nat)
    requires Inv(s) && WellFormed(s) && Enabled(s, Decrement(c))
    requires s.cores[c].slot.job in s.counters && s.counters[s.cores[c].slot.job].run != 1
    ensures Inv(ApplyDecrement(s, c))
  {
    hide CoreOk, StageOf, WellFormed, JobOk, Pending, Unfinished, Inv;
    var k := s.cores[c];
    var j := k.slot.job;
    var s' := ApplyDecrement(s, c);
    CurrentJob(s, c);
    CorePhase(k, c, s.ticket, Waiting);
    PhaseMoves(k, c, s.ticket, Waiting);
    JobBasics(s, j);
    WaitingJob(s, s', j, c);
    OneCoreInv(s, s', c, j);
  }

  lemma {:induction false} WaitingJob(s: State, s': State, j: Job, c: nat)
    requires j in s.counters && JobOk(s, j) && j in s'.counters && c in j.mask && MovesOnly(s, s', j, c)
    requires StageOf(s.cores[c], j) == At(Claimed) && StageOf(s'.cores[c], j) == At(Waiting)
    requires s'.counters[j] == s.counters[j].(run := s.counters[j].run - 1) && s.counters[j].run != 1
    ensures JobOk(s', j)
  {
    hide StageOf, Batches;
    SetsMove(s, s', j, c);
    assert c in Pending(s, j) && c in Unfinished(s, j);
    assert Unfinished(s', j) == Unfinished(s, j);
    assert |Pending(s', j)| == |Pending(s, j)| - 1;
    JobMoves(s, s', j, c);
  }

  // The decrement that reaches zero finds the job current on all its cores,
  // claimed everywhere and started nowhere.
  lemma {:induction false} CommitIsGang(s: State, c: nat)
    requires Inv(s) && Enabled(s, Decrement(c)) && s.cores[c].slot.job in s.counters
    requires s.counters[s.cores[c].slot.job].run == 1
    ensures var j := s.cores[c].slot.job;
            && Pending(s, j) == {c} && c in j.mask
            && s.counters[j].commits == 0
            && (forall i :: i in j.mask ==>
                  && i < |s.cores| && s.cores[i].slot.Held? && s.cores[i].slot.job == j
                  && s.cores[i].slot.phase == (if i == c then Claimed else Waiting)
                  && s.counters[j].sub[i] == 0)
  {
    hide StageOf, Batches, CoreOk, Inv;
    var j := s.cores[c].slot.job;
    CurrentJob(s, c);
    JobBasics(s, j);
    SoleMember(Pending(s, j), c);
    forall i | i in j.mask
      ensures s.cores[i].slot.Held? && s.cores[i].slot.job == j
      ensures s.cores[i].slot.phase == if i == c then Claimed else Waiting
      ensures s.counters[j].sub[i] == 0
    {
      assert i != c ==> i !in Pending(s, j);
      StageTells(s.cores[i], j);
    }
  }

  lemma {:induction false} SoleMember(a: set<nat>, c: nat)
    requires c in a && |a| == 1
    ensures a == {c}
  {
    assert |a - {c}| == 0;
  }

  lemma {:induction false} StageTells(k: Core, j: Job)
    ensures StageOf(k, j).At? ==> k.slot == Held(j, StageOf(k, j).phase)
  {
  }

  lemma {:induction false} CommitMoves(k: Core, c: nat, ticket: map<Job, nat>, j: Job)
    requires CoreOk(k, c, ticket)
    ensures CoreOk(AfterCommit(k, j), c, ticket)
    ensures forall i :: i != j ==> StageOf(AfterCommit(k, j), i) == StageOf(k, i)
    ensures k.slot.Held? && k.slot.job == j ==>
              StageOf(AfterCommit(k, j), j) == At(if Submittable(j) then Submitting else Refused)
  {
    hide SumTasks, Submittable;
    if k.slot.Held? {
      CorePhase(k, c, ticket, if Submittable(j) then Submitting else Refused);
    }
  }

  lemma {:induction false} CommittedJob(s: State, c: nat)
    requires Inv(s) && WellFormed(s) && Enabled(s, Decrement(c))
    requires s.cores[c].slot.job in s.counters && s.counters[s.cores[c].slot.job].run == 1
    ensures JobOk(ApplyDecrement(s, c), s.cores[c].slot.job)
  {
    hide StageOf, AfterCommit, WellFormed, CoreOk, Batches, Inv;
    var j := s.cores[c].slot.job;
    var s' := ApplyDecrement(s, c);
    CurrentJob(s, c);
    CommitIsGang(s, c);
    JobBasics(s, j);
    forall i | i in j.mask
      ensures StageOf(s'.cores[i], j) == At(if Submittable(j) then Submitting else Refused)
      ensures StageOf(s.cores[i], j) != Gone
      ensures Batches(j.tasks[i], s.max) > 0
    {
      CurrentJob(s, i);
      CommitMoves(s.cores[i], i, s.ticket, j);
      BatchesPositive(j.tasks[i], s.max);
    }
    assert Pending(s', j) == {};
    assert Unfinished(s', j) == Unfinished(s, j);
  }

  lemma {:induction false} DecrementCommits(s: State, c: nat)
    requires Inv(s) && WellFormed(s) && Enabled(s, Decrement(c))
    requires s.cores[c].slot.job in s.counters && s.counters[s.cores[c].slot.job].run == 1
    ensures Inv(ApplyDecrement(s, c))
  {
    hide CoreOk, StageOf, AfterCommit, WellFormed, JobOk;
    var j := s.cores[c].slot.job;
    var s' := ApplyDecrement(s, c);
    CurrentJob(s, c);
    CommittedJob(s, c);
    forall i | 0 <= i < |s.cores|
      ensures CoreOk(s'.cores[i], i, s.ticket)
      ensures forall x :: x != j ==> StageOf(s'.cores[i], x) == StageOf(s.cores[i], x)
    {
      CommitMoves(s.cores[i], i, s.ticket, j);
    }
    forall i | i in s'.counters
      ensures JobOk(s', i)
    {
      if i != j {
        JobFrame(s, s', i);
      }
    }
  }

  // Every step keeps the invariant.
  lemma {:induction false} StepInv(s: State, e: Event)
    requires Inv(s) && Enabled(s, e)
    ensures WellFormed(s) && Inv(Apply(s, e))
  {
    hide Inv, WellFormed;
    InvIsWellFormed(s);
    match e
    case Enqueue(j) => EnqueueInv(s, j);
    case Next(c) => NextInv(s, c);
    case Decrement(c) =>
      CurrentJob(s, c);
      if s.counters[s.cores[c].slot.job].run == 1 {
        DecrementCommits(s, c);
      } else {
        DecrementWaits(s, c);
      }
    case Submit(c) => SubmitInv(s, c);
    case Interrupt(c) => InterruptInv(s, c);
    case Release(c) => ReleaseInv(s, c);
    case Finish(c, j) => FinishInv(s, c, j);
  }

  // No two jobs each hold a core the other one queues for: lines follow one
  // global order.
  lemma {:induction false} NoCrossWaiting(s: State, c: nat, d: nat)
    requires Inv(s) && c < |s.cores| && d < |s.cores| && s.cores[c].slot.Held? && s.cores[d].slot.Held?
    ensures !(s.cores[d].slot.job in s.cores[c].todo && s.cores[c].slot.job in s.cores[d].todo)
  {
    hide JobOk, SumTasks;
    assert CoreOk(s.cores[c], c, s.ticket) && CoreOk(s.cores[d], d, s.ticket);
  }

  // ---------- Whole runs ----------

  ghost predicate Legal(s: State, es: seq<Event>)
    requires Inv(s)
    decreases |es|
  {
    es == [] || (Enabled(s, es[0]) && (StepInv(s, es[0]); Legal(Apply(s, es[0]), es[1..])))
  }

  ghost function Run(s: State, es: seq<Event>): State
    requires Inv(s) && Legal(s, es)
    decreases |es|
  {
    if es == [] then s else
    StepInv(s, es[0]);
    Run(Apply(s, es[0]), es[1..])
  }

  lemma {:induction false} RunInv(s: State, es: seq<Event>)
    requires Inv(s) && Legal(s, es)
    ensures Inv(Run(s, es))
    decreases |es|
  {
    hide Inv;
    if es != [] {
      StepInv(s, es[0]);
      RunInv(Apply(s, es[0]), es[1..]);
    }
  }

  // After any run of any interleaving, for every job ever enqueued: run_count is
  // the number of cores that still queue it or have not decremented,
  // interrupt_count the number that have not finished it; it is committed once
  // or not at all, and is committed exactly when no core still has to claim it;
  // it is completed once or not at all, exactly when every core is through, and
  // then every core has delivered all its batches.
  lemma {:induction false} ExactlyOnce(n: nat, max: nat, es: seq<Event>, j: Job)
    requires max > 0 && Legal(Init(n, max), es) && j in Run(Init(n, max), es).counters
    ensures var s := Run(Init(n, max), es); var k := s.counters[j];
            && k.run == |Pending(s, j)| && k.intr == |Unfinished(s, j)|
            && 0 <= k.dones <= k.commits <= 1
            && (k.commits == 1 <==> forall c :: c in j.mask && c < |s.cores| ==> !Unclaimed(StageOf(s.cores[c], j)))
            && (k.dones == 1 <==> forall c :: c in j.mask && c < |s.cores| ==> StageOf(s.cores[c], j) == Gone)
            && (k.dones == 1 ==> forall c :: c in j.mask ==>
                  c < |k.sub| == |j.tasks| && s.max > 0 && k.sub[c] == Batches(j.tasks[c], s.max))
  {
    hide StageOf, Batches;
    RunInv(Init(n, max), es);
    var s := Run(Init(n, max), es);
    JobBasics(s, j);
    JobSummary(s, j);
  }

  lemma {:induction false} JobSummary(s: State, j: Job)
    requires j in s.counters && JobOk(s, j)
    ensures Pending(s, j) == {} <==> forall c :: c in j.mask && c < |s.cores| ==> !Unclaimed(StageOf(s.cores[c], j))
    ensures Unfinished(s, j) == {} <==> forall c :: c in j.mask && c < |s.cores| ==> StageOf(s.cores[c], j) == Gone
    ensures Pending(s, j) <= Unfinished(s, j)
    ensures Unfinished(s, j) == {} ==> forall c :: c in j.mask ==> s.counters[j].sub[c] == Batches(j.tasks[c], s.max)
  {
    hide StageOf, Batches;
    if c :| c in j.mask && c < |s.cores| && Unclaimed(StageOf(s.cores[c], j)) {
      assert c in Pending(s, j);
    }
    if c :| c in j.mask && c < |s.cores| && StageOf(s.cores[c], j) != Gone {
      assert c in Unfinished(s, j);
    }
    if Unfinished(s, j) == {} {
      forall c | c in j.mask
        ensures s.counters[j].sub[c] == Batches(j.tasks[c], s.max)
      {
        assert c !in Unfinished(s, j);
        assert StageFits(StageOf(s.cores[c], j), Pending(s, j) == {}, Submittable(j), s.counters[j].sub[c],
                         Batches(j.tasks[c], s.max));
      }
    }
  }
}
