// The load of a core, on which automatic placement relies, over runs that also
// contain aborts (rknpu_job_abort). An abort clears a core whose job has not
// reached its interrupt handler; it keeps neither run_count nor the queues of
// the other cores in step, so here only the load is claimed.
module SchedulerLoad {
  import opened Scheduler
  import opened SchedulerSafety
  import opened Batching

  datatype Act = Step(e: Event) | Abort(job: Job, entered: set<nat>)

  function AfterAbort(k: Core, c: nat, j: Job, entered: set<nat>): Core
    requires c in j.mask ==> c < |j.tasks|
  {
    if c in j.mask && k.slot.Held? && k.slot.job == j && c !in entered then
      k.(slot := Idle, load := k.load - j.tasks[c])
    else k
  }

  ghost predicate Can(s: State, a: Act) {
    match a
    case Step(e) => Enabled(s, e)
    case Abort(j, entered) => ValidJob(j, |s.cores|)
  }

  ghost function Do(s: State, a: Act): State
    requires WellFormed(s) && Can(s, a)
  {
    match a
    case Step(e) => Apply(s, e)
    case Abort(j, entered) =>
      s.(cores := seq(|s.cores|, c requires 0 <= c < |s.cores| => AfterAbort(s.cores[c], c, j, entered)))
  }

  ghost predicate Loads(s: State) {
    forall c :: 0 <= c < |s.cores| ==> s.cores[c].load == SumTasks(Line(s.cores[c]), c)
  }

  // How a step may change one core: the jobs it refers to were there before,
  // or have just been enqueued on it.
  lemma {:induction false} DoKeepsKnown(s: State, a: Act, c: nat)
    requires WellFormed(s) && Can(s, a) && c < |s.cores|
    ensures |Do(s, a).cores| == |s.cores| && Known(Do(s, a).cores[c], c, Do(s, a).ticket)
  {
    hide Batches, AfterEnqueue, AfterNext, AfterRelease, AfterCommit, AfterAbort;
    var k := s.cores[c];
    assert Known(k, c, s.ticket);
    if a.Abort? {
      AbortKnown(k, c, s.ticket, a.job, a.entered);
    } else {
      match a.e
      case Enqueue(j) => EnqueueKnown(k, c, s.ticket, s.clock, j);
      case Next(i) => if i == c { NextKnown(k, c, s.ticket); }
      case Decrement(i) => CommitKnown(k, c, s.ticket, s.cores[i].slot.job);
      case Release(i) => if i == c { ReleaseKnown(k, c, s.ticket); }
      case _ =>
    }
  }

  lemma {:induction false} EnqueueKnown(k: Core, c: nat, ticket: map<Job, nat>, clock: nat, j: Job)
    requires Known(k, c, ticket) && (c in j.mask ==> c < |j.tasks|)
    ensures Known(AfterEnqueue(k, c, j), c, ticket[j := clock])
  {
  }

  lemma {:induction false} NextKnown(k: Core, c: nat, ticket: map<Job, nat>)
    requires Known(k, c, ticket) && k.nexts > 0
    ensures Known(AfterNext(k), c, ticket)
  {
  }

  lemma {:induction false} CommitKnown(k: Core, c: nat, ticket: map<Job, nat>, j: Job)
    requires Known(k, c, ticket)
    ensures Known(AfterCommit(k, j), c, ticket)
  {
  }

  lemma {:induction false} ReleaseKnown(k: Core, c: nat, ticket: map<Job, nat>)
    requires Known(k, c, ticket) && k.slot.Held? && c < |k.slot.job.tasks|
    ensures Known(AfterRelease(k, c), c, ticket)
  {
  }

  lemma {:induction false} AbortKnown(k: Core, c: nat, ticket: map<Job, nat>, j: Job, entered: set<nat>)
    requires Known(k, c, ticket) && (c in j.mask ==> c < |j.tasks|)
    ensures Known(AfterAbort(k, c, j, entered), c, ticket)
  {
  }

  lemma {:induction false} DoKeepsCounters(s: State, a: Act)
    requires WellFormed(s) && Can(s, a)
    ensures var s' := Do(s, a);
            && s'.max == s.max && s'.counters.Keys == s'.ticket.Keys && |s'.cores| == |s.cores|
            && (forall j :: j in s'.ticket ==> ValidJob(j, |s.cores|) && |s'.counters[j].sub| == |s.cores|)
  {
    hide AfterEnqueue, AfterNext, AfterRelease, AfterCommit, AfterAbort, Batches, Known, ValidJob;
    if a.Step? && !a.e.Enqueue? {
      ReferredJobs(s.cores[a.e.core], a.e.core, s.ticket);
      assert Known(s.cores[a.e.core], a.e.core, s.ticket);
    }
  }

  lemma {:induction false} ReferredJobs(k: Core, c: nat, ticket: map<Job, nat>)
    ensures Known(k, c, ticket) ==>
              && (k.slot.Held? ==> k.slot.job in ticket)
              && (forall j :: j in k.finishing ==> j in ticket)
  {
  }

  lemma {:induction false} DoKeepsWellFormed(s: State, a: Act)
    requires WellFormed(s) && Can(s, a)
    ensures WellFormed(Do(s, a))
  {
    hide Known, AfterEnqueue, AfterNext, AfterRelease, AfterCommit, AfterAbort, Do;
    DoKeepsCounters(s, a);
    var s' := Do(s, a);
    forall c | 0 <= c < |s'.cores|
      ensures Known(s'.cores[c], c, s'.ticket)
    {
      CoresStay(s, a);
      DoKeepsKnown(s, a, c);
    }
    CoresStay(s, a);
  }

  // What each step does to the line and the load of a core.
  lemma {:induction false} NextLoad(k: Core)
    requires k.nexts > 0
    ensures Line(AfterNext(k)) == Line(k) && AfterNext(k).load == k.load
  {
  }

  lemma {:induction false} CommitLoad(k: Core, j: Job)
    ensures Line(AfterCommit(k, j)) == Line(k) && AfterCommit(k, j).load == k.load
  {
    hide Submittable;
  }

  lemma {:induction false} ReleaseLoad(k: Core, c: nat)
    requires k.load == SumTasks(Line(k), c) && k.slot.Held? && c < |k.slot.job.tasks|
    ensures AfterRelease(k, c).load == SumTasks(Line(AfterRelease(k, c)), c)
  {
    hide SumTasks, Line;
    ClearedLine(k, c);
    SameLine(k.(slot := Idle), AfterRelease(k, c));
  }

  lemma {:induction false} AbortLoad(k: Core, c: nat, j: Job, entered: set<nat>)
    requires k.load == SumTasks(Line(k), c) && (c in j.mask ==> c < |j.tasks|)
    ensures AfterAbort(k, c, j, entered).load == SumTasks(Line(AfterAbort(k, c, j, entered)), c)
  {
    hide SumTasks, Line;
    if AfterAbort(k, c, j, entered) != k {
      ClearedLine(k, c);
      SameLine(k.(slot := Idle), AfterAbort(k, c, j, entered));
    }
  }

  lemma {:induction false} DoKeepsLoad(s: State, a: Act, c: nat)
    requires WellFormed(s) && Can(s, a) && Loads(s) && c < |s.cores|
    ensures |Do(s, a).cores| == |s.cores|
    ensures Do(s, a).cores[c].load == SumTasks(Line(Do(s, a).cores[c]), c)
  {
    hide SumTasks, Line, Batches, AfterEnqueue, AfterNext, AfterCommit, AfterRelease, AfterAbort;
    var k, k' := s.cores[c], Do(s, a).cores[c];
    assert Known(k, c, s.ticket);
    if a.Abort? {
      AbortLoad(k, c, a.job, a.entered);
    } else {
      match a.e
      case Enqueue(j) => EnqueueLoad(k, c, j);
      case Next(i) => if i == c { NextLoad(k); }
      case Decrement(i) =>
        CommitLoad(k, s.cores[i].slot.job);
        if i == c && k' != AfterCommit(k, k.slot.job) {
          SameLine(k, k');
        }
      case Release(i) => if i == c { ReleaseLoad(k, c); }
      case _ => SameLine(k, k');
    }
  }

  ghost predicate Doable(s: State, acts: seq<Act>)
    requires WellFormed(s)
    decreases |acts|
  {
    acts == [] || (Can(s, acts[0]) && (DoKeepsWellFormed(s, acts[0]); Doable(Do(s, acts[0]), acts[1..])))
  }

  ghost function DoAll(s: State, acts: seq<Act>): State
    requires WellFormed(s) && Doable(s, acts)
    decreases |acts|
  {
    if acts == [] then s else
    DoKeepsWellFormed(s, acts[0]);
    DoAll(Do(s, acts[0]), acts[1..])
  }

  // Over every run of scheduling, hardware and abort steps, task_num of a core
  // is the summed task count of the jobs current or queued on it.
  lemma {:induction false} LoadIsSumOfLine(s: State, acts: seq<Act>)
    requires WellFormed(s) && Loads(s) && Doable(s, acts)
    ensures Loads(DoAll(s, acts))
    decreases |acts|
  {
    hide WellFormed, Can, Do;
    if acts != [] {
      DoKeepsWellFormed(s, acts[0]);
      var s' := Do(s, acts[0]);
      forall c | 0 <= c < |s'.cores|
        ensures s'.cores[c].load == SumTasks(Line(s'.cores[c]), c)
      {
        CoresStay(s, acts[0]);
        DoKeepsLoad(s, acts[0], c);
      }
      LoadIsSumOfLine(s', acts[1..]);
    }
  }

  lemma {:induction false} CoresStay(s: State, a: Act)
    requires WellFormed(s) && Can(s, a)
    ensures |Do(s, a).cores| == |s.cores|
  {
  }

  // ---------- What an abort leaves ----------

  ghost predicate HoldsJob(k: Core, j: Job) {
    k.slot.Held? && k.slot.job == j
  }

  // An abort clears the cores that hold the job and whose handler has not seen
  // it, with the job's tasks taken off their load, and touches nothing else.
  lemma {:induction false} AbortClears(s: State, j: Job, entered: set<nat>, c: nat)
    requires WellFormed(s) && ValidJob(j, |s.cores|) && c < |s.cores|
    ensures var k, k' := s.cores[c], Do(s, Abort(j, entered)).cores[c];
            if HoldsJob(k, j) && c !in entered then
              c < |j.tasks| && k' == Core(k.todo, Idle, k.load - j.tasks[c], k.nexts, k.finishing)
            else k' == k
  {
    assert Known(s.cores[c], c, s.ticket);
  }

  function Releases(cs: seq<nat>): seq<Act> {
    seq(|cs|, i requires 0 <= i < |cs| => Step(Release(cs[i])))
  }

  // The handlers that have seen the job release their cores, each once.
  ghost predicate ToRelease(s: State, j: Job, cs: seq<nat>) {
    && (forall a, b :: 0 <= a < b < |cs| ==> cs[a] != cs[b])
    && (forall c :: c in cs ==> Holding(s, c, Drained) && HoldsJob(s.cores[c], j))
  }

  // The load of core c without job j, if it held it.
  function LoadWithout(k: Core, c: nat, j: Job): int {
    if k.slot.Held? && k.slot.job == j && c < |j.tasks| then k.load - j.tasks[c] else k.load
  }

  lemma {:induction false} ReleasesClear(s: State, j: Job, cs: seq<nat>)
    requires WellFormed(s) && ValidJob(j, |s.cores|) && ToRelease(s, j, cs)
    ensures Doable(s, Releases(cs))
    ensures var s' := DoAll(s, Releases(cs));
            && |s'.cores| == |s.cores|
            && (forall c :: 0 <= c < |s.cores| && c !in cs ==> s'.cores[c] == s.cores[c])
            && (forall c :: c in cs ==> c < |s.cores| && s'.cores[c].slot.Idle?
                                        && s'.cores[c].load == LoadWithout(s.cores[c], c, j))
    decreases |cs|
  {
    hide WellFormed, ValidJob;
    if cs != [] {
      ReleaseOne(s, j, cs);
      DoKeepsWellFormed(s, Step(Release(cs[0])));
      ReleasesClear(Do(s, Step(Release(cs[0]))), j, cs[1..]);
      assert Releases(cs)[1..] == Releases(cs[1..]);
      assert forall c :: c in cs <==> c == cs[0] || c in cs[1..];
    }
  }

  lemma {:induction false} ReleaseOne(s: State, j: Job, cs: seq<nat>)
    requires WellFormed(s) && ToRelease(s, j, cs) && cs != []
    ensures Can(s, Step(Release(cs[0]))) && cs[0] !in cs[1..]
    ensures var s' := Do(s, Step(Release(cs[0])));
            && |s'.cores| == |s.cores| && ToRelease(s', j, cs[1..])
            && (forall c :: 0 <= c < |s.cores| && c != cs[0] ==> s'.cores[c] == s.cores[c])
            && s'.cores[cs[0]].slot.Idle? && s'.cores[cs[0]].load == LoadWithout(s.cores[cs[0]], cs[0], j)
  {
    assert cs[0] in cs;
    assert Known(s.cores[cs[0]], cs[0], s.ticket);
    forall i | 0 <= i < |cs[1..]|
      ensures cs[1..][i] != cs[0] && cs[1..][i] in cs
    {
      assert cs[1..][i] == cs[i + 1];
    }
  }

  // After the abort and the releases by the handlers that had seen the job, no
  // core holds it, and each core that held it has lost its tasks exactly once.
  lemma {:induction false} AbortThenReleases(s: State, j: Job, entered: set<nat>, cs: seq<nat>)
    requires WellFormed(s) && ValidJob(j, |s.cores|) && ToRelease(s, j, cs)
    requires forall c :: c in cs <==> c < |s.cores| && c in entered && HoldsJob(s.cores[c], j)
    ensures var s1 := Do(s, Abort(j, entered));
            && WellFormed(s1) && Doable(s1, Releases(cs))
            && var s' := DoAll(s1, Releases(cs));
               && |s'.cores| == |s.cores|
               && forall c :: 0 <= c < |s.cores| ==>
                    !HoldsJob(s'.cores[c], j) && s'.cores[c].load == LoadWithout(s.cores[c], c, j)
  {
    hide WellFormed, ValidJob, Do;
    var s1 := Do(s, Abort(j, entered));
    DoKeepsWellFormed(s, Abort(j, entered));
    CoresStay(s, Abort(j, entered));
    forall c | 0 <= c < |s.cores|
      ensures s1.cores[c] == s.cores[c] <==> !HoldsJob(s.cores[c], j) || c in entered
      ensures s1.cores[c] != s.cores[c] ==> s1.cores[c].slot.Idle? && s1.cores[c].load == LoadWithout(s.cores[c], c, j)
    {
      AbortClears(s, j, entered, c);
    }
    ReleasesClear(s1, j, cs);
  }
}
