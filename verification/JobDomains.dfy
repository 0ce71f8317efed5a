// Scheduler and domain lock together: a job takes its reference before it is
// enqueued (rknpu_job_schedule) and gives it back when its last core finishes
// (rknpu_job_done), so while the driver counts more than one domain it finds the
// device on its own domain at every step in between, whatever jobs and memory
// calls do with theirs. With one domain it finds it on the first one.
module JobDomains {
  import opened DomainLock
  import opened Scheduler
  import opened SchedulerBlocking
  import opened SchedulerProgress
  import opened SchedulerSafety

  datatype Holder = ForJob(job: Job) | ForBuffer(id: nat)

  datatype System = System(sched: State, dom: Lock<Holder>)

  datatype Event = Sched(e: Scheduler.Event) | Dom(m: Move<Holder>)

  // The step that completes a job also puts its reference.
  ghost predicate Completes(s: State, e: Scheduler.Event) {
    e.Finish? && e.job in s.counters && s.counters[e.job].intr == 1
  }

  // Jobs ask for their own domain, once.
  ghost predicate MayAsk(s: State, h: Holder, want: int) {
    h.ForJob? ==> want == h.job.domain && h.job !in s.counters && ValidJob(h.job, |s.cores|)
  }

  ghost predicate CanStep(x: System, v: Event) {
    match v
    case Sched(e) => Enabled(x.sched, e) && (e.Enqueue? ==> ForJob(e.job) in x.dom.holders)
    case Dom(m) =>
      && CanMove(x.dom, m)
      && (m.Enter? || m.FastTake? ==> MayAsk(x.sched, m.holder, m.want))
      && (m.Put? ==> m.holder.ForBuffer?)  // only completion puts for a job
  }

  ghost function Step(x: System, v: Event): System
    requires SystemOk(x) && CanStep(x, v)
  {
    match v
    case Sched(e) =>
      StepInv(x.sched, e);
      if Completes(x.sched, e) then
        CompletedHolds(x, e);
        System(Apply(x.sched, e), AfterMove(x.dom, Put(ForJob(e.job))))
      else System(Apply(x.sched, e), x.dom)
    case Dom(m) => System(x.sched, AfterMove(x.dom, m))
  }

  // An enqueued job holds its reference exactly until it is done.
  ghost predicate Referenced(x: System) {
    && (forall j :: j in x.sched.counters ==>
          (ForJob(j) in x.dom.holders <==> x.sched.counters[j].dones == 0))
    && (forall h: Holder :: h in x.dom.holders && h.ForJob? ==>
          x.dom.holders[h] == h.job.domain && ValidJob(h.job, |x.sched.cores|))
    && (x.dom.mutex.Owned? && x.dom.mutex.holder.ForJob? ==>
          && x.dom.mutex.want == x.dom.mutex.holder.job.domain
          && ValidJob(x.dom.mutex.holder.job, |x.sched.cores|)
          && (x.dom.mutex.at != Leaving ==> x.dom.mutex.holder.job !in x.sched.counters))
  }

  ghost predicate SystemOk(x: System) {
    Inv(x.sched) && GroupLocked(x.dom) && Referenced(x)
  }

  // How a scheduler step may change the completion counts.
  lemma {:induction false} DonesChange(s: State, e: Scheduler.Event, j: Job)
    requires Inv(s) && WellFormed(s) && Enabled(s, e) && j in Apply(s, e).counters
    ensures if Completes(s, e) && j == e.job then
              j in s.counters && s.counters[j].dones == 0 && Apply(s, e).counters[j].dones == 1
            else if e == Enqueue(j) then j !in s.counters && Apply(s, e).counters[j].dones == 0
            else j in s.counters && Apply(s, e).counters[j].dones == s.counters[j].dones
  {
    hide CoreOk, JobOk, StageOf, SumTasks, WellFormed, Known, AfterEnqueue, AfterNext, AfterRelease, AfterCommit;
    match e
    case Enqueue(_) =>
    case Next(_) =>
    case Decrement(c) => CurrentJob(s, c);
    case Submit(_) =>
    case Interrupt(c) =>
      CurrentJob(s, c);
      JobBasics(s, s.cores[c].slot.job);
    case Release(_) =>
    case Finish(c, i) => FinishingIsUnfinished(s, c, i);
  }

  lemma {:induction false} FinishingIsUnfinished(s: State, c: nat, j: Job)
    requires Inv(s) && WellFormed(s) && Enabled(s, Finish(c, j))
    ensures j in s.counters && s.counters[j].dones == 0
  {
    hide JobOk, StageOf, SumTasks;
    assert CoreOk(s.cores[c], c, s.ticket);
    FinishMoves(s.cores[c], c, s.ticket, j);
    JobBasics(s, j);
    UnfinishedHasNoDone(s, c, j);
  }

  lemma {:induction false} UnfinishedHasNoDone(s: State, c: nat, j: Job)
    requires j in s.counters && JobOk(s, j) && c in j.mask && c < |s.cores| && StageOf(s.cores[c], j) != Gone
    ensures s.counters[j].dones == 0
  {
    hide StageOf;
    assert c in Unfinished(s, j);
  }

  lemma {:induction false} CompletedHolds(x: System, e: Scheduler.Event)
    requires SystemOk(x) && Enabled(x.sched, e) && Completes(x.sched, e)
    ensures ForJob(e.job) in x.dom.holders
  {
    hide Inv;
    InvIsWellFormed(x.sched);
    FinishingIsUnfinished(x.sched, e.core, e.job);
  }

  lemma {:induction false} DomKeepsSystem(x: System, m: Move<Holder>)
    requires SystemOk(x) && CanStep(x, Dom(m))
    ensures SystemOk(System(x.sched, AfterMove(x.dom, m)))
  {
    hide Inv, ValidJob, GroupLocked;
    MoveKeepsGroupLock(x.dom, m);
    FastIsAlone(x.dom, m);
  }

  lemma {:induction false} FastIsAlone(k: Lock<Holder>, m: Move<Holder>)
    requires GroupLocked(k) && CanMove(k, m)
    ensures m.FastTake? ==> k.mutex.Free?
  {
  }

  lemma {:induction false} SchedKeepsSystem(x: System, e: Scheduler.Event)
    requires SystemOk(x) && CanStep(x, Sched(e))
    ensures SystemOk(Step(x, Sched(e)))
  {
    hide Inv, Apply, Enabled, AfterMove, CanMove, ValidJob;
    var x' := Step(x, Sched(e));
    StepInv(x.sched, e);
    CountersGrow(x.sched, e);
    if Completes(x.sched, e) {
      CompletedHolds(x, e);
      PutEffect(x.dom, ForJob(e.job));
    }
    forall j | j in x'.sched.counters
      ensures ForJob(j) in x'.dom.holders <==> x'.sched.counters[j].dones == 0
    {
      DonesChange(x.sched, e, j);
    }
  }

  lemma {:induction false} PutEffect(k: Lock<Holder>, h: Holder)
    requires GroupLocked(k) && h in k.holders
    ensures CanMove(k, Put(h))
    ensures var k' := AfterMove(k, Put(h));
            && GroupLocked(k') && k'.holders == k.holders - {h} && k'.mutex == k.mutex
            && k'.dev == k.dev.(count := k.dev.count - 1)
  {
    MoveKeepsGroupLock(k, Put(h));
  }

  // The put at the end of rknpu_job_done gives back a reference that the job
  // took, with more than one domain for the one the device is still on.
  lemma {:induction false} CompletionPuts(x: System, e: Scheduler.Event)
    requires SystemOk(x) && CanStep(x, Sched(e)) && Completes(x.sched, e)
    ensures ForJob(e.job) in x.dom.holders && (x.dom.dev.num > 1 ==> x.dom.dev.current == e.job.domain)
    ensures var x' := Step(x, Sched(e));
            ForJob(e.job) !in x'.dom.holders && x'.dom.dev == x.dom.dev.(count := x.dom.dev.count - 1)
  {
    hide Inv;
    CompletedHolds(x, e);
    PutEffect(x.dom, ForJob(e.job));
  }

  lemma {:induction false} StepKeepsSystem(x: System, v: Event)
    requires SystemOk(x) && CanStep(x, v)
    ensures SystemOk(Step(x, v))
  {
    hide SystemOk, CanStep, AfterMove, Apply;
    match v
    case Dom(m) => DomKeepsSystem(x, m);
    case Sched(e) => SchedKeepsSystem(x, e);
  }

  lemma {:induction false} CountersGrow(s: State, e: Scheduler.Event)
    requires WellFormed(s) && Enabled(s, e)
    ensures |Apply(s, e).cores| == |s.cores|
    ensures forall j :: j in s.counters ==> j in Apply(s, e).counters
    ensures forall j :: j in Apply(s, e).counters ==> j in s.counters || e == Enqueue(j)
  {
  }

  // How a step may change the device.
  lemma {:induction false} StepDevice(x: System, v: Event)
    requires SystemOk(x) && CanStep(x, v)
    ensures var d, d' := x.dom.dev, Step(x, v).dom.dev;
            && d'.num >= d.num && (d.num <= 1 ==> d' == d.(count := d'.count))
            && (d'.attached <==> d.attached && v != Dom(Switch(Lost)))
  {
    hide Inv, Referenced, Apply, Enabled;
    match v
    case Dom(m) => DeviceMovesUnheld(x.dom, m);
    case Sched(e) =>
      if Completes(x.sched, e) {
        CompletedHolds(x, e);
        PutEffect(x.dom, ForJob(e.job));
      }
  }

  ghost predicate Legal(x: System, vs: seq<Event>)
    requires SystemOk(x)
    decreases |vs|
  {
    vs == [] || (CanStep(x, vs[0]) && (StepKeepsSystem(x, vs[0]); Legal(Step(x, vs[0]), vs[1..])))
  }

  ghost function Run(x: System, vs: seq<Event>): System
    requires SystemOk(x) && Legal(x, vs)
    decreases |vs|
  {
    if vs == [] then x else
    StepKeepsSystem(x, vs[0]);
    Run(Step(x, vs[0]), vs[1..])
  }

  // Idle cores, no reference, and `num` domains, the device on `current`.
  function Boot(cores: nat, max: nat, num: int, current: int): (x: System)
    requires max > 0
    ensures SystemOk(x)
  {
    System(Init(cores, max), Lock(DeviceState(num, current, true, 0), Free, map[]))
  }

  lemma {:induction false} RunKeepsSystem(x: System, vs: seq<Event>)
    requires SystemOk(x) && Legal(x, vs)
    ensures SystemOk(Run(x, vs))
    decreases |vs|
  {
    hide SystemOk;
    if vs != [] {
      StepKeepsSystem(x, vs[0]);
      RunKeepsSystem(Step(x, vs[0]), vs[1..]);
    }
  }

  lemma {:induction false} RunDevice(x: System, vs: seq<Event>)
    requires SystemOk(x) && Legal(x, vs)
    ensures var d, d' := x.dom.dev, Run(x, vs).dom.dev;
            && d'.num >= d.num && (d.num <= 1 ==> d' == d.(count := d'.count))
            && (d'.attached <==> d.attached && Dom(Switch(Lost)) !in vs)
    decreases |vs|
  {
    hide SystemOk, CanStep, Step;
    if vs != [] {
      StepKeepsSystem(x, vs[0]);
      StepDevice(x, vs[0]);
      RunDevice(Step(x, vs[0]), vs[1..]);
      assert vs == [vs[0]] + vs[1..];
    }
  }

  // In every reachable state, the reference of a job that is enqueued and not
  // done is counted, so the device stays where it is, and it is on the job's
  // domain exactly if there was more than one domain from the start or the job
  // asked for the one the device was on. It is attached exactly if no switch
  // lost it. A job that is done has given its reference back.
  lemma {:induction false} JobRunsOnItsDomain(x0: System, vs: seq<Event>, j: Job)
    requires SystemOk(x0) && Legal(x0, vs) && x0.dom.dev.attached && j in Run(x0, vs).sched.counters
    ensures var x := Run(x0, vs);
            if x.sched.counters[j].dones == 0 then
              && x.dom.dev.count > 0
              && (x.dom.dev.current == j.domain <==> x0.dom.dev.num > 1 || j.domain == x0.dom.dev.current)
              && (x.dom.dev.attached <==> Dom(Switch(Lost)) !in vs)
            else ForJob(j) !in x.dom.holders
  {
    hide Inv, Run, Legal;
    var x := Run(x0, vs);
    RunKeepsSystem(x0, vs);
    RunDevice(x0, vs);
    if x.sched.counters[j].dones == 0 {
      assert ForJob(j) in x.dom.holders.Keys;
      assert |x.dom.holders.Keys| > 0;
    }
  }

  // The driver starts with one domain and is on domain 0 at every step, so a job
  // that is not done finds its domain exactly if that is domain 0.
  lemma {:induction false} DriverJobsRunOnDomainZero(x0: System, cores: nat, max: nat, vs: seq<Event>, j: Job)
    requires max > 0 && x0 == Boot(cores, max, 1, 0) && Legal(x0, vs)
    ensures var x := Run(x0, vs);
            && x.dom.dev == DeviceState(1, 0, true, x.dom.dev.count)
            && (j in x.sched.counters && x.sched.counters[j].dones == 0 ==>
                  x.dom.dev.count > 0 && (x.dom.dev.current == j.domain <==> j.domain == 0))
  {
    hide SystemOk, Run, Legal;
    RunDevice(x0, vs);
    if j in Run(x0, vs).sched.counters {
      JobRunsOnItsDomain(x0, vs, j);
    }
  }

  // ---------- Progress ----------

  ghost predicate NoGets(vs: seq<Event>) {
    forall v :: v in vs ==> v.Sched?
  }

  function Buffers(k: Lock<Holder>): map<Holder, int> {
    map h | h in k.holders && h.ForBuffer? :: k.holders[h]
  }

  lemma {:induction false} RunAppend(x: System, vs: seq<Event>, ws: seq<Event>)
    requires SystemOk(x) && Legal(x, vs) && SystemOk(Run(x, vs)) && Legal(Run(x, vs), ws)
    ensures Legal(x, vs + ws) && Run(x, vs + ws) == Run(Run(x, vs), ws)
    decreases |vs|
  {
    hide SystemOk, CanStep, Step;
    if vs == [] {
      assert vs + ws == ws;
    } else {
      StepKeepsSystem(x, vs[0]);
      RunAppend(Step(x, vs[0]), vs[1..], ws);
      assert (vs + ws)[1..] == vs[1..] + ws;
    }
  }

  // Jobs that have their reference but are not enqueued yet.
  ghost function Arriving(x: System): set<Holder> {
    set h | h in x.dom.holders && h.ForJob? && h.job !in x.sched.counters
  }

  // Only jobs that had their reference have been enqueued.
  ghost predicate NoNewJobs(x: System, x': System) {
    && |x'.sched.cores| == |x.sched.cores|
    && forall j :: j in x'.sched.counters ==> j in x.sched.counters || ForJob(j) in x.dom.holders
  }

  lemma {:induction false} EnqueueArriving(x: System) returns (vs: seq<Event>)
    requires SystemOk(x)
    ensures NoGets(vs) && Legal(x, vs) && SystemOk(Run(x, vs))
    ensures Run(x, vs).dom == x.dom && Arriving(Run(x, vs)) == {}
    ensures NoNewJobs(x, Run(x, vs))
    decreases |Arriving(x)|
  {
    hide Inv, ValidJob;
    if Arriving(x) == {} {
      return [];
    }
    var h :| h in Arriving(x);
    var v := Sched(Enqueue(h.job));
    assert x.sched.counters.Keys == x.sched.ticket.Keys by {
      InvIsWellFormed(x.sched);
    }
    StepKeepsSystem(x, v);
    assert Arriving(Step(x, v)) == Arriving(x) - {h};
    var rest := EnqueueArriving(Step(x, v));
    vs := [v] + rest;
    assert vs[1..] == rest;
  }

  function Lift(es: seq<Scheduler.Event>): seq<Event> {
    seq(|es|, i requires 0 <= i < |es| => Sched(es[i]))
  }

  // What steps without gets may change.
  ghost predicate OnlyPuts(x: System, x': System) {
    && Buffers(x'.dom) == Buffers(x.dom) && x'.dom.holders.Keys <= x.dom.holders.Keys
    && x'.dom.mutex == x.dom.mutex && x'.dom.dev == x.dom.dev.(count := x'.dom.dev.count)
    && NoNewJobs(x, x') && x.sched.counters.Keys <= x'.sched.counters.Keys
    && (forall j :: ForJob(j) in x.dom.holders && !Submittable(j) ==> ForJob(j) in x'.dom.holders)
  }

  lemma {:induction false} SchedStep(x: System, e: Scheduler.Event)
    requires SystemOk(x) && CanStep(x, Sched(e))
    ensures SystemOk(Step(x, Sched(e))) && WellFormed(x.sched)
    ensures Step(x, Sched(e)).sched == Apply(x.sched, e) && OnlyPuts(x, Step(x, Sched(e)))
  {
    hide Inv, Enabled, Apply, Referenced, Submittable;
    StepKeepsSystem(x, Sched(e));
    StepInv(x.sched, e);
    CountersGrow(x.sched, e);
    if Completes(x.sched, e) {
      CompletedHolds(x, e);
      PutEffect(x.dom, ForJob(e.job));
      CompletedIsSubmittable(x.sched, e);
    }
  }

  lemma {:induction false} CompletedIsSubmittable(s: State, e: Scheduler.Event)
    requires Inv(s) && WellFormed(s) && Enabled(s, e) && Completes(s, e)
    ensures Submittable(e.job)
  {
    hide Inv, Apply, Enabled, WellFormed, Submittable;
    StepInv(s, e);
    FinishIsEnabled(s, e);
    CountersGrow(s, e);
    DonesChange(s, e, e.job);
    if !Submittable(e.job) {
      RefusedHasNoDone(Apply(s, e), e.job);
    }
  }

  lemma {:induction false} FinishIsEnabled(s: State, e: Scheduler.Event)
    requires Completes(s, e)
    ensures e.Finish? && e.job in s.counters
  {
  }

  lemma {:induction false} OnlyPutsTwice(x: System, y: System, z: System)
    requires OnlyPuts(x, y) && OnlyPuts(y, z)
    ensures OnlyPuts(x, z)
  {
    hide Submittable;
  }

  lemma {:induction false} RunOnlyPuts(x: System, vs: seq<Event>)
    requires SystemOk(x) && Legal(x, vs) && NoGets(vs)
    ensures OnlyPuts(x, Run(x, vs))
    decreases |vs|
  {
    hide SystemOk, CanStep, Step, Submittable;
    if vs == [] {
      NoPuts(x);
    } else {
      assert vs[0] in vs && forall v :: v in vs[1..] ==> v in vs;
      SchedStep(x, vs[0].e);
      RunOnlyPuts(Step(x, vs[0]), vs[1..]);
      OnlyPutsTwice(x, Step(x, vs[0]), Run(x, vs));
    }
  }

  lemma {:induction false} NoPuts(x: System)
    ensures OnlyPuts(x, x)
  {
    hide Submittable;
  }

  // A run of the scheduler is a run of the system.
  lemma {:induction false} LiftRun(x: System, es: seq<Scheduler.Event>)
    requires SystemOk(x) && SchedulerSafety.Legal(x.sched, es) && Internal(es)
    ensures NoGets(Lift(es)) && Legal(x, Lift(es)) && Run(x, Lift(es)).sched == SchedulerSafety.Run(x.sched, es)
    decreases |es|
  {
    hide Inv, Enabled, Apply, Referenced, GroupLocked, Step, WellFormed, OnlyPuts;
    if es != [] {
      SchedStep(x, es[0]);
      LiftRun(Step(x, Sched(es[0])), es[1..]);
      assert Lift(es)[1..] == Lift(es[1..]);
    }
  }

  // Only a new get could make a step of the scheduler possible.
  ghost predicate SchedStuck(x: System) {
    forall e: Scheduler.Event :: !CanStep(x, Sched(e))
  }

  // Every job that holds a reference is submittable.
  ghost predicate HoldersSubmittable(x: System) {
    forall j :: ForJob(j) in x.dom.holders ==> Submittable(j)
  }

  // A job that has its reference and is not enqueued can be, and no other can.
  lemma {:induction false} ArrivingIsEnqueue(x: System, j: Job)
    requires SystemOk(x)
    ensures ForJob(j) in Arriving(x) <==> CanStep(x, Sched(Enqueue(j)))
  {
    hide Inv, ValidJob, GroupLocked;
    TicketOf(x.sched, j);
  }

  lemma {:induction false} StuckSystem(x: System)
    requires SystemOk(x) && SchedStuck(x)
    ensures Stuck(x.sched) && Arriving(x) == {}
  {
    hide Inv, ValidJob, GroupLocked;
    forall e: Scheduler.Event | !e.Enqueue?
      ensures !Enabled(x.sched, e)
    {
      assert !CanStep(x, Sched(e));
    }
    forall h | h in Arriving(x)
      ensures false
    {
      ArrivingIsEnqueue(x, h.job);
    }
  }

  // Where no step of the scheduler is left, a job holds a reference exactly if it
  // is blocked.
  lemma {:induction false} StuckHolders(x: System, j: Job)
    requires SystemOk(x) && SchedStuck(x)
    ensures ForJob(j) in x.dom.holders <==> j in x.sched.counters && Blocked(x.sched, j)
  {
    hide Inv, ValidJob, GroupLocked, Blocked, SchedStuck, Stuck;
    StuckSystem(x);
    if j in x.sched.counters {
      NoDeadlock(x.sched, j);
      JobBasics(x.sched, j);
    }
    assert ForJob(j) in x.dom.holders && j !in x.sched.counters ==> ForJob(j) in Arriving(x);
  }

  // Any run without gets that cannot go on has drained, if and only if every job
  // that held a reference at its start is submittable: then, and only then, all
  // jobs are done and memory calls alone still hold references, those of before.
  lemma {:induction false} DrainedWhenStuck(x: System, vs: seq<Event>)
    requires SystemOk(x) && Legal(x, vs) && NoGets(vs) && SchedStuck(Run(x, vs))
    ensures var x' := Run(x, vs);
            && SystemOk(x') && OnlyPuts(x, x')
            && (x'.dom.holders == Buffers(x.dom) <==> HoldersSubmittable(x))
            && (AllDone(x'.sched) <==> HoldersSubmittable(x))
  {
    hide SystemOk, SchedStuck, Run, Legal, Submittable, NoGets;
    RunKeepsSystem(x, vs);
    RunOnlyPuts(x, vs);
    DrainedState(x, Run(x, vs));
  }

  lemma {:induction false} DrainedState(x: System, x': System)
    requires SystemOk(x') && SchedStuck(x') && OnlyPuts(x, x')
    ensures x'.dom.holders == Buffers(x.dom) <==> HoldersSubmittable(x)
    ensures AllDone(x'.sched) <==> HoldersSubmittable(x)
  {
    hide Inv, ValidJob, GroupLocked, SchedStuck, Submittable, Blocked;
    if HoldersSubmittable(x) {
      assert AllSubmittable(x'.sched);
      forall h | h in x'.dom.holders
        ensures h.ForBuffer?
      {
        if h.ForJob? {
          StuckHolders(x', h.job);
          SubmittableIsFree(x'.sched, h.job);
        }
      }
      assert x'.dom.holders == Buffers(x'.dom);
      DoneOrHolding(x');
    } else {
      var j :| ForJob(j) in x.dom.holders && !Submittable(j);
      assert ForJob(j) in x'.dom.holders && ForJob(j) !in Buffers(x.dom);
      StuckHolders(x', j);
    }
  }

  lemma {:induction false} DoneOrHolding(x: System)
    requires SystemOk(x) && forall h :: h in x.dom.holders ==> h.ForBuffer?
    ensures AllDone(x.sched)
  {
    hide Inv, ValidJob, GroupLocked;
    forall j | j in x.sched.counters
      ensures x.sched.counters[j].dones == 1
    {
      assert ForJob(j) !in x.dom.holders;
      JobBasics(x.sched, j);
    }
  }

  // From every state some run without gets goes on until none of its steps is left.
  lemma {:induction false} JobsDrain(x: System) returns (vs: seq<Event>)
    requires SystemOk(x)
    ensures NoGets(vs) && Legal(x, vs) && SchedStuck(Run(x, vs))
  {
    hide Inv, Enabled, Apply, CanStep, Step, WellFormed, Run, Legal, SchedulerSafety.Legal, SchedulerSafety.Run,
         OnlyPuts, Stuck, SchedStuck, Arriving;
    var enqueues := EnqueueArriving(x);
    var x1 := Run(x, enqueues);
    InvIsWellFormed(x1.sched);
    var es := MaximalRun(x1.sched);
    LiftRun(x1, es);
    RunAppend(x, enqueues, Lift(es));
    vs := enqueues + Lift(es);
    RunKeepsSystem(x1, Lift(es));
    RunOnlyPuts(x1, Lift(es));
    NoArrivals(x1, es);
    StuckAfter(Run(x1, Lift(es)));
  }

  // Steps other than submissions enqueue nobody.
  lemma {:induction false} NoArrivals(x: System, es: seq<Scheduler.Event>)
    requires SystemOk(x) && SchedulerSafety.Legal(x.sched, es) && Internal(es) && Arriving(x) == {}
    requires Legal(x, Lift(es)) && Run(x, Lift(es)).sched == SchedulerSafety.Run(x.sched, es)
    requires OnlyPuts(x, Run(x, Lift(es)))
    ensures Arriving(Run(x, Lift(es))) == {}
  {
    hide Inv, Run, Legal, SchedulerSafety.Legal, SchedulerSafety.Run, Submittable, ValidJob, GroupLocked, Referenced;
    SchedulerProgress.NoNewJobs(x.sched, es);
    var x' := Run(x, Lift(es));
    assert Arriving(x') <= Arriving(x);
  }

  lemma {:induction false} StuckAfter(x: System)
    requires SystemOk(x) && Stuck(x.sched) && Arriving(x) == {}
    ensures SchedStuck(x)
  {
    hide Inv, GroupLocked, Referenced;
    forall e: Scheduler.Event
      ensures !CanStep(x, Sched(e))
    {
      if e.Enqueue? {
        ArrivingIsEnqueue(x, e.job);
      }
    }
  }

  // The exact condition for the whole system.
  lemma {:induction false} DrainsIffSubmittable(x: System)
    requires SystemOk(x)
    ensures (exists vs :: NoGets(vs) && Legal(x, vs) && Run(x, vs).dom.holders == Buffers(x.dom))
       <==> HoldersSubmittable(x)
  {
    hide SystemOk, SchedStuck, Run, Legal, Submittable, NoGets, OnlyPuts, Buffers;
    if HoldersSubmittable(x) {
      var vs := JobsDrain(x);
      DrainedWhenStuck(x, vs);
    }
    if vs :| NoGets(vs) && Legal(x, vs) && Run(x, vs).dom.holders == Buffers(x.dom) {
      RunOnlyPuts(x, vs);
      DrainedNeedsSubmittable(x, Run(x, vs));
    }
  }

  lemma {:induction false} DrainedNeedsSubmittable(x: System, x': System)
    requires OnlyPuts(x, x') && x'.dom.holders == Buffers(x.dom)
    ensures HoldersSubmittable(x)
  {
    hide Submittable;
    forall j | ForJob(j) in x.dom.holders
      ensures Submittable(j)
    {
      assert ForJob(j) !in Buffers(x.dom);
    }
  }

  // ---------- Waiting for another domain ----------

  // A job whose submission is refused never gives its reference back, whatever
  // happens; so with more than one domain the device never leaves its domain.
  lemma {:induction false} RefusedKeepsDomain(x: System, vs: seq<Event>, j: Job)
    requires SystemOk(x) && Legal(x, vs) && ForJob(j) in x.dom.holders && !Submittable(j)
    ensures ForJob(j) in Run(x, vs).dom.holders
    ensures Run(x, vs).dom.dev == x.dom.dev.(count := Run(x, vs).dom.dev.count)
    decreases |vs|
  {
    hide SystemOk, CanStep, Step, Submittable;
    if vs != [] {
      StepKeepsSystem(x, vs[0]);
      RefusedKeepsReference(x, vs[0], j);
      RefusedKeepsDomain(Step(x, vs[0]), vs[1..], j);
    }
  }

  lemma {:induction false} RefusedKeepsReference(x: System, v: Event, j: Job)
    requires SystemOk(x) && CanStep(x, v) && ForJob(j) in x.dom.holders && !Submittable(j)
    ensures ForJob(j) in Step(x, v).dom.holders
    ensures Step(x, v).dom.dev == x.dom.dev.(count := Step(x, v).dom.dev.count)
  {
    hide Inv, Referenced, Apply, Enabled, Submittable;
    match v
    case Dom(m) => DeviceMovesUnheld(x.dom, m);
    case Sched(e) => SchedStep(x, e);
  }

  lemma {:induction false} LiftMoves(x: System, ms: seq<Move<Holder>>)
    requires SystemOk(x) && CanRun(x.dom, ms)
    requires forall m :: m in ms ==> !m.Put? && (m.Enter? || m.FastTake? ==> MayAsk(x.sched, m.holder, m.want))
    ensures var vs := seq(|ms|, i requires 0 <= i < |ms| => Dom(ms[i]));
            Legal(x, vs) && Run(x, vs) == System(x.sched, AfterRun(x.dom, ms))
    decreases |ms|
  {
    hide SystemOk, AfterMove, CanMove, MayAsk;
    var vs := seq(|ms|, i requires 0 <= i < |ms| => Dom(ms[i]));
    if ms != [] {
      assert ms[0] in ms;
      StepKeepsSystem(x, vs[0]);
      LiftMoves(Step(x, vs[0]), ms[1..]);
      assert vs[1..] == seq(|ms[1..]|, i requires 0 <= i < |ms[1..]| => Dom(ms[1..][i]));
    }
  }

  ghost predicate OnItsDomain(x: System, h: Holder, want: int) {
    h in x.dom.holders && x.dom.holders[h] == want == x.dom.dev.current && x.dom.dev.attached
  }

  // The jobs finish, and the waiter's own next pass takes the device there.
  lemma {:induction false} WaiterProceeds(x: System, h: Holder, want: int, isNew: bool) returns (vs: seq<Event>)
    requires SystemOk(x) && x.dom.dev.num > 1 && x.dom.dev.attached && x.dom.mutex.Free?
    requires Buffers(x.dom) == map[] && h !in x.dom.holders && MayAsk(x.sched, h, want)
    requires HoldersSubmittable(x)
    ensures Legal(x, vs) && OnItsDomain(Run(x, vs), h, want)
  {
    hide CanStep, Step, Run, Legal, AfterMove, CanMove, CanRun, AfterRun, ValidJob, Submittable, Inv, Referenced,
         SchedStuck;
    var drain := JobsDrain(x);
    var x1 := Run(x, drain);
    DrainedWhenStuck(x, drain);
    assert x1.dom.dev.count == 0;
    PassIsRun(x1.dom, h, want, Moved(isNew));
    var ms := PassMoves(x1.dom, h, want, Moved(isNew));
    LiftMoves(x1, ms);
    var pass := seq(|ms|, i requires 0 <= i < |ms| => Dom(ms[i]));
    RunAppend(x, drain, pass);
    vs := drain + pass;
  }

  // With more than one domain and no memory call under way, a waiter for another
  // domain can get it if and only if every job that holds a reference is
  // submittable.
  lemma {:induction false} WaiterGetsItsDomain(x: System, h: Holder, want: int)
    requires SystemOk(x) && x.dom.dev.num > 1 && x.dom.dev.attached && x.dom.mutex.Free?
    requires Buffers(x.dom) == map[] && h !in x.dom.holders && MayAsk(x.sched, h, want) && want != x.dom.dev.current
    ensures (exists vs :: Legal(x, vs) && OnItsDomain(Run(x, vs), h, want)) <==> HoldersSubmittable(x)
  {
    hide SystemOk, Run, Legal, Submittable, MayAsk;
    if HoldersSubmittable(x) {
      var vs := WaiterProceeds(x, h, want, true);
    } else {
      var j :| ForJob(j) in x.dom.holders && !Submittable(j);
      forall vs | Legal(x, vs)
        ensures !OnItsDomain(Run(x, vs), h, want)
      {
        RefusedKeepsDomain(x, vs, j);
      }
    }
  }
}
