// The multi-core job scheduler (rknpu_job.c) as interleaved atomic steps: the
// sections under irq_lock, the atomic counter operations, and the submissions
// to the hardware. Core count, batch limit, masks and task counts are free.
//
// A job_next call that a thread still has to make is counted in `nexts` of its
// core; a core whose job was released but whose interrupt handler has not yet
// decremented interrupt_count keeps that job in `finishing`.
module Scheduler {
  import opened Batching

  // What a submission fixes: its IOMMU domain, the cores it runs on, its tasks on
  // each core, the flag RKNPU_JOB_PC and whether its task object has an address.
  datatype Job = Job(id: nat, domain: int, mask: set<nat>, tasks: seq<nat>, pc: bool, addressed: bool)

  // Where the current job of a core stands.
  datatype Phase =
    | Claimed     // taken from the queue, run_count not yet decremented
    | Waiting     // run_count decremented, other cores still to claim the job
    | Submitting  // a batch is to be written to the hardware
    | Running     // the hardware works on a batch
    | Drained     // all batches delivered, the core is to be released
    | Refused     // committed, but nothing was written to the hardware

  datatype Slot = Idle | Held(job: Job, phase: Phase)

  datatype Core = Core(todo: seq<Job>, slot: Slot, load: int, nexts: nat, finishing: set<Job>)

  // The atomic counters of a job, and how often it was committed and completed.
  datatype Counters = Counters(run: int, intr: int, sub: seq<nat>, commits: nat, dones: nat)

  // `ticket` numbers the jobs in the order of their locked enqueueing.
  datatype State = State(cores: seq<Core>, counters: map<Job, Counters>, ticket: map<Job, nat>, clock: nat, max: nat)

  datatype Event =
    | Enqueue(job: Job)
    | Next(core: nat)
    | Decrement(core: nat)
    | Submit(core: nat)
    | Interrupt(core: nat)
    | Release(core: nat)
    | Finish(core: nat, job: Job)

  ghost predicate ValidJob(j: Job, n: nat) {
    && j.mask != {} && |j.tasks| == n
    && (forall c :: c in j.mask ==> c < n && j.tasks[c] > 0)
  }

  // The masks that the switch of rknpu_job_commit lists.
  predicate Listed(mask: set<nat>) {
    mask == {0} || mask == {1} || mask == {2} || mask == {0, 1} || mask == {0, 1, 2}
  }

  // The commit writes to the hardware: the switch knows the mask, and
  // rknpu_job_subcore_commit_pc is reached and finds the task descriptors.
  predicate Submittable(j: Job) {
    Listed(j.mask) && j.pc && j.addressed
  }

  // ---------- Steps ----------

  function Init(n: nat, max: nat): (s: State)
    requires max > 0
    ensures Inv(s)
  {
    State(seq(n, _ => Core([], Idle, 0, 0, {})), map[], map[], 0, max)
  }

  // The task_num fields.
  function TaskNums(s: State): seq<int> {
    seq(|s.cores|, c requires 0 <= c < |s.cores| => s.cores[c].load)
  }

  function Holding(s: State, c: nat, p: Phase): bool {
    c < |s.cores| && s.cores[c].slot.Held? && s.cores[c].slot.phase == p
  }

  ghost predicate WellFormed(s: State) {
    && s.max > 0
    && s.counters.Keys == s.ticket.Keys
    && (forall j :: j in s.ticket ==> ValidJob(j, |s.cores|) && |s.counters[j].sub| == |s.cores|)
    && (forall c :: 0 <= c < |s.cores| ==> Known(s.cores[c], c, s.ticket))
  }

  // The jobs a core refers to have been enqueued, and on that core.
  ghost predicate Known(k: Core, c: nat, ticket: map<Job, nat>) {
    && (forall j :: j in k.todo ==> j in ticket && c in j.mask)
    && (k.slot.Held? ==> k.slot.job in ticket && c in k.slot.job.mask)
    && (forall j :: j in k.finishing ==> j in ticket && c in j.mask)
  }

  ghost predicate Enabled(s: State, e: Event) {
    match e
    case Enqueue(j) => j !in s.ticket && ValidJob(j, |s.cores|)
    case Next(c) => c < |s.cores| && s.cores[c].nexts > 0
    case Decrement(c) => Holding(s, c, Claimed)
    case Submit(c) => Holding(s, c, Submitting)
    case Interrupt(c) => Holding(s, c, Running)
    case Release(c) => Holding(s, c, Drained)
    case Finish(c, j) => c < |s.cores| && j in s.cores[c].finishing
  }

  ghost function Apply(s: State, e: Event): State
    requires WellFormed(s) && Enabled(s, e)
  {
    match e
    case Enqueue(j) => ApplyEnqueue(s, j)
    case Next(c) => s.(cores := s.cores[c := AfterNext(s.cores[c])])
    case Decrement(c) => ApplyDecrement(s, c)
    case Submit(c) => s.(cores := s.cores[c := s.cores[c].(slot := Held(s.cores[c].slot.job, Running))])
    case Interrupt(c) => ApplyInterrupt(s, c)
    case Release(c) => s.(cores := s.cores[c := AfterRelease(s.cores[c], c)])
    case Finish(c, j) => ApplyFinish(s, c, j)
  }

  // rknpu_job_schedule, locked: append the job to the queues of all its cores.
  function AfterEnqueue(k: Core, c: nat, j: Job): Core
    requires c in j.mask ==> c < |j.tasks|
  {
    if c in j.mask then k.(todo := k.todo + [j], load := k.load + j.tasks[c], nexts := k.nexts + 1) else k
  }

  ghost function ApplyEnqueue(s: State, j: Job): State
    requires ValidJob(j, |s.cores|)
  {
    s.(cores := seq(|s.cores|, c requires 0 <= c < |s.cores| => AfterEnqueue(s.cores[c], c, j)),
       counters := s.counters[j := Counters(|j.mask|, |j.mask|, seq(|s.cores|, _ => 0), 0, 0)],
       ticket := s.ticket[j := s.clock],
       clock := s.clock + 1)
  }

  // rknpu_job_next, locked: an idle core takes the head of its queue.
  function AfterNext(k: Core): Core
    requires k.nexts > 0
  {
    if k.slot.Held? || k.todo == [] then k.(nexts := k.nexts - 1)
    else k.(todo := k.todo[1..], slot := Held(k.todo[0], Claimed), nexts := k.nexts - 1)
  }

  // atomic_dec_and_test(run_count): the last core to claim the job commits it.
  // If the commit writes nothing, its cores stay held all the same.
  function AfterCommit(k: Core, j: Job): Core {
    if k.slot.Held? && k.slot.job == j then k.(slot := Held(j, if Submittable(j) then Submitting else Refused)) else k
  }

  ghost function ApplyDecrement(s: State, c: nat): State
    requires WellFormed(s) && Holding(s, c, Claimed)
  {
    var j := s.cores[c].slot.job;
    var k := s.counters[j];
    if k.run - 1 == 0 then
      s.(cores := seq(|s.cores|, i requires 0 <= i < |s.cores| => AfterCommit(s.cores[i], j)),
         counters := s.counters[j := k.(run := k.run - 1, commits := k.commits + 1)])
    else
      s.(cores := s.cores[c := s.cores[c].(slot := Held(j, Waiting))],
         counters := s.counters[j := k.(run := k.run - 1)])
  }

  // The head of rknpu_job_done: count the batch; submit the next or drain.
  ghost function ApplyInterrupt(s: State, c: nat): State
    requires WellFormed(s) && Holding(s, c, Running)
  {
    var j := s.cores[c].slot.job;
    var k := s.counters[j];
    var sub := k.sub[c] + 1;
    var phase := if sub < Batches(j.tasks[c], s.max) then Submitting else Drained;
    s.(cores := s.cores[c := s.cores[c].(slot := Held(j, phase))],
       counters := s.counters[j := k.(sub := k.sub[c := sub])])
  }

  // The locked part of rknpu_job_done.
  function AfterRelease(k: Core, c: nat): Core
    requires k.slot.Held? && c < |k.slot.job.tasks|
  {
    k.(slot := Idle, load := k.load - k.slot.job.tasks[c], finishing := k.finishing + {k.slot.job})
  }

  // atomic_dec_and_test(interrupt_count), completion, and the job_next call.
  ghost function ApplyFinish(s: State, c: nat, j: Job): State
    requires WellFormed(s) && c < |s.cores| && j in s.cores[c].finishing
  {
    var k := s.counters[j];
    var dones := if k.intr - 1 == 0 then k.dones + 1 else k.dones;
    s.(cores := s.cores[c := s.cores[c].(finishing := s.cores[c].finishing - {j}, nexts := s.cores[c].nexts + 1)],
       counters := s.counters[j := k.(intr := k.intr - 1, dones := dones)])
  }

  // ---------- The invariant ----------

  // How far job j has come on a core.
  datatype Stage = Queued | At(phase: Phase) | Finishing | Gone

  function StageOf(k: Core, j: Job): Stage {
    if j in k.todo then Queued
    else if k.slot.Held? && k.slot.job == j then At(k.slot.phase)
    else if j in k.finishing then Finishing
    else Gone
  }

  predicate Unclaimed(t: Stage) {
    t == Queued || t == At(Claimed)
  }

  // The cores on which a job still has to be claimed, and to be finished.
  function Pending(s: State, j: Job): set<nat> {
    set c | c in j.mask && c < |s.cores| && Unclaimed(StageOf(s.cores[c], j))
  }

  function Unfinished(s: State, j: Job): set<nat> {
    set c | c in j.mask && c < |s.cores| && StageOf(s.cores[c], j) != Gone
  }

  // The current job of a core followed by its queue.
  function Line(k: Core): seq<Job> {
    (if k.slot.Held? then [k.slot.job] else []) + k.todo
  }

  function SumTasks(js: seq<Job>, c: nat): int {
    if js == [] then 0 else (if c < |js[0].tasks| then js[0].tasks[c] else 0) + SumTasks(js[1..], c)
  }

  // Every line follows the one global order of the tickets, and whatever a
  // core still has to finish is older than its line.
  ghost predicate Ordered(k: Core, ticket: map<Job, nat>)
    requires forall j :: j in k.todo || j in k.finishing ==> j in ticket
    requires k.slot.Held? ==> k.slot.job in ticket
  {
    && (forall a, b :: 0 <= a < b < |k.todo| ==> ticket[k.todo[a]] < ticket[k.todo[b]])
    && (k.slot.Held? ==> forall j :: j in k.todo ==> ticket[k.slot.job] < ticket[j])
    && (forall f, j :: f in k.finishing && j in k.todo ==> ticket[f] < ticket[j])
    && (k.slot.Held? ==> forall f :: f in k.finishing ==> ticket[f] < ticket[k.slot.job])
  }

  ghost predicate CoreOk(k: Core, c: nat, ticket: map<Job, nat>) {
    && Known(k, c, ticket)
    && Ordered(k, ticket)
    && k.load == SumTasks(Line(k), c)
    // no idle core with a queue lacks an owed job_next
    && (k.slot.Idle? && k.todo != [] ==> k.nexts > 0 || k.finishing != {})
  }

  // Stages before the commit and after it.
  predicate StageFits(t: Stage, committed: bool, submittable: bool, sub: nat, batches: nat) {
    match t
    case Queued => !committed && sub == 0
    case At(Claimed) => !committed && sub == 0
    case At(Waiting) => !committed && sub == 0
    case At(Refused) => committed && !submittable && sub == 0
    case At(Submitting) => committed && submittable && sub < batches
    case At(Running) => committed && submittable && sub < batches
    case _ => committed && submittable && sub == batches
  }

  ghost predicate JobOk(s: State, j: Job)
    requires j in s.counters
  {
    var k := s.counters[j];
    && ValidJob(j, |s.cores|) && |k.sub| == |s.cores| && s.max > 0
    && k.run == |Pending(s, j)|
    && k.intr == |Unfinished(s, j)|
    && k.commits == (if Pending(s, j) == {} then 1 else 0)
    && k.dones == (if Unfinished(s, j) == {} then 1 else 0)
    && (forall c :: c in j.mask ==>
          StageFits(StageOf(s.cores[c], j), Pending(s, j) == {}, Submittable(j), k.sub[c],
                    Batches(j.tasks[c], s.max)))
  }

  ghost predicate Inv(s: State) {
    && s.max > 0
    && s.counters.Keys == s.ticket.Keys
    && (forall j :: j in s.ticket ==> s.ticket[j] < s.clock)
    && (forall c :: 0 <= c < |s.cores| ==> CoreOk(s.cores[c], c, s.ticket))
    && (forall j :: j in s.counters ==> JobOk(s, j))
  }
}
