// How a job's tasks on one core are cut into batches for the hardware, and the
// packed word that announces a batch (rknpu_job_subcore_commit_pc and the stop
// test of rknpu_job_done).
module Batching {

  // The number of batches after which rknpu_job_done stops: a rounded-up quotient.
  function Batches(tasks: nat, max: nat): nat
    requires max > 0
  {
    (tasks + max - 1) / max
  }

  lemma {:induction false} BatchesPositive(tasks: nat, max: nat)
    requires max > 0 && tasks > 0
    ensures Batches(tasks, max) > 0
  {
    var x := tasks + max - 1;
    assert x == (x / max) * max + x % max;
  }

  const MAX_CORES := 3  // rows 0..1 of the table serve one or two cores, rows 2..4 three

  datatype Range = Range(start: nat, number: nat)

  // struct rknpu_submit, as far as the batches go.
  datatype Args = Args(taskStart: nat, taskNumber: nat, subcore: seq<Range>)

  // The row of the subcore table that belongs to a core of the job; None for
  // the values the switch of the source does not list.
  function Row(cores: nat, core: nat): (r: int) {
    if cores == 1 || cores == 2 then core else if cores == 3 then core + 2 else -1
  }

  // The tasks of a job on one core.
  function CoreTasks(args: Args, irqs: nat, cores: nat, core: nat): Range
    requires core + 2 < |args.subcore|
  {
    if irqs > 1 && Row(cores, core) >= 0 then args.subcore[Row(cores, core)]
    else Range(args.taskStart, args.taskNumber)
  }

  // Which row a core reads: its own for jobs on one or two cores, the one two
  // further for jobs on three; with a single interrupt line, or another number of
  // cores, none of them but the fields of the whole submission.
  lemma {:induction false} RowsOfCores(args: Args, irqs: nat, cores: nat, core: nat)
    requires |args.subcore| == MAX_CORES + 2 && core < MAX_CORES
    ensures irqs > 1 && (cores == 1 || cores == 2) ==> CoreTasks(args, irqs, cores, core) == args.subcore[core]
    ensures irqs > 1 && cores == 3 ==> CoreTasks(args, irqs, cores, core) == args.subcore[core + 2]
    ensures irqs <= 1 || cores == 0 || cores > 3 ==>
              CoreTasks(args, irqs, cores, core) == Range(args.taskStart, args.taskNumber)
  {
  }

  // rknpu_get_task_number.
  method GetTaskNumber(args: Args, irqs: nat, cores: nat, core: int) returns (tasks: nat)
    requires |args.subcore| == MAX_CORES + 2
    ensures tasks == if 0 <= core < MAX_CORES then CoreTasks(args, irqs, cores, core).number else 0
  {
    tasks := args.taskNumber;
    if core >= MAX_CORES || core < 0 {
      return 0;
    }
    if irqs > 1 {
      if cores == 1 || cores == 2 {
        tasks := args.subcore[core].number;
      } else if cores == 3 {
        tasks := args.subcore[core + 2].number;
      }
    }
  }

  // The batch with index k of n tasks from start on.
  function Batch(start: nat, n: nat, max: nat, k: nat): Range
    requires k * max <= n
  {
    Range(start + k * max, if n - k * max > max then max else n - k * max)
  }

  // One core of a submitted job: how often its interrupt handler counted.
  class SubcoreJob {
    const args: Args
    const irqs: nat
    const cores: nat
    const core: nat
    const max: nat
    var submitCount: nat

    constructor (args: Args, irqs: nat, cores: nat, core: nat, max: nat)
      ensures this.args == args && this.irqs == irqs && this.cores == cores && this.core == core && this.max == max
      ensures submitCount == 0
    {
      this.args, this.irqs, this.cores, this.core, this.max := args, irqs, cores, core, max;
      submitCount := 0;
    }

    // rknpu_job_subcore_commit_pc: the slice of tasks handed to the hardware.
    method CommitPc() returns (batch: Range)
      requires core < MAX_CORES && |args.subcore| == MAX_CORES + 2
      requires submitCount * max < CoreTasks(args, irqs, cores, core).number
      ensures var all := CoreTasks(args, irqs, cores, core);
              batch == Batch(all.start, all.number, max, submitCount)
    {
      var taskStart, taskNumber := args.taskStart, args.taskNumber;
      if irqs > 1 {
        match cores
        case 1 => taskStart, taskNumber := args.subcore[core].start, args.subcore[core].number;
        case 2 => taskStart, taskNumber := args.subcore[core].start, args.subcore[core].number;
        case 3 => taskStart, taskNumber := args.subcore[core + 2].start, args.subcore[core + 2].number;
        case _ =>
      }
      taskStart := taskStart + submitCount * max;
      taskNumber := taskNumber - submitCount * max;
      taskNumber := if taskNumber > max then max else taskNumber;
      batch := Range(taskStart, taskNumber);
    }

    // The test at the head of rknpu_job_done: is there another batch to submit?
    method Done() returns (again: bool)
      requires core < MAX_CORES && |args.subcore| == MAX_CORES + 2 && max > 0
      modifies this`submitCount
      ensures submitCount == old(submitCount) + 1
      ensures again <==> submitCount * max < CoreTasks(args, irqs, cores, core).number
    {
      submitCount := submitCount + 1;
      var tasks := GetTaskNumber(args, irqs, cores, core);
      StopTestAgrees(tasks, max, submitCount);
      again := submitCount < Batches(tasks, max);
    }
  }

  // The rounded-up quotient of the stop test and the subtraction of the slicing
  // agree: there is a k-th batch exactly when tasks are left for it.
  lemma {:induction false} StopTestAgrees(n: nat, max: nat, k: nat)
    requires max > 0
    ensures k < Batches(n, max) <==> k * max < n
  {
    var q := Batches(n, max);
    assert n + max - 1 == q * max + (n + max - 1) % max;
    if k < q {
      Monotone(k + 1, q, max);
      assert (k + 1) * max == k * max + max;
    } else {
      Monotone(q, k, max);
    }
  }

  lemma {:induction false} Monotone(a: int, b: int, m: nat)
    requires a <= b
    ensures a * m <= b * m
  {
    assert (b - a) * m >= 0;
  }

  function Tasks(r: Range): seq<nat> {
    seq(r.number, i requires i >= 0 => r.start + i)
  }

  // The task indices of the first k batches, in order of submission.
  function Submitted(start: nat, n: nat, max: nat, k: nat): seq<nat>
    requires k == 0 || (k - 1) * max < n
  {
    if k == 0 then []
    else
      Monotone(k - 2, k - 1, max);
      Submitted(start, n, max, k - 1) + Tasks(Batch(start, n, max, k - 1))
  }

  // Batches tile the work: the first k of them are the first tasks, each once
  // and in order, none is empty and none exceeds the limit.
  lemma {:induction false} BatchesTile(start: nat, n: nat, max: nat, k: nat)
    requires max > 0 && (k == 0 || (k - 1) * max < n)
    ensures Submitted(start, n, max, k) == Tasks(Range(start, if k * max < n then k * max else n))
    ensures k > 0 ==> 0 < Batch(start, n, max, k - 1).number <= max
  {
    hide Tasks, Batches;
    if k == 0 {
      NoTasks(start);
    } else {
      Monotone(k - 2, k - 1, max);
      BatchesTile(start, n, max, k - 1);
      assert k * max == (k - 1) * max + max;
      TasksAppend(start, (k - 1) * max, Batch(start, n, max, k - 1).number);
    }
  }

  lemma {:induction false} NoTasks(start: nat)
    ensures Tasks(Range(start, 0)) == []
  {
  }

  lemma {:induction false} TasksAppend(start: nat, a: nat, b: nat)
    ensures Tasks(Range(start, a)) + Tasks(Range(start + a, b)) == Tasks(Range(start, a + b))
  {
  }

  // The run from the first commit to the last interrupt covers all tasks.
  lemma {:induction false} AllBatchesCoverJob(start: nat, n: nat, max: nat)
    requires max > 0 && n > 0
    ensures var q := Batches(n, max);
            q > 0 && (q - 1) * max < n && Submitted(start, n, max, q) == Tasks(Range(start, n))
  {
    var q := Batches(n, max);
    BatchesPositive(n, max);
    StopTestAgrees(n, max, q - 1);
    StopTestAgrees(n, max, q);
    BatchesTile(start, n, max, q);
  }

  // ---------- The packed task-control word ----------

  // `mode` is 0x6 | task_pp_en, `bits` pc_task_number_bits of the chip.
  function TaskControl(mode: bv32, bits: bv5, number: bv32): bv32 {
    (mode << bits) | number
  }

  // Every batch size up to the chip's limit (1 << bits) - 1 decodes back out of
  // the word, and so does the three-bit mode above it, ping-pong or not.
  lemma {:induction false} TaskControlDecodes(mode: bv32, bits: bv5, number: bv32)
    requires bits < 29 && number <= (1 << bits) - 1 && mode < 8
    ensures TaskControl(mode, bits, number) & ((1 << bits) - 1) == number
    ensures TaskControl(mode, bits, number) >> bits == mode
  {
    NumberDecodes(mode, bits, number);
    ModeDecodes(mode, bits, number);
  }

  lemma {:induction false} NumberDecodes(mode: bv32, bits: bv5, number: bv32)
    requires bits < 29 && number < (1 << bits)
    ensures ((mode << bits) | number) & ((1 << bits) - 1) == number
  {
  }

  lemma {:induction false} ModeDecodes(mode: bv32, bits: bv5, number: bv32)
    requires bits < 29 && number < (1 << bits) && mode < 8
    ensures ((mode << bits) | number) >> bits == mode
  {
  }
}
