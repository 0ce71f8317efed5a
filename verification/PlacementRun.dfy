// Placement and scheduler together: automatic jobs that arrive one after the
// other, each on the core that the task_num fields point to at that moment.
module PlacementRun {
  import opened Placement
  import opened Scheduler
  import opened SchedulerSafety

  // A job for one core, with `size` tasks there.
  ghost predicate OnOneCore(j: Job, n: nat, core: nat, size: nat) {
    core < n && ValidJob(j, n) && j.mask == {core} && j.tasks[core] == size
  }

  ghost predicate Automatic(n: nat, jobs: seq<Job>, sizes: seq<nat>, at: seq<nat>) {
    && |jobs| == |sizes| == |at|
    && (forall i :: 0 <= i < |jobs| ==> OnOneCore(jobs[i], n, at[i], sizes[i]))
  }

  lemma {:induction false} AutomaticPrefix(n: nat, jobs: seq<Job>, sizes: seq<nat>, at: seq<nat>)
    requires Automatic(n, jobs, sizes, at) && jobs != []
    ensures var k := |jobs| - 1;
            && Automatic(n, jobs[..k], sizes[..k], at[..k]) && OnOneCore(jobs[k], n, at[k], sizes[k])
            && (forall i :: 0 <= i < |at| ==> at[i] < n)
  {
    forall i | 0 <= i < |at|
      ensures at[i] < n
    {
      assert OnOneCore(jobs[i], n, at[i], sizes[i]);
    }
  }

  // The scheduler after the jobs have been enqueued in order.
  ghost function Arrived(n: nat, max: nat, jobs: seq<Job>): State
    requires max > 0 && forall i :: 0 <= i < |jobs| ==> ValidJob(jobs[i], n)
    ensures |Arrived(n, max, jobs).cores| == n
    decreases |jobs|
  {
    if jobs == [] then Init(n, max)
    else ApplyEnqueue(Arrived(n, max, jobs[..|jobs| - 1]), jobs[|jobs| - 1])
  }

  // The task_num fields are the loads of the assignment.
  lemma {:induction false} TaskNumsAreLoads(n: nat, max: nat, jobs: seq<Job>, sizes: seq<nat>, at: seq<nat>, c: nat)
    requires max > 0 && Automatic(n, jobs, sizes, at) && c < n
    requires forall i :: 0 <= i < |jobs| ==> ValidJob(jobs[i], n)
    requires forall i :: 0 <= i < |at| ==> at[i] < n
    ensures Arrived(n, max, jobs).cores[c].load == Loads(n, sizes, at)[c]
    decreases |jobs|
  {
    hide ValidJob, Inv;
    if jobs != [] {
      var k := |jobs| - 1;
      AutomaticPrefix(n, jobs, sizes, at);
      TaskNumsAreLoads(n, max, jobs[..k], sizes[..k], at[..k], c);
    }
  }

  // Each job went where rknpu_schedule_core_index sent it.
  ghost predicate SentByDriver(n: nat, max: nat, jobs: seq<Job>, at: seq<nat>)
    requires max > 0 && |at| == |jobs| && forall i :: 0 <= i < |jobs| ==> ValidJob(jobs[i], n)
    decreases |jobs|
  {
    jobs == [] ||
    var k := |jobs| - 1;
    && SentByDriver(n, max, jobs[..k], at[..k])
    && IsChoice(TaskNums(Arrived(n, max, jobs[..k])), at[k])
  }

  lemma {:induction false} SameChoice(xs: seq<int>, ys: seq<nat>, c: nat)
    requires |xs| == |ys| && IsChoice(xs, c)
    requires forall i :: 0 <= i < |xs| ==> xs[i] == ys[i]
    ensures IsChoice(ys, c)
  {
  }

  lemma {:induction false} DriverIsGreedy(n: nat, max: nat, jobs: seq<Job>, sizes: seq<nat>, at: seq<nat>)
    requires max > 0 && Automatic(n, jobs, sizes, at)
    requires forall i :: 0 <= i < |jobs| ==> ValidJob(jobs[i], n)
    requires forall i :: 0 <= i < |at| ==> at[i] < n
    requires SentByDriver(n, max, jobs, at)
    ensures Greedy(n, sizes, at)
    decreases |jobs|
  {
    hide ValidJob, Inv, OnOneCore, Arrived, Loads;
    if jobs != [] {
      var k := |jobs| - 1;
      AutomaticPrefix(n, jobs, sizes, at);
      DriverIsGreedy(n, max, jobs[..k], sizes[..k], at[..k]);
      forall c | 0 <= c < n
        ensures Arrived(n, max, jobs[..k]).cores[c].load == Loads(n, sizes[..k], at[..k])[c]
      {
        TaskNumsAreLoads(n, max, jobs[..k], sizes[..k], at[..k], c);
      }
      var loads := TaskNums(Arrived(n, max, jobs[..k]));
      assert IsChoice(loads, at[k]);
      SameChoice(loads, Loads(n, sizes[..k], at[..k]), at[k]);
    }
  }

  // In the driver's own fields: after any sequence of automatic arrivals the
  // busiest core has at most (2 - 1/n) times the load that the busiest core has
  // in any other distribution, and no two cores differ by more than the largest job.
  lemma {:induction false} AutomaticPlacementIsBalanced(n: nat, max: nat, jobs: seq<Job>, sizes: seq<nat>, at: seq<nat>,
                                                        other: seq<nat>, span: nat, c: nat, d: nat)
    requires n > 0 && max > 0 && Automatic(n, jobs, sizes, at) && c < n && d < n
    requires forall i :: 0 <= i < |jobs| ==> ValidJob(jobs[i], n)
    requires forall i :: 0 <= i < |at| ==> at[i] < n
    requires SentByDriver(n, max, jobs, at)
    requires |other| == |jobs| && forall i :: 0 <= i < |other| ==> other[i] < n
    requires forall i :: 0 <= i < n ==> Loads(n, sizes, other)[i] <= span
    ensures n * Arrived(n, max, jobs).cores[c].load <= (2 * n - 1) * span
    ensures Arrived(n, max, jobs).cores[c].load <= Arrived(n, max, jobs).cores[d].load + Largest(sizes)
  {
    hide ValidJob, Inv, OnOneCore, Arrived, Loads, Greedy;
    DriverIsGreedy(n, max, jobs, sizes, at);
    TaskNumsAreLoads(n, max, jobs, sizes, at, c);
    TaskNumsAreLoads(n, max, jobs, sizes, at, d);
    GreedyWithinTwiceOptimal(n, sizes, at, other, span, c);
    GreedyIsBalanced(n, sizes, at);
  }

  // ---------- Overlapping submissions ----------

  // The task_num fields that rknpu_schedule_core_index reads, without the lock,
  // while up to k - 1 other submissions are enqueued.
  ghost predicate ReadBetween(seen: seq<int>, early: State, late: State) {
    && |seen| == |early.cores| == |late.cores|
    && forall c :: 0 <= c < |seen| ==> early.cores[c].load <= seen[c] <= late.cores[c].load
  }

  ghost predicate SentOverlapping(n: nat, max: nat, jobs: seq<Job>, at: seq<nat>, k: nat)
    requires max > 0 && |at| == |jobs| && forall i :: 0 <= i < |jobs| ==> ValidJob(jobs[i], n)
    decreases |jobs|
  {
    jobs == [] ||
    var i := |jobs| - 1;
    && SentOverlapping(n, max, jobs[..i], at[..i], k)
    && exists seen ::
         && ReadBetween(seen, Arrived(n, max, jobs[..Before(i, k)]), Arrived(n, max, jobs[..i]))
         && IsChoice(seen, at[i])
  }

  lemma {:induction false} LoadsAre(n: nat, max: nat, jobs: seq<Job>, sizes: seq<nat>, at: seq<nat>, e: nat)
    requires max > 0 && Automatic(n, jobs, sizes, at) && e <= |jobs|
    requires forall i :: 0 <= i < |jobs| ==> ValidJob(jobs[i], n)
    requires forall i :: 0 <= i < |at| ==> at[i] < n
    ensures forall c :: 0 <= c < n ==>
              Arrived(n, max, jobs[..e]).cores[c].load == Loads(n, sizes[..e], at[..e])[c]
  {
    hide ValidJob, Inv, Arrived, Loads, OnOneCore;
    forall c | 0 <= c < n
      ensures Arrived(n, max, jobs[..e]).cores[c].load == Loads(n, sizes[..e], at[..e])[c]
    {
      TaskNumsAreLoads(n, max, jobs[..e], sizes[..e], at[..e], c);
    }
  }

  lemma {:induction false} DriverOverlaps(n: nat, max: nat, jobs: seq<Job>, sizes: seq<nat>, at: seq<nat>, k: nat)
    requires max > 0 && Automatic(n, jobs, sizes, at)
    requires forall i :: 0 <= i < |jobs| ==> ValidJob(jobs[i], n)
    requires forall i :: 0 <= i < |at| ==> at[i] < n
    requires SentOverlapping(n, max, jobs, at, k)
    ensures Overlapping(n, sizes, at, k)
    decreases |jobs|
  {
    hide ValidJob, Inv, OnOneCore, Arrived, Loads;
    if jobs != [] {
      var i := |jobs| - 1;
      var e := Before(i, k);
      AutomaticPrefix(n, jobs, sizes, at);
      DriverOverlaps(n, max, jobs[..i], sizes[..i], at[..i], k);
      LoadsAre(n, max, jobs, sizes, at, e);
      LoadsAre(n, max, jobs, sizes, at, i);
      var early, late := Loads(n, sizes[..e], at[..e]), Loads(n, sizes[..i], at[..i]);
      var seen :| && ReadBetween(seen, Arrived(n, max, jobs[..e]), Arrived(n, max, jobs[..i]))
                  && IsChoice(seen, at[i]);
      assert Saw(seen, early, late) && ChosenFrom(early, late, at[i]);
      assert sizes[..i][..e] == sizes[..e];
    }
  }

  // Both bounds for submissions that overlap, at most k at a time: the price of
  // reading the loads outside the lock is a factor of k on the largest job.
  lemma {:induction false} OverlappingPlacementIsBalanced(n: nat, max: nat, jobs: seq<Job>, sizes: seq<nat>,
                                                          at: seq<nat>, k: nat, other: seq<nat>, span: nat,
                                                          c: nat, d: nat)
    requires n > 0 && k > 0 && max > 0 && Automatic(n, jobs, sizes, at) && c < n && d < n
    requires forall i :: 0 <= i < |jobs| ==> ValidJob(jobs[i], n)
    requires forall i :: 0 <= i < |at| ==> at[i] < n
    requires SentOverlapping(n, max, jobs, at, k)
    requires |other| == |jobs| && forall i :: 0 <= i < |other| ==> other[i] < n
    requires forall i :: 0 <= i < n ==> Loads(n, sizes, other)[i] <= span
    ensures n * Arrived(n, max, jobs).cores[c].load <= (n + k * (n - 1)) * span
    ensures Arrived(n, max, jobs).cores[c].load <= Arrived(n, max, jobs).cores[d].load + k * Largest(sizes)
  {
    hide ValidJob, Inv, OnOneCore, Arrived, Loads, Overlapping, SentOverlapping, Largest;
    DriverOverlaps(n, max, jobs, sizes, at, k);
    TaskNumsAreLoads(n, max, jobs, sizes, at, c);
    TaskNumsAreLoads(n, max, jobs, sizes, at, d);
    OverlapWithinOptimal(n, sizes, at, k, other, span, c);
    OverlapIsBalanced(n, sizes, at, k);
  }
}
