// Automatic core selection (rknpu_schedule_core_index): each arriving job goes
// to the first core with the smallest load. Loads are the task_num fields.
module Placement {

  // The first of the least loaded cores.
  ghost predicate IsChoice(loads: seq<int>, c: nat) {
    && c < |loads|
    && (forall i :: 0 <= i < |loads| ==> loads[c] <= loads[i])
    && (forall i :: 0 <= i < c ==> loads[c] < loads[i])
  }

  method ScheduleCoreIndex(loads: seq<int>) returns (core: nat)
    requires |loads| > 0
    ensures IsChoice(loads, core)
  {
    var taskNum := loads[0];
    core := 0;
    for i := 1 to |loads|
      invariant core < i && taskNum == loads[core]
      invariant forall k :: 0 <= k < i ==> loads[core] <= loads[k]
      invariant forall k :: 0 <= k < core ==> loads[core] < loads[k]
    {
      if taskNum > loads[i] {
        core := i;
        taskNum := loads[i];
      }
    }
  }

  // ---------- Arrivals ----------

  function Sum(xs: seq<nat>): nat {
    if xs == [] then 0 else Sum(xs[..|xs| - 1]) + xs[|xs| - 1]
  }

  function Largest(xs: seq<nat>): nat {
    if xs == [] then 0
    else if Largest(xs[..|xs| - 1]) < xs[|xs| - 1] then xs[|xs| - 1] else Largest(xs[..|xs| - 1])
  }

  // Put the jobs, in order, on the cores that `at` names.
  function Loads(m: nat, jobs: seq<nat>, at: seq<nat>): (loads: seq<nat>)
    requires |at| == |jobs| && forall i :: 0 <= i < |at| ==> at[i] < m
    ensures |loads| == m
    decreases |jobs|
  {
    if jobs == [] then seq(m, _ => 0)
    else
      var n := |jobs| - 1;
      var before := Loads(m, jobs[..n], at[..n]);
      before[at[n] := before[at[n]] + jobs[n]]
  }

  // The assignment the driver makes: each job on its choice at arrival.
  ghost predicate Greedy(m: nat, jobs: seq<nat>, at: seq<nat>)
    requires |at| == |jobs| && forall i :: 0 <= i < |at| ==> at[i] < m
    decreases |jobs|
  {
    jobs == [] ||
    var n := |jobs| - 1;
    Greedy(m, jobs[..n], at[..n]) && IsChoice(Loads(m, jobs[..n], at[..n]), at[n])
  }

  lemma {:induction false} SumAdds(xs: seq<nat>, i: nat, x: nat)
    requires i < |xs|
    ensures Sum(xs[i := xs[i] + x]) == Sum(xs) + x
    decreases |xs|
  {
    var n := |xs| - 1;
    var ys := xs[i := xs[i] + x];
    if i == n {
      assert ys[..n] == xs[..n];
    } else {
      SumAdds(xs[..n], i, x);
      assert ys[..n] == xs[..n][i := xs[..n][i] + x];
    }
  }

  lemma {:induction false} SumOfZeros(m: nat)
    ensures Sum(seq(m, _ => 0)) == 0
  {
    if m > 0 {
      SumOfZeros(m - 1);
      assert seq(m, _ => 0)[..m - 1] == seq(m - 1, _ => 0);
    }
  }

  // No task is lost or counted twice by an assignment.
  lemma {:induction false} LoadsSumToJobs(m: nat, jobs: seq<nat>, at: seq<nat>)
    requires |at| == |jobs| && forall i :: 0 <= i < |at| ==> at[i] < m
    ensures Sum(Loads(m, jobs, at)) == Sum(jobs)
    decreases |jobs|
  {
    if jobs == [] {
      SumOfZeros(m);
    } else {
      var n := |jobs| - 1;
      LoadsSumToJobs(m, jobs[..n], at[..n]);
      SumAdds(Loads(m, jobs[..n], at[..n]), at[n], jobs[n]);
    }
  }

  lemma {:induction false} SumAtMost(xs: seq<nat>, hi: nat)
    requires forall i :: 0 <= i < |xs| ==> xs[i] <= hi
    ensures Sum(xs) <= |xs| * hi
    decreases |xs|
  {
    if xs != [] {
      SumAtMost(xs[..|xs| - 1], hi);
      assert |xs| * hi == (|xs| - 1) * hi + hi;
    }
  }

  lemma {:induction false} SumAtLeast(xs: seq<nat>, lo: nat)
    requires forall i :: 0 <= i < |xs| ==> lo <= xs[i]
    ensures |xs| * lo <= Sum(xs)
    decreases |xs|
  {
    if xs != [] {
      SumAtLeast(xs[..|xs| - 1], lo);
      assert |xs| * lo == (|xs| - 1) * lo + lo;
    }
  }

  // ---------- The driver's placement ----------

  // The first jobs, those that had arrived when up to k - 1 more were under way.
  function Before(n: nat, k: nat): (e: nat)
    ensures e <= n && (k > 0 ==> n < e + k)
  {
    if k == 0 then n else if n < k then 0 else n - (k - 1)
  }

  // Loads read one by one between an early and a late state.
  ghost predicate Saw(seen: seq<int>, early: seq<nat>, late: seq<nat>) {
    |seen| == |early| == |late| && forall c :: 0 <= c < |seen| ==> early[c] <= seen[c] <= late[c]
  }

  // At most k submissions overlap: while a job chooses its core from the loads
  // it reads, up to k - 1 others are enqueued ahead of it.
  ghost predicate Overlapping(m: nat, jobs: seq<nat>, at: seq<nat>, k: nat)
    requires |at| == |jobs| && forall i :: 0 <= i < |at| ==> at[i] < m
    decreases |jobs|
  {
    jobs == [] ||
    var n := |jobs| - 1;
    && Overlapping(m, jobs[..n], at[..n], k)
    && ChosenFrom(Loads(m, jobs[..Before(n, k)], at[..Before(n, k)]), Loads(m, jobs[..n], at[..n]), at[n])
  }

  ghost predicate ChosenFrom(early: seq<nat>, late: seq<nat>, c: nat) {
    exists seen: seq<int> :: Saw(seen, early, late) && IsChoice(seen, c)
  }

  lemma {:induction false} Scale(k: nat, a: nat, b: nat)
    requires a <= b
    ensures k * a <= k * b
  {
    assert k * (b - a) >= 0;
  }

  lemma {:induction false} LargestOf(jobs: seq<nat>, i: nat)
    requires i <= |jobs|
    ensures Largest(jobs[..i]) <= Largest(jobs) && (i < |jobs| ==> jobs[i] <= Largest(jobs))
    decreases |jobs|
  {
    if i < |jobs| {
      var n := |jobs| - 1;
      LargestOf(jobs[..n], i);
      assert jobs[..n][..i] == jobs[..i];
    } else {
      assert jobs[..i] == jobs;
    }
  }

  function PlacedOn(loads: seq<nat>, c: nat, t: nat): seq<nat>
    requires c < |loads|
  {
    loads[c := loads[c] + t]
  }

  lemma {:induction false} LastPlaced(m: nat, jobs: seq<nat>, at: seq<nat>)
    requires jobs != [] && |at| == |jobs| && forall i :: 0 <= i < |at| ==> at[i] < m
    ensures var n := |jobs| - 1;
            && Loads(m, jobs, at) == PlacedOn(Loads(m, jobs[..n], at[..n]), at[n], jobs[n])
            && Sum(jobs) == Sum(jobs[..n]) + jobs[n]
  {
  }

  lemma {:induction false} OneMore(k: nat, x: nat)
    requires k > 0
    ensures k * x == (k - 1) * x + x
  {
  }

  // What arrives in between raises a load, by at most the largest job each.
  lemma {:induction false} LoadsGrow(m: nat, jobs: seq<nat>, at: seq<nat>, e: nat, c: nat)
    requires |at| == |jobs| && (forall i :: 0 <= i < |at| ==> at[i] < m) && e <= |jobs| && c < m
    ensures Loads(m, jobs[..e], at[..e])[c] <= Loads(m, jobs, at)[c]
    ensures Loads(m, jobs, at)[c] <= Loads(m, jobs[..e], at[..e])[c] + (|jobs| - e) * Largest(jobs)
    decreases |jobs|
  {
    hide Loads, Largest;
    if e == |jobs| {
      assert jobs[..e] == jobs && at[..e] == at;
    } else {
      var n := |jobs| - 1;
      LastPlaced(m, jobs, at);
      LoadsGrow(m, jobs[..n], at[..n], e, c);
      assert jobs[..n][..e] == jobs[..e] && at[..n][..e] == at[..e];
      LargestOf(jobs, n);
      Scale(n - e, Largest(jobs[..n]), Largest(jobs));
      OneMore(|jobs| - e, Largest(jobs));
    }
  }

  // The chosen core exceeds no other one by more than what overlapped.
  ghost predicate Least(loads: seq<nat>, c: nat, slack: nat) {
    c < |loads| && forall i :: 0 <= i < |loads| ==> loads[c] <= loads[i] + slack
  }

  lemma {:induction false} ChosenIsLeast(m: nat, jobs: seq<nat>, at: seq<nat>, k: nat)
    requires k > 0 && jobs != [] && |at| == |jobs| && (forall i :: 0 <= i < |at| ==> at[i] < m)
    requires Overlapping(m, jobs, at, k)
    ensures var n := |jobs| - 1; Least(Loads(m, jobs[..n], at[..n]), at[n], (k - 1) * Largest(jobs))
  {
    hide Loads, Largest, Overlapping;
    var n := |jobs| - 1;
    var e := Before(n, k);
    var late := Loads(m, jobs[..n], at[..n]);
    LastChosen(m, jobs, at, k);
    var seen: seq<int> :| Saw(seen, Loads(m, jobs[..e], at[..e]), late) && IsChoice(seen, at[n]);
    assert jobs[..n][..e] == jobs[..e] && at[..n][..e] == at[..e];
    LoadsGrow(m, jobs[..n], at[..n], e, at[n]);
    LargestOf(jobs, n);
    Scale(n - e, Largest(jobs[..n]), Largest(jobs));
    ScaleFactor(n - e, k - 1, Largest(jobs));
  }

  lemma {:induction false} LastChosen(m: nat, jobs: seq<nat>, at: seq<nat>, k: nat)
    requires jobs != [] && |at| == |jobs| && (forall i :: 0 <= i < |at| ==> at[i] < m) && Overlapping(m, jobs, at, k)
    ensures var n := |jobs| - 1;
            && Overlapping(m, jobs[..n], at[..n], k)
            && ChosenFrom(Loads(m, jobs[..Before(n, k)], at[..Before(n, k)]), Loads(m, jobs[..n], at[..n]), at[n])
  {
  }

  lemma {:induction false} ScaleFactor(a: nat, b: nat, x: nat)
    requires a <= b
    ensures a * x <= b * x
  {
    Scale(x, a, b);
  }

  ghost predicate Balanced(loads: seq<nat>, gap: nat) {
    forall i, k :: 0 <= i < |loads| && 0 <= k < |loads| ==> loads[i] <= loads[k] + gap
  }

  // With at most k submissions overlapping, loads never drift apart by more
  // than k times the largest job.
  lemma {:induction false} OverlapIsBalanced(m: nat, jobs: seq<nat>, at: seq<nat>, k: nat)
    requires k > 0 && |at| == |jobs| && (forall i :: 0 <= i < |at| ==> at[i] < m) && Overlapping(m, jobs, at, k)
    ensures Balanced(Loads(m, jobs, at), k * Largest(jobs))
    decreases |jobs|
  {
    hide Largest, Overlapping, Loads;
    if jobs == [] {
      NothingBalanced(m, k, Largest(jobs));
    } else {
      var n := |jobs| - 1;
      LastChosen(m, jobs, at, k);
      LastPlaced(m, jobs, at);
      OverlapIsBalanced(m, jobs[..n], at[..n], k);
      ChosenIsLeast(m, jobs, at, k);
      LargestOf(jobs, n);
      Scale(k, Largest(jobs[..n]), Largest(jobs));
      OneMore(k, Largest(jobs));
      Placed(Loads(m, jobs[..n], at[..n]), at[n], jobs[n], (k - 1) * Largest(jobs), k * Largest(jobs));
    }
  }

  lemma {:induction false} NothingBalanced(m: nat, k: nat, x: nat)
    ensures Balanced(Loads(m, [], []), k * x)
  {
    Scale(k, 0, x);
  }

  lemma {:induction false} Placed(loads: seq<nat>, c: nat, t: nat, slack: nat, gap: nat)
    requires Least(loads, c, slack) && Balanced(loads, gap) && slack + t <= gap
    ensures Balanced(PlacedOn(loads, c, t), gap)
  {
  }

  // m * load <= all tasks + (m - 1) * gap, on every core.
  ghost predicate Bounded(loads: seq<nat>, m: nat, total: nat, gap: nat) {
    forall i :: 0 <= i < |loads| ==> m * loads[i] <= total + (m - 1) * gap
  }

  // A core that no other one is ahead of by more than the slack is at most that
  // much above average.
  lemma {:induction false} LeastIsAverage(loads: seq<nat>, c: nat, slack: nat)
    requires Least(loads, c, slack)
    ensures |loads| * loads[c] <= Sum(loads) + (|loads| - 1) * slack
  {
    var raised := seq(|loads|, i requires 0 <= i < |loads| => if i == c then loads[i] else loads[i] + slack);
    SumRaised(loads, raised, c, slack);
    SumAtLeast(raised, loads[c]);
  }

  lemma {:induction false} SumRaised(xs: seq<nat>, ys: seq<nat>, c: nat, slack: nat)
    requires |xs| == |ys|
    requires forall i :: 0 <= i < |xs| ==> ys[i] == if i == c then xs[i] else xs[i] + slack
    ensures Sum(ys) == Sum(xs) + (if c < |xs| then |xs| - 1 else |xs|) * slack
    decreases |xs|
  {
    if xs != [] {
      var n := |xs| - 1;
      SumRaised(xs[..n], ys[..n], c, slack);
      OneMore(n + 1, slack);
      if c < n {
        OneMore(n, slack);
      }
    }
  }

  lemma {:induction false} OverlapIsBounded(m: nat, jobs: seq<nat>, at: seq<nat>, k: nat)
    requires m > 0 && k > 0 && |at| == |jobs| && (forall i :: 0 <= i < |at| ==> at[i] < m)
    requires Overlapping(m, jobs, at, k)
    ensures Bounded(Loads(m, jobs, at), m, Sum(jobs), k * Largest(jobs))
    decreases |jobs|
  {
    hide Largest, Least, Loads, Sum, Overlapping, Bounded;
    if jobs == [] {
      NothingBounded(m, k * Largest(jobs));
    } else {
      var n := |jobs| - 1;
      var before := Loads(m, jobs[..n], at[..n]);
      LastChosen(m, jobs, at, k);
      LastPlaced(m, jobs, at);
      OverlapIsBounded(m, jobs[..n], at[..n], k);
      LoadsSumToJobs(m, jobs[..n], at[..n]);
      ChosenIsLeast(m, jobs, at, k);
      LeastIsAverage(before, at[n], (k - 1) * Largest(jobs));
      LargestOf(jobs, n);
      Scale(k, Largest(jobs[..n]), Largest(jobs));
      OneMore(k, Largest(jobs));
      PlacedIsBounded(before, m, Sum(jobs[..n]), at[n], jobs[n], (k - 1) * Largest(jobs), k * Largest(jobs[..n]),
                      k * Largest(jobs));
    }
  }

  lemma {:induction false} NothingBounded(m: nat, gap: nat)
    requires m > 0
    ensures Bounded(Loads(m, [], []), m, Sum([]), gap)
  {
    assert (m - 1) * gap >= 0;
  }

  // The arithmetic of one placement.
  lemma {:induction false} PlacedIsBounded(loads: seq<nat>, m: nat, total: nat, c: nat, t: nat,
                                           slack: nat, gap: nat, gap': nat)
    requires m == |loads| && c < m && Bounded(loads, m, total, gap) && gap <= gap' && slack + t <= gap'
    requires m * loads[c] <= total + (m - 1) * slack
    ensures Bounded(PlacedOn(loads, c, t), m, total + t, gap')
  {
    Raised(m, loads[c], t, total, slack, gap');
    Scale(m - 1, gap, gap');
  }

  lemma {:induction false} Raised(m: nat, load: nat, t: nat, total: nat, slack: nat, gap: nat)
    requires m > 0 && m * load <= total + (m - 1) * slack && slack + t <= gap
    ensures m * (load + t) <= total + t + (m - 1) * gap
  {
    Scale(m - 1, slack + t, gap);
    Distribute(m, load, t);
    Distribute(m - 1, slack, t);
    OneMore(m, t);
  }

  lemma {:induction false} Distribute(a: nat, b: nat, c: nat)
    ensures a * (b + c) == a * b + a * c
  {
  }

  // One submission at a time is the case k == 1.
  lemma {:induction false} GreedyIsOverlapping(m: nat, jobs: seq<nat>, at: seq<nat>)
    requires |at| == |jobs| && (forall i :: 0 <= i < |at| ==> at[i] < m) && Greedy(m, jobs, at)
    ensures Overlapping(m, jobs, at, 1)
    decreases |jobs|
  {
    hide Loads;
    if jobs != [] {
      var n := |jobs| - 1;
      GreedyIsOverlapping(m, jobs[..n], at[..n]);
      var loads := Loads(m, jobs[..n], at[..n]);
      assert Saw(loads, loads, loads) && IsChoice(loads, at[n]);
    }
  }

  // Loads never drift apart by more than the largest job.
  lemma {:induction false} GreedyIsBalanced(m: nat, jobs: seq<nat>, at: seq<nat>)
    requires |at| == |jobs| && (forall i :: 0 <= i < |at| ==> at[i] < m) && Greedy(m, jobs, at)
    ensures Balanced(Loads(m, jobs, at), Largest(jobs))
  {
    hide Loads, Greedy, Overlapping, Largest;
    GreedyIsOverlapping(m, jobs, at);
    OverlapIsBalanced(m, jobs, at, 1);
  }

  lemma {:induction false} GreedyIsBounded(m: nat, jobs: seq<nat>, at: seq<nat>)
    requires m > 0 && |at| == |jobs| && (forall i :: 0 <= i < |at| ==> at[i] < m) && Greedy(m, jobs, at)
    ensures Bounded(Loads(m, jobs, at), m, Sum(jobs), Largest(jobs))
  {
    hide Loads, Greedy, Overlapping, Largest, Sum;
    GreedyIsOverlapping(m, jobs, at);
    OverlapIsBounded(m, jobs, at, 1);
  }

  lemma {:induction false} NoneOverlaps(m: nat, k: nat)
    ensures Overlapping(m, [], [], k)
  {
  }

  lemma {:induction false} OneMoreOverlaps(m: nat, jobs: seq<nat>, at: seq<nat>, k: nat, t: nat, c: nat)
    requires |at| == |jobs| && (forall i :: 0 <= i < |at| ==> at[i] < m) && c < m && Overlapping(m, jobs, at, k)
    requires var e := Before(|jobs|, k); ChosenFrom(Loads(m, jobs[..e], at[..e]), Loads(m, jobs, at), c)
    ensures Overlapping(m, jobs + [t], at + [c], k)
  {
    hide Loads;
    var n, e := |jobs|, Before(|jobs|, k);
    assert (jobs + [t])[..n] == jobs && (at + [c])[..n] == at;
    assert (jobs + [t])[..e] == jobs[..e] && (at + [c])[..e] == at[..e];
  }

  // n jobs of t tasks, all on core 0.
  lemma {:induction false} AllOnFirst(m: nat, k: nat, t: nat, jobs: seq<nat>, at: seq<nat>)
    requires m > 0 && |jobs| == |at| <= k && forall i :: 0 <= i < |jobs| ==> jobs[i] == t && at[i] == 0
    ensures Overlapping(m, jobs, at, k)
    ensures forall c :: 0 <= c < m ==> Loads(m, jobs, at)[c] == if c == 0 then |jobs| * t else 0
    ensures Largest(jobs) == if jobs == [] then 0 else t
    decreases |jobs|
  {
    hide Overlapping, Saw, IsChoice, Loads, Largest;
    if jobs == [] {
      NoneOverlaps(m, k);
      NothingPlaced(m);
    } else {
      var n := |jobs| - 1;
      var before, bt := jobs[..n], at[..n];
      AllOnFirst(m, k, t, before, bt);
      assert before[..Before(n, k)] == [] == bt[..Before(n, k)];
      NothingPlaced(m);
      LastPlaced(m, jobs, at);
      LargestLast(jobs);
      FromZero(Loads(m, [], []), Loads(m, before, bt));
      OneMoreOverlaps(m, before, bt, k, t, 0);
      assert before + [t] == jobs && bt + [0] == at;
      OneMore(n + 1, t);
    }
  }

  lemma {:induction false} NothingPlaced(m: nat)
    ensures (forall c :: 0 <= c < m ==> Loads(m, [], [])[c] == 0) && Largest([]) == 0
  {
  }

  lemma {:induction false} LargestLast(xs: seq<nat>)
    requires xs != []
    ensures var n := |xs| - 1; Largest(xs) == if Largest(xs[..n]) < xs[n] then xs[n] else Largest(xs[..n])
  {
  }

  lemma {:induction false} FromZero(early: seq<nat>, late: seq<nat>)
    requires |early| == |late| > 0 && forall c :: 0 <= c < |early| ==> early[c] == 0
    ensures ChosenFrom(early, late, 0)
  {
    assert Saw(early, early, late) && IsChoice(early, 0);
  }

  // Overlap does cost balance, by the whole factor, on any number of cores: k
  // submissions that all read the loads before the first is enqueued end up on
  // one core, k times the largest job ahead of every other.
  lemma {:induction false} OverlapCostsBalance(m: nat, k: nat, t: nat, c: nat) returns (jobs: seq<nat>, at: seq<nat>)
    requires 0 < c < m && k > 0
    ensures |at| == |jobs| && (forall i :: 0 <= i < |at| ==> at[i] < m) && Overlapping(m, jobs, at, k)
    ensures Largest(jobs) == t && Loads(m, jobs, at)[0] == Loads(m, jobs, at)[c] + k * Largest(jobs)
  {
    hide Overlapping, Loads, Largest;
    jobs, at := seq(k, _ => t), seq(k, _ => 0);
    AllOnFirst(m, k, t, jobs, at);
  }

  // ---------- Against any other assignment ----------

  // Some core carries at least the largest job and the average load, whatever
  // the assignment: no makespan is below either.
  lemma {:induction false} AnyMakespan(m: nat, jobs: seq<nat>, at: seq<nat>, span: nat)
    requires |at| == |jobs| && forall i :: 0 <= i < |at| ==> at[i] < m
    requires forall i :: 0 <= i < m ==> Loads(m, jobs, at)[i] <= span
    ensures Sum(jobs) <= m * span && Largest(jobs) <= span
  {
    LoadsSumToJobs(m, jobs, at);
    SumAtMost(Loads(m, jobs, at), span);
    LargestFits(m, jobs, at, span);
  }

  lemma {:induction false} LargestFits(m: nat, jobs: seq<nat>, at: seq<nat>, span: nat)
    requires |at| == |jobs| && forall i :: 0 <= i < |at| ==> at[i] < m
    requires forall i :: 0 <= i < m ==> Loads(m, jobs, at)[i] <= span
    ensures Largest(jobs) <= span
    decreases |jobs|
  {
    if jobs != [] {
      var n := |jobs| - 1;
      var before, after := Loads(m, jobs[..n], at[..n]), Loads(m, jobs, at);
      assert after[at[n]] == before[at[n]] + jobs[n];
      forall i | 0 <= i < m
        ensures before[i] <= span
      {
        assert before[i] <= after[i];
      }
      LargestFits(m, jobs[..n], at[..n], span);
    }
  }

  // The busiest core of the driver's placement carries at most 1 + k (m - 1) / m
  // times what the busiest core of any placement carries ...
  lemma {:induction false} OverlapWithinOptimal(m: nat, jobs: seq<nat>, at: seq<nat>, k: nat,
                                                other: seq<nat>, span: nat, c: nat)
    requires m > 0 && k > 0 && |at| == |jobs| == |other| && c < m
    requires (forall i :: 0 <= i < |at| ==> at[i] < m) && Overlapping(m, jobs, at, k)
    requires forall i :: 0 <= i < |other| ==> other[i] < m
    requires forall i :: 0 <= i < m ==> Loads(m, jobs, other)[i] <= span
    ensures m * Loads(m, jobs, at)[c] <= (m + k * (m - 1)) * span
  {
    hide Loads, Overlapping, Sum, Largest;
    OverlapIsBounded(m, jobs, at, k);
    AnyMakespan(m, jobs, other, span);
    Combine(Loads(m, jobs, at)[c], Sum(jobs), Largest(jobs), k, m, span);
  }

  // ... which is 2 - 1/m times for one submission at a time.
  lemma {:induction false} GreedyWithinTwiceOptimal(m: nat, jobs: seq<nat>, at: seq<nat>,
                                                    other: seq<nat>, span: nat, c: nat)
    requires m > 0 && |at| == |jobs| == |other| && c < m
    requires (forall i :: 0 <= i < |at| ==> at[i] < m) && Greedy(m, jobs, at)
    requires forall i :: 0 <= i < |other| ==> other[i] < m
    requires forall i :: 0 <= i < m ==> Loads(m, jobs, other)[i] <= span
    ensures m * Loads(m, jobs, at)[c] <= (2 * m - 1) * span
  {
    hide Loads, Greedy, Overlapping, Sum, Largest;
    GreedyIsOverlapping(m, jobs, at);
    OverlapWithinOptimal(m, jobs, at, 1, other, span, c);
    assert m + 1 * (m - 1) == 2 * m - 1;
  }

  lemma {:induction false} Combine(load: nat, total: nat, largest: nat, k: nat, m: nat, span: nat)
    requires m > 0 && m * load <= total + (m - 1) * (k * largest) && total <= m * span && largest <= span
    ensures m * load <= (m + k * (m - 1)) * span
  {
    Scale(k, largest, span);
    Scale(m - 1, k * largest, k * span);
    Regroup(m, k, span);
  }

  lemma {:induction false} Regroup(m: nat, k: nat, span: nat)
    requires m > 0
    ensures (m + k * (m - 1)) * span == m * span + (m - 1) * (k * span)
  {
  }
}
