# A verified model of the RKNPU driver and the DMA32 heap

The Rockchip NPU driver (`drivers/rknpu`) keeps several delicate pieces of state:
scatter lists that are rewritten in place while they are mapped, a job queue for each
NPU core with jobs that must own several cores at once, an IOMMU that can be on one
domain at a time, a power reference count that is dropped by a delayed work item, and
a bitmap of on-chip memory chunks. The companion heap (`dma32-heap`) builds buffers
from pages below 4 GB. This project models those pieces in Dafny and proves what they
are relied on for.

Code that changes state is modelled by classes and by loops over arrays and fields;
every such method is proved against a specification function, and the theorems are
about those functions: over all inputs, over all runs and over all interleavings.
Core counts, batch limits, list lengths, granules, boundaries and chunk counts are
parameters throughout.

| module | subject |
|---|---|
| `Kernel`, `Arith`, `Iommu` | error numbers; the alignment arithmetic; the page table and the IOVA ranges of one domain |
| `ScatterMerge`, `ScatterLayout`, `ScatterTightness`, `ScatterList` | laying a scatter list out in one IOVA range, merging it in place, undoing both |
| `SharedDomain` | many lists and buffers in one domain, mapped and unmapped in any order |
| `Scheduler`, `SchedulerSafety`, `SchedulerBlocking`, `SchedulerProgress`, `SchedulerLoad`, `Npu` | the multi-core job scheduler as interleaved atomic steps, and the device object whose methods are those steps |
| `Batching` | a job's tasks cut into hardware batches |
| `Placement`, `PlacementRun` | choosing a core for automatic jobs, and how good that choice is |
| `DomainLock`, `JobDomains` | the IOMMU domain as a group lock, alone and together with the scheduler |
| `Power` | the power references |
| `ChunkPool`, `ChunkDump` | the SRAM chunk allocator and its bitmap dump |
| `CacheMapping` | mapping a buffer that lies partly in on-chip memory |
| `SyncSplit` | splitting cache maintenance over a scatter list |
| `PageHeap` | the greedy page heap |

How to read the interleavings. In `Scheduler`, an event is one section under
`irq_lock`, one atomic counter operation or one submission to the hardware; calls of
`rknpu_job_next` that a thread still has to make are counted in `nexts`. In
`DomainLock` an event is one access to the id or the count by the thread inside
`domain_lock`, a switch with its outcome, or an unlocked get or put. In `Power` it is one section under `power_lock`
or one access of the command-line writer.

## Findings

Where the code keeps a promise only under a condition, the condition is proved
exactly; and where code and comment disagree, the model follows the code.

- The driver never leaves its first IOMMU domain. The number of domains is set to 1
  (`rknpu_iommu.c:422`) and raised only inside the switch (line 511), which is reached
  only when the number is above 1 already (lines 531-535). So every get is the
  increment of the fast path, whatever id is asked for, and setting the domain id
  (`rknpu_drv.c:529-535`) succeeds without effect:
  `DomainLock.DriverStaysOnFirstDomain`, `DomainLock.WrongDomainGetsReference`.
  Holders are on the domain they asked for if and only if all ask for the current one
  (`DomainLock.ServedIffAskedForCurrent`); the group lock that the code describes
  holds under the hypothesis of more than one domain, which the theorems about it
  state.
- The commit refuses submissions that the driver has accepted, and nobody takes the
  job off its cores. `rknpu_submit` only compares the mask with the largest one
  (`rknpu_job.c:798`), so on three cores the masks 5 and 6 are queued and claimed,
  and then the switch of `rknpu_job_commit` does not list them (lines 464-466); the
  same happens without the flag `RKNPU_JOB_PC` (435-438) or a task address (331-335).
  Until a timeout or an abort clears the cores, every later job on them waits, and so
  on. `SchedulerProgress.UnlistedMaskBlocks` is the input;
  `SchedulerProgress.StuckMeansDone` says job by job which ones complete, and
  `SchedulerProgress.EveryJobFinishes` and `JobDomains.DrainsIffSubmittable` give the
  condition for all of them to.
- The comment above the padding rule (`rknpu_iommu.c:247-259`) assumes that the one
  IOVA allocation starts on a segment boundary. On this path the allocation is not
  size-aligned (`iova_aligned` is false at line 274), and
  `ScatterLayout.UnalignedBaseCrosses` gives a list that then crosses. For an aligned
  base, `ScatterLayout.NoOutputCrosses` says exactly which lists never cross; for all
  bases below a given DMA limit, `ScatterLayout.NeverCrossesBelowLimit` does: with the
  kernel's default boundary of 4 GB a 32-bit device never crosses, and a 40-bit one
  never does exactly for lists of single granules. The merging itself never adds a crossing, wherever the allocation lies
  (`ScatterMerge.MergeCrossesIffSegmentDoes`).
- The length test `max_len - cur_len >= s_length` (`rknpu_iommu.c:156`) is unsigned.
  Outputs respect the maximum if and only if every segment does
  (`ScatterMerge.MergeKeepsMaxLength`); past a longer segment the subtraction wraps
  and later segments still join (`ScatterMerge.OversizeOutputStillGrows`).
- When attaching fails during a domain switch, the device stays on its domain only if
  the old domain can be attached again, and for a domain that is new this is not
  attempted (`rknpu_iommu.c:491-500`). The last `ensures` of
  `DomainLock.DomainTable.Switch` is the exact condition, and
  `DomainLock.DetachedStays` the consequence: no later switch succeeds.
- The comment in the chunk search (`rknpu_mm.c:103-107`) says that it restarts from
  the last free chunk found. The code restarts from the chunk that was taken, which
  finds the same run.

## Model

| member | source | states |
|---|---|---|
| `Arith.MacrosAreModular` | drivers/rknpu/rknpu_iommu.c:237-245 | the offset in a granule, the distance to a boundary and the rounded length, as the model computes them, are those of ordinary division |
| `ScatterList.Prepare` | drivers/rknpu/rknpu_iommu.c:236-267 | the in-place preparation gives the list of the layout: each segment grown to whole granules, with its successor's padding added to it and its own offset and length recoverable from the spare fields; the length returned is the end of the layout |
| `ScatterLayout.LayoutIsAligned` | drivers/rknpu/rknpu_iommu.c:236-267 | every segment starts and ends on a granule in the allocation, padding included |
| `ScatterLayout.LayoutChains` | drivers/rknpu/rknpu_iommu.c:236-267 | the segments lie end to end, each with room for its lead-in and data, and no length wraps |
| `ScatterTightness.SpanIsLeast` | drivers/rknpu/rknpu_iommu.c:237-245 | a segment takes the least whole granules that hold it from the granule its data starts in |
| `ScatterTightness.LayoutIsTight` | drivers/rknpu/rknpu_iommu.c:239-266 | a segment starts right behind its predecessor unless it would go past a boundary from there, and then exactly at the next one; the range allocated ends with the last segment |
| `ScatterTightness.ShortListIsDense` | drivers/rknpu/rknpu_iommu.c:239-266 | a list whose spans sum to at most the boundary gets exactly that sum, without a gap |
| `ScatterTightness.ShortListMergesToOne` | drivers/rknpu/rknpu_iommu.c:148-173 | such a list of whole granules, no longer than the maximal segment and off boundaries behind its start, becomes one DMA segment |
| `ScatterLayout.PaddingAvoidsBoundaries` | drivers/rknpu/rknpu_iommu.c:247-263 | with a boundary-aligned base, a segment crosses a boundary if and only if it does not fit between two boundaries with its lead-in |
| `ScatterLayout.NoOutputCrosses` | drivers/rknpu/rknpu_iommu.c:148-173 | padding rule and concatenation test together: with a boundary-aligned base, no DMA segment handed out crosses a boundary if and only if every segment of the list fits between two |
| `ScatterLayout.OutputCrossesIffDataDoes` | drivers/rknpu/rknpu_iommu.c:148-173 | for any base: no DMA segment handed out crosses a boundary if and only if no segment of the list does at its place in the layout |
| `ScatterLayout.NeverCrossesBelowLimit` | drivers/rknpu/rknpu_iommu.c:45-61 | over all bases the allocator may choose below a DMA limit: no boundary is ever crossed if and only if each segment is a single granule with its lead-in or leaves no room for the list at the lowest place where it would cross |
| `ScatterLayout.LowLimitNeverCrosses` | drivers/rknpu/rknpu_iommu.c:45-61 | a device that addresses no more than one boundary window (32-bit masks with the default boundary) never crosses, whatever the list |
| `ScatterLayout.NeverCrossesIffOneGranule` | drivers/rknpu/rknpu_iommu.c:236-275 | with room for the list above a boundary (40-bit masks): never crossed if and only if each segment, with its lead-in, is a single granule |
| `ScatterLayout.UnalignedBaseCrosses` | drivers/rknpu/rknpu_iommu.c:247-275 | without an aligned base a list shorter than the boundary can cross: two granules at 0xFFFF_F000, which a 40-bit device may be given, cross the default boundary of 4 GB |
| `ScatterList.Finalise` | drivers/rknpu/rknpu_iommu.c:110-176 | the one-pass restore and merge over the shared array leaves every original offset and length, the merged DMA segments in the first entries and invalid DMA fields in the rest; no entry is overwritten before it is read |
| `ScatterMerge.MergePreservesBytes` | drivers/rknpu/rknpu_iommu.c:148-173 | the output segments, read in order, are the same DMA bytes in the same order as the unmerged layout, and none is empty |
| `ScatterMerge.MergeEnds` | drivers/rknpu/rknpu_iommu.c:148-173 | the outputs start where the first segment starts and end where the last one ends |
| `ScatterMerge.MergeCrossesIffSegmentDoes` | drivers/rknpu/rknpu_iommu.c:148-157 | testing only the start of a segment before joining it is enough: some output crosses a boundary if and only if some single segment does |
| `ScatterMerge.MergeKeepsMaxLength` | drivers/rknpu/rknpu_iommu.c:148-173 | no output exceeds the maximal segment size if and only if no segment does |
| `ScatterMerge.OversizeOutputStillGrows` | drivers/rknpu/rknpu_iommu.c:155-158 | after an oversized segment the unsigned test lets further segments join |
| `ScatterMerge.MergeIsMaximal` | drivers/rknpu/rknpu_iommu.c:148-173 | no two neighbouring outputs could have been joined under the same rules, oversized segments included |
| `ScatterList.Invalidate` | drivers/rknpu/rknpu_iommu.c:182-210 | the failure path gives every segment its original offset and length back, also where padding had been added |
| `ScatterList.PiecesFollowLayout` | drivers/rknpu/rknpu_iommu.c:281-286 | mapping the prepared entries one after the other puts each of them at its place in the layout |
| `ScatterList.MapSg` | drivers/rknpu/rknpu_iommu.c:212-304 | success: merged list, count returned, exactly the layout's range allocated and mapped; any failure or an empty list: list restored, allocator and page table as before, 0 returned |
| `ScatterList.UnmapSg` | drivers/rknpu/rknpu_iommu.c:306-374 | unmaps and frees exactly the region spanned by the leading non-empty DMA segments, or nothing if there is none |
| `ScatterList.UnmapFindsAllocation` | drivers/rknpu/rknpu_iommu.c:323-373 | the address and size recomputed from the merged list alone are the address and size that map allocated, despite padding, merging and empty tail entries |
| `ScatterList.DmaReachesList` | drivers/rknpu/rknpu_iommu.c:212-292 | reading the DMA segments in order through the page table gives the physical bytes of the caller's list, in order |
| `ScatterList.MapThenUnmap` | drivers/rknpu/rknpu_iommu.c:212-374 | map followed by unmap restores page table, allocator and list, whatever the allocator and the IOMMU answer |
| `SharedDomain.OpKeepsSeparate` | drivers/rknpu/rknpu_iommu.c:20-86 | if the allocator chooses free ranges, as it must, live ranges stay apart over any map and unmap, and the driver maps nothing outside them |
| `SharedDomain.OpCommutes` | drivers/rknpu/rknpu_iommu.c:277-372 | a map or unmap of another list leaves a mapped list as it is and commutes with its unmap |
| `SharedDomain.UnmapLater` | drivers/rknpu/rknpu_iommu.c:277-372 | unmapping a range after any maps and unmaps of others leaves table and allocator as those others alone would have |
| `SharedDomain.ListUnmapsLater` | drivers/rknpu/rknpu_iommu.c:212-374 | while others map and unmap, the device goes on reading the bytes of the list, and the unmap computed from the merged list at the end removes exactly the list: the domain is as if it had never been mapped |
| `SchedulerSafety.StepInv` | drivers/rknpu/rknpu_job.c:470-600 | every locked section, counter operation and submission, in any interleaving, keeps queues, current jobs, loads and counters consistent with one global order of the jobs |
| `SchedulerSafety.CommitIsGang` | drivers/rknpu/rknpu_job.c:497-498 | the decrement of run_count that reaches zero finds the job current on all its cores, claimed everywhere and started nowhere, never committed before |
| `SchedulerSafety.ExactlyOnce` | drivers/rknpu/rknpu_job.c:497-532 | after any run: run_count and interrupt_count are the numbers of cores still to claim and to finish the job; it is committed at most once, and is when no core has to claim it; it is completed at most once, and is when all cores are through, after all their batches |
| `SchedulerSafety.NoCrossWaiting` | drivers/rknpu/rknpu_job.c:586-600 | no two jobs each hold a core that the other one queues for |
| `SchedulerSafety.RunInv` | drivers/rknpu/rknpu_job.c:470-600 | the scheduler invariant holds in every reachable state |
| `SchedulerProgress.FindStep` | drivers/rknpu/rknpu_job.c:470-547 | from every unfinished job that is not blocked, the chain of the older jobs it waits for ends at an enabled step |
| `SchedulerProgress.NoDeadlock` | drivers/rknpu/rknpu_job.c:470-547 | where no step of the driver or the hardware is enabled, a job is done if and only if it is not blocked |
| `SchedulerProgress.StepDrops` | drivers/rknpu/rknpu_job.c:470-547 | every step other than a new submission strictly lowers the measure over jobs, cores and batches left |
| `SchedulerProgress.RunsAreBounded` | drivers/rknpu/rknpu_job.c:470-547 | without new submissions no run is longer than the work at its start |
| `SchedulerProgress.StuckMeansDone` | drivers/rknpu/rknpu_job.c:443-547 | in any run that cannot go on, the jobs of its start are complete if and only if they were not blocked at its start, whatever was submitted since |
| `SchedulerProgress.StuckIsComplete` | drivers/rknpu/rknpu_job.c:443-547 | a run that cannot go on has completed all jobs if and only if every job unfinished at its start is submittable |
| `SchedulerProgress.MaximalRun` | drivers/rknpu/rknpu_job.c:470-547 | every state has a run that goes on until no step is left |
| `SchedulerProgress.EveryJobFinishes` | drivers/rknpu/rknpu_job.c:443-547 | some run completes all jobs if and only if every unfinished job is submittable: mask listed by the commit, flag RKNPU_JOB_PC set, task object with an address |
| `SchedulerProgress.UnlistedMasks` | drivers/rknpu/rknpu_job.c:445-467 | of the masks of three cores that pass the test of rknpu_submit, exactly 5 and 6 are not listed |
| `SchedulerProgress.UnlistedMaskBlocks` | drivers/rknpu/rknpu_job.c:464-466 | the failing input: a job with mask {0, 2} and a later one on core 0 are accepted and never complete, whatever happens next |
| `SchedulerBlocking.BlockedInLine` | drivers/rknpu/rknpu_job.c:443-468 | a blocked job is still held or queued on every one of its cores |
| `SchedulerBlocking.BlockedStays` | drivers/rknpu/rknpu_job.c:470-600 | no step of any kind blocks an enqueued job or frees a blocked one |
| `SchedulerBlocking.BlockedForGood` | drivers/rknpu/rknpu_job.c:470-600 | so whether a job is blocked is the same before and after every run |
| `SchedulerBlocking.RefusedHasNoDone` | drivers/rknpu/rknpu_job.c:443-468 | a job whose submission is refused is not completed in any reachable state |
| `SchedulerLoad.DoKeepsLoad` | drivers/rknpu/rknpu_job.c:518-520 | a step or an abort keeps task_num of a core equal to the tasks of its current job and its queue |
| `SchedulerLoad.LoadIsSumOfLine` | drivers/rknpu/rknpu_job.c:586-624 | over every run with schedule, next, done and abort steps, task_num is the summed task count of the jobs current or queued on the core |
| `SchedulerLoad.AbortClears` | drivers/rknpu/rknpu_job.c:613-624 | an abort frees each core that holds the job and whose handler has not seen it, takes the job's tasks off its load, and touches no other core |
| `SchedulerLoad.AbortThenReleases` | drivers/rknpu/rknpu_job.c:516-624 | after the abort and the releases by the handlers that had seen the job no core holds it, and each core that did has lost its tasks exactly once |
| `Npu.Device.constructor` | drivers/rknpu/rknpu_drv.c:1383-1386 | every core starts idle with an empty queue and no load, in a state that satisfies the scheduler invariant |
| `Npu.Device.Schedule` | drivers/rknpu/rknpu_job.c:586-599 | the locked loop is the one step that appends the job to the queues of all its cores, with its tasks counted, its counters set and a job_next owed on each |
| `Npu.Device.ChooseCore` | drivers/rknpu/rknpu_job.c:549-564 | the core chosen from the task_num fields is the first with the smallest |
| `Npu.Device.ScheduleAuto` | drivers/rknpu/rknpu_job.c:573-593 | without interference between choice and enqueueing, an automatic job goes, alone, to the first core with the smallest task_num |
| `Npu.Device.JobNext` | drivers/rknpu/rknpu_job.c:470-495 | a core claims the head of its queue if and only if it is idle and has one |
| `Npu.Device.SubcoreCommit` | drivers/rknpu/rknpu_job.c:331-440 | a submission reaches the registers exactly with the flag RKNPU_JOB_PC and a task address |
| `Npu.Device.Commit` | drivers/rknpu/rknpu_job.c:443-468 | on every core of the mask a batch is to be written exactly if the mask is listed, the flag is set and the task object has an address; otherwise the core stays held with nothing written; other cores are as before |
| `Npu.Device.DropRunCount` | drivers/rknpu/rknpu_job.c:497-498 | the job is committed by this decrement if and only if this was the last core to claim it |
| `Npu.Device.CountBatch` | drivers/rknpu/rknpu_job.c:509-514 | an interrupt counts one batch on that core; another one is due exactly if tasks are left behind those counted, else the core is drained |
| `Npu.Device.ReleaseCore` | drivers/rknpu/rknpu_job.c:516-524 | the core becomes free, its load loses the job's tasks, and the job is owed its interrupt decrement |
| `Npu.Device.DropInterruptCount` | drivers/rknpu/rknpu_job.c:526-546 | the last core to decrement completes the job; a job_next is owed on the core |
| `Npu.Device.Abort` | drivers/rknpu/rknpu_job.c:613-624 | in the fields: exactly the cores that hold the job and whose interrupt handler has not seen it are freed, with their load lowered by its tasks; every other core is as before |
| `Batching.GetTaskNumber` | drivers/rknpu/rknpu_job.c:76-96 | the tasks of a job on a core come from the same subcore row that the submission slices, and are 0 for a core that does not exist |
| `Batching.RowsOfCores` | drivers/rknpu/rknpu_job.c:86-93 | jobs on one or two cores read the row of the core, jobs on three the row two further, and chips with one interrupt line the fields of the whole submission |
| `Batching.SubcoreJob.CommitPc` | drivers/rknpu/rknpu_job.c:337-369 | the slice submitted is the batch whose index is the submit count |
| `Batching.SubcoreJob.Done` | drivers/rknpu/rknpu_job.c:509-514 | another batch is submitted if and only if tasks are left for it, so the next slice is never empty |
| `Batching.StopTestAgrees` | drivers/rknpu/rknpu_job.c:509-511 | the rounded-up quotient of the stop test and the subtraction of the slicing agree at every index |
| `Batching.BatchesTile` | drivers/rknpu/rknpu_job.c:365-369 | the first k batches are the first tasks, each once and in order; none is empty or above the limit |
| `Batching.AllBatchesCoverJob` | drivers/rknpu/rknpu_job.c:365-369 | the batches from the first commit to the stop cover exactly the job's tasks |
| `Batching.TaskControlDecodes` | drivers/rknpu/rknpu_job.c:403-404 | every batch size the chip allows, and the mode bits above it, decode back out of the packed task-control word |
| `Placement.ScheduleCoreIndex` | drivers/rknpu/rknpu_job.c:549-564 | the first of the least loaded cores |
| `Placement.LoadsSumToJobs` | drivers/rknpu/rknpu_job.c:586-593 | an assignment neither loses nor duplicates tasks |
| `Placement.OverlapIsBalanced` | drivers/rknpu/rknpu_job.c:549-593 | with at most k submissions overlapping, each choosing from loads that it read while others were enqueued, loads of any two cores differ by at most k times the largest job |
| `Placement.OverlapIsBounded` | drivers/rknpu/rknpu_job.c:549-593 | m times the load of any core is then at most all tasks plus m - 1 times k times the largest job |
| `Placement.OverlapWithinOptimal` | drivers/rknpu/rknpu_job.c:549-593 | and the busiest core has at most 1 + k(m - 1)/m times the load of the busiest core of any assignment |
| `Placement.OverlapCostsBalance` | drivers/rknpu/rknpu_job.c:573-593 | for every k and any number of cores, k submissions that read the same loads put one core ahead of every other by k times the largest job: the factor is reached |
| `Placement.GreedyIsBalanced` | drivers/rknpu/rknpu_job.c:549-593 | loads of any two cores never differ by more than the largest job |
| `Placement.GreedyIsBounded` | drivers/rknpu/rknpu_job.c:549-593 | m times the load of any core is at most all tasks plus m - 1 times the largest job |
| `Placement.AnyMakespan` | drivers/rknpu/rknpu_job.c:549-593 | no assignment at all has a busiest core below the average load or below the largest job |
| `Placement.GreedyWithinTwiceOptimal` | drivers/rknpu/rknpu_job.c:549-593 | the busiest core has at most (2 - 1/m) times the load of the busiest core of any other assignment |
| `PlacementRun.TaskNumsAreLoads` | drivers/rknpu/rknpu_job.c:573-593 | after automatic arrivals the task_num fields are the loads of the assignment |
| `PlacementRun.DriverIsGreedy` | drivers/rknpu/rknpu_job.c:573-579 | choosing by the task_num fields at each arrival is list scheduling |
| `PlacementRun.AutomaticPlacementIsBalanced` | drivers/rknpu/rknpu_job.c:549-593 | both bounds, for the task_num fields of the scheduler after any sequence of automatic arrivals |
| `PlacementRun.DriverOverlaps` | drivers/rknpu/rknpu_job.c:573-586 | choosing from the task_num fields outside the lock is list scheduling from loads between an early and a late state |
| `PlacementRun.OverlappingPlacementIsBalanced` | drivers/rknpu/rknpu_job.c:549-593 | both bounds, with the factor k, for the task_num fields after any sequence of automatic arrivals of which at most k overlap |
| `DomainLock.DomainTable.constructor` | drivers/rknpu/rknpu_iommu.c:415-425 | the device starts attached to domain 0, with one domain counted and no reference |
| `DomainLock.DomainTable.Switch` | drivers/rknpu/rknpu_iommu.c:427-521 | exactly when a switch succeeds and with which error it fails; success puts the device on the domain asked for, attached to its table entry; a failure keeps id and table, and exactly when it leaves the device detached |
| `DomainLock.DomainTable.GetPass` | drivers/rknpu/rknpu_iommu.c:523-561 | with one domain every call gets a reference and nothing else changes, whatever the id; with more, a reference exactly when the device is then on the domain asked for, another pass if and only if others hold a different one, a move only at count zero, and exactly when the device is still attached afterwards |
| `DomainLock.PassIsRun` | drivers/rknpu/rknpu_iommu.c:523-561 | a call that nobody interferes with is a run of the protocol's atomic moves with the same outcome, on either path |
| `DomainLock.MoveKeepsGroupLock` | drivers/rknpu/rknpu_iommu.c:523-581 | every interleaving, with unlocked gets and puts, keeps the count equal to the holders and, with more than one domain, all holders on the device's domain |
| `DomainLock.DeviceMovesUnheld` | drivers/rknpu/rknpu_iommu.c:523-581 | whatever changes the device beyond its count finds no holder, more than one domain and an attached device |
| `DomainLock.DriverStaysOnFirstDomain` | drivers/rknpu/rknpu_iommu.c:422-535 | in every run of the driver the number of domains stays 1, the id 0 and the device attached: the code that switches is never reached |
| `DomainLock.OneDomainStays` | drivers/rknpu/rknpu_iommu.c:531-535 | the same from any state with at most one domain |
| `DomainLock.WrongDomainGetsReference` | drivers/rknpu/rknpu_iommu.c:531-535 | the failing input: with one domain, any other id gets a reference all the same, and get followed by put changes nothing |
| `DomainLock.ServedIffAskedForCurrent` | drivers/rknpu/rknpu_iommu.c:523-581 | the exact condition: all holders are on the domain they asked for, throughout a run, if and only if there is more than one domain or every id asked for is the current one |
| `DomainLock.HolderKeepsDomain` | drivers/rknpu/rknpu_iommu.c:523-581 | until its own put, a holder keeps the device where it is, attached or not, over any run of all the others; with more than one domain that is the domain it asked for |
| `DomainLock.AttachedUnlessLost` | drivers/rknpu/rknpu_iommu.c:464-500 | the device is attached after a run exactly if it was before and no switch of the run lost it |
| `DomainLock.DetachedStays` | drivers/rknpu/rknpu_iommu.c:455-461 | once detached, the device stays so and no later switch succeeds, over any run |
| `DomainLock.HolderIsAttached` | drivers/rknpu/rknpu_iommu.c:537-581 | with more than one domain, a holder is on the domain it asked for, and attached to it exactly if no switch of the run was lost |
| `JobDomains.StepKeepsSystem` | drivers/rknpu/rknpu_job.c:581-594 | scheduler and domain lock together: an enqueued job holds its reference until it is done |
| `JobDomains.CompletionPuts` | drivers/rknpu/rknpu_job.c:526-529 | the put at completion gives back one reference that the job took, with more than one domain for the domain the device is still on |
| `JobDomains.JobRunsOnItsDomain` | drivers/rknpu/rknpu_job.c:526-594 | over every run: the reference of a job that is enqueued and not done is counted; it finds the device on its own domain if and only if there was more than one domain from the start or it asked for the one the device was on; the device is attached exactly if no switch was lost; a job that is done holds no reference |
| `JobDomains.DriverJobsRunOnDomainZero` | drivers/rknpu/rknpu_iommu.c:422-535 | from the driver's own start the device is always attached to domain 0, and a job that is not done finds its own domain exactly if that is 0 |
| `JobDomains.JobsDrain` | drivers/rknpu/rknpu_job.c:470-600 | from every state of the whole system some run without new gets goes on until no step of the scheduler is left |
| `JobDomains.DrainedWhenStuck` | drivers/rknpu/rknpu_job.c:443-600 | every such run has completed all jobs, and left only the references that memory calls held before, if and only if every job that held a reference is submittable |
| `JobDomains.DrainsIffSubmittable` | drivers/rknpu/rknpu_job.c:443-600 | some run without new gets leaves only the references of memory calls, under exactly that condition |
| `JobDomains.RefusedKeepsDomain` | drivers/rknpu/rknpu_job.c:443-600 | a job whose submission is refused never gives its reference back, and the device never leaves its domain, over any run |
| `JobDomains.WaiterGetsItsDomain` | drivers/rknpu/rknpu_iommu.c:537-559 | with more than one domain and no memory call under way, a waiter for another domain can get it if and only if every job that holds a reference is submittable |
| `Power.PowerManager.PutLocked` | drivers/rknpu/rknpu_drv.c:399-409 | a reference is dropped, the last one only if the hardware could be switched off; a failure is reported and keeps the reference |
| `Power.PowerManager.PutDelay` | drivers/rknpu/rknpu_drv.c:417-432 | the last reference is handed to the delayed work, others are dropped; without a delay this is a put |
| `Power.DropPays` | drivers/rknpu/rknpu_drv.c:375-409 | whichever way a put ends, the reference it gave up is dropped, queued or owed again: the account stays exact |
| `Power.StepKeepsTokens` | drivers/rknpu/rknpu_drv.c:369-432 | in every interleaving the count is users plus command-line references plus outstanding switch-offs, of which there is at most one, and the hardware is on exactly while the count is positive |
| `Power.RunKeepsTokens` | drivers/rknpu/rknpu_debugger.c:151-163 | that account holds over every run that mixes users, delayed work, retries and the steps of one command-line writer |
| `Power.OffGivesBack` | drivers/rknpu/rknpu_debugger.c:154-163 | with a command-line reference "off" is carried out and gives all of them back at once: what stays are the users' references and the outstanding switch-off, or one owed again if power_off fails |
| `Power.OffSwitchesOff` | drivers/rknpu/rknpu_debugger.c:154-163 | with nobody else using the device "off" switches it off, at count 0 |
| `Power.OffWithoutOn` | drivers/rknpu/rknpu_debugger.c:155-157 | without a command-line reference "off" changes nothing |
| `Power.OnTakesReference` | drivers/rknpu/rknpu_debugger.c:151-153 | "on" takes one reference more and leaves the hardware on |
| `Power.ReachableHasTokens` | drivers/rknpu/rknpu_drv.c:369-432 | it holds in every state that any interleaving leads to from power-up |
| `Power.QueueingTakesEffect` | drivers/rknpu/rknpu_drv.c:423-426 | whenever queue_delayed_work is called the work is neither queued nor running, so the call takes effect; and nothing else queues the work |
| `Power.PoweredWhileUsed` | drivers/rknpu/rknpu_drv.c:387-432 | in every reachable state with a user between get and put the hardware is on |
| `Power.UnusedIsOffOrGoingOff` | drivers/rknpu/rknpu_drv.c:369-432 | with no user and no command-line reference, either all is off at count 0 or exactly one switch-off is outstanding and owns the only reference |
| `Power.UnusedCanSwitchOff` | drivers/rknpu/rknpu_drv.c:369-385 | from there at most three steps of the delayed work lead to power off at count 0 |
| `Power.EveryAttemptSwitchesOff` | drivers/rknpu/rknpu_drv.c:369-432 | in whatever order the outstanding attempt is carried out with good answers, it takes at most three steps and has switched off when none is left |
| `ChunkPool.Pool.Create` | drivers/rknpu/rknpu_mm.c:10-50 | which sizes are refused with which error; otherwise an empty pool of as many whole chunks as fit |
| `ChunkPool.NeededIsCeiling` | drivers/rknpu/rknpu_mm.c:93-125 | counting sizes down chunk by chunk takes the rounded-up quotient of chunks |
| `ChunkPool.Pool.FindNextZero` | drivers/rknpu/rknpu_mm.c:82 | the first clear bit from a position on, or the end |
| `ChunkPool.Pool.Search` | drivers/rknpu/rknpu_mm.c:76-125 | the restarting search ends and finds the lowest run of free chunks that is long enough; it gives up only if there is none |
| `ChunkPool.Pool.SetBits` | drivers/rknpu/rknpu_mm.c:127-130 | exactly the bits of the object change |
| `ChunkPool.Pool.Alloc` | drivers/rknpu/rknpu_mm.c:61-146 | first fit: each error and exactly when it occurs; success marks the lowest fitting run and nothing else, lowers the free count by its length and keeps bitmap, count and live objects consistent |
| `ChunkPool.Pool.Free` | drivers/rknpu/rknpu_mm.c:148-172 | exactly the chunks of a live object become free, and bitmap, count and live objects stay consistent |
| `ChunkPool.CountSetRange` | drivers/rknpu/rknpu_mm.c:132-133 | setting or clearing a uniform range moves the number of clear bits by its length |
| `ChunkPool.AllocConserves` | drivers/rknpu/rknpu_mm.c:127-133 | a new object on free chunks is disjoint from all live ones, whose union stays the set bits |
| `ChunkPool.FreeConserves` | drivers/rknpu/rknpu_mm.c:161-165 | without a live object the others are still disjoint and their union is the remaining set bits |
| `ChunkPool.SetThenClear` | drivers/rknpu/rknpu_mm.c:127-165 | freeing what was just allocated restores the bitmap |
| `ChunkPool.LiveDetermineBitmap` | drivers/rknpu/rknpu_mm.c:127-165 | whatever happened in between, the same live objects mean the same bitmap and the same free count |
| `ChunkDump.Printer.Put` | drivers/rknpu/rknpu_mm.c:197-203 | the text grows by one character and every printed segment is full |
| `ChunkDump.Dump` | drivers/rknpu/rknpu_mm.c:196-230 | for every bitmap the printed segments, joined, have one character for each chunk, a star exactly where its bit is set; all but the last are full |
| `CacheMapping.GemObject.AllocBuf` | drivers/rknpu/rknpu_gem.c:652-792 | success exactly if every answer that is asked for is good: the least whole granules that hold cache and pages allocated, the page table with the cache and then the pages, pages and scatter table held; any failure: page table and allocator as before, and every page set or table taken on the way given back once |
| `CacheMapping.GemObject.MapPages` | drivers/rknpu/rknpu_gem.c:745-777 | the scatter loop maps the buffer completely exactly if every mapping it makes succeeds; else unmapping the size less what is left undoes it |
| `CacheMapping.GemObject.FreeBuf` | drivers/rknpu/rknpu_gem.c:817-836 | cache part and page part are unmapped, the IOVA range is freed, and pages and scatter table are given back if held |
| `CacheMapping.DeviceSeesCacheThenPages` | drivers/rknpu/rknpu_gem.c:673-696 | byte by byte the device reads the cache, then the pages in order, and every other address is as before |
| `CacheMapping.FreeUndoesAlloc` | drivers/rknpu/rknpu_gem.c:817-826 | the three calls of free undo a successful allocation |
| `CacheMapping.AllocThenFree` | drivers/rknpu/rknpu_gem.c:615-836 | allocation, whether it succeeds or not, and the free of what succeeded restore page table and allocator and give back all that was taken |
| `SyncSplit.SyncSegments` | drivers/rknpu/rknpu_gem.c:1904-1947 | a position is touched if and only if it is requested and the list covers it, each once and in order, by at most one call for each segment, inside it and at its address |
| `SyncSplit.SyncRunning` | drivers/rknpu/rknpu_mem.c:490-524 | the same for the walker with a running address, each call at its place in a contiguous mapping |
| `SyncSplit.AddressesShift` | drivers/rknpu/rknpu_mem.c:490-524 | in a contiguous mapping the addresses maintained are the buffer positions, shifted |
| `SyncSplit.WalkersAgree` | drivers/rknpu/rknpu_mem.c:490-524 | on a list contiguous for the device both walkers maintain the same addresses in the same order: exactly those requested that the list covers |
| `PageHeap.StartCheckCoversBlock` | dma32-heap/dma32_heap.c:264-270 | checking the start address of a naturally aligned block keeps all of it below 4 GB |
| `PageHeap.AllocLargest` | dma32-heap/dma32_heap.c:247-274 | a block below 4 GB of the largest order that fits, is within the limit and was not refused: every larger such order was asked for, once and in order, and refused; nothing exactly if all were; a rejected block goes back |
| `PageHeap.Gather` | dma32-heap/dma32_heap.c:301-317 | the loop collects blocks of non-increasing order: success exactly if they sum to the length; -EINTR exactly if a signal was pending in the round it stopped in; for whole pages -ENOMEM exactly if a single page was refused; as few blocks as possible if nothing was |
| `PageHeap.Allocate` | dma32-heap/dma32_heap.c:276-355 | success: the exact length below 4 GB and every page owned by the buffer; every failure exit returns each page once; without signals whole pages succeed exactly if buffer, single pages, table and export are granted, and the error is that of the first refusal |
| `PageHeap.FreeAll` | dma32-heap/dma32_heap.c:125-138 | each block of the buffer is returned once |
| `PageHeap.GreedyIsFewest` | dma32-heap/dma32_heap.c:301-317 | no list of blocks of these orders for the same number of pages is shorter than the greedy one |
| `PageHeap.FramesCount` | dma32-heap/dma32_heap.c:192-200 | the frames of a buffer are as many as its pages |
| `PageHeap.FrameAt` | dma32-heap/dma32_heap.c:192-200 | frame k of a block is its page k, behind the frames of all blocks before it |
| `PageHeap.FillPages` | dma32-heap/dma32_heap.c:166-200 | the page array is filled exactly, in order, without running past its end |

## Left out

- Kernel services: register access, locks, DRM and dma-buf objects, copying from user space, fences, procfs and debugfs files. Page allocation, IOVA allocation, `iommu_map`, `power_off` and interrupts are parameters or events; a mapping call is all or nothing; `power_on` succeeds.
- ScatterList.MapSg: bus-address (peer-to-peer) segments, the branches for kernels before 6.1 and the pass-through for aligned buffers (`rknpu_iommu.c:228-229`) are not modelled; segments are not empty and every value fits its field (`ScatterLayout.Fits`).
- SharedDomain.OpKeepsSeparate: the address limit and the rounding for old kernels are part of the kernel's choice of a free range.
- SchedulerSafety.ExactlyOnce: every core of a job has at least one task, job identities are not reused, and an interrupt comes only on a core whose job runs.
- Npu.Device.SubcoreCommit: a core index out of range and a core without a register base, which probing rules out (`rknpu_job.c:309-321`).
- Npu.Device.Commit: the cores of a gang start in any order; the driver writes to them in ascending order.
- Recovery paths: `rknpu_job_wait` and `rknpu_job_timeout_clean` take jobs out without adjusting the loads, soft reset drops `rknpu_job_next` calls. Progress is claimed for runs without them, and a blocked job is blocked until one of them clears its cores.
- Npu.Device.Abort: models the locked loop only; the domain reference that abort gives back (`rknpu_job.c:609`) and the register dump are not part of this model, and after an abort only the load is claimed.
- Npu.Device.ScheduleAuto: choice and enqueueing are one step here; the driver reads the loads before it takes `irq_lock`. What overlapping submissions then cost is `PlacementRun.OverlappingPlacementIsBalanced`.
- Batching.SubcoreJob.CommitPc: register writes and the task descriptors.
- DomainLock.DomainTable.GetPass: the timeout of the waiting loop; the stubs for other configurations and `rknpu_iommu_free_domains`.
- DomainLock.DomainTable.Switch: a detached device has no domain; kernels that then fall back to the default domain of the IOMMU group are not modelled.
- Power.RunKeepsTokens: several command-line writers at the same time.
- ChunkPool.Pool.Create: the clean-up after a failed bitmap allocation frees the wrong pointer (`rknpu_mm.c:48`); only the error code is modelled.
- ChunkPool.Pool.Free: a null object is ignored by the source; the model frees live objects only.
- ChunkDump.Dump: header, footer and segment numbers.
- CacheMapping.GemObject.AllocBuf: the scatter table and NBUF variants of the cache part, the lookup of the IOMMU domain and an unknown cache type; the sizing of the SRAM grant in `rknpu_gem_object_create`.
- SyncSplit.SyncSegments: the cache part (`rknpu_cache_sync`) and the wrap of 32-bit running sums.
- PageHeap.FillPages: mmap, the vmap counter and attachments.
- devfreq and OPP handling, load display, bandwidth counters, sessions, the install script and the device-tree overlay.
