# CPU scheduling simulations, modelled and proved in Dafny

The application is a teaching aid that simulates five CPU-scheduling policies over a list of processes. Each process is a record `{pid, arrivalTime, burstTime}`. Time runs in discrete units. The policies are:

- **FIFO**: non-preemptive. Processes run in stable arrival order.
- **SJF**: non-preemptive shortest job first. If no job has arrived, time jumps to the next arrival.
- **STCF**: preemptive shortest remaining time to completion. The choice is re-made every time unit.
- **Round robin (RR)**: a single FIFO ready queue and a fixed quantum q.
- **Three-level MLFQ**: quanta q, 2q and 4q. New arrivals always enter level 1. An unfinished process is demoted after every slice and stays at level 3 once there.

FIFO and SJF build a list of segments `{pid, startTime, endTime}`, one per process. STCF, RR and MLFQ build a per-unit *timeline* instead: one pid per unit, 0 when idle. MLFQ also tags each unit with its level. They also update, in place, each process's `remaining` time and `finishTime`, and MLFQ its `currentQueue` level. From the timeline, STCF and RR derive their segments with the same run-length compressor. MLFQ derives one segment list per level with `getSegments`. All three report per-process results and the total time, which is the timeline length.

## How the model is organised

- **`Common`**: the records, the validity of an input list, and sums.
- **`Sorting`**: a stable insertion sort `SortBy`. It stands for JavaScript's stable `Array.prototype.sort` with an `a.k - b.k` comparator. The module also has `Filter` and `FirstMinWhere`, the first minimal element meeting a condition. Together they give the meaning of "filter, sort, take `[0]`".
- **`Accounting`**: the bookkeeping invariant that STCF, RR and MLFQ share. It ties `remaining` and `finishTime` to the timeline.
- **`Admission`**: the arrival-admission loop of RR and MLFQ.
- **`Trace`**: the run-length compressor.
- One module per policy: `Fifo`, `Sjf`, `Stcf` and `RoundRobin`.
- **`Mlfq`**, **`Demotion`**, **`Levels`** and **`Feedback`**, for MLFQ:
  - `Mlfq`: the reference step.
  - `Demotion`: the per-level share invariant.
  - `Levels`: `getSegments`.
  - `Feedback`: the program.
- **`Fairness`**: the round-robin wait bound. A process requeued behind m others is dispatched again within m slices.
- **`RoundRobinQuantum`** and **`MlfqQuantum`**: the RR and MLFQ loops as written, for any integer quantum. They agree with the model for q ≥ 1 and never end for q ≤ 0 (see "## Findings").

FIFO and SJF are recursive *reference definitions*. Each has the imperative loop of the source beside it, a `method` proved equal to the definition.

STCF, RR and MLFQ are state machines. Each has:

- a `State` datatype;
- a ghost `Step` function, one iteration of the source's `while` loop;
- `Run`, which iterates `Step` to completion and terminates by the measure (total remaining work, latest arrival − time);
- an invariant `Inv` that every step preserves.

The source's loops are methods over an `array<Running>`, the process list mutated in place. Their ready queues are sequences of indices into that array. Queues in the source hold references to the same records, so a decrement made during a slice is seen when the process comes round again; indices into one array keep exactly that sharing. Each loop iteration is a method whose `ensures` equates its outcome with `Step`. Each whole loop is proved equal to `Simulate`, and so the properties proved about `Simulate` carry over to the program's outputs.

Worked examples from the source's behaviour are proved about the reference definitions:

- FIFO: P1(0,5), P2(1,3), P3(2,1) gives [1,0,5], [2,5,8], [3,8,9].
- SJF: the same processes give [1,0,5], [3,5,6], [2,6,9].
- STCF: the same processes give finish times 9, 5 and 3.
- RR: P1(0,4), P2(1,2), q=2 gives segments [1,0,2], [2,2,4], [1,4,6] and finish times 6 and 4.

## Model

| member | source | states |
|---|---|---|
| Sorting.SortStable | src/FIFO.tsx:19-21 | sorting by a key keeps, among the elements with any one key value, their original relative order (JavaScript's stable sort) |
| Sorting.SortBySorted | src/RR.tsx:36-43 | the sorted list is ordered by the key |
| Sorting.SortedFilterHead | src/STCF.tsx:43-54 | filtering, sorting by a key and taking element 0 yields the first element of the unfiltered list that meets the filter and has the least key |
| Common.Arrivals | src/RR.tsx:52-55 | the admission loop stops at the first position at or past `next` whose arrival is later than `time`, and every position it passes has arrived |
| Common.SortedValid | src/RR.tsx:36-43 | sorting a valid input by arrival gives a valid, arrival-ordered permutation of it |
| Admission.Admit | src/components/MFLQ.tsx:114-120 | the admission loop appends positions next..n-1 to the queue in order, where n is the first position not yet arrived |
| Trace.CompressTimeline | src/RR.tsx:92-108 | the compressor loop computes `Compress`; its segments tile [0, length) contiguously, neighbouring segments differ in pid, every unit of a segment holds its pid, and expanding them returns the timeline |
| Trace.CompressProperties | src/STCF.tsx:69-85 | the compressed timeline tiles [0, length), alternates pids, keeps every unit's pid (idle runs become pid-0 segments), expands back to the timeline, and is empty exactly when the timeline is |
| Trace.CompressDuration | src/RR.tsx:92-108 | the units a pid gets across its segments equal its occurrences in the timeline |
| Fifo.DispatchStarts | src/FIFO.tsx:26-31 | segment k is process k of the order; it starts at max(previous end, its arrival) and lasts its burst |
| Fifo.FifoScheduleProperties | src/FIFO.tsx:18-34 | one segment per process, in stable arrival order, a permutation of the input, non-empty, pairwise disjoint, each ending at or after arrival + burst, with equality exactly when it starts on arrival |
| Fifo.FifoTotalLength | src/FIFO.tsx:37-38 | the total length (last end time, 0 if none) bounds every end time, is 0 exactly for an empty input, and is at least the sum of bursts |
| Fifo.FifoExample | src/FIFO.tsx:19-31 | P1(0,5), P2(1,3), P3(2,1) give [1,0,5], [2,5,8], [3,8,9] |
| Fifo.RunFifo | src/FIFO.tsx:19-31 | the `forEach` loop computes the FIFO schedule: segment k starts at max(previous end, arrival of the k-th process in arrival order) |
| Sjf.ReadyNonEmpty | src/SJF.tsx:32-36 | the ready list is non-empty exactly when some remaining job has arrived |
| Sjf.ChooseSpec | src/SJF.tsx:36-41 | the chosen job has arrived and has the least burst among the arrived jobs; every arrived job before it has a strictly larger burst (stable tie-breaking) |
| Sjf.IndexOfPidSpec | src/SJF.tsx:50-52 | `findIndex` gives the first position holding the pid, or -1 exactly when none does |
| Sjf.SpliceAt | src/SJF.tsx:53 | `splice(k, 1)` removes exactly element k and shifts the rest left |
| Sjf.SjfOrderPermutation | src/SJF.tsx:30-58 | every remaining job is dispatched exactly once |
| Sjf.SjfShortestFirst | src/SJF.tsx:32-47 | whenever a job is dispatched, no job dispatched later had already arrived with a strictly shorter burst |
| Sjf.SjfJumpStep | src/SJF.tsx:54-57 | when none has arrived, time jumps to the least remaining arrival, which lies in the future, after which a job is ready; the schedule is the same as from the jump target |
| Sjf.SjfIdleOnlyWhenNoneArrived | src/SJF.tsx:30-58 | the processor is idle only while no remaining job has arrived |
| Sjf.SjfScheduleProperties | src/SJF.tsx:18-61 | one segment per job, a permutation of the input, each of length burst, starting no earlier than its arrival or the previous end, pairwise disjoint (non-preemptive) |
| Sjf.MaxEnd | src/SJF.tsx:63-79 | the makespan is at least every end time and equals one of them, or is 0 |
| Sjf.SjfTotalLength | src/SJF.tsx:63-79 | the makespan equals the last end time, is 0 exactly for an empty input, and is at least the sum of bursts |
| Sjf.SjfExample | src/SJF.tsx:30-58 | P1(0,5), P2(1,3), P3(2,1) give [1,0,5], [3,5,6], [2,6,9]: P3 does not preempt P1 |
| Sjf.RunSjf | src/SJF.tsx:18-61 | the `while` loop with its filter, sort, `findIndex`/`splice` and time jump computes the SJF schedule |
| Sjf.BiggestEndTime | src/SJF.tsx:63-79 | the scan returns the makespan `MaxEnd` |
| Stcf.AvailableNonEmpty | src/STCF.tsx:43-46 | the available list is non-empty exactly when some process has arrived and is unfinished |
| Stcf.ChoiceSpec | src/STCF.tsx:43-54 | the chosen process has arrived, is unfinished and has the least remaining time among those; every eligible process before it in the input has strictly more |
| Stcf.ChoiceUnique | src/STCF.tsx:53-54 | any process meeting that description is the one chosen |
| Stcf.StepSpec | src/STCF.tsx:41-61 | one iteration appends exactly one entry and advances time by 1; the entry is 0 exactly when nothing is available, and otherwise is the chosen pid, whose remaining time drops by 1 and whose finish time becomes time + 1 when it reaches 0 |
| Stcf.StepInv | src/STCF.tsx:41-62 | a step keeps the bookkeeping invariant and decreases the measure (remaining work, or the distance to the last arrival when idle) |
| Stcf.SimulateProperties | src/STCF.tsx:30-64 | the finished simulation keeps the input order; every pid occurs exactly burst times; every finish time is set, at least arrival + burst, and is the end of the unit the process last ran in; length = idle units + sum of bursts |
| Stcf.RunOneUnit | src/STCF.tsx:55-61 | running the chosen record for one unit in the array gives exactly the reference step |
| Stcf.RunStcf | src/STCF.tsx:28-98 | the effect's outputs: the timeline and results of the reference simulation, results in input order with finish ≥ arrival + burst, each pid burst times in the timeline, total = length = idle + bursts, and the compressed segments tile [0, total) |
| Stcf.StcfExample | src/STCF.tsx:41-62 | P1(0,5), P2(1,3), P3(2,1) give timeline 1,2,3,2,2,1,1,1,1 and finish times 9, 5, 3 |
| RoundRobin.InitialInv | src/RR.tsx:36-47 | the arrival-sorted records with an empty queue satisfy the invariant |
| RoundRobin.CountAfterSlice | src/RR.tsx:63-83 | after a slice each position is queued as often as before, minus the dequeued head, plus one if it arrived during the slice, plus one if it is the requeued head |
| RoundRobin.DispatchQueue | src/RR.tsx:63-83 | the queue after a slice (the rest of the queue, then the slice's arrivals, then the head if unfinished) holds every unfinished admitted process exactly once and no finished one |
| RoundRobin.IdleStepInv | src/RR.tsx:57-61 | an idle step happens only with an empty queue after admission, before the last arrival; it appends the idle unit 0, leaves the queue empty, keeps the records and the admission index reached at that time, and advances time by 1 |
| RoundRobin.SliceOutcome | src/RR.tsx:62-83 | a dispatch runs the head j for min(q, remaining) units, between 1 and q; the timeline keeps its prefix and grows by exactly that many units, all j's pid; only j's record changes, its remaining time dropping by the slice; the admission index moves on to every process that arrived by the slice's end; the queue becomes the rest of the queue, those arrivals, then j if unfinished; a finished j gets the slice's end as finish time and is queued nowhere |
| RoundRobin.StepInv | src/RR.tsx:50-84 | a step keeps the invariant and decreases the measure |
| RoundRobin.SimulateProperties | src/RR.tsx:31-87 | the finished records are the input sorted by arrival; every pid occurs exactly burst times; every finish time is set, at least arrival + burst, and is when the process completed; length = idle units + sum of bursts |
| RoundRobin.RunHead | src/RR.tsx:63-83 | dispatching the queue head in the array gives exactly the reference step |
| RoundRobin.Iteration | src/RR.tsx:50-84 | one iteration of the outer loop gives exactly the reference step |
| RoundRobin.SimulationLoop | src/RR.tsx:45-87 | the loop leaves the timeline and records of the reference simulation |
| RoundRobin.RunRoundRobin | src/RR.tsx:29-121 | the effect's outputs: the reference timeline and results in arrival order with finish ≥ arrival + burst, each pid burst times, total = length = idle + bursts, and the compressed segments tile [0, total) |
| RoundRobin.RoundRobinExample | src/RR.tsx:50-108 | P1(0,4), P2(1,2), q=2 give timeline 1,1,2,2,1,1, segments [1,0,2], [2,2,4], [1,4,6] and finish times 6 and 4 |
| Fairness.Steps | src/RR.tsx:50-84 | n more iterations of the loop keep the invariant, never move the clock back, and end where the loop from the starting state ends |
| Fairness.StepAdvances | src/RR.tsx:50-84 | while a process waits at position p ≥ 1 of the queue after admission, the next iteration is a dispatch: the clock advances by 1 to q units and the process moves to position p − 1 |
| Fairness.WaitBound | src/RR.tsx:50-84 | a process at position p of the queue after admission is its head after p iterations, which take between p and q·p units |
| Fairness.QueueShort | src/RR.tsx:50-84 | the ready queue holds each admitted position at most once, so it is no longer than the number of admitted processes |
| Fairness.Requeued | src/RR.tsx:62-80 | a slice that leaves its process unfinished puts it last in the queue and takes 1 to q units; the invariant holds after it and the loop still ends where it would have |
| Fairness.WaitBehind | src/RR.tsx:50-84 | a process last in a queue of m + 1 has m < number of processes ahead of it; after m iterations, m to q·m units later, it is back at the head, on the way to the same final state |
| Fairness.RoundRobinFairness | src/RR.tsx:50-84 | when its slice leaves the head j unfinished, j is requeued behind m others, where m + 1 ≤ number of processes. Its next dispatch begins between m + 1 and q·(m + 1) units after its previous slice began, on the loop's own path to the same final state |
| RoundRobinQuantum.StepAsWrittenOutcome | src/RR.tsx:50-84 | one iteration for any integer quantum: an empty queue after admission gives the idle unit 0 and time + 1; otherwise the head's slice is min(quantum, remaining) whatever its sign, the clock and the head's remaining time move by it, the timeline grows by max(slice, 0) units, and with a quantum ≤ 0 the clock does not advance and the timeline is unchanged |
| RoundRobinQuantum.AgreesWhenPositive | src/RR.tsx:50-84 | for a quantum ≥ 1, the loop as written for any integer quantum takes exactly the model's step |
| RoundRobinQuantum.StuckStep | src/RR.tsx:62-80 | with a quantum ≤ 0, a state whose queued processes are all unfinished, with nothing left to admit, steps to another such state: the clock does not advance, the timeline is unchanged and no remaining time drops |
| RoundRobinQuantum.StuckForever | src/RR.tsx:50-84 | from such a state with a quantum ≤ 0, the loop condition still holds after any number of iterations, with the clock no later and the timeline unchanged |
| RoundRobinQuantum.ClearedQuantumNeverEnds | src/AlgorithmSelection.tsx:36-40 | with a cleared quantum field (0) and one process P1(0,1), work remains after every number of iterations, at time 0 with an empty timeline |
| Mlfq.Top | src/components/MFLQ.tsx:76-89 | the level dispatched from is the first non-empty queue, 0 exactly when all three are empty |
| Mlfq.InitialInv | src/components/MFLQ.tsx:47-68 | the arrival-sorted records at level 1, with the processes arrived at time 0 in queue 1, satisfy the invariant |
| Mlfq.HeadUnfinished | src/components/MFLQ.tsx:76-88 | each queue's head is an unfinished process whose recorded level is that queue's |
| Mlfq.IdleStepInv | src/components/MFLQ.tsx:89-101 | an idle step happens only when all three queues are empty, before the last arrival; it appends the idle entry (0, 0), keeps the records, advances time by 1, and admits the processes that arrived by the new time into queue 1, leaving queues 2 and 3 empty |
| Mlfq.DispatchOutcome | src/components/MFLQ.tsx:76-137 | the quantum of level k is q, 2q or 4q; the head j of the top level runs for min(quantum, remaining) units, between 1 and the quantum; the timeline keeps its prefix and grows by exactly that many (pid, k) entries; only j's record changes, remaining dropping by the slice; the admission index moves on to every process that arrived by the slice's end; queue 1 keeps its waiting processes (less j when k = 1) and gains those arrivals; queues 2 and 3 lose their head only when k is their level, and gain j at the tail exactly when j is unfinished and demoted to them (from 1 to 2, from 2 or 3 to 3); an unfinished j is recorded at the next lower level (3 keeps it); a finished j gets the slice's end as finish time |
| Mlfq.SliceOutcome | src/components/MFLQ.tsx:76-137 | under the invariant the dispatched head is unfinished and recorded at the level it is taken from, and a process the slice finishes is left in no queue |
| Mlfq.QueuedAfterSlice | src/components/MFLQ.tsx:113-133 | after a slice each position is queued as often as before, minus the head, plus one if it arrived during the slice, plus one if it is the requeued head |
| Mlfq.SliceLevel | src/components/MFLQ.tsx:113-133 | after a slice every queued process sits at the queue's level, and queue 1 holds only processes that have never run, so a demoted process never returns to level 1 |
| Mlfq.DispatchQueues | src/components/MFLQ.tsx:104-137 | a slice keeps every admitted unfinished process queued exactly once over the three queues, admissions in arrival order, levels consistent |
| Mlfq.StepInv | src/components/MFLQ.tsx:71-138 | a step keeps the invariant and decreases the measure |
| Mlfq.SimulateInv | src/components/MFLQ.tsx:71-138 | the simulation ends in an invariant state with every process finished |
| Demotion.StagedSlice | src/components/MFLQ.tsx:104-133 | a slice keeps each process's staged shares: a process at level 1 has used at most q units, all at level 1; one at level 2 has had exactly q at level 1 and at most 2q at level 2; one at level 3 has had q at level 1 and 2q at level 2, the rest at level 3 |
| Demotion.FinishedShares | src/components/MFLQ.tsx:122-137 | a finished process had min(q, burst) units at level 1, min(2q, burst − q) at level 2 and burst − 3q, if positive, at level 3 |
| Levels.GetSegments | src/components/MFLQ.tsx:144-170 | `getSegments(k)` returns non-empty, ordered, non-overlapping segments of non-idle pids within [0, total) that cover exactly the units at level k with a non-zero pid |
| Levels.SegmentsCompress | src/components/MFLQ.tsx:144-170 | `getSegments(k)` is the run-length compression of the timeline masked to level k, with idle runs dropped |
| Levels.SegmentsUnits | src/components/MFLQ.tsx:144-170 | every unit a segment covers holds that pid at level k |
| Levels.SegmentsCover | src/components/MFLQ.tsx:148-165 | a unit is covered by a level-k segment exactly when its entry is at level k and not idle |
| Levels.SegmentsDuration | src/components/MFLQ.tsx:144-170 | a pid's units in the level-k segments are its level-k units in the timeline |
| Feedback.Demote | src/components/MFLQ.tsx:122-137 | an unfinished process moves from queue 1 to 2, from 2 to 3, or stays in 3, with its level updated; a finished one gets its finish time |
| Feedback.RunHead | src/components/MFLQ.tsx:104-137 | the slice in the arrays: time, timeline, remaining time, admissions and demotion as stated |
| Feedback.DispatchHead | src/components/MFLQ.tsx:104-137 | dispatching the chosen head, with that level's quantum, gives exactly the reference step |
| Feedback.Iteration | src/components/MFLQ.tsx:72-137 | one loop iteration, with its choice of queue, quantum q, 2q or 4q and level number, gives exactly the reference step |
| Feedback.SimulationLoop | src/components/MFLQ.tsx:70-138 | the loop leaves the timeline and records of the reference simulation |
| Feedback.Setup | src/components/MFLQ.tsx:47-54 | the records with `remaining = burst`, no finish time and level 1, sorted by arrival |
| Feedback.SimulateProperties | src/components/MFLQ.tsx:71-141 | the finished records are the input sorted by arrival; every entry is idle (0, 0) or a pid at level 1-3; every pid occurs exactly burst times; finish times are set, ≥ arrival + burst, and are when the process completed; total = idle units + sum of bursts |
| Feedback.SimulateLevels | src/components/MFLQ.tsx:144-174 | a process gets min(q, burst) units in the level-1 chart, min(2q, burst − q) in the level-2 chart and burst − 3q, if positive, in the level-3 chart |
| MlfqQuantum.StepAsWrittenOutcome | src/components/MFLQ.tsx:71-137 | one iteration for any integer quantum: with all queues empty, the idle entry (0, 0) and time + 1; otherwise the top level's head runs a slice of min(q, 2q or 4q by level, remaining) whatever its sign, the clock and its remaining time move by it, the timeline grows by max(slice, 0) entries, an unfinished head is queued last one level lower (3 keeps it), and with a quantum ≤ 0 the clock does not advance and the timeline is unchanged |
| MlfqQuantum.AgreesWhenPositive | src/components/MFLQ.tsx:71-137 | for a quantum ≥ 1, the loop as written for any integer quantum takes exactly the model's step |
| MlfqQuantum.StuckStep | src/components/MFLQ.tsx:76-133 | with a quantum ≤ 0, a state whose queued processes are all unfinished, with nothing left to admit, steps to another such state: the clock does not advance, the timeline is unchanged and no remaining time drops |
| MlfqQuantum.StuckForever | src/components/MFLQ.tsx:71-137 | from such a state with a quantum ≤ 0, the loop condition still holds after any number of iterations, with the clock no later and the timeline unchanged |
| MlfqQuantum.ClearedQuantumNeverEnds | src/components/MFLQ.tsx:36-71 | with a cleared quantum field (0) and one process P1(0,1), work remains after every number of iterations, at time 0 with an empty timeline |
| Feedback.SimulateLevelTotal | src/components/MFLQ.tsx:144-174 | summed over the three level charts, each process gets exactly its burst |
| Feedback.Outcome | src/components/MFLQ.tsx:71-182 | the reference outcome: all finished, results in arrival order with finish ≥ arrival + burst, per-pid counts, and level shares |
| Feedback.RunMlfq | src/components/MFLQ.tsx:36-189 | the effect's outputs: the reference timeline, three ordered level charts, results in arrival order with finish ≥ arrival + burst, total = length = idle + bursts, and the per-level shares of every process |
| Accounting.RunSlice | src/RR.tsx:63-83 | running a process for n units keeps the bookkeeping: counts, no unit before arrival, finish time at the end of the last unit, conservation |
| Accounting.FinishAfterBurst | src/RR.tsx:78-83 | a recorded finish time is at least arrival + burst |
| Accounting.AccountedComplete | src/STCF.tsx:41-62 | once nothing remains, every process has a finish time, occurs burst times, and finished at or after arrival + burst; the timeline is the idle units plus all bursts |

## Left out

- React machinery: `useState`, `useEffect`, dependency arrays and the setter calls. The model returns the values passed to the setters.
- Rendering is not modelled. This covers JSX layout, colours, the time scale and the result tables. It also covers the pid sort done on state during render and the render-time skipping of pid-0 idle segments in RR and STCF; the compressor's output still contains those idle segments.
- Random process generation in `src/App.tsx` uses `Math.random`. Its consequences are preconditions of the entry points (`ValidProcesses`): pid ≥ 1, arrival ≥ 0, burst ≥ 1 and distinct pids. `pid ≥ 1` keeps a pid from coinciding with the idle marker 0. Distinct pids are what SJF's `findIndex` on pid relies on.
- RoundRobin.Simulate and Mlfq.Simulate require `timeQuantum ≥ 1`. The source does not ensure this. The field's text is turned into a number with no check, and `min="1"` only limits the spinner and form validation, so 0 and negative quanta reach both loops, which then never end. `RoundRobinQuantum` and `MlfqQuantum` model those loops for every integer quantum; "## Findings" records the defect.
- Quanta are unbounded integers. Floating-point or non-integer quanta are not modelled, and neither is JavaScript's number range: all arithmetic is on unbounded integers.
- PDF export (html2canvas and jsPDF), the chart.js wrapper, form event parsing, DOM bootstrap and the ordering of the selected algorithms are not modelled; they are foreign I/O or presentation.
- A record's `currentQueue` field is a separate `array<int>` beside the array of records, indexed the same way, rather than a field of the record.
- Queues hold object references in the source. In the model they hold indices into the record array, which keeps the same sharing: an update made through the queue is seen in the list.
- Mlfq.Step: the reference step is defined for every state of the right shape. The loop only uses it, and only its invariant states are claimed to mean anything.

## Findings

| source | as written | input that shows it | evidently intended | confidence | as-written member | corrected member |
|---|---|---|---|---|---|---|
| src/AlgorithmSelection.tsx:36-40, src/RR.tsx:50-84 | the quantum field's text becomes the RR quantum unchecked (`Number("")` is 0). With q ≤ 0 each slice min(q, remaining) is 0 or negative, so the clock never advances, no unit is recorded, and `some(remaining > 0)` stays true | clear the quantum field while RR is shown, with one process P1 arriving at 0 with burst 1: every iteration dispatches P1 for 0 units and the loop never ends | the simulation runs only for q ≥ 1: every slice lasts 1 to q units and each step decreases the loop's measure | not executed | RoundRobinQuantum.ClearedQuantumNeverEnds | RoundRobin.StepInv |
| src/AlgorithmSelection.tsx:36-40, src/components/MFLQ.tsx:71-137 | the same unchecked number becomes the level-1 quantum, and 2q and 4q are the other two. With q ≤ 0 every slice is 0 or negative and the loop never ends | clear the quantum field while MLFQ is shown, with P1(0,1): P1 sinks to level 3 on slices of 0 units and the loop never ends | the simulation runs only for q ≥ 1: every slice lasts 1 to its level's quantum and each step decreases the loop's measure | not executed | MlfqQuantum.ClearedQuantumNeverEnds | Mlfq.StepInv |
