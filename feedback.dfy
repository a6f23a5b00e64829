/**
 * The MLFQ effect (src/components/MFLQ.tsx:36-189) as a program: the
 * records in an array with their `currentQueue` levels in a parallel
 * array, the three queues, the simulation loop, then the per-level
 * segments and the results; and what the finished simulation guarantees.
 */
module Feedback {
  import opened Common
  import opened Sorting
  import opened Accounting
  import opened Admission
  import opened Trace
  import opened Levels
  import opened Mlfq
  import opened Demotion

  /**
   * A finished state: every record has its finish time, appears in the
   * timeline exactly burstTime times and finished no earlier than
   * arrival + burst; the timeline is the idle units plus all bursts.
   */
  lemma FinishedProperties(pl: seq<Process>, q: int, s: State)
    requires Inv(pl, q, s) && !Unfinished(s.procs)
    ensures AllFinished(s.procs)
    ensures forall j :: 0 <= j < |pl| ==> Occurrences(Pids(s.timeline), pl[j].pid) == pl[j].burstTime
    ensures forall j :: 0 <= j < |s.procs| ==>
      s.procs[j].finishTime.value >= s.procs[j].process.arrivalTime + s.procs[j].process.burstTime
    ensures |s.timeline| == Occurrences(Pids(s.timeline), 0) + SumBursts(pl)
  {
    assert forall j :: 0 <= j < |s.procs| ==> s.procs[j].process == pl[j] && ValidProcess(pl[j]);
    AccountedComplete(s.procs, Pids(s.timeline));
  }

  /**
   * What the MLFQ simulation of a valid list ends with: the records are
   * the input stably sorted by arrival, each finished, runs exactly
   * burstTime units, finished at the end of its last unit and no earlier
   * than arrival + burst; every unit is idle `Entry(0, 0)` or a busy unit at a
   * level 1-3; the timeline is the idle units plus all bursts and the clock
   * is its length.
   */
  lemma SimulateProperties(ps: seq<Process>, q: int)
    requires ValidProcesses(ps) && q >= 1
    ensures var s := Simulate(ps, q);
      && AllFinished(s.procs)
      && Processes(s.procs) == SortBy(ps, ArrivalOf)
      && ArrivalSorted(Processes(s.procs))
      && multiset(Processes(s.procs)) == multiset(ps)
      && s.time == |s.timeline|
      && EntriesOk(s.timeline)
      && (forall j :: 0 <= j < |ps| ==> Occurrences(Pids(s.timeline), ps[j].pid) == ps[j].burstTime)
      && (forall j :: 0 <= j < |s.procs| ==>
            s.procs[j].finishTime.value >= s.procs[j].process.arrivalTime + s.procs[j].process.burstTime)
      && FinishRecorded(s.procs, Pids(s.timeline))
      && |s.timeline| == Occurrences(Pids(s.timeline), 0) + SumBursts(ps)
  {
    var pl := SortBy(ps, ArrivalOf);
    var s := Simulate(ps, q);
    SimulateInv(ps, q);
    SortedValid(ps);
    FinishedProperties(pl, q, s);
    PermutedCounts(ps, pl, Pids(s.timeline));
  }

  /**
   * The simulation ends staged, each record's units per level following its
   * demotions, with nothing remaining and the records those of the sorted input.
   */
  lemma SimulateStaged(ps: seq<Process>, q: int)
    requires ValidProcesses(ps) && q >= 1
    ensures var s := Simulate(ps, q);
      && Staged(q, s.procs, s.level, s.timeline) && Identified(s.procs)
      && Processes(s.procs) == SortBy(ps, ArrivalOf)
      && (forall j :: 0 <= j < |s.procs| ==> s.procs[j].remaining == 0)
      && (forall j :: 0 <= j < |s.level| ==> 1 <= s.level[j] <= 3)
  {
    var s := Simulate(ps, q);
    SimulateInv(ps, q);
    IdentifiedOf(SortBy(ps, ArrivalOf), s.procs);
    StagedInitially(ps, q);
    InitialInv(ps, q);
    RunStaged(SortBy(ps, ArrivalOf), q, Initial(ps));
  }

  /**
   * Process `p`'s share of each level's segments: min(q, burst) units at
   * level 1, min(2q, burst - q) at level 2 and burst - 3q, if positive, at
   * level 3.
   */
  predicate LevelShares(tl: seq<Entry>, q: int, p: Process) {
    && Duration(Segments(tl, 1), p.pid) == Min(q, p.burstTime)
    && Duration(Segments(tl, 2), p.pid) == Min(2 * q, Max(0, p.burstTime - q))
    && Duration(Segments(tl, 3), p.pid) == Max(0, p.burstTime - 3 * q)
  }

  /** The segments of each level give each finished, staged record its share of that level. */
  lemma FinishedLevels(q: int, procs: seq<Running>, level: seq<int>, tl: seq<Entry>)
    requires q >= 1 && Staged(q, procs, level, tl) && Identified(procs)
    requires forall j :: 0 <= j < |procs| ==> procs[j].remaining == 0
    requires forall j :: 0 <= j < |level| ==> 1 <= level[j] <= 3
    ensures forall j :: 0 <= j < |procs| ==> LevelShares(tl, q, Processes(procs)[j])
  {
    forall j | 0 <= j < |procs|
      ensures LevelShares(tl, q, Processes(procs)[j])
    {
      FinishedShares(procs[j], level[j], tl, q);
      SegmentsDuration(tl, 1, procs[j].process.pid);
      SegmentsDuration(tl, 2, procs[j].process.pid);
      SegmentsDuration(tl, 3, procs[j].process.pid);
    }
  }

  /** Shares carried from the sorted list back to the input order. */
  lemma PermutedShares(ps: seq<Process>, pl: seq<Process>, tl: seq<Entry>, q: int)
    requires multiset(pl) == multiset(ps)
    requires forall j :: 0 <= j < |pl| ==> LevelShares(tl, q, pl[j])
    ensures forall j :: 0 <= j < |ps| ==> LevelShares(tl, q, ps[j])
  {
    forall j | 0 <= j < |ps|
      ensures LevelShares(tl, q, ps[j])
    {
      assert ps[j] in multiset(pl);
      var i :| 0 <= i < |pl| && pl[i] == ps[j];
    }
  }

  /**
   * The per-level charts of the finished simulation: every process gets
   * min(q, burst) units in the level-1 segments, min(2q, burst - q) in the
   * level-2 segments and burst - 3q, if positive, in the level-3 segments.
   */
  lemma SimulateLevels(ps: seq<Process>, q: int)
    requires ValidProcesses(ps) && q >= 1
    ensures forall j :: 0 <= j < |ps| ==> LevelShares(Simulate(ps, q).timeline, q, ps[j])
  {
    var s := Simulate(ps, q);
    SimulateStaged(ps, q);
    FinishedLevels(q, s.procs, s.level, s.timeline);
    SortedValid(ps);
    PermutedShares(ps, Processes(s.procs), s.timeline, q);
  }

  /** Summed over the three level charts, every process gets exactly its burst. */
  lemma SimulateLevelTotal(ps: seq<Process>, q: int)
    requires ValidProcesses(ps) && q >= 1
    ensures var tl := Simulate(ps, q).timeline;
      forall j :: 0 <= j < |ps| ==>
        Duration(Segments(tl, 1), ps[j].pid) + Duration(Segments(tl, 2), ps[j].pid)
          + Duration(Segments(tl, 3), ps[j].pid) == ps[j].burstTime
  {
    SimulateLevels(ps, q);
  }

  /** The queues after a slice, level by level, as the dispatch builds them. */
  lemma Requeued(qs: seq<seq<nat>>, k: int, j: nat, next: nat, n: nat, requeue: bool, shifted: seq<seq<nat>>,
                 q1: seq<nat>, q2: seq<nat>, q3: seq<nat>)
    requires |qs| == 3 && 1 <= k <= 3 && qs[k - 1] != [] && next <= n
    requires shifted == qs[k - 1 := qs[k - 1][1..]]
    requires q1 == shifted[0] + Range(next, n)
    requires q2 == if requeue && k == 1 then shifted[1] + [j] else shifted[1]
    requires q3 == if requeue && k >= 2 then shifted[2] + [j] else shifted[2]
    ensures [q1, q2, q3] == AfterSlice(qs, k, j, next, n, requeue)
  {
  }

  /**
   * After the slice of `j` at level `currentQueueNumber`
   * (src/components/MFLQ.tsx:122-137): an unfinished process is demoted
   * one level (level 3 keeps it) and joins that level's queue; a finished
   * one gets its finish time `time`.
   */
  method Demote(processList: array<Running>, currentQueue: array<int>, j: nat, currentQueueNumber: int, time: int,
                queue2: seq<nat>, queue3: seq<nat>)
    returns (queue2': seq<nat>, queue3': seq<nat>)
    requires j < processList.Length && j < currentQueue.Length && 1 <= currentQueueNumber <= 3
    modifies processList, currentQueue
    ensures var requeue := old(processList[j].remaining) > 0;
      && processList[..] == old(processList[..])[j := if requeue then old(processList[j])
                                                      else old(processList[j]).(finishTime := Some(time))]
      && currentQueue[..] == Demoted(old(currentQueue[..]), currentQueueNumber, j, requeue)
      && queue2' == (if requeue && currentQueueNumber == 1 then queue2 + [j] else queue2)
      && queue3' == (if requeue && currentQueueNumber >= 2 then queue3 + [j] else queue3)
  {
    var currentProcess := processList[j];
    queue2', queue3' := queue2, queue3;
    if currentProcess.remaining > 0 {
      if currentQueueNumber == 1 {
        currentQueue[j] := 2;
        queue2' := queue2' + [j];
      } else if currentQueueNumber == 2 {
        currentQueue[j] := 3;
        queue3' := queue3' + [j];
      } else {
        queue3' := queue3' + [j];
      }
    } else {
      processList[j] := currentProcess.(finishTime := Some(time));
    }
  }

  /**
   * The slice of process `j` taken from level `currentQueueNumber`
   * (src/components/MFLQ.tsx:103-137): the slice loop, the update of the
   * record, the admission at the end of the slice into `queue1`, then the
   * demotion or finish.
   */
  method RunHead(processList: array<Running>, currentQueue: array<int>, time: int, timeline: seq<Entry>,
                 queue1: seq<nat>, queue2: seq<nat>, queue3: seq<nat>, arrivalIndex: nat,
                 j: nat, currentQuantum: int, currentQueueNumber: int)
    returns (time': int, timeline': seq<Entry>, queue1': seq<nat>, queue2': seq<nat>, queue3': seq<nat>,
             arrivalIndex': nat)
    requires j < processList.Length && j < currentQueue.Length && arrivalIndex <= processList.Length
    requires processList[j].remaining >= 1 && currentQuantum >= 1 && 1 <= currentQueueNumber <= 3
    modifies processList, currentQueue
    ensures var slice := Min(currentQuantum, old(processList[j].remaining));
      var requeue := old(processList[j].remaining) > slice;
      && time' == time + slice
      && timeline' == timeline + Repeat(Entry(old(processList[j].process.pid), currentQueueNumber), slice)
      && processList[..] == old(processList[..])[j := Ran(old(processList[j]), slice, time')]
      && arrivalIndex' == Arrivals(Processes(old(processList[..])), arrivalIndex, time')
      && queue1' == queue1 + Range(arrivalIndex, arrivalIndex')
      && queue2' == (if requeue && currentQueueNumber == 1 then queue2 + [j] else queue2)
      && queue3' == (if requeue && currentQueueNumber >= 2 then queue3 + [j] else queue3)
      && currentQueue[..] == Demoted(old(currentQueue[..]), currentQueueNumber, j, requeue)
  {
    var current := processList[j];
    var slice := Min(currentQuantum, current.remaining);
    timeline' := timeline;
    for t := 0 to slice
      invariant timeline' == timeline + Repeat(Entry(current.process.pid, currentQueueNumber), t)
    {
      timeline' := timeline' + [Entry(current.process.pid, currentQueueNumber)];
    }
    time' := time + slice;
    current := current.(remaining := current.remaining - slice);
    processList[j] := current;
    ProcessesOfUpdate(old(processList[..]), j, current);
    queue1', arrivalIndex' := Admit(processList, queue1, arrivalIndex, time');
    queue2', queue3' := Demote(processList, currentQueue, j, currentQueueNumber, time', queue2, queue3);
  }

  /** An idle unit with nothing queued, written out field by field, is the step of `s`. */
  lemma IdleStep(q: int, s: State, tl': seq<Entry>, n: nat, q1: seq<nat>)
    requires q >= 1 && Shaped(s) && s.queues[0] == [] && s.queues[1] == [] && s.queues[2] == []
    requires tl' == s.timeline + [Entry(0, 0)] && n == Arrivals(Processes(s.procs), s.next, s.time + 1)
    requires q1 == s.queues[0] + Range(s.next, n)
    ensures Step(q, s) == State(s.time + 1, tl', s.procs, s.level, [q1, s.queues[1], s.queues[2]], n)
  {
  }

  /**
   * The slice of the head `j` of the top level `k`, written out field by
   * field as the dispatch builds it, is the step of `s`.
   */
  lemma SliceStep(q: int, s: State, k: int, j: nat, slice: int, now: int, n: nat, requeue: bool,
                  tl': seq<Entry>, procs': seq<Running>, level': seq<int>, shifted: seq<seq<nat>>,
                  q1: seq<nat>, q2: seq<nat>, q3: seq<nat>)
    requires q >= 1 && Shaped(s) && k == Top(s.queues) && k >= 1 && j == s.queues[k - 1][0]
    requires shifted == s.queues[k - 1 := s.queues[k - 1][1..]]
    requires j < |s.procs| && slice == Min(Quantum(q, k), s.procs[j].remaining) && slice >= 0 && now == s.time + slice
    requires n == Arrivals(Processes(s.procs), s.next, now) && requeue == (s.procs[j].remaining > slice)
    requires tl' == s.timeline + Repeat(Entry(s.procs[j].process.pid, k), slice)
    requires procs' == s.procs[j := Ran(s.procs[j], slice, now)] && level' == Demoted(s.level, k, j, requeue)
    requires q1 == shifted[0] + Range(s.next, n)
    requires q2 == (if requeue && k == 1 then shifted[1] + [j] else shifted[1])
    requires q3 == (if requeue && k >= 2 then shifted[2] + [j] else shifted[2])
    ensures Step(q, s) == State(now, tl', procs', level', [q1, q2, q3], n)
  {
    Requeued(s.queues, k, j, s.next, n, requeue, shifted, q1, q2, q3);
    StepDispatch(q, s, k, j, slice, now, n, requeue, tl', procs', level', [q1, q2, q3]);
  }

  /**
   * The dispatch of `j`, shifted off level `currentQueueNumber` of `s`
   * into `queue1`-`queue3`, with that level's quantum: with its effect on
   * the arrays this is the step of `s`.
   */
  method DispatchHead(processList: array<Running>, currentQueue: array<int>, time: int, timeline: seq<Entry>,
                      queue1: seq<nat>, queue2: seq<nat>, queue3: seq<nat>, arrivalIndex: nat,
                      j: nat, currentQuantum: int, currentQueueNumber: int, ghost q: int, ghost s: State)
    returns (time': int, timeline': seq<Entry>, queue1': seq<nat>, queue2': seq<nat>, queue3': seq<nat>,
             arrivalIndex': nat)
    requires q >= 1 && Shaped(s) && s.procs == processList[..] && s.level == currentQueue[..]
    requires s.time == time && s.timeline == timeline && s.next == arrivalIndex
    requires currentQueueNumber == Top(s.queues) && currentQueueNumber >= 1
    requires j == s.queues[currentQueueNumber - 1][0]
    requires [queue1, queue2, queue3] == s.queues[currentQueueNumber - 1 := s.queues[currentQueueNumber - 1][1..]]
    requires currentQuantum == Quantum(q, currentQueueNumber)
    modifies processList, currentQueue
    ensures Step(q, s) == State(time', timeline', processList[..], currentQueue[..], [queue1', queue2', queue3'],
                                arrivalIndex')
  {
    ghost var k := currentQueueNumber;
    ghost var shifted := [queue1, queue2, queue3];
    assert s.queues[k - 1] != [];
    ghost var slice := Min(currentQuantum, s.procs[j].remaining);
    ghost var now := time + slice;
    ghost var n := Arrivals(Processes(s.procs), arrivalIndex, now);
    ghost var requeue := s.procs[j].remaining > slice;
    ghost var tl' := timeline + Repeat(Entry(s.procs[j].process.pid, k), slice);
    ghost var procs' := s.procs[j := Ran(s.procs[j], slice, now)];
    ghost var level' := Demoted(s.level, k, j, requeue);
    ghost var q1 := queue1 + Range(arrivalIndex, n);
    ghost var q2 := if requeue && k == 1 then queue2 + [j] else queue2;
    ghost var q3 := if requeue && k >= 2 then queue3 + [j] else queue3;
    SliceStep(q, s, k, j, slice, now, n, requeue, tl', procs', level', shifted, q1, q2, q3);
    time', timeline', queue1', queue2', queue3', arrivalIndex' := RunHead(processList, currentQueue, time, timeline,
      queue1, queue2, queue3, arrivalIndex, j, currentQuantum, currentQueueNumber);
    assert time' == now && timeline' == tl';
    assert processList[..] == procs';
    assert currentQueue[..] == level';
    assert arrivalIndex' == n && queue1' == q1;
    assert queue2' == q2 && queue3' == q3;
  }

  /**
   * One iteration of the simulation loop (src/components/MFLQ.tsx:71-138)
   * from state `s`: the head of the highest non-empty queue is shifted off
   * and runs with that level's quantum, or, with all three empty, an idle
   * unit and the admission at the new time.
   */
  method Iteration(processList: array<Running>, currentQueue: array<int>, timeQuantum: int, time: int,
                   timeline: seq<Entry>, queue1: seq<nat>, queue2: seq<nat>, queue3: seq<nat>, arrivalIndex: nat,
                   ghost s: State)
    returns (time': int, timeline': seq<Entry>, queue1': seq<nat>, queue2': seq<nat>, queue3': seq<nat>,
             arrivalIndex': nat)
    requires timeQuantum >= 1 && Shaped(s)
    requires s == State(time, timeline, processList[..], currentQueue[..], [queue1, queue2, queue3], arrivalIndex)
    modifies processList, currentQueue
    ensures Step(timeQuantum, s) == State(time', timeline', processList[..], currentQueue[..],
                                          [queue1', queue2', queue3'], arrivalIndex')
  {
    var currentProcess: nat := 0;
    var currentQuantum := 0;
    var currentQueueNumber := 0;
    queue1', queue2', queue3' := queue1, queue2, queue3;
    if |queue1'| > 0 {
      currentProcess := queue1'[0];
      queue1' := queue1'[1..];
      currentQuantum := timeQuantum;
      currentQueueNumber := 1;
    } else if |queue2'| > 0 {
      currentProcess := queue2'[0];
      queue2' := queue2'[1..];
      currentQuantum := timeQuantum * 2;
      currentQueueNumber := 2;
    } else if |queue3'| > 0 {
      currentProcess := queue3'[0];
      queue3' := queue3'[1..];
      currentQuantum := timeQuantum * 4;
      currentQueueNumber := 3;
    } else {
      timeline' := timeline + [Entry(0, 0)];
      time' := time + 1;
      queue1', arrivalIndex' := Admit(processList, queue1', arrivalIndex, time');
      IdleStep(timeQuantum, s, timeline', arrivalIndex', queue1');
      return;
    }
    time', timeline', queue1', queue2', queue3', arrivalIndex' := DispatchHead(processList, currentQueue, time,
      timeline, queue1', queue2', queue3', arrivalIndex, currentProcess, currentQuantum, currentQueueNumber,
      timeQuantum, s);
  }

  /**
   * The simulation loop (src/components/MFLQ.tsx:42-138) over the
   * arrival-sorted records in `processList`, all at level 1: the admission
   * at time 0, then iterations until nothing remains, ending in the final
   * state of the MLFQ simulation of `ps`.
   */
  method SimulationLoop(processList: array<Running>, currentQueue: array<int>, timeQuantum: int,
                        ghost ps: seq<Process>)
    returns (timeline: seq<Entry>)
    requires ValidProcesses(ps) && timeQuantum >= 1
    requires processList[..] == Initial(ps).procs && currentQueue[..] == Initial(ps).level
    modifies processList, currentQueue
    ensures timeline == Simulate(ps, timeQuantum).timeline
    ensures processList[..] == Simulate(ps, timeQuantum).procs
  {
    ghost var pl := SortBy(ps, ArrivalOf);
    var time := 0;
    timeline := [];
    var arrivalIndex: nat := 0;
    var queue1: seq<nat>, queue2: seq<nat>, queue3: seq<nat> := [], [], [];
    queue1, arrivalIndex := Admit(processList, queue1, arrivalIndex, time);
    assert queue1 == Range(0, arrivalIndex);
    InitialInv(ps, timeQuantum);
    assert State(time, timeline, processList[..], currentQueue[..], [queue1, queue2, queue3], arrivalIndex)
        == Initial(ps);
    while Unfinished(processList[..])
      invariant Inv(pl, timeQuantum,
                    State(time, timeline, processList[..], currentQueue[..], [queue1, queue2, queue3], arrivalIndex))
      invariant Run(pl, timeQuantum,
                    State(time, timeline, processList[..], currentQueue[..], [queue1, queue2, queue3], arrivalIndex))
             == Simulate(ps, timeQuantum)
      decreases TotalRemaining(processList[..]), MaxArrival(pl) - time
    {
      ghost var s := State(time, timeline, processList[..], currentQueue[..], [queue1, queue2, queue3], arrivalIndex);
      StepInv(pl, timeQuantum, s);
      InvOwed(pl, timeQuantum, s);
      time, timeline, queue1, queue2, queue3, arrivalIndex :=
        Iteration(processList, currentQueue, timeQuantum, time, timeline, queue1, queue2, queue3, arrivalIndex, s);
    }
  }

  /**
   * The records of `processes` with `remaining` = burstTime, no finish time
   * and `currentQueue` 1, sorted by arrival (src/components/MFLQ.tsx:47-54).
   */
  method Setup(processes: seq<Process>) returns (processList: array<Running>, currentQueue: array<int>)
    ensures fresh(processList) && fresh(currentQueue)
    ensures processList[..] == Initial(processes).procs && currentQueue[..] == Initial(processes).level
  {
    var sorted := SortBy(Extend(processes), RunningArrival);
    processList := new Running[|sorted|];
    forall k | 0 <= k < |sorted| {
      processList[k] := sorted[k];
    }
    currentQueue := new int[|sorted|](_ => 1);
    assert processList[..] == sorted;
    assert currentQueue[..] == Repeat(1, |sorted|);
  }

  /** What the effect reports, read off the final state of the simulation. */
  lemma Outcome(ps: seq<Process>, q: int, timeline: seq<Entry>, procs: seq<Running>)
    requires ValidProcesses(ps) && q >= 1
    requires timeline == Simulate(ps, q).timeline && procs == Simulate(ps, q).procs
    ensures AllFinished(procs) && EntriesOk(timeline) && |procs| == |ps|
    ensures forall j :: 0 <= j < |procs| ==>
      var p := SortBy(ps, ArrivalOf)[j];
      procs[j].process == p && procs[j].finishTime.value >= p.arrivalTime + p.burstTime
    ensures forall j :: 0 <= j < |ps| ==> Occurrences(Pids(timeline), ps[j].pid) == ps[j].burstTime
    ensures |timeline| == Occurrences(Pids(timeline), 0) + SumBursts(ps)
    ensures forall j :: 0 <= j < |ps| ==> LevelShares(timeline, q, ps[j])
  {
    SimulateProperties(ps, q);
    SimulateLevels(ps, q);
  }

  /**
   * The MLFQ effect (src/components/MFLQ.tsx:36-189): the records sorted
   * by arrival in an array, levels all 1, the simulation loop, then the
   * segments of each level, the results in sorted order and the total time.
   */
  method RunMlfq(processes: seq<Process>, timeQuantum: int)
    returns (timeline: seq<Entry>, segmentsQ1: seq<Segment>, segmentsQ2: seq<Segment>, segmentsQ3: seq<Segment>,
             results: seq<ProcessResult>, totalTime: int)
    requires ValidProcesses(processes) && timeQuantum >= 1
    ensures timeline == Simulate(processes, timeQuantum).timeline && EntriesOk(timeline)
    ensures results == Results(Simulate(processes, timeQuantum).procs)
    ensures |results| == |processes|
    ensures forall j :: 0 <= j < |results| ==>
      var p := SortBy(processes, ArrivalOf)[j];
      && results[j].pid == p.pid && results[j].arrivalTime == p.arrivalTime && results[j].burstTime == p.burstTime
      && results[j].finishTime >= p.arrivalTime + p.burstTime
    ensures forall j :: 0 <= j < |processes| ==>
      Occurrences(Pids(timeline), processes[j].pid) == processes[j].burstTime
    ensures totalTime == |timeline| == Occurrences(Pids(timeline), 0) + SumBursts(processes)
    ensures segmentsQ1 == Segments(timeline, 1) && Ordered(segmentsQ1)
    ensures segmentsQ2 == Segments(timeline, 2) && Ordered(segmentsQ2)
    ensures segmentsQ3 == Segments(timeline, 3) && Ordered(segmentsQ3)
    ensures forall j :: 0 <= j < |processes| ==> LevelShares(timeline, timeQuantum, processes[j])
  {
    var processList, currentQueue := Setup(processes);
    timeline := SimulationLoop(processList, currentQueue, timeQuantum, processes);
    Outcome(processes, timeQuantum, timeline, processList[..]);
    totalTime := |timeline|;
    segmentsQ1 := GetSegments(timeline, 1);
    segmentsQ2 := GetSegments(timeline, 2);
    segmentsQ3 := GetSegments(timeline, 3);
    results := Results(processList[..]);
  }
}
