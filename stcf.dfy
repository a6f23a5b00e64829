/**
 * Shortest time-to-completion first (src/STCF.tsx), preemptive: every time
 * unit the arrived, unfinished process with the least remaining time runs
 * for one unit; a unit with no such process is idle (pid 0).
 */
module Stcf {
  import opened Common
  import opened Sorting
  import opened Accounting
  import opened Trace

  /** The simulation state: the clock, the timeline so far and the process records. */
  datatype State = State(time: int, timeline: seq<int>, procs: seq<Running>)

  /** A position of the record list is eligible: arrived by `time` and unfinished. */
  function Eligible(procs: seq<Running>, time: int): nat -> bool {
    (j: nat) => j < |procs| && procs[j].process.arrivalTime <= time && procs[j].remaining > 0
  }

  /** The sort key `a.remaining - b.remaining`, on positions. */
  function RemainingOf(procs: seq<Running>): nat -> int {
    (j: nat) => if j < |procs| then procs[j].remaining else 0
  }

  /** The positions of the available processes, in list order. */
  function Available(procs: seq<Running>, time: int): seq<nat> {
    Filter(Range(0, |procs|), Eligible(procs, time))
  }

  /** Some process has arrived by `time` and still needs the processor. */
  predicate SomeEligible(procs: seq<Running>, time: int) {
    exists j :: 0 <= j < |procs| && procs[j].process.arrivalTime <= time && procs[j].remaining > 0
  }

  lemma AvailableNonEmpty(procs: seq<Running>, time: int)
    ensures |Available(procs, time)| > 0 <==> SomeEligible(procs, time)
  {
    var s := Range(0, |procs|);
    var P := Eligible(procs, time);
    FilterMembers(s, P);
    if |Available(procs, time)| > 0 {
      assert Available(procs, time)[0] in s;
    }
    if SomeEligible(procs, time) {
      var j :| 0 <= j < |procs| && procs[j].process.arrivalTime <= time && procs[j].remaining > 0;
      assert s[j] == j && P(s[j]);
    }
  }

  /** The first available process after a stable sort by remaining time, as a position of the record list. */
  function Choice(procs: seq<Running>, time: int): (j: nat)
    requires |Available(procs, time)| > 0
    ensures j < |procs|
  {
    var a := Available(procs, time);
    FilterMembers(Range(0, |procs|), Eligible(procs, time));
    assert SortBy(a, RemainingOf(procs))[0] in multiset(a);
    SortBy(a, RemainingOf(procs))[0]
  }

  /**
   * The chosen process has arrived, is unfinished and has the least
   * remaining time of all such processes; every earlier one in the list
   * with that property has strictly more remaining (stable sort).
   */
  lemma ChoiceSpec(procs: seq<Running>, time: int)
    requires SomeEligible(procs, time)
    ensures |Available(procs, time)| > 0
    ensures var j := Choice(procs, time);
      && j < |procs| && procs[j].process.arrivalTime <= time && procs[j].remaining > 0
      && (forall k :: 0 <= k < |procs| && procs[k].process.arrivalTime <= time && procs[k].remaining > 0
            ==> procs[j].remaining <= procs[k].remaining)
      && (forall k :: 0 <= k < j && procs[k].process.arrivalTime <= time && procs[k].remaining > 0
            ==> procs[k].remaining > procs[j].remaining)
  {
    ChoiceIsFirstMin(procs, time);
    var s := Range(0, |procs|);
    var P := Eligible(procs, time);
    var m := FirstMinWhere(s, P, RemainingOf(procs));
    assert s[m] == m;
    forall k | 0 <= k < |procs| && procs[k].process.arrivalTime <= time && procs[k].remaining > 0
      ensures procs[m].remaining <= procs[k].remaining
      ensures k < m ==> procs[k].remaining > procs[m].remaining
    {
      assert s[k] == k && P(s[k]);
    }
  }

  /** The chosen index is the first minimal one among the eligible indices. */
  lemma ChoiceIsFirstMin(procs: seq<Running>, time: int)
    requires SomeEligible(procs, time)
    ensures |Available(procs, time)| > 0
    ensures exists i :: 0 <= i < |Range(0, |procs|)| && Eligible(procs, time)(Range(0, |procs|)[i])
    ensures Choice(procs, time) == FirstMinWhere(Range(0, |procs|), Eligible(procs, time), RemainingOf(procs))
  {
    AvailableNonEmpty(procs, time);
    var s := Range(0, |procs|);
    var P := Eligible(procs, time);
    var j0 :| 0 <= j0 < |procs| && procs[j0].process.arrivalTime <= time && procs[j0].remaining > 0;
    assert s[j0] == j0 && P(s[j0]);
    SortedFilterHead(s, P, RemainingOf(procs));
    assert s[FirstMinWhere(s, P, RemainingOf(procs))] == FirstMinWhere(s, P, RemainingOf(procs));
  }

  /**
   * One iteration of the loop: an idle unit when nothing is available,
   * otherwise one unit of the chosen process, whose finish time is set to
   * `time + 1` when that was its last unit.
   */
  function Step(s: State): State {
    if |Available(s.procs, s.time)| == 0 then
      State(s.time + 1, s.timeline + [0], s.procs)
    else
      var j := Choice(s.procs, s.time);
      State(s.time + 1, s.timeline + [s.procs[j].process.pid], s.procs[j := Ran(s.procs[j], 1, s.time + 1)])
  }

  /** What the loop keeps true, starting from the records of `ps`. */
  predicate Inv(ps: seq<Process>, s: State) {
    && ValidProcesses(ps)
    && Processes(s.procs) == ps
    && s.time == |s.timeline|
    && Accounted(s.procs, s.timeline)
  }

  /** An idle unit happens only while some unfinished process has yet to arrive. */
  lemma IdleBeforeArrival(ps: seq<Process>, s: State)
    requires Inv(ps, s) && Unfinished(s.procs) && |Available(s.procs, s.time)| == 0
    ensures s.time < MaxArrival(ps)
  {
    AvailableNonEmpty(s.procs, s.time);
    var j :| 0 <= j < |s.procs| && s.procs[j].remaining > 0;
    assert ps[j] == s.procs[j].process;
  }

  /**
   * Each iteration appends exactly one timeline entry and advances time by
   * one; the entry is 0 exactly when no process is available, otherwise the
   * chosen (least remaining) process, which alone changes, losing one unit.
   */
  lemma StepSpec(ps: seq<Process>, s: State)
    requires Inv(ps, s)
    ensures var r := Step(s);
      && r.time == s.time + 1
      && |r.timeline| == |s.timeline| + 1
      && r.timeline[..|s.timeline|] == s.timeline
      && (r.timeline[|s.timeline|] == 0 <==> !SomeEligible(s.procs, s.time))
      && (SomeEligible(s.procs, s.time) ==>
            var j := Choice(s.procs, s.time);
            && r.timeline[|s.timeline|] == s.procs[j].process.pid
            && r.procs == s.procs[j := Ran(s.procs[j], 1, s.time + 1)])
  {
    AvailableNonEmpty(s.procs, s.time);
    if SomeEligible(s.procs, s.time) {
      ChoiceSpec(s.procs, s.time);
    }
  }

  /** A step keeps the invariant and either uses one unit of work or idles before an arrival. */
  lemma StepInv(ps: seq<Process>, s: State)
    requires Inv(ps, s) && Unfinished(s.procs)
    ensures Inv(ps, Step(s))
    ensures TotalRemaining(Step(s).procs) < TotalRemaining(s.procs)
         || (TotalRemaining(Step(s).procs) == TotalRemaining(s.procs) && s.time < MaxArrival(ps))
  {
    if |Available(s.procs, s.time)| == 0 {
      IdleStepInv(ps, s);
    } else {
      RunStepInv(ps, s);
    }
  }

  lemma IdleStepInv(ps: seq<Process>, s: State)
    requires Inv(ps, s) && Unfinished(s.procs) && |Available(s.procs, s.time)| == 0
    ensures Inv(ps, Step(s))
    ensures TotalRemaining(Step(s).procs) == TotalRemaining(s.procs) && s.time < MaxArrival(ps)
  {
    assert Step(s) == State(s.time + 1, s.timeline + [0], s.procs);
    IdentifiedOf(ps, s.procs);
    IdleUnit(s.procs, s.timeline);
    IdleBeforeArrival(ps, s);
  }

  lemma RunStepInv(ps: seq<Process>, s: State)
    requires Inv(ps, s) && |Available(s.procs, s.time)| > 0
    ensures Inv(ps, Step(s))
    ensures TotalRemaining(Step(s).procs) == TotalRemaining(s.procs) - 1
  {
    var j := Choice(s.procs, s.time);
    var r := Ran(s.procs[j], 1, s.time + 1);
    var pid := s.procs[j].process.pid;
    assert Step(s) == State(s.time + 1, s.timeline + [pid], s.procs[j := r]);
    AvailableNonEmpty(s.procs, s.time);
    ChoiceSpec(s.procs, s.time);
    IdentifiedOf(ps, s.procs);
    RunSlice(s.procs, s.timeline, j, 1, s.time + 1);
    assert Repeat(pid, 1) == [pid];
    ProcessesOfUpdate(s.procs, j, r);
    TotalRemainingUpdate(s.procs, j, r);
  }

  /** The simulation loop: iterate the step until nothing remains. */
  function Run(ps: seq<Process>, s: State): State
    requires Inv(ps, s)
    decreases TotalRemaining(s.procs), MaxArrival(ps) - s.time
  {
    if !Unfinished(s.procs) then s
    else
      StepInv(ps, s);
      TotalRemainingBounds(s.procs);
      Run(ps, Step(s))
  }

  /** The loop ends with the invariant kept and nothing remaining. */
  lemma {:induction false} RunInv(ps: seq<Process>, s: State)
    requires Inv(ps, s)
    ensures Inv(ps, Run(ps, s)) && !Unfinished(Run(ps, s).procs)
    decreases TotalRemaining(s.procs), MaxArrival(ps) - s.time
  {
    if Unfinished(s.procs) {
      StepInv(ps, s);
      TotalRemainingBounds(s.procs);
      RunInv(ps, Step(s));
    }
  }

  /** The final state of the simulation of `ps`. */
  function Simulate(ps: seq<Process>): (r: State)
    requires ValidProcesses(ps)
    ensures AllFinished(r.procs)
  {
    AccountedInitially(ps);
    ProcessesOfExtend(ps);
    RunInv(ps, State(0, [], Extend(ps)));
    var r := Run(ps, State(0, [], Extend(ps)));
    AccountedComplete(r.procs, r.timeline);
    r
  }

  /** The simulation ends in a state that keeps the invariant, with nothing remaining. */
  lemma SimulateInv(ps: seq<Process>)
    requires ValidProcesses(ps)
    ensures Inv(ps, Simulate(ps)) && !Unfinished(Simulate(ps).procs)
  {
    var s0 := State(0, [], Extend(ps));
    AccountedInitially(ps);
    ProcessesOfExtend(ps);
    RunInv(ps, s0);
  }

  /**
   * A finished state: every process has its finish time, appears in the
   * timeline exactly burstTime times, finished at the end of its last unit
   * and no earlier than arrival + burst; the timeline is the idle units
   * plus all bursts, and the total time is its length.
   */
  lemma FinishedProperties(ps: seq<Process>, s: State)
    requires Inv(ps, s) && !Unfinished(s.procs)
    ensures AllFinished(s.procs)
    ensures forall j :: 0 <= j < |ps| ==> Occurrences(s.timeline, ps[j].pid) == ps[j].burstTime
    ensures forall j :: 0 <= j < |ps| ==>
      s.procs[j].finishTime.value >= ps[j].arrivalTime + ps[j].burstTime
    ensures |s.timeline| == Occurrences(s.timeline, 0) + SumBursts(ps)
  {
    assert forall j :: 0 <= j < |ps| ==> s.procs[j].process == ps[j];
    AccountedComplete(s.procs, s.timeline);
  }

  /** What the simulation of a valid process list ends with. */
  lemma SimulateProperties(ps: seq<Process>)
    requires ValidProcesses(ps)
    ensures var s := Simulate(ps);
      && AllFinished(s.procs)
      && Processes(s.procs) == ps
      && s.time == |s.timeline|
      && (forall j :: 0 <= j < |ps| ==> Occurrences(s.timeline, ps[j].pid) == ps[j].burstTime)
      && (forall j :: 0 <= j < |ps| ==>
            s.procs[j].finishTime.value >= ps[j].arrivalTime + ps[j].burstTime)
      && FinishRecorded(s.procs, s.timeline)
      && |s.timeline| == Occurrences(s.timeline, 0) + SumBursts(ps)
  {
    SimulateInv(ps);
    FinishedProperties(ps, Simulate(ps));
  }

  /**
   * The choice is determined by its description: an available record with
   * the least remaining time, before which every available record has more.
   */
  lemma ChoiceUnique(procs: seq<Running>, time: int, j: nat)
    requires j < |procs| && procs[j].process.arrivalTime <= time && procs[j].remaining > 0
    requires forall k :: (0 <= k < |procs| && procs[k].process.arrivalTime <= time && procs[k].remaining > 0
      ==> procs[j].remaining <= procs[k].remaining)
    requires forall k :: (0 <= k < j && procs[k].process.arrivalTime <= time && procs[k].remaining > 0
      ==> procs[k].remaining > procs[j].remaining)
    ensures |Available(procs, time)| > 0 && Choice(procs, time) == j
  {
    ChoiceSpec(procs, time);
  }

  /**
   * `currentProcess.remaining -= 1`, and the finish time `time + 1` when
   * that was the last unit (src/STCF.tsx:55-60), on the record at position
   * `j` chosen in state `s`: together with the timeline entry this is the
   * step of `s`.
   */
  method RunOneUnit(processList: array<Running>, j: nat, time: int, ghost s: State)
    requires s.procs == processList[..] && s.time == time
    requires |Available(s.procs, s.time)| > 0 && j == Choice(s.procs, s.time)
    modifies processList
    ensures Step(s) == State(time + 1, s.timeline + [s.procs[j].process.pid], processList[..])
  {
    var current := processList[j];
    current := current.(remaining := current.remaining - 1);
    if current.remaining == 0 {
      current := current.(finishTime := Some(time + 1));
    }
    processList[j] := current;
    assert processList[..] == s.procs[j := Ran(s.procs[j], 1, s.time + 1)];
  }

  /**
   * The STCF effect (src/STCF.tsx:30-97): the loop over an array of
   * records, then the results in list order, the segments and the total time.
   */
  method RunStcf(processes: seq<Process>)
    returns (timeline: seq<int>, results: seq<ProcessResult>, segments: seq<Segment>, totalTime: int)
    requires ValidProcesses(processes)
    ensures timeline == Simulate(processes).timeline
    ensures results == Results(Simulate(processes).procs)
    ensures |results| == |processes|
    ensures forall j :: 0 <= j < |processes| ==>
      && results[j].pid == processes[j].pid
      && results[j].arrivalTime == processes[j].arrivalTime
      && results[j].burstTime == processes[j].burstTime
      && results[j].finishTime >= processes[j].arrivalTime + processes[j].burstTime
    ensures forall j :: 0 <= j < |processes| ==> Occurrences(timeline, processes[j].pid) == processes[j].burstTime
    ensures totalTime == |timeline| == Occurrences(timeline, 0) + SumBursts(processes)
    ensures segments == Compress(timeline) && Tiles(segments, 0, totalTime) && Alternating(segments)
  {
    var n := |processes|;
    var processList := new Running[n];
    forall i | 0 <= i < n {
      processList[i] := Start(processes[i]);
    }
    assert processList[..] == Extend(processes);
    var time := 0;
    timeline := [];
    AccountedInitially(processes);
    ProcessesOfExtend(processes);
    while Unfinished(processList[..])
      invariant Inv(processes, State(time, timeline, processList[..]))
      invariant Run(processes, State(time, timeline, processList[..])) == Simulate(processes)
      decreases TotalRemaining(processList[..]), MaxArrival(processes) - time
    {
      ghost var s := State(time, timeline, processList[..]);
      StepInv(processes, s);
      TotalRemainingBounds(processList[..]);
      var available := Available(processList[..], time);
      if |available| == 0 {
        timeline := timeline + [0];
        time := time + 1;
      } else {
        var j := SortBy(available, RemainingOf(processList[..]))[0];
        assert j == Choice(s.procs, s.time);
        timeline := timeline + [processList[j].process.pid];
        RunOneUnit(processList, j, time, s);
        time := time + 1;
      }
    }
    SimulateProperties(processes);
    var final := processList[..];
    results := Results(final);
    segments := CompressTimeline(timeline);
    totalTime := |timeline|;
  }

  /** One turn of the loop from a state with work left. */
  lemma RunUnfold(ps: seq<Process>, s: State)
    requires Inv(ps, s) && Unfinished(s.procs)
    ensures Inv(ps, Step(s)) && Run(ps, s) == Run(ps, Step(s))
  {
    StepInv(ps, s);
  }

  /**
   * Record `j` has arrived by `time`, is unfinished and is the first with
   * the least remaining time: the choice the loop makes.
   */
  predicate Picks(procs: seq<Running>, time: int, j: nat) {
    && j < |procs| && procs[j].process.arrivalTime <= time && procs[j].remaining > 0
    && (forall k :: (0 <= k < |procs| && procs[k].process.arrivalTime <= time && procs[k].remaining > 0
          ==> procs[j].remaining <= procs[k].remaining))
    && (forall k :: (0 <= k < j && procs[k].process.arrivalTime <= time && procs[k].remaining > 0
          ==> procs[k].remaining > procs[j].remaining))
  }

  /** The state after the picked record `j` of `s` ran for one unit. */
  function Unit(s: State, j: nat): State
    requires j < |s.procs|
  {
    State(s.time + 1, s.timeline + [s.procs[j].process.pid], s.procs[j := Ran(s.procs[j], 1, s.time + 1)])
  }

  /** A unit of the worked example: the picked record runs for one unit. */
  lemma ExampleUnit(ps: seq<Process>, s: State, j: nat)
    requires Inv(ps, s) && Picks(s.procs, s.time, j)
    ensures Inv(ps, Unit(s, j)) && Run(ps, s) == Run(ps, Unit(s, j))
  {
    ChoiceUnique(s.procs, s.time, j);
    RunUnfold(ps, s);
  }

  /** A chain of picked units from `ss[0]` leads the loop to the last state of the chain. */
  lemma {:induction false} ExampleChain(ps: seq<Process>, ss: seq<State>, js: seq<nat>)
    requires |ss| == |js| + 1 && Inv(ps, ss[0])
    requires forall i :: 0 <= i < |js| ==> Picks(ss[i].procs, ss[i].time, js[i]) && ss[i + 1] == Unit(ss[i], js[i])
    ensures Inv(ps, ss[|js|]) && Run(ps, ss[0]) == Run(ps, ss[|js|])
    decreases |js|
  {
    if js != [] {
      ExampleUnit(ps, ss[0], js[0]);
      var ss', js' := ss[1..], js[1..];
      forall i | 0 <= i < |js'|
        ensures Picks(ss'[i].procs, ss'[i].time, js'[i]) && ss'[i + 1] == Unit(ss'[i], js'[i])
      {
        assert ss'[i] == ss[i + 1] && ss'[i + 1] == ss[i + 2] && js'[i] == js[i + 1];
      }
      ExampleChain(ps, ss', js');
    }
  }

  /** The states the loop passes through on the worked example. */
  function ExampleStates(): (ss: seq<State>)
    ensures |ss| == 10
  {
    var p1, p2, p3 := Process(1, 0, 5), Process(2, 1, 3), Process(3, 2, 1);
    [ State(0, [], [Running(p1, 5, None), Running(p2, 3, None), Running(p3, 1, None)]),
      State(1, [1], [Running(p1, 4, None), Running(p2, 3, None), Running(p3, 1, None)]),
      State(2, [1, 2], [Running(p1, 4, None), Running(p2, 2, None), Running(p3, 1, None)]),
      State(3, [1, 2, 3], [Running(p1, 4, None), Running(p2, 2, None), Running(p3, 0, Some(3))]),
      State(4, [1, 2, 3, 2], [Running(p1, 4, None), Running(p2, 1, None), Running(p3, 0, Some(3))]),
      State(5, [1, 2, 3, 2, 2], [Running(p1, 4, None), Running(p2, 0, Some(5)), Running(p3, 0, Some(3))]),
      State(6, [1, 2, 3, 2, 2, 1], [Running(p1, 3, None), Running(p2, 0, Some(5)), Running(p3, 0, Some(3))]),
      State(7, [1, 2, 3, 2, 2, 1, 1], [Running(p1, 2, None), Running(p2, 0, Some(5)), Running(p3, 0, Some(3))]),
      State(8, [1, 2, 3, 2, 2, 1, 1, 1], [Running(p1, 1, None), Running(p2, 0, Some(5)), Running(p3, 0, Some(3))]),
      State(9, [1, 2, 3, 2, 2, 1, 1, 1, 1], [Running(p1, 0, Some(9)), Running(p2, 0, Some(5)), Running(p3, 0, Some(3))]) ]
  }

  /** Each state of the worked example picks the record that the next one shows running. */
  lemma ExamplePicks()
    ensures var ss, js := ExampleStates(), [0, 1, 2, 1, 1, 0, 0, 0, 0];
      forall i :: 0 <= i < |js| ==> Picks(ss[i].procs, ss[i].time, js[i]) && ss[i + 1] == Unit(ss[i], js[i])
  {
    var ss, js: seq<nat> := ExampleStates(), [0, 1, 2, 1, 1, 0, 0, 0, 0];
    forall i | 0 <= i < |js|
      ensures Picks(ss[i].procs, ss[i].time, js[i]) && ss[i + 1] == Unit(ss[i], js[i])
    {
      if i == 0 {
      } else if i == 1 {
      } else if i == 2 {
      } else if i == 3 {
      } else if i == 4 {
      } else if i == 5 {
      } else if i == 6 {
      } else if i == 7 {
      } else {
      }
    }
  }

  /**
   * The worked example P1(0,5), P2(1,3), P3(2,1): P2 preempts P1 at time 1,
   * P3 preempts P2 at time 2, and the finish times are P3 = 3, P2 = 5, P1 = 9.
   */
  lemma StcfExample()
    ensures var r := Simulate([Process(1, 0, 5), Process(2, 1, 3), Process(3, 2, 1)]);
      && r.timeline == [1, 2, 3, 2, 2, 1, 1, 1, 1]
      && Results(r.procs) == [ProcessResult(1, 0, 5, 9), ProcessResult(2, 1, 3, 5), ProcessResult(3, 2, 1, 3)]
  {
    var ps := [Process(1, 0, 5), Process(2, 1, 3), Process(3, 2, 1)];
    var ss, js: seq<nat> := ExampleStates(), [0, 1, 2, 1, 1, 0, 0, 0, 0];
    assert Extend(ps) == ss[0].procs;
    assert !Unfinished(ss[9].procs);
    assert Results(ss[9].procs) == [ProcessResult(1, 0, 5, 9), ProcessResult(2, 1, 3, 5), ProcessResult(3, 2, 1, 3)];
    AccountedInitially(ps);
    ProcessesOfExtend(ps);
    ExamplePicks();
    ExampleChain(ps, ss, js);
  }
}
