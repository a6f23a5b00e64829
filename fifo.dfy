/**
 * First-in-first-out scheduling (src/FIFO.tsx): the processes, stably
 * sorted by arrival, run one after the other, each to completion.
 */
module Fifo {
  import opened Common
  import opened Sorting

  /**
   * Runs the processes of `order` one after the other from time `t`: each
   * starts once the processor is free and it has arrived, and runs for its
   * whole burst. This is the body of the FIFO `forEach`; the SJF loop
   * produces the same fold over its own dispatch order.
   */
  function Dispatch(order: seq<Process>, t: int): (r: seq<Segment>)
    ensures |r| == |order|
    decreases |order|
  {
    if order == [] then []
    else
      var start := Max(t, order[0].arrivalTime);
      [Segment(order[0].pid, start, start + order[0].burstTime)]
        + Dispatch(order[1..], start + order[0].burstTime)
  }

  /**
   * Each segment starts at the later of the previous segment's end (of `t`
   * for the first) and its own arrival: the processor never waits while the
   * next process has arrived, and no process runs before it arrives.
   */
  lemma {:induction false} DispatchStarts(order: seq<Process>, t: int)
    ensures var r := Dispatch(order, t);
      && (|r| > 0 ==> r[0].startTime == Max(t, order[0].arrivalTime))
      && (forall k :: 0 <= k < |r| - 1 ==> r[k + 1].startTime == Max(r[k].endTime, order[k + 1].arrivalTime))
      && (forall k :: 0 <= k < |r| ==> r[k].startTime >= order[k].arrivalTime)
      && (forall k :: 0 <= k < |r| ==>
            r[k].pid == order[k].pid && r[k].endTime - r[k].startTime == order[k].burstTime)
    decreases |order|
  {
    if order != [] {
      var start := Max(t, order[0].arrivalTime);
      var rest := Dispatch(order[1..], start + order[0].burstTime);
      DispatchStarts(order[1..], start + order[0].burstTime);
      var r := Dispatch(order, t);
      assert r[0] == Segment(order[0].pid, start, start + order[0].burstTime);
      assert r[1..] == rest;
      forall k | 0 <= k < |r| - 1
        ensures r[k + 1].startTime == Max(r[k].endTime, order[k + 1].arrivalTime)
      {
        if k > 0 {
          assert r[k] == rest[k - 1] && r[k + 1] == rest[k];
          assert order[k + 1] == order[1..][k];
        }
      }
      forall k | 0 <= k < |r|
        ensures r[k].startTime >= order[k].arrivalTime
        ensures r[k].pid == order[k].pid && r[k].endTime - r[k].startTime == order[k].burstTime
      {
        if k > 0 {
          assert r[k] == rest[k - 1];
          assert order[k] == order[1..][k - 1];
        }
      }
    }
  }

  /** The segments FIFO shows: the fold over the arrival-sorted processes from time 0. */
  function FifoSchedule(processes: seq<Process>): seq<Segment> {
    Dispatch(SortBy(processes, ArrivalOf), 0)
  }

  /** The total length: the last segment's end time, or 0 for an empty schedule. */
  function TotalLength(schedule: seq<Segment>): int {
    if |schedule| > 0 then schedule[|schedule| - 1].endTime else 0
  }

  predicate NonNegativeBursts(order: seq<Process>) {
    forall k :: 0 <= k < |order| ==> order[k].burstTime >= 0
  }

  /** The segments begin in order and never overlap: no preemption. */
  predicate Disjoint(segs: seq<Segment>) {
    forall k, m :: 0 <= k < m < |segs| ==> segs[k].endTime <= segs[m].startTime
  }

  lemma {:induction false} DispatchDisjoint(order: seq<Process>, t: int)
    requires NonNegativeBursts(order)
    ensures Disjoint(Dispatch(order, t))
    ensures forall k :: 0 <= k < |order| ==> Dispatch(order, t)[k].startTime >= t
    ensures forall k :: 0 <= k < |order| ==> Dispatch(order, t)[k].endTime >= t
    decreases |order|
  {
    if order != [] {
      var start := Max(t, order[0].arrivalTime);
      var rest := Dispatch(order[1..], start + order[0].burstTime);
      DispatchDisjoint(order[1..], start + order[0].burstTime);
      var r := Dispatch(order, t);
      assert r[0] == Segment(order[0].pid, start, start + order[0].burstTime);
      assert r[1..] == rest;
      forall k, m | 0 <= k < m < |r|
        ensures r[k].endTime <= r[m].startTime
      {
        assert r[m] == rest[m - 1];
        if k > 0 {
          assert r[k] == rest[k - 1];
        }
      }
    }
  }

  /**
   * The last segment ends no earlier than any other, and at least the whole
   * CPU demand after the starting time.
   */
  lemma {:induction false} DispatchTotalLength(order: seq<Process>, t: int)
    requires NonNegativeBursts(order)
    ensures forall k :: 0 <= k < |order| ==> Dispatch(order, t)[k].endTime <= TotalLength(Dispatch(order, t))
    ensures |order| > 0 ==> TotalLength(Dispatch(order, t)) >= t + SumBursts(order)
    decreases |order|
  {
    if order != [] {
      var start := Max(t, order[0].arrivalTime);
      var end := start + order[0].burstTime;
      var rest := Dispatch(order[1..], end);
      var r := Dispatch(order, t);
      assert r[0] == Segment(order[0].pid, start, end);
      assert r[1..] == rest;
      if rest != [] {
        DispatchTotalLength(order[1..], end);
        DispatchDisjoint(order[1..], end);
        var last := rest[|rest| - 1];
        assert r[|r| - 1] == last;
        assert TotalLength(r) == last.endTime;
        assert last.endTime >= end;
        forall k | 1 <= k < |r|
          ensures r[k].endTime <= TotalLength(r)
        {
          assert r[k] == rest[k - 1];
        }
      }
    }
  }

  /**
   * One segment per process, in stable arrival order; every segment lasts
   * exactly its burst, starts no earlier than its arrival, and the segments
   * never overlap. A process finishes at arrival + burst exactly when it
   * starts on arrival.
   */
  lemma FifoScheduleProperties(processes: seq<Process>)
    requires ValidProcesses(processes)
    ensures var order, segs := SortBy(processes, ArrivalOf), FifoSchedule(processes);
      && |segs| == |processes|
      && multiset(order) == multiset(processes)
      && (forall k :: 0 <= k < |segs| ==> segs[k].pid == order[k].pid)
      && (forall k :: 0 <= k < |segs| ==> segs[k].startTime < segs[k].endTime)
      && Disjoint(segs)
      && (forall k :: 0 <= k < |segs| ==>
            && segs[k].endTime >= order[k].arrivalTime + order[k].burstTime
            && (segs[k].endTime == order[k].arrivalTime + order[k].burstTime
                <==> segs[k].startTime == order[k].arrivalTime))
  {
    var order := SortBy(processes, ArrivalOf);
    SortedValid(processes);
    DispatchDisjoint(order, 0);
    DispatchStarts(order, 0);
  }

  /**
   * `totalLength` is the end of the last segment, no segment ends later, it
   * covers the total CPU demand, and it is 0 exactly for an empty input.
   */
  lemma FifoTotalLength(processes: seq<Process>)
    requires ValidProcesses(processes)
    ensures var segs := FifoSchedule(processes);
      && (forall k :: 0 <= k < |segs| ==> segs[k].endTime <= TotalLength(segs))
      && (TotalLength(segs) == 0 <==> processes == [])
      && TotalLength(segs) >= SumBursts(processes)
  {
    var order := SortBy(processes, ArrivalOf);
    SortedValid(processes);
    assert NonNegativeBursts(order);
    DispatchTotalLength(order, 0);
    SumBurstsPermutation(order, processes);
    SumBurstsLower(order);
  }

  /** The worked example: P1(0,5), P2(1,3), P3(2,1). */
  lemma FifoExample()
    ensures FifoSchedule([Process(1, 0, 5), Process(2, 1, 3), Process(3, 2, 1)])
         == [Segment(1, 0, 5), Segment(2, 5, 8), Segment(3, 8, 9)]
  {
    ExampleOrder();
    ExampleDispatch();
  }

  lemma ExampleOrder()
    ensures SortBy([Process(1, 0, 5), Process(2, 1, 3), Process(3, 2, 1)], ArrivalOf)
         == [Process(1, 0, 5), Process(2, 1, 3), Process(3, 2, 1)]
  {
    SortBySortedInput([Process(1, 0, 5), Process(2, 1, 3), Process(3, 2, 1)], ArrivalOf);
  }

  lemma ExampleDispatch()
    ensures Dispatch([Process(1, 0, 5), Process(2, 1, 3), Process(3, 2, 1)], 0)
         == [Segment(1, 0, 5), Segment(2, 5, 8), Segment(3, 8, 9)]
  {
    var p1, p2, p3 := Process(1, 0, 5), Process(2, 1, 3), Process(3, 2, 1);
    var ps := [p1, p2, p3];
    assert ps[1..] == [p2, p3] && ps[1..][1..] == [p3];
    assert Dispatch([p3], 8) == [Segment(3, 8, 9)];
    assert Dispatch([p2, p3], 5) == [Segment(2, 5, 8)] + Dispatch([p3], 8);
    assert Dispatch(ps, 0) == [Segment(1, 0, 5)] + Dispatch([p2, p3], 5);
  }

  /** One step of the fold: the first segment, then the fold over the rest. */
  lemma DispatchUnfold(order: seq<Process>, t: int)
    requires order != []
    ensures var start := Max(t, order[0].arrivalTime);
      && Dispatch(order, t)[0] == Segment(order[0].pid, start, start + order[0].burstTime)
      && Dispatch(order, t)[1..] == Dispatch(order[1..], start + order[0].burstTime)
  {
  }

  /** The fold over a list given by its head and tail. */
  lemma DispatchCons(order: seq<Process>, t: int, head: Process, tail: seq<Process>, end: int)
    requires order != [] && order[0] == head && order[1..] == tail
    requires end == Max(t, head.arrivalTime) + head.burstTime
    ensures Dispatch(order, t) != []
    ensures Dispatch(order, t)[0] == Segment(head.pid, Max(t, head.arrivalTime), end)
    ensures Dispatch(order, t)[1..] == Dispatch(tail, end)
  {
    DispatchUnfold(order, t);
  }

  /** One step of the fold over a suffix: the first segment, then the fold over the rest. */
  lemma DispatchStep(order: seq<Process>, k: nat, t: int)
    requires k < |order|
    ensures var start := Max(t, order[k].arrivalTime);
      Dispatch(order[k..], t) == [Segment(order[k].pid, start, start + order[k].burstTime)]
                                 + Dispatch(order[k + 1..], start + order[k].burstTime)
  {
    assert order[k..][0] == order[k];
    assert order[k..][1..] == order[k + 1..];
  }

  /**
   * The FIFO effect (src/FIFO.tsx:19-31): sort by arrival, then walk the list
   * keeping the time the processor becomes free.
   */
  method RunFifo(processes: seq<Process>) returns (schedule: seq<Segment>)
    ensures schedule == FifoSchedule(processes)
    ensures |schedule| == |processes|
    ensures forall k :: 0 <= k < |schedule| ==>
      schedule[k].startTime == Max(if k == 0 then 0 else schedule[k - 1].endTime,
                                   SortBy(processes, ArrivalOf)[k].arrivalTime)
  {
    var sortedProcesses := SortBy(processes, ArrivalOf);
    var currentTime := 0;
    schedule := [];
    for k := 0 to |sortedProcesses|
      invariant schedule + Dispatch(sortedProcesses[k..], currentTime) == Dispatch(sortedProcesses, 0)
    {
      var process := sortedProcesses[k];
      var startTime := Max(currentTime, process.arrivalTime);
      var endTime := startTime + process.burstTime;
      var segment := Segment(process.pid, startTime, endTime);
      var tail := Dispatch(sortedProcesses[k + 1..], endTime);
      DispatchStep(sortedProcesses, k, currentTime);
      assert schedule + ([segment] + tail) == (schedule + [segment]) + tail;
      schedule := schedule + [segment];
      currentTime := endTime;
    }
    assert sortedProcesses[|sortedProcesses|..] == [];
    assert schedule == Dispatch(sortedProcesses, 0);
    DispatchStarts(sortedProcesses, 0);
  }
}
