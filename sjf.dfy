/**
 * Shortest job first (src/SJF.tsx), non-preemptive: among the processes that
 * have arrived, the one with the smallest burst runs to completion; when none
 * has arrived, time jumps to the earliest pending arrival.
 */
module Sjf {
  import opened Common
  import opened Sorting
  import opened Fifo

  /** A job has arrived by time `t`. */
  function ArrivedBy(t: int): Process -> bool {
    (p: Process) => p.arrivalTime <= t
  }

  /** The remaining jobs that have arrived by `t`, in their order. */
  function Ready(rem: seq<Process>, t: int): seq<Process> {
    Filter(rem, ArrivedBy(t))
  }

  /** Some remaining process has arrived by `t`. */
  predicate Arrived(rem: seq<Process>, t: int) {
    exists i :: 0 <= i < |rem| && ArrivedBy(t)(rem[i])
  }

  /** The ready list is non-empty exactly when some remaining process has arrived. */
  lemma ReadyNonEmpty(rem: seq<Process>, t: int)
    ensures |Ready(rem, t)| > 0 <==> Arrived(rem, t)
  {
    var r := Ready(rem, t);
    FilterMembers(rem, ArrivedBy(t));
    if |r| > 0 {
      assert r[0] in rem && ArrivedBy(t)(r[0]);
    }
    if Arrived(rem, t) {
      var i :| 0 <= i < |rem| && ArrivedBy(t)(rem[i]);
      assert rem[i] in r;
    }
  }

  /** The earliest arrival among the remaining jobs: the target of the time jump. */
  function MinArrival(rem: seq<Process>): (m: int)
    requires rem != []
    ensures forall i :: 0 <= i < |rem| ==> m <= rem[i].arrivalTime
    ensures Arrived(rem, m)
  {
    if |rem| == 1 then
      assert ArrivedBy(rem[0].arrivalTime)(rem[0]);
      rem[0].arrivalTime
    else
      var m := MinArrival(rem[1..]);
      assert forall i :: 1 <= i < |rem| ==> rem[i] == rem[1..][i - 1];
      var r := Min(rem[0].arrivalTime, m);
      assert Arrived(rem, r) by {
        if r == rem[0].arrivalTime {
          assert ArrivedBy(r)(rem[0]);
        } else {
          var i :| 0 <= i < |rem[1..]| && ArrivedBy(m)(rem[1..][i]);
          assert ArrivedBy(r)(rem[i + 1]);
        }
      }
      r
  }

  /** The first position of a job with the given pid, -1 when there is none. */
  function IndexOfPid(rem: seq<Process>, pid: int): (k: int)
    ensures -1 <= k < |rem|
  {
    if rem == [] then -1
    else if rem[0].pid == pid then 0
    else
      var k := IndexOfPid(rem[1..], pid);
      if k == -1 then -1 else k + 1
  }

  /** The first position holding `pid`, or -1 exactly when no position does. */
  lemma {:induction false} IndexOfPidSpec(rem: seq<Process>, pid: int)
    ensures var k := IndexOfPid(rem, pid);
      && (k >= 0 ==> rem[k].pid == pid && forall i :: 0 <= i < k ==> rem[i].pid != pid)
      && (k == -1 <==> forall i :: 0 <= i < |rem| ==> rem[i].pid != pid)
  {
    if rem != [] && rem[0].pid != pid {
      IndexOfPidSpec(rem[1..], pid);
      assert forall i :: 1 <= i < |rem| ==> rem[i] == rem[1..][i - 1];
    }
  }

  /**
   * `s.splice(k, 1)` for an integer `k`: a negative index counts from the
   * end, so `-1` removes the last element; an index past the end removes nothing.
   */
  function Splice(s: seq<Process>, k: int): (r: seq<Process>)
    ensures |s| > 0 && k < |s| ==> |r| == |s| - 1
  {
    var start := if k < 0 then Max(|s| + k, 0) else k;
    if start < |s| then s[..start] + s[start + 1..] else s
  }

  /** Removing position `k` takes exactly that element out and shifts the rest down. */
  lemma SpliceAt(s: seq<Process>, k: nat)
    requires k < |s|
    ensures multiset(Splice(s, k)) == multiset(s) - multiset{s[k]}
    ensures forall i :: 0 <= i < |s| - 1 ==> Splice(s, k)[i] == (if i < k then s[i] else s[i + 1])
  {
    var front, back := s[..k], s[k + 1..];
    assert Splice(s, k) == front + back;
    assert s == front + [s[k]] + back;
    SpliceMultiset(front, s[k], back);
  }

  lemma SpliceMultiset(front: seq<Process>, x: Process, back: seq<Process>)
    ensures multiset(front + back) == multiset(front + [x] + back) - multiset{x}
  {
    assert multiset(front + [x] + back) == multiset(front) + multiset{x} + multiset(back);
  }

  /** Removing a position keeps the pids distinct. */
  lemma SpliceDistinct(s: seq<Process>, k: nat)
    requires k < |s| && DistinctPids(s)
    ensures DistinctPids(Splice(s, k))
  {
    SpliceAt(s, k);
    var r := Splice(s, k);
    forall i, j | 0 <= i < j < |r|
      ensures r[i].pid != r[j].pid
    {
      var i' := if i < k then i else i + 1;
      var j' := if j < k then j else j + 1;
      assert r[i] == s[i'] && r[j] == s[j'];
    }
  }

  /** The first ready job after a stable sort by burst time. */
  function Choose(rem: seq<Process>, t: int): Process
    requires |Ready(rem, t)| > 0
  {
    SortBy(Ready(rem, t), BurstOf)[0]
  }

  /**
   * The chosen process is the first remaining process, in the current
   * order, with the smallest burst among those that have arrived.
   */
  lemma ChooseSpec(rem: seq<Process>, t: int)
    requires Arrived(rem, t)
    ensures |Ready(rem, t)| > 0
    ensures var k := FirstMinWhere(rem, ArrivedBy(t), BurstOf);
      && Choose(rem, t) == rem[k]
      && rem[k].arrivalTime <= t
      && (forall i :: 0 <= i < |rem| && rem[i].arrivalTime <= t ==> rem[k].burstTime <= rem[i].burstTime)
      && (forall i :: 0 <= i < k && rem[i].arrivalTime <= t ==> rem[i].burstTime > rem[k].burstTime)
  {
    ReadyNonEmpty(rem, t);
    SortedFilterHead(rem, ArrivedBy(t), BurstOf);
    var k := FirstMinWhere(rem, ArrivedBy(t), BurstOf);
    forall i | 0 <= i < |rem| && rem[i].arrivalTime <= t
      ensures rem[k].burstTime <= rem[i].burstTime
    {
      assert ArrivedBy(t)(rem[i]);
    }
    forall i | 0 <= i < k && rem[i].arrivalTime <= t
      ensures rem[i].burstTime > rem[k].burstTime
    {
      assert ArrivedBy(t)(rem[i]);
    }
  }

  /** The remaining list after dispatching the chosen process: its position is found by pid and removed. */
  function SjfRest(rem: seq<Process>, t: int): (r: seq<Process>)
    requires |Ready(rem, t)| > 0
    ensures |r| == |rem| - 1
  {
    assert |rem| > 0;
    Splice(rem, IndexOfPid(rem, Choose(rem, t).pid))
  }

  /** The time the chosen process ends: its burst after the later of the current time and its arrival. */
  function SjfEnd(rem: seq<Process>, t: int): int
    requires |Ready(rem, t)| > 0
  {
    Max(t, Choose(rem, t).arrivalTime) + Choose(rem, t).burstTime
  }

  /** `findIndex` finds a process with the chosen pid, so the rest comes from the remaining list. */
  lemma SjfRestFrom(rem: seq<Process>, t: int)
    requires Arrived(rem, t)
    ensures |Ready(rem, t)| > 0
    ensures forall i :: 0 <= i < |SjfRest(rem, t)| ==> SjfRest(rem, t)[i] in rem
  {
    ChooseSpec(rem, t);
    var next := Choose(rem, t);
    var k0 := FirstMinWhere(rem, ArrivedBy(t), BurstOf);
    IndexOfPidSpec(rem, next.pid);
    var k := IndexOfPid(rem, next.pid);
    assert rem[k0].pid == next.pid;
    assert k >= 0;
    SpliceAt(rem, k);
    var r := SjfRest(rem, t);
    forall i | 0 <= i < |r|
      ensures r[i] in rem
    {
      assert r[i] == (if i < k then rem[i] else rem[i + 1]);
    }
  }

  /**
   * With distinct pids `findIndex` finds the chosen process itself: exactly
   * it leaves the remaining list, which keeps distinct pids.
   */
  lemma SjfRestDistinct(rem: seq<Process>, t: int)
    requires Arrived(rem, t) && DistinctPids(rem)
    ensures |Ready(rem, t)| > 0
    ensures multiset(rem) == multiset(SjfRest(rem, t)) + multiset{Choose(rem, t)}
    ensures DistinctPids(SjfRest(rem, t))
  {
    ChooseSpec(rem, t);
    var next := Choose(rem, t);
    var k0 := FirstMinWhere(rem, ArrivedBy(t), BurstOf);
    var k := IndexOfPid(rem, next.pid);
    assert k == k0 by {
      IndexOfPidSpec(rem, next.pid);
      assert rem[k0].pid == next.pid;
    }
    var r := SjfRest(rem, t);
    assert r == Splice(rem, k0);
    SpliceAt(rem, k0);
    assert multiset(rem) == multiset(r) + multiset{next} by {
      assert rem[k0] in multiset(rem);
    }
    SpliceDistinct(rem, k0);
  }

  /**
   * The order in which the SJF loop dispatches the processes of `rem` when
   * the processor becomes free at `t`: the shortest arrived job followed by
   * the order of the rest, or, when none has arrived, the order from the
   * earliest pending arrival.
   */
  function SjfOrder(rem: seq<Process>, t: int): (r: seq<Process>)
    ensures |r| == |rem|
    decreases |rem|, if |Ready(rem, t)| > 0 then 0 else 1
  {
    if rem == [] then []
    else if |Ready(rem, t)| > 0 then
      [Choose(rem, t)] + SjfOrder(SjfRest(rem, t), SjfEnd(rem, t))
    else
      var m := MinArrival(rem);
      ReadyNonEmpty(rem, m);
      SjfOrder(rem, m)
  }

  /** The segments SJF shows: the remaining list starts as the arrival-sorted input. */
  function SjfSchedule(processes: seq<Process>): seq<Segment> {
    Dispatch(SjfOrder(SortBy(processes, ArrivalOf), 0), 0)
  }

  /** One step of the SJF order when some process has arrived. */
  lemma SjfReadyStep(rem: seq<Process>, t: int)
    requires Arrived(rem, t)
    ensures |Ready(rem, t)| > 0
    ensures SjfOrder(rem, t) != [] && SjfOrder(rem, t)[0] == Choose(rem, t)
    ensures SjfOrder(rem, t)[1..] == SjfOrder(SjfRest(rem, t), SjfEnd(rem, t))
  {
    ReadyNonEmpty(rem, t);
  }

  /** The same step on the segments: the chosen process's segment, then the rest's. */
  lemma SjfDispatchStep(rem: seq<Process>, t: int)
    requires Arrived(rem, t)
    ensures |Ready(rem, t)| > 0
    ensures var segs := Dispatch(SjfOrder(rem, t), t);
      && segs != []
      && segs[0] == Segment(Choose(rem, t).pid, Max(t, Choose(rem, t).arrivalTime), SjfEnd(rem, t))
      && segs[1..] == Dispatch(SjfOrder(SjfRest(rem, t), SjfEnd(rem, t)), SjfEnd(rem, t))
  {
    SjfReadyStep(rem, t);
    DispatchCons(SjfOrder(rem, t), t, Choose(rem, t), SjfOrder(SjfRest(rem, t), SjfEnd(rem, t)), SjfEnd(rem, t));
  }

  /** The fold does not depend on a free time before the first arrival. */
  lemma DispatchLater(order: seq<Process>, t: int, t': int)
    requires order != [] && t <= t' <= order[0].arrivalTime
    ensures Dispatch(order, t) == Dispatch(order, t')
  {
  }

  /**
   * One step when nothing has arrived: time jumps to the earliest pending
   * arrival, which lies after `t`; order and segments are those from there.
   */
  lemma SjfJumpStep(rem: seq<Process>, t: int)
    requires rem != [] && !Arrived(rem, t)
    ensures |Ready(rem, t)| == 0
    ensures MinArrival(rem) > t
    ensures Arrived(rem, MinArrival(rem)) && |Ready(rem, MinArrival(rem))| > 0
    ensures SjfOrder(rem, t) == SjfOrder(rem, MinArrival(rem))
    ensures Dispatch(SjfOrder(rem, t), t) == Dispatch(SjfOrder(rem, MinArrival(rem)), MinArrival(rem))
  {
    var m := MinArrival(rem);
    ReadyNonEmpty(rem, t);
    ReadyNonEmpty(rem, m);
    assert m > t by {
      var i :| 0 <= i < |rem| && ArrivedBy(m)(rem[i]);
      assert !ArrivedBy(t)(rem[i]);
    }
    SjfReadyStep(rem, m);
    ChooseSpec(rem, m);
    DispatchLater(SjfOrder(rem, m), t, m);
  }

  /** Every process the order dispatches comes from the remaining list. */
  lemma {:induction false} SjfOrderFrom(rem: seq<Process>, t: int)
    ensures forall j :: 0 <= j < |rem| ==> SjfOrder(rem, t)[j] in rem
    decreases |rem|, if |Ready(rem, t)| > 0 then 0 else 1
  {
    ReadyNonEmpty(rem, t);
    if rem == [] {
    } else if Arrived(rem, t) {
      SjfReadyStep(rem, t);
      SjfRestFrom(rem, t);
      var rest, end := SjfRest(rem, t), SjfEnd(rem, t);
      SjfOrderFrom(rest, end);
      var r, tail := SjfOrder(rem, t), SjfOrder(rest, end);
      ChooseSpec(rem, t);
      forall j | 1 <= j < |rem|
        ensures r[j] in rem
      {
        assert r[j] == tail[j - 1];
        assert tail[j - 1] in rest;
      }
    } else {
      SjfJumpStep(rem, t);
      SjfOrderFrom(rem, MinArrival(rem));
    }
  }

  /** With distinct pids every remaining process is dispatched exactly once. */
  lemma {:induction false} SjfOrderPermutation(rem: seq<Process>, t: int)
    requires DistinctPids(rem)
    ensures multiset(SjfOrder(rem, t)) == multiset(rem)
    decreases |rem|, if |Ready(rem, t)| > 0 then 0 else 1
  {
    ReadyNonEmpty(rem, t);
    if rem == [] {
    } else if Arrived(rem, t) {
      SjfReadyStep(rem, t);
      SjfRestDistinct(rem, t);
      var rest, end := SjfRest(rem, t), SjfEnd(rem, t);
      SjfOrderPermutation(rest, end);
      var r := SjfOrder(rem, t);
      assert r == [r[0]] + r[1..];
    } else {
      SjfJumpStep(rem, t);
      SjfOrderPermutation(rem, MinArrival(rem));
    }
  }

  /** The process dispatched first has no longer burst than any other that had arrived by its start. */
  lemma SjfFirstIsShortest(rem: seq<Process>, t: int)
    requires Arrived(rem, t)
    ensures var order := SjfOrder(rem, t);
      var segs := Dispatch(order, t);
      forall m :: 0 < m < |order| && order[m].arrivalTime <= segs[0].startTime ==>
        order[0].burstTime <= order[m].burstTime
  {
    SjfReadyStep(rem, t);
    SjfDispatchStep(rem, t);
    SjfRestFrom(rem, t);
    ChooseSpec(rem, t);
    var rest, end := SjfRest(rem, t), SjfEnd(rem, t);
    SjfOrderFrom(rest, end);
    var order, segs := SjfOrder(rem, t), Dispatch(SjfOrder(rem, t), t);
    var tail := SjfOrder(rest, end);
    forall m | 0 < m < |order| && order[m].arrivalTime <= segs[0].startTime
      ensures order[0].burstTime <= order[m].burstTime
    {
      assert order[m] == tail[m - 1];
      assert tail[m - 1] in rest;
      assert order[m] in rem;
    }
  }

  /**
   * Shortest first on a dispatch order and its segments: a process
   * dispatched later that had already arrived when an earlier one started
   * has no shorter burst.
   */
  predicate ShortestFirst(order: seq<Process>, segs: seq<Segment>) {
    |segs| == |order| &&
    forall k, m :: 0 <= k < m < |order| && order[m].arrivalTime <= segs[k].startTime ==>
      order[k].burstTime <= order[m].burstTime
  }

  lemma ShortestFirstCons(order: seq<Process>, segs: seq<Segment>, tail: seq<Process>, tsegs: seq<Segment>)
    requires |order| == |segs| > 0 && order[1..] == tail && segs[1..] == tsegs
    requires forall m :: 0 < m < |order| && order[m].arrivalTime <= segs[0].startTime ==>
      order[0].burstTime <= order[m].burstTime
    requires ShortestFirst(tail, tsegs)
    ensures ShortestFirst(order, segs)
  {
    forall k, m | 0 < k < m < |order| && order[m].arrivalTime <= segs[k].startTime
      ensures order[k].burstTime <= order[m].burstTime
    {
      assert order[m] == tail[m - 1] && order[k] == tail[k - 1] && segs[k] == tsegs[k - 1];
    }
  }

  /** The SJF order is shortest first. */
  lemma {:induction false} SjfShortestFirst(rem: seq<Process>, t: int)
    ensures var order := SjfOrder(rem, t);
      var segs := Dispatch(order, t);
      forall k, m :: 0 <= k < m < |order| && order[m].arrivalTime <= segs[k].startTime ==>
        order[k].burstTime <= order[m].burstTime
    decreases |rem|, if |Ready(rem, t)| > 0 then 0 else 1
  {
    SjfShortestFirstFrom(rem, t);
  }

  lemma {:induction false} SjfShortestFirstFrom(rem: seq<Process>, t: int)
    ensures ShortestFirst(SjfOrder(rem, t), Dispatch(SjfOrder(rem, t), t))
    decreases |rem|, if |Ready(rem, t)| > 0 then 0 else 1
  {
    ReadyNonEmpty(rem, t);
    if rem == [] {
    } else if Arrived(rem, t) {
      SjfFirstIsShortest(rem, t);
      SjfReadyStep(rem, t);
      SjfDispatchStep(rem, t);
      var rest, end := SjfRest(rem, t), SjfEnd(rem, t);
      SjfShortestFirstFrom(rest, end);
      ShortestFirstCons(SjfOrder(rem, t), Dispatch(SjfOrder(rem, t), t),
                        SjfOrder(rest, end), Dispatch(SjfOrder(rest, end), end));
    } else {
      SjfJumpStep(rem, t);
      SjfShortestFirstFrom(rem, MinArrival(rem));
    }
  }

  /** After a jump, every process dispatched from then on arrives no earlier than the first start. */
  lemma SjfJumpNoneArrived(rem: seq<Process>, t: int)
    requires rem != [] && !Arrived(rem, t)
    ensures var order := SjfOrder(rem, t);
      var segs := Dispatch(order, t);
      && segs[0].startTime == MinArrival(rem)
      && forall j :: 0 <= j < |order| ==> order[j].arrivalTime >= segs[0].startTime
  {
    SjfJumpStep(rem, t);
    var m := MinArrival(rem);
    SjfDispatchStep(rem, m);
    ChooseSpec(rem, m);
    SjfOrderFrom(rem, m);
    var order := SjfOrder(rem, m);
    forall j | 0 <= j < |order|
      ensures order[j].arrivalTime >= m
    {
      assert order[j] in rem;
    }
  }

  /**
   * No needless idling on a dispatch order and its segments from free time
   * `t`: the processor stays idle before a segment only when no process
   * dispatched from then on had arrived yet.
   */
  predicate NoNeedlessIdle(order: seq<Process>, segs: seq<Segment>, t: int) {
    |segs| == |order| &&
    forall k, m :: 0 <= k <= m < |order| && segs[k].startTime > FreeAt(segs, t, k) ==>
      order[m].arrivalTime >= segs[k].startTime
  }

  /** When the processor became free before segment `k`: `t` for the first. */
  function FreeAt(segs: seq<Segment>, t: int, k: nat): int
    requires k <= |segs|
  {
    if k == 0 then t else segs[k - 1].endTime
  }

  lemma NoNeedlessIdleCons(order: seq<Process>, segs: seq<Segment>, t: int, tail: seq<Process>, tsegs: seq<Segment>)
    requires |order| == |segs| > 0 && order[1..] == tail && segs[1..] == tsegs
    requires segs[0].startTime == t
    requires NoNeedlessIdle(tail, tsegs, segs[0].endTime)
    ensures NoNeedlessIdle(order, segs, t)
  {
    forall k, m | 0 < k <= m < |order| && segs[k].startTime > segs[k - 1].endTime
      ensures order[m].arrivalTime >= segs[k].startTime
    {
      var k', m' := k - 1, m - 1;
      assert order[m] == tail[m'] && segs[k] == tsegs[k'];
      if k > 1 {
        assert segs[k - 1] == tsegs[k' - 1];
      }
      assert 0 <= k' <= m' < |tail|;
      assert FreeAt(tsegs, segs[0].endTime, k') == FreeAt(segs, t, k);
      assert tail[m'].arrivalTime >= tsegs[k'].startTime;
    }
  }

  lemma NoNeedlessIdleJump(order: seq<Process>, segs: seq<Segment>, t: int, m: int)
    requires |order| == |segs| > 0 && segs[0].startTime == m
    requires forall j :: 0 <= j < |order| ==> order[j].arrivalTime >= m
    requires NoNeedlessIdle(order, segs, m)
    ensures NoNeedlessIdle(order, segs, t)
  {
  }

  /** The SJF order never idles needlessly. */
  lemma {:induction false} SjfIdleOnlyWhenNoneArrived(rem: seq<Process>, t: int)
    ensures NoNeedlessIdle(SjfOrder(rem, t), Dispatch(SjfOrder(rem, t), t), t)
    decreases |rem|, if |Ready(rem, t)| > 0 then 0 else 1
  {
    ReadyNonEmpty(rem, t);
    if rem == [] {
    } else if Arrived(rem, t) {
      SjfReadyStep(rem, t);
      SjfDispatchStep(rem, t);
      ChooseSpec(rem, t);
      var rest, end := SjfRest(rem, t), SjfEnd(rem, t);
      SjfIdleOnlyWhenNoneArrived(rest, end);
      NoNeedlessIdleCons(SjfOrder(rem, t), Dispatch(SjfOrder(rem, t), t), t,
                         SjfOrder(rest, end), Dispatch(SjfOrder(rest, end), end));
    } else {
      SjfJumpStep(rem, t);
      var m := MinArrival(rem);
      SjfIdleOnlyWhenNoneArrived(rem, m);
      SjfJumpNoneArrived(rem, t);
      NoNeedlessIdleJump(SjfOrder(rem, t), Dispatch(SjfOrder(rem, t), t), t, m);
    }
  }

  /**
   * One segment per input process, each process exactly once, lasting its
   * burst, starting no earlier than its arrival and than the previous end;
   * the segments never overlap.
   */
  lemma SjfScheduleProperties(processes: seq<Process>)
    requires ValidProcesses(processes)
    ensures var order, segs := SjfOrder(SortBy(processes, ArrivalOf), 0), SjfSchedule(processes);
      && |segs| == |processes|
      && multiset(order) == multiset(processes)
      && (forall k :: 0 <= k < |segs| ==>
            && segs[k].pid == order[k].pid
            && segs[k].endTime - segs[k].startTime == order[k].burstTime
            && segs[k].startTime >= order[k].arrivalTime)
      && (forall k :: 0 < k < |segs| ==> segs[k].startTime >= segs[k - 1].endTime)
      && Disjoint(segs)
  {
    var sorted := SortBy(processes, ArrivalOf);
    var order := SjfOrder(sorted, 0);
    SortedValid(processes);
    SjfOrderPermutation(sorted, 0);
    forall k | 0 <= k < |order|
      ensures order[k].burstTime >= 0
    {
      assert order[k] in multiset(processes);
    }
    DispatchStarts(order, 0);
    DispatchDisjoint(order, 0);
  }

  /**
   * The `biggestEndTime` scan: the largest end time, starting from 0.
   * It is at least every end time and at least 0, and it is 0 or one of the end times.
   */
  function MaxEnd(schedule: seq<Segment>): (r: int)
    ensures r >= 0
    ensures forall k :: 0 <= k < |schedule| ==> schedule[k].endTime <= r
    ensures r == 0 || exists k :: 0 <= k < |schedule| && schedule[k].endTime == r
  {
    if schedule == [] then 0
    else
      var n := |schedule| - 1;
      var m := MaxEnd(schedule[..n]);
      assert forall k :: 0 <= k < n ==> schedule[..n][k] == schedule[k];
      if schedule[n].endTime > m then schedule[n].endTime else m
  }

  /**
   * `totalLength` is the end of the last segment (the largest end time),
   * 0 exactly for an empty input, and covers the whole CPU demand.
   */
  lemma SjfTotalLength(processes: seq<Process>)
    requires ValidProcesses(processes)
    ensures var segs := SjfSchedule(processes);
      && MaxEnd(segs) == TotalLength(segs)
      && (MaxEnd(segs) == 0 <==> processes == [])
      && MaxEnd(segs) >= SumBursts(processes)
  {
    var sorted := SortBy(processes, ArrivalOf);
    var order := SjfOrder(sorted, 0);
    var segs := SjfSchedule(processes);
    SortedValid(processes);
    SjfOrderPermutation(sorted, 0);
    forall k | 0 <= k < |order|
      ensures order[k].burstTime >= 1
    {
      assert order[k] in multiset(processes);
    }
    DispatchTotalLength(order, 0);
    SumBurstsPermutation(order, processes);
    SumBurstsLower(order);
    if segs != [] {
      assert segs[|segs| - 1].endTime == TotalLength(segs);
    }
  }

  /** The worked example: P1(0,5), P2(1,3), P3(2,1); P3 does not preempt P1. */
  lemma SjfExample()
    ensures SjfSchedule([Process(1, 0, 5), Process(2, 1, 3), Process(3, 2, 1)])
         == [Segment(1, 0, 5), Segment(3, 5, 6), Segment(2, 6, 9)]
  {
    var p1, p2, p3 := Process(1, 0, 5), Process(2, 1, 3), Process(3, 2, 1);
    ExampleOrder();
    ExampleSjfOrder();
    ExampleSjfDispatch();
  }

  lemma ExampleSjfOrder()
    ensures SjfOrder([Process(1, 0, 5), Process(2, 1, 3), Process(3, 2, 1)], 0)
         == [Process(1, 0, 5), Process(3, 2, 1), Process(2, 1, 3)]
  {
    var p1, p2, p3 := Process(1, 0, 5), Process(2, 1, 3), Process(3, 2, 1);
    ExampleStep1();
    ExampleStep2();
    ExampleStep3();
  }

  lemma ExampleStep1()
    ensures SjfOrder([Process(1, 0, 5), Process(2, 1, 3), Process(3, 2, 1)], 0)
         == [Process(1, 0, 5)] + SjfOrder([Process(2, 1, 3), Process(3, 2, 1)], 5)
  {
    var p1, p2, p3 := Process(1, 0, 5), Process(2, 1, 3), Process(3, 2, 1);
    var rem := [p1, p2, p3];
    assert ArrivedBy(0)(rem[0]);
    SjfReadyStep(rem, 0);
    ChooseSpec(rem, 0);
    assert Choose(rem, 0) == p1;
    assert IndexOfPid(rem, 1) == 0;
    assert SjfRest(rem, 0) == [p2, p3];
    var order := SjfOrder(rem, 0);
    assert order == [order[0]] + order[1..];
  }

  lemma ExampleStep2()
    ensures SjfOrder([Process(2, 1, 3), Process(3, 2, 1)], 5)
         == [Process(3, 2, 1)] + SjfOrder([Process(2, 1, 3)], 6)
  {
    var p2, p3 := Process(2, 1, 3), Process(3, 2, 1);
    var rem := [p2, p3];
    assert ArrivedBy(5)(rem[0]);
    SjfReadyStep(rem, 5);
    ChooseSpec(rem, 5);
    assert Choose(rem, 5) == p3;
    assert IndexOfPid(rem, 3) == 1 by {
      assert rem[1..] == [p3];
    }
    assert SjfRest(rem, 5) == [p2];
    var order := SjfOrder(rem, 5);
    assert order == [order[0]] + order[1..];
  }

  lemma ExampleStep3()
    ensures SjfOrder([Process(2, 1, 3)], 6) == [Process(2, 1, 3)]
  {
    var p2 := Process(2, 1, 3);
    var rem := [p2];
    assert ArrivedBy(6)(rem[0]);
    SjfReadyStep(rem, 6);
    ChooseSpec(rem, 6);
    assert IndexOfPid(rem, 2) == 0;
    assert SjfRest(rem, 6) == [];
    var order := SjfOrder(rem, 6);
    assert order == [order[0]] + order[1..];
  }

  lemma ExampleSjfDispatch()
    ensures Dispatch([Process(1, 0, 5), Process(3, 2, 1), Process(2, 1, 3)], 0)
         == [Segment(1, 0, 5), Segment(3, 5, 6), Segment(2, 6, 9)]
  {
    var p1, p2, p3 := Process(1, 0, 5), Process(2, 1, 3), Process(3, 2, 1);
    var order := [p1, p3, p2];
    assert order[1..] == [p3, p2] && order[1..][1..] == [p2];
    assert Dispatch([p2], 6) == [Segment(2, 6, 9)];
    assert Dispatch([p3, p2], 5) == [Segment(3, 5, 6)] + Dispatch([p2], 6);
    assert Dispatch(order, 0) == [Segment(1, 0, 5)] + Dispatch([p3, p2], 5);
  }

  /**
   * The loop's dispatch step, in the loop's own terms, keeps the produced
   * and the pending segments together as the whole schedule.
   */
  lemma SjfLoopStep(schedule: seq<Segment>, rem: seq<Process>, t: int, target: seq<Segment>)
    requires |Ready(rem, t)| > 0
    requires schedule + Dispatch(SjfOrder(rem, t), t) == target
    ensures |SjfRest(rem, t)| < |rem|
    ensures (schedule + [Segment(Choose(rem, t).pid, Max(t, Choose(rem, t).arrivalTime), SjfEnd(rem, t))])
         + Dispatch(SjfOrder(SjfRest(rem, t), SjfEnd(rem, t)), SjfEnd(rem, t)) == target
  {
    ReadyNonEmpty(rem, t);
    SjfDispatchStep(rem, t);
    AppendHead(schedule, Dispatch(SjfOrder(rem, t), t));
  }

  /** The loop's time jump keeps the invariant and makes some process ready. */
  lemma SjfLoopJump(schedule: seq<Segment>, rem: seq<Process>, t: int, target: seq<Segment>)
    requires rem != [] && |Ready(rem, t)| == 0
    requires schedule + Dispatch(SjfOrder(rem, t), t) == target
    ensures |Ready(rem, MinArrival(rem))| > 0
    ensures schedule + Dispatch(SjfOrder(rem, MinArrival(rem)), MinArrival(rem)) == target
  {
    ReadyNonEmpty(rem, t);
    SjfJumpStep(rem, t);
  }

  /**
   * The SJF effect (src/SJF.tsx:20-58): repeatedly pick the shortest arrived
   * job, or jump time to the earliest pending arrival.
   */
  method RunSjf(processes: seq<Process>) returns (schedule: seq<Segment>)
    ensures schedule == SjfSchedule(processes)
  {
    var sortedProcesses := SortBy(processes, ArrivalOf);
    var currentTime := 0;
    var remainingProcesses := sortedProcesses;
    schedule := [];
    while |remainingProcesses| > 0
      invariant schedule + Dispatch(SjfOrder(remainingProcesses, currentTime), currentTime)
             == SjfSchedule(processes)
      decreases |remainingProcesses|, if |Ready(remainingProcesses, currentTime)| > 0 then 0 else 1
    {
      var readyProcesses := Ready(remainingProcesses, currentTime);
      if |readyProcesses| > 0 {
        SjfLoopStep(schedule, remainingProcesses, currentTime, SjfSchedule(processes));
        var nextProcess := SortBy(readyProcesses, BurstOf)[0];
        assert nextProcess == Choose(remainingProcesses, currentTime);
        var startTime := Max(currentTime, nextProcess.arrivalTime);
        var endTime := startTime + nextProcess.burstTime;
        assert endTime == SjfEnd(remainingProcesses, currentTime);
        schedule := schedule + [Segment(nextProcess.pid, startTime, endTime)];
        var processIndex := IndexOfPid(remainingProcesses, nextProcess.pid);
        assert Splice(remainingProcesses, processIndex) == SjfRest(remainingProcesses, currentTime);
        remainingProcesses := Splice(remainingProcesses, processIndex);
        currentTime := endTime;
      } else {
        SjfLoopJump(schedule, remainingProcesses, currentTime, SjfSchedule(processes));
        currentTime := MinArrival(remainingProcesses);
      }
    }
  }

  /** The `biggestEndTime` loop (src/SJF.tsx:64-79). */
  method BiggestEndTime(schedule: seq<Segment>) returns (biggestEndTime: int)
    ensures biggestEndTime == MaxEnd(schedule)
  {
    biggestEndTime := 0;
    for i := 0 to |schedule|
      invariant biggestEndTime == MaxEnd(schedule[..i])
    {
      assert schedule[..i + 1][..i] == schedule[..i];
      var processEndTime := schedule[i].endTime;
      if processEndTime > biggestEndTime {
        biggestEndTime := processEndTime;
      }
    }
    assert schedule[..|schedule|] == schedule;
  }
}
