/**
 * What the per-unit simulations (STCF, round robin, MLFQ) keep true of
 * their process records and their timeline of pids (0 for an idle unit):
 * the bookkeeping of `remaining` and `finishTime` against what the
 * timeline shows.
 */
module Accounting {
  import opened Common

  /** `remaining` stays within [0, burstTime], and a finish time is recorded exactly when it reaches 0. */
  predicate Bounded(procs: seq<Running>) {
    forall j :: 0 <= j < |procs| ==>
      && 0 <= procs[j].remaining <= procs[j].process.burstTime
      && (procs[j].finishTime.Some? <==> procs[j].remaining == 0)
  }

  /** Each process appears in the timeline once per unit of burst it has used. */
  predicate Counted(procs: seq<Running>, tl: seq<int>) {
    forall j :: 0 <= j < |procs| ==>
      Occurrences(tl, procs[j].process.pid) == procs[j].process.burstTime - procs[j].remaining
  }

  /** No process runs before it arrives. */
  predicate AfterArrival(procs: seq<Running>, tl: seq<int>) {
    forall j, i :: 0 <= j < |procs| && 0 <= i < |tl| && tl[i] == procs[j].process.pid ==>
      procs[j].process.arrivalTime <= i
  }

  /**
   * A recorded finish time is the end of the unit in which the process ran
   * for the last time: it ran in unit f-1 and had its whole burst by f.
   */
  predicate FinishRecorded(procs: seq<Running>, tl: seq<int>) {
    forall j :: 0 <= j < |procs| && procs[j].finishTime.Some? ==>
      var f := procs[j].finishTime.value;
      && 1 <= f <= |tl|
      && tl[f - 1] == procs[j].process.pid
      && Occurrences(tl[..f], procs[j].process.pid) == procs[j].process.burstTime
  }

  /** Every unit is either idle or work done: length = idle units + bursts - what is still owed. */
  predicate Conserved(procs: seq<Running>, tl: seq<int>) {
    |tl| == Occurrences(tl, 0) + SumBursts(Processes(procs)) - TotalRemaining(procs)
  }

  predicate Accounted(procs: seq<Running>, tl: seq<int>) {
    Bounded(procs) && Counted(procs, tl) && AfterArrival(procs, tl)
    && FinishRecorded(procs, tl) && Conserved(procs, tl)
  }

  /** Pids are positive (so never the idle marker 0) and distinct. */
  predicate Identified(procs: seq<Running>) {
    (forall j :: 0 <= j < |procs| ==> procs[j].process.pid >= 1)
    && (forall j, k :: 0 <= j < k < |procs| ==> procs[j].process.pid != procs[k].process.pid)
  }

  /** Some process still needs CPU time: the loop condition of the per-unit simulations. */
  predicate Unfinished(procs: seq<Running>) {
    exists j :: 0 <= j < |procs| && procs[j].remaining > 0
  }

  /** The simulation's update of process `j` after it ran `n` more units ending at `now`. */
  function Ran(r: Running, n: int, now: int): Running {
    Running(r.process, r.remaining - n, if r.remaining - n == 0 then Some(now) else r.finishTime)
  }

  /** Records made from a valid process list, in its order, are identified. */
  lemma IdentifiedOf(ps: seq<Process>, procs: seq<Running>)
    requires ValidProcesses(ps) && Processes(procs) == ps
    ensures Identified(procs)
  {
    forall j, k | 0 <= j < k < |procs|
      ensures procs[j].process.pid != procs[k].process.pid
    {
      assert procs[j].process == ps[j] && procs[k].process == ps[k];
      assert PidOf(ps[j]) != PidOf(ps[k]);
    }
  }

  /** Before the first unit: nothing has run and all is still owed. */
  lemma AccountedInitially(ps: seq<Process>)
    requires ValidProcesses(ps)
    ensures Accounted(Extend(ps), [])
  {
    TotalRemainingOfExtend(ps);
    ProcessesOfExtend(ps);
  }

  lemma PrefixOfAppend(tl: seq<int>, tail: seq<int>, f: nat)
    requires f <= |tl|
    ensures (tl + tail)[..f] == tl[..f]
  {
  }

  /** An idle unit keeps the bookkeeping. */
  lemma IdleUnit(procs: seq<Running>, tl: seq<int>)
    requires Accounted(procs, tl) && Identified(procs)
    ensures Accounted(procs, tl + [0])
  {
    var tl' := tl + [0];
    forall j | 0 <= j < |procs| && procs[j].finishTime.Some?
      ensures var f := procs[j].finishTime.value;
        && 1 <= f <= |tl'| && tl'[f - 1] == procs[j].process.pid
        && Occurrences(tl'[..f], procs[j].process.pid) == procs[j].process.burstTime
    {
      PrefixOfAppend(tl, [0], procs[j].finishTime.value);
    }
  }

  /**
   * `n` consecutive units of process `j` (1 <= n <= remaining; STCF runs one
   * unit, round robin and MLFQ a slice), which has arrived by unit |tl|,
   * keep the bookkeeping; the finish time is the end of those units when
   * they used up what remained.
   */
  lemma RunSlice(procs: seq<Running>, tl: seq<int>, j: nat, n: nat, now: int)
    requires Accounted(procs, tl) && Identified(procs)
    requires j < |procs| && 1 <= n <= procs[j].remaining && procs[j].process.arrivalTime <= |tl|
    requires now == |tl| + n
    ensures Accounted(procs[j := Ran(procs[j], n, now)], tl + Repeat(procs[j].process.pid, n))
    ensures Identified(procs[j := Ran(procs[j], n, now)])
  {
    SliceCounted(procs, tl, j, n);
    SliceAfterArrival(procs, tl, j, n);
    SliceFinish(procs, tl, j, n);
    SliceConserved(procs, tl, j, n);
  }

  lemma SliceOccurrences(tl: seq<int>, pid: int, n: nat, x: int)
    ensures Occurrences(tl + Repeat(pid, n), x) == Occurrences(tl, x) + (if x == pid then n else 0)
  {
    OccurrencesAppend(tl, Repeat(pid, n), x);
    RepeatCount(pid, n, x);
  }

  lemma SliceCounted(procs: seq<Running>, tl: seq<int>, j: nat, n: nat)
    requires Counted(procs, tl) && Identified(procs) && j < |procs|
    ensures Counted(procs[j := Ran(procs[j], n, |tl| + n)], tl + Repeat(procs[j].process.pid, n))
  {
    var pid := procs[j].process.pid;
    var procs' := procs[j := Ran(procs[j], n, |tl| + n)];
    forall k | 0 <= k < |procs'|
      ensures Occurrences(tl + Repeat(pid, n), procs'[k].process.pid)
           == procs'[k].process.burstTime - procs'[k].remaining
    {
      SliceOccurrences(tl, pid, n, procs[k].process.pid);
    }
  }

  lemma SliceAfterArrival(procs: seq<Running>, tl: seq<int>, j: nat, n: nat)
    requires AfterArrival(procs, tl) && Identified(procs)
    requires j < |procs| && procs[j].process.arrivalTime <= |tl|
    ensures AfterArrival(procs[j := Ran(procs[j], n, |tl| + n)], tl + Repeat(procs[j].process.pid, n))
  {
    var procs' := procs[j := Ran(procs[j], n, |tl| + n)];
    var tl' := tl + Repeat(procs[j].process.pid, n);
    forall k, i | 0 <= k < |procs'| && 0 <= i < |tl'| && tl'[i] == procs'[k].process.pid
      ensures procs'[k].process.arrivalTime <= i
    {
      if i < |tl| {
        assert tl'[i] == tl[i];
      } else {
        assert tl'[i] == procs[j].process.pid;
      }
    }
  }

  lemma SliceFinish(procs: seq<Running>, tl: seq<int>, j: nat, n: nat)
    requires Bounded(procs) && Counted(procs, tl) && FinishRecorded(procs, tl)
    requires j < |procs| && 1 <= n <= procs[j].remaining
    ensures Bounded(procs[j := Ran(procs[j], n, |tl| + n)])
    ensures FinishRecorded(procs[j := Ran(procs[j], n, |tl| + n)], tl + Repeat(procs[j].process.pid, n))
  {
    var pid := procs[j].process.pid;
    var procs' := procs[j := Ran(procs[j], n, |tl| + n)];
    var tl' := tl + Repeat(pid, n);
    forall k | 0 <= k < |procs'| && procs'[k].finishTime.Some?
      ensures var f := procs'[k].finishTime.value;
        && 1 <= f <= |tl'| && tl'[f - 1] == procs'[k].process.pid
        && Occurrences(tl'[..f], procs'[k].process.pid) == procs'[k].process.burstTime
    {
      if k == j {
        assert tl'[..|tl| + n] == tl';
        SliceOccurrences(tl, pid, n, pid);
      } else {
        PrefixOfAppend(tl, Repeat(pid, n), procs[k].finishTime.value);
      }
    }
  }

  lemma SliceConserved(procs: seq<Running>, tl: seq<int>, j: nat, n: nat)
    requires Conserved(procs, tl) && Identified(procs) && j < |procs|
    ensures Conserved(procs[j := Ran(procs[j], n, |tl| + n)], tl + Repeat(procs[j].process.pid, n))
  {
    var pid := procs[j].process.pid;
    var r := Ran(procs[j], n, |tl| + n);
    SliceOccurrences(tl, pid, n, 0);
    TotalRemainingUpdate(procs, j, r);
    ProcessesOfUpdate(procs, j, r);
  }

  /** At most |s| - a occurrences of `x` lie at positions a and later. */
  lemma {:induction false} CountFrom(s: seq<int>, x: int, a: int)
    requires forall i :: 0 <= i < |s| && s[i] == x ==> a <= i
    ensures Occurrences(s, x) <= Max(0, |s| - Max(a, 0))
  {
    if s != [] {
      var s' := s[..|s| - 1];
      forall i | 0 <= i < |s'| && s'[i] == x
        ensures a <= i
      {
        assert s[i] == s'[i];
      }
      CountFrom(s', x, a);
    }
  }

  /**
   * A process that finished at f ran its whole burst in [arrival, f), so f is
   * at least arrival + burst.
   */
  lemma FinishAfterBurst(procs: seq<Running>, tl: seq<int>, j: nat)
    requires Accounted(procs, tl) && j < |procs| && procs[j].finishTime.Some?
    requires procs[j].process.arrivalTime >= 0 && procs[j].process.burstTime >= 1
    ensures procs[j].finishTime.value >= procs[j].process.arrivalTime + procs[j].process.burstTime
  {
    var p := procs[j].process;
    var f := procs[j].finishTime.value;
    var pre := tl[..f];
    forall i | 0 <= i < |pre| && pre[i] == p.pid
      ensures p.arrivalTime <= i
    {
      assert tl[i] == pre[i];
    }
    CountFrom(pre, p.pid, p.arrivalTime);
  }

  /**
   * When nothing remains, every process has its finish time, appears in the
   * timeline exactly burstTime times, finished no earlier than
   * arrival + burst, and the timeline is the idle units plus all bursts.
   */
  lemma AccountedComplete(procs: seq<Running>, tl: seq<int>)
    requires Accounted(procs, tl)
    requires forall j :: 0 <= j < |procs| ==> procs[j].remaining == 0
    requires forall j :: 0 <= j < |procs| ==> procs[j].process.arrivalTime >= 0 && procs[j].process.burstTime >= 1
    ensures AllFinished(procs)
    ensures forall j :: 0 <= j < |procs| ==> Occurrences(tl, procs[j].process.pid) == procs[j].process.burstTime
    ensures forall j :: 0 <= j < |procs| ==>
      procs[j].finishTime.value >= procs[j].process.arrivalTime + procs[j].process.burstTime
    ensures |tl| == Occurrences(tl, 0) + SumBursts(Processes(procs))
  {
    forall j | 0 <= j < |procs|
      ensures procs[j].finishTime.value >= procs[j].process.arrivalTime + procs[j].process.burstTime
    {
      FinishAfterBurst(procs, tl, j);
    }
    TotalRemainingBounds(procs);
  }

  /** Counts and demand carried from the sorted list back to the input order. */
  lemma PermutedCounts(ps: seq<Process>, pl: seq<Process>, tl: seq<int>)
    requires multiset(pl) == multiset(ps)
    requires forall j :: 0 <= j < |pl| ==> Occurrences(tl, pl[j].pid) == pl[j].burstTime
    ensures forall j :: 0 <= j < |ps| ==> Occurrences(tl, ps[j].pid) == ps[j].burstTime
    ensures SumBursts(pl) == SumBursts(ps)
  {
    forall j | 0 <= j < |ps|
      ensures Occurrences(tl, ps[j].pid) == ps[j].burstTime
    {
      assert ps[j] in multiset(pl);
      var k :| 0 <= k < |pl| && pl[k] == ps[j];
    }
    SumBurstsPermutation(pl, ps);
  }
}
