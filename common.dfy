/**
 * Records shared by the five scheduling simulations: the input process,
 * the per-process simulation record, run segments, per-process results,
 * and the admission loop used by round robin and MLFQ.
 */
module Common {
  import opened Sorting

  datatype Option<T> = None | Some(value: T)

  /** A schedulable unit of work, as generated by the process form. */
  datatype Process = Process(pid: int, arrivalTime: int, burstTime: int)

  /** One contiguous run of process `pid` on the processor, over [startTime, endTime). */
  datatype Segment = Segment(pid: int, startTime: int, endTime: int)

  /** What the result tables show for one process. */
  datatype ProcessResult = ProcessResult(pid: int, arrivalTime: int, burstTime: int, finishTime: int)

  /**
   * A process extended with what the round robin and STCF loops mutate in
   * place: the CPU time it still needs and its completion time (null until
   * it finishes).
   */
  datatype Running = Running(process: Process, remaining: int, finishTime: Option<int>)

  function Min(a: int, b: int): int { if a <= b then a else b }
  function Max(a: int, b: int): int { if a >= b then a else b }

  /** Sort keys used by the simulations: arrival time, burst time, pid. */
  function ArrivalOf(p: Process): int { p.arrivalTime }
  function BurstOf(p: Process): int { p.burstTime }
  function RunningArrival(r: Running): int { r.process.arrivalTime }
  function PidOf(p: Process): int { p.pid }

  /** What every caller of the simulations supplies: the form only generates such lists. */
  predicate ValidProcess(p: Process) {
    p.pid >= 1 && p.arrivalTime >= 0 && p.burstTime >= 1
  }

  predicate DistinctPids(ps: seq<Process>) {
    Injective(ps, PidOf)
  }

  predicate ValidProcesses(ps: seq<Process>) {
    (forall i :: 0 <= i < |ps| ==> ValidProcess(ps[i])) && DistinctPids(ps)
  }

  predicate ArrivalSorted(ps: seq<Process>) {
    forall i, j :: 0 <= i < j < |ps| ==> ps[i].arrivalTime <= ps[j].arrivalTime
  }

  /** Moving the head of the pending part onto the produced part keeps the whole. */
  lemma AppendHead<T>(done: seq<T>, pending: seq<T>)
    requires pending != []
    ensures done + pending == (done + [pending[0]]) + pending[1..]
  {
    assert pending == [pending[0]] + pending[1..];
  }

  /** `k` copies of `x`, as pushed by the per-unit slice loops. */
  function Repeat<T>(x: T, k: nat): (r: seq<T>)
    ensures |r| == k
    ensures forall i :: 0 <= i < k ==> r[i] == x
  {
    if k == 0 then [] else Repeat(x, k - 1) + [x]
  }


  /** The indices lo, lo+1, ..., hi-1. */
  function Range(lo: nat, hi: nat): (r: seq<nat>)
    requires lo <= hi
    ensures |r| == hi - lo
    ensures forall i :: 0 <= i < |r| ==> r[i] == lo + i
  {
    seq(hi - lo, i requires 0 <= i < hi - lo => lo + i)
  }

  /** How often `x` occurs in `s` (a pid in a timeline, a position in a ready queue). */
  function Occurrences(s: seq<int>, x: int): nat {
    if s == [] then 0 else Occurrences(s[..|s| - 1], x) + (if s[|s| - 1] == x then 1 else 0)
  }

  lemma {:induction false} OccurrencesAppend(a: seq<int>, b: seq<int>, x: int)
    ensures Occurrences(a + b, x) == Occurrences(a, x) + Occurrences(b, x)
    decreases |b|
  {
    if b == [] {
      assert a + b == a;
    } else {
      var b' := b[..|b| - 1];
      assert (a + b)[..|a + b| - 1] == a + b';
      OccurrencesAppend(a, b', x);
    }
  }

  /** A value no element equals does not occur. */
  lemma {:induction false} OccurrencesAbsent(s: seq<int>, x: int)
    requires forall i :: 0 <= i < |s| ==> s[i] != x
    ensures Occurrences(s, x) == 0
  {
    if s != [] {
      var s' := s[..|s| - 1];
      forall i | 0 <= i < |s'|
        ensures s'[i] != x
      {
        assert s'[i] == s[i];
      }
      OccurrencesAbsent(s', x);
    }
  }

  /** The first element occurs. */
  lemma OccurrencesHead(s: seq<int>)
    requires s != []
    ensures Occurrences(s, s[0]) >= 1
  {
    OccurrencesAppend([s[0]], s[1..], s[0]);
    assert [s[0]] + s[1..] == s;
    assert [s[0]][..0] == [];
  }

  /** Each index of [lo, hi) occurs once in the range, every other value never. */
  lemma {:induction false} OccurrencesRange(lo: nat, hi: nat, x: int)
    requires lo <= hi
    ensures Occurrences(Range(lo, hi), x) == if lo <= x < hi then 1 else 0
    decreases hi - lo
  {
    if lo < hi {
      OccurrencesRange(lo, hi - 1, x);
      assert Range(lo, hi)[..hi - lo - 1] == Range(lo, hi - 1);
    }
  }

  /** `x` occurs k times in k copies of itself, `y` != x never. */
  lemma {:induction false} RepeatCount(x: int, k: nat, y: int)
    ensures Occurrences(Repeat(x, k), y) == if y == x then k else 0
  {
    if k > 0 {
      RepeatCount(x, k - 1, y);
      assert Repeat(x, k)[..k - 1] == Repeat(x, k - 1);
    }
  }

  /** A fresh record of `p`: its whole burst remaining and no finish time. */
  function Start(p: Process): Running { Running(p, p.burstTime, None) }

  /** The simulation records of the inputs: all of the burst still to run, no finish time yet. */
  function Extend(ps: seq<Process>): (r: seq<Running>)
    ensures |r| == |ps|
    ensures forall i :: 0 <= i < |ps| ==> r[i] == Running(ps[i], ps[i].burstTime, None)
  {
    Map(ps, Start)
  }

  /** The process descriptions inside the simulation records. */
  function Processes(procs: seq<Running>): (r: seq<Process>)
    ensures |r| == |procs|
    ensures forall i :: 0 <= i < |procs| ==> r[i] == procs[i].process
  {
    seq(|procs|, i requires 0 <= i < |procs| => procs[i].process)
  }

  lemma ProcessesOfExtend(ps: seq<Process>)
    ensures Processes(Extend(ps)) == ps
  {
    assert forall i :: 0 <= i < |ps| ==> Processes(Extend(ps))[i] == ps[i];
  }

  /**
   * The simulations extend the records and then sort them by arrival
   * (stable); this is the extension of the arrival-sorted input.
   */
  lemma SortedExtension(ps: seq<Process>)
    ensures SortBy(Extend(ps), RunningArrival) == Extend(SortBy(ps, ArrivalOf))
    ensures Processes(SortBy(Extend(ps), RunningArrival)) == SortBy(ps, ArrivalOf)
  {
    SortMap(ps, Start, ArrivalOf, RunningArrival);
    ProcessesOfExtend(SortBy(ps, ArrivalOf));
  }

  /** Sorting by arrival keeps a valid process list valid. */
  lemma SortedValid(ps: seq<Process>)
    requires ValidProcesses(ps)
    ensures ValidProcesses(SortBy(ps, ArrivalOf))
    ensures ArrivalSorted(SortBy(ps, ArrivalOf))
    ensures multiset(SortBy(ps, ArrivalOf)) == multiset(ps)
  {
    var r := SortBy(ps, ArrivalOf);
    SortInjective(ps, ArrivalOf, PidOf);
    forall i | 0 <= i < |r|
      ensures ValidProcess(r[i])
    {
      assert r[i] in multiset(r);
      assert r[i] in ps;
    }
    SortBySorted(ps, ArrivalOf);
  }

  lemma ProcessesOfUpdate(procs: seq<Running>, j: nat, r: Running)
    requires j < |procs| && r.process == procs[j].process
    ensures Processes(procs[j := r]) == Processes(procs)
  {
    assert forall i :: 0 <= i < |procs| ==> Processes(procs[j := r])[i] == Processes(procs)[i];
  }

  predicate AllFinished(procs: seq<Running>) {
    forall j :: 0 <= j < |procs| ==> procs[j].finishTime.Some?
  }

  /** The result rows of finished records, in record order. */
  function Results(procs: seq<Running>): (r: seq<ProcessResult>)
    requires AllFinished(procs)
    ensures |r| == |procs|
    ensures forall j :: 0 <= j < |procs| ==>
      r[j] == ProcessResult(procs[j].process.pid, procs[j].process.arrivalTime,
                            procs[j].process.burstTime, procs[j].finishTime.value)
  {
    if procs == [] then []
    else
      [ProcessResult(procs[0].process.pid, procs[0].process.arrivalTime,
                     procs[0].process.burstTime, procs[0].finishTime.value)]
      + Results(procs[1..])
  }

  /** Total CPU time the processes ask for. */
  function SumBursts(ps: seq<Process>): int {
    if ps == [] then 0 else ps[0].burstTime + SumBursts(ps[1..])
  }

  /** Every process needs at least one unit, so the demand is at least the number of processes. */
  lemma {:induction false} SumBurstsLower(ps: seq<Process>)
    requires forall i :: 0 <= i < |ps| ==> ps[i].burstTime >= 1
    ensures SumBursts(ps) >= |ps|
  {
    if ps != [] {
      assert forall i :: 0 <= i < |ps[1..]| ==> ps[1..][i] == ps[i + 1];
      SumBurstsLower(ps[1..]);
    }
  }

  lemma {:induction false} SumBurstsRemove(b: seq<Process>, k: nat)
    requires k < |b|
    ensures SumBursts(b) == b[k].burstTime + SumBursts(b[..k] + b[k + 1..])
  {
    if k > 0 {
      SumBurstsRemove(b[1..], k - 1);
      assert b[1..][..k - 1] + b[1..][k..] == (b[..k] + b[k + 1..])[1..];
    } else {
      assert b[..0] + b[1..] == b[1..];
    }
  }

  /** The total demand does not depend on the order of the processes. */
  lemma {:induction false} SumBurstsPermutation(a: seq<Process>, b: seq<Process>)
    requires multiset(a) == multiset(b)
    ensures SumBursts(a) == SumBursts(b)
    decreases |a|
  {
    if a == [] {
      assert |multiset(b)| == 0;
    } else {
      assert a[0] in multiset(b);
      var k :| 0 <= k < |b| && b[k] == a[0];
      var b' := b[..k] + b[k + 1..];
      assert b == b[..k] + [b[k]] + b[k + 1..];
      assert a == [a[0]] + a[1..];
      assert multiset(b) == multiset(b[..k]) + multiset{b[k]} + multiset(b[k + 1..]);
      assert multiset(b') == multiset(b[..k]) + multiset(b[k + 1..]);
      assert multiset(a) == multiset{a[0]} + multiset(a[1..]);
      assert multiset(a[1..]) == multiset(a) - multiset{a[0]};
      assert multiset(b') == multiset(b) - multiset{b[k]};
      SumBurstsPermutation(a[1..], b');
      SumBurstsRemove(b, k);
    }
  }

  /** Total CPU time still owed to the processes. */
  function TotalRemaining(procs: seq<Running>): int {
    if procs == [] then 0 else procs[0].remaining + TotalRemaining(procs[1..])
  }

  lemma {:induction false} TotalRemainingUpdate(procs: seq<Running>, j: nat, r: Running)
    requires j < |procs|
    ensures TotalRemaining(procs[j := r]) == TotalRemaining(procs) - procs[j].remaining + r.remaining
    decreases j
  {
    if j > 0 {
      TotalRemainingUpdate(procs[1..], j - 1, r);
      assert procs[j := r][1..] == procs[1..][j - 1 := r];
    } else {
      assert procs[j := r][1..] == procs[1..];
    }
  }

  lemma {:induction false} TotalRemainingBounds(procs: seq<Running>)
    requires forall j :: 0 <= j < |procs| ==> 0 <= procs[j].remaining <= procs[j].process.burstTime
    ensures 0 <= TotalRemaining(procs) <= SumBursts(Processes(procs))
    ensures TotalRemaining(procs) == 0 <==> forall j :: 0 <= j < |procs| ==> procs[j].remaining == 0
  {
    if procs != [] {
      TotalRemainingBounds(procs[1..]);
      assert Processes(procs)[1..] == Processes(procs[1..]);
      forall j | 0 <= j < |procs[1..]|
        ensures procs[1..][j] == procs[j + 1]
      {
      }
    }
  }

  lemma {:induction false} TotalRemainingOfExtend(ps: seq<Process>)
    ensures TotalRemaining(Extend(ps)) == SumBursts(ps)
  {
    if ps != [] {
      TotalRemainingOfExtend(ps[1..]);
      assert Extend(ps)[1..] == Extend(ps[1..]);
    }
  }

  /** The largest arrival time, 0 for no process: bounds the idle stretches. */
  function MaxArrival(ps: seq<Process>): (r: int)
    ensures r >= 0
    ensures forall j :: 0 <= j < |ps| ==> ps[j].arrivalTime <= r
  {
    if ps == [] then 0 else Max(ps[0].arrivalTime, MaxArrival(ps[1..]))
  }

  /**
   * The admission loop on positions: starting at the admission index, it
   * passes every record that has arrived by `time` and stops at the first
   * that has not (or at the end); it returns the new index, and the
   * positions it queues are `Range(next, n)`.
   */
  function Arrivals(pl: seq<Process>, next: nat, time: int): (n: nat)
    requires next <= |pl|
    ensures next <= n <= |pl|
    ensures forall j :: next <= j < n ==> pl[j].arrivalTime <= time
    ensures n == |pl| || pl[n].arrivalTime > time
    decreases |pl| - next
  {
    if next < |pl| && pl[next].arrivalTime <= time then Arrivals(pl, next + 1, time) else next
  }

  /**
   * Once the list is sorted by arrival, admission leaves exactly the
   * processes that have arrived by `time` behind it.
   */
  lemma ArrivalsSorted(pl: seq<Process>, next: nat, time: int)
    requires next <= |pl| && ArrivalSorted(pl)
    ensures forall j :: Arrivals(pl, next, time) <= j < |pl| ==> pl[j].arrivalTime > time
  {
  }
}
