/**
 * Admission by position, shared by round robin and MLFQ: the records are
 * sorted by arrival and an index `next` (the source's `i` and
 * `arrivalIndex`) separates the admitted positions from the rest.
 */
module Admission {
  import opened Common
  import opened Accounting

  /** The queue holds admitted positions only. */
  predicate Below(queue: seq<nat>, next: nat) {
    forall i :: 0 <= i < |queue| ==> queue[i] < next
  }

  /** Positions not yet admitted have not run. */
  predicate Untouched(procs: seq<Running>, next: nat) {
    forall j :: next <= j < |procs| ==> procs[j].remaining == procs[j].process.burstTime
  }

  /** Admitted positions had arrived. */
  predicate Arrived(procs: seq<Running>, next: nat, time: int) {
    forall j :: 0 <= j < next && j < |procs| ==> procs[j].process.arrivalTime <= time
  }

  predicate PositiveBursts(procs: seq<Running>) {
    forall j :: 0 <= j < |procs| ==> procs[j].process.burstTime >= 1
  }

  /** A queue of positions below `next` does not hold `j >= next`. */
  lemma NotBelow(queue: seq<nat>, next: nat, j: int)
    requires forall i :: 0 <= i < |queue| ==> queue[i] < next
    requires j >= next
    ensures Occurrences(queue, j) == 0
  {
    OccurrencesAbsent(queue, j);
  }

  /** Updating an admitted position leaves the positions from `next'` on untouched. */
  lemma UntouchedUpdate(procs: seq<Running>, next: nat, next': nat, j: nat, r: Running)
    requires Untouched(procs, next) && j < next <= next' && j < |procs|
    ensures Untouched(procs[j := r], next')
  {
  }

  /** After a slice of position `j` up to `time + slice`, the positions then admitted have arrived. */
  lemma DispatchArrived(pl: seq<Process>, procs: seq<Running>, next: nat, time: int, slice: int, j: nat)
    requires Processes(procs) == pl && next <= |procs| && Arrived(procs, next, time) && j < |procs| && slice >= 1
    ensures var procs' := procs[j := Ran(procs[j], slice, time + slice)];
      Arrived(procs', Arrivals(pl, next, time + slice), time + slice)
  {
    var procs' := procs[j := Ran(procs[j], slice, time + slice)];
    forall k | 0 <= k < Arrivals(pl, next, time + slice) && k < |procs'|
      ensures procs'[k].process.arrivalTime <= time + slice
    {
      assert pl[k] == procs[k].process;
    }
  }

  /**
   * The admission loop, on positions: while the next record has arrived, it
   * joins the tail of the queue; as in round robin (src/RR.tsx:52-55, 73-76)
   * and MLFQ (src/components/MFLQ.tsx:65-68, 94-100, 114-120).
   */
  method Admit(processList: array<Running>, queue: seq<nat>, next: nat, time: int)
    returns (queue': seq<nat>, next': nat)
    requires next <= processList.Length
    ensures next' == Arrivals(Processes(processList[..]), next, time)
    ensures queue' == queue + Range(next, next')
  {
    ghost var pl := Processes(processList[..]);
    queue', next' := queue, next;
    while next' < processList.Length && processList[next'].process.arrivalTime <= time
      invariant next <= next' <= processList.Length
      invariant Arrivals(pl, next', time) == Arrivals(pl, next, time)
      invariant queue' == queue + Range(next, next')
      decreases processList.Length - next'
    {
      assert Range(next, next' + 1) == Range(next, next') + [next'];
      queue' := queue' + [next'];
      next' := next' + 1;
    }
  }
}
