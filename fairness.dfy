/**
 * Round-robin fairness (src/RR.tsx:50-84): the ready queue is first in,
 * first out, so a process requeued behind m others is dispatched again
 * after exactly those m slices, each lasting at least one unit and at most
 * one quantum; m is less than the number of processes, so no process waits
 * more than a quantum per process for its next turn.
 */
module Fairness {
  import opened Common
  import opened Accounting
  import opened Admission
  import opened RoundRobin

  /** `s` without any occurrence of `x`, the rest kept in order. */
  function Without(s: seq<nat>, x: nat): (r: seq<nat>) {
    if s == [] then [] else Without(s[..|s| - 1], x) + (if s[|s| - 1] == x then [] else [s[|s| - 1]])
  }

  /** Removing `x` shortens `s` by its occurrences and leaves every other value's count. */
  lemma {:induction false} WithoutCounts(s: seq<nat>, x: nat, n: nat)
    requires forall i :: 0 <= i < |s| ==> s[i] < n
    ensures |Without(s, x)| == |s| - Occurrences(s, x)
    ensures forall y :: y != x ==> Occurrences(Without(s, x), y) == Occurrences(s, y)
    ensures forall i :: 0 <= i < |Without(s, x)| ==> Without(s, x)[i] < n && Without(s, x)[i] != x
  {
    if s != [] {
      var s' := s[..|s| - 1];
      var last: seq<nat> := if s[|s| - 1] == x then [] else [s[|s| - 1]];
      WithoutCounts(s', x, n);
      assert Without(s, x) == Without(s', x) + last;
      forall y | y != x
        ensures Occurrences(Without(s, x), y) == Occurrences(s, y)
      {
        OccurrencesAppend(Without(s', x), last, y);
        assert last == [] || last[..0] == [];
      }
      OccurrencesAppend(Without(s', x), last, x);
    }
  }

  /** A sequence of values below `n`, none repeated, has at most `n` elements. */
  lemma {:induction false} DistinctBound(s: seq<nat>, n: nat)
    requires forall i :: 0 <= i < |s| ==> s[i] < n
    requires forall y :: 0 <= y < n ==> Occurrences(s, y) <= 1
    ensures |s| <= n
    decreases n
  {
    if s != [] {
      assert s[|s| - 1] < n;
      var w := Without(s, n - 1);
      WithoutCounts(s, n - 1, n);
      DistinctBound(w, n - 1);
    }
  }

  /**
   * The state after `n` more iterations of the simulation loop from `s`,
   * or the final state if the loop ends first: it keeps the invariant,
   * the clock does not go back, and the loop ends where it would from `s`.
   */
  function Steps(pl: seq<Process>, q: int, s: State, n: nat): (r: State)
    requires Inv(pl, q, s)
    ensures Inv(pl, q, r) && r.next <= |r.procs| && s.time <= r.time
    ensures Run(pl, q, r) == Run(pl, q, s)
    decreases n
  {
    if n == 0 || !Unfinished(s.procs) then s
    else
      StepInv(pl, q, s);
      Steps(pl, q, Step(q, s), n - 1)
  }

  /**
   * While a process waits at position p >= 1 of the ready queue, the loop
   * dispatches the head: the simulation is unfinished, the clock moves on
   * by 1 to q units, and the waiting process is one place nearer the front.
   */
  lemma StepAdvances(pl: seq<Process>, q: int, s: State, p: nat, j: nat)
    requires Inv(pl, q, s) && 1 <= p < |Admitted(s).queue| && Admitted(s).queue[p] == j
    ensures Unfinished(s.procs) && Ready(q, s) && Inv(pl, q, Step(q, s))
    ensures s.time + 1 <= Step(q, s).time <= s.time + q
    ensures p - 1 < |Admitted(Step(q, s)).queue| && Admitted(Step(q, s)).queue[p - 1] == j
  {
    HeadWaiting(pl, q, s);
    SliceOutcome(pl, q, s);
    StepInv(pl, q, s);
    var a := Admitted(s);
    var r := Step(q, s);
    assert r.queue[p - 1] == a.queue[p];
  }

  /**
   * A process at position p of the queue reaches its head after p
   * dispatches, which take between p and q * p units.
   */
  lemma {:induction false} WaitBound(pl: seq<Process>, q: int, s: State, p: nat, j: nat)
    requires Inv(pl, q, s) && p < |Admitted(s).queue| && Admitted(s).queue[p] == j
    ensures var w := Steps(pl, q, s, p);
      && Admitted(w).queue != [] && Admitted(w).queue[0] == j
      && s.time + p <= w.time <= s.time + q * p
    decreases p
  {
    if p > 0 {
      StepAdvances(pl, q, s, p, j);
      var r := Step(q, s);
      WaitBound(pl, q, r, p - 1, j);
      assert Steps(pl, q, s, p) == Steps(pl, q, r, p - 1);
      assert q * p == q * (p - 1) + q;
    }
  }

  /**
   * Fairness of round robin: when the head `j` of the queue is not finished
   * by its slice, it is requeued last, behind m < |procs| other processes,
   * and the loop reaches its next dispatch after those m slices, no later
   * than q * (m + 1) units after its previous slice began and at least
   * m + 1 units after; the simulation ends as it would have.
   */
  lemma RoundRobinFairness(pl: seq<Process>, q: int, s: State)
    requires Inv(pl, q, s) && Admitted(s).queue != []
    ensures Ready(q, s) && Inv(pl, q, Step(q, s))
    ensures var a := Admitted(s);
      var j := a.queue[0];
      var r := Step(q, s);
      var m := |r.queue| - 1;
      && j < |s.procs|
      && (r.procs[j].remaining > 0 ==>
            && 0 <= m < |s.procs|
            && r.queue[m] == j
            && var w := Steps(pl, q, r, m);
               && Admitted(w).queue != [] && Admitted(w).queue[0] == j
               && s.time + m + 1 <= w.time <= s.time + q * (m + 1)
               && Run(pl, q, w) == Run(pl, q, s))
  {
    HeadWaiting(pl, q, s);
    var j := Admitted(s).queue[0];
    var r := Step(q, s);
    if r.procs[j].remaining > 0 {
      Requeued(pl, q, s);
      var m := |r.queue| - 1;
      WaitBehind(pl, q, r, j);
      SliceThenWait(s.time, r.time, Steps(pl, q, r, m).time, q, m);
    }
  }

  /**
   * A process last in a queue of m + 1 is back at the head after the m
   * dispatches ahead of it, between m and q * m units later; m < |procs|.
   */
  lemma WaitBehind(pl: seq<Process>, q: int, r: State, j: nat)
    requires Inv(pl, q, r) && r.queue != [] && r.queue[|r.queue| - 1] == j
    ensures |r.queue| - 1 < |r.procs|
    ensures var w := Steps(pl, q, r, |r.queue| - 1);
      && Admitted(w).queue != [] && Admitted(w).queue[0] == j
      && r.time + |r.queue| - 1 <= w.time <= r.time + q * (|r.queue| - 1)
      && Run(pl, q, w) == Run(pl, q, r)
  {
    QueueShort(r.procs, r.queue, r.next);
    LastAdmitted(r, j);
    WaitBound(pl, q, r, |r.queue| - 1, j);
  }

  /**
   * A slice that leaves its process unfinished puts it last in the queue,
   * takes 1 to q units and does not change where the loop ends.
   */
  lemma Requeued(pl: seq<Process>, q: int, s: State)
    requires Inv(pl, q, s) && Admitted(s).queue != []
    requires Ready(q, s) && Admitted(s).queue[0] < |Step(q, s).procs|
    requires Step(q, s).procs[Admitted(s).queue[0]].remaining > 0
    ensures Inv(pl, q, Step(q, s))
    ensures var r := Step(q, s);
      && |r.procs| == |s.procs|
      && r.queue != [] && r.queue[|r.queue| - 1] == Admitted(s).queue[0]
      && s.time + 1 <= r.time <= s.time + q
      && Run(pl, q, s) == Run(pl, q, r)
  {
    SliceOutcome(pl, q, s);
    StepInv(pl, q, s);
    assert s.procs[Admitted(s).queue[0]].remaining > 0;
  }

  /** A slice of at most q units followed by a wait of at most q * m units takes at most q * (m + 1). */
  lemma SliceThenWait(t0: int, t1: int, t2: int, q: int, m: nat)
    requires t1 <= t0 + q && t2 <= t1 + q * m
    ensures t2 <= t0 + q * (m + 1)
  {
    assert q * (m + 1) == q * m + q;
  }

  /** A non-empty queue after admission means an unfinished head, so the loop goes on. */
  lemma HeadWaiting(pl: seq<Process>, q: int, s: State)
    requires Inv(pl, q, s) && Admitted(s).queue != []
    ensures Ready(q, s) && Admitted(s).queue[0] < |s.procs|
    ensures s.procs[Admitted(s).queue[0]].remaining > 0 && Unfinished(s.procs)
    ensures Inv(pl, q, Step(q, s))
  {
    InvReady(pl, q, s);
    SliceOutcome(pl, q, s);
    assert s.procs[Admitted(s).queue[0]].remaining > 0;
    StepInv(pl, q, s);
  }

  /** The last of the queue is also the last of the queue after admission. */
  lemma LastAdmitted(r: State, j: nat)
    requires r.next <= |r.procs| && r.queue != [] && r.queue[|r.queue| - 1] == j
    ensures |r.queue| - 1 < |Admitted(r).queue| && Admitted(r).queue[|r.queue| - 1] == j
  {
  }

  /** The ready queue holds each admitted position at most once, so it is no longer than the admitted prefix. */
  lemma QueueShort(procs: seq<Running>, queue: seq<nat>, next: nat)
    requires next <= |procs| && Below(queue, next) && QueuedOnce(procs, queue, next)
    ensures |queue| <= next
  {
    forall y | 0 <= y < next
      ensures Occurrences(queue, y) <= 1
    {
    }
    DistinctBound(queue, next);
  }
}
