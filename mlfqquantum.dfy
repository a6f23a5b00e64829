/**
 * The MLFQ loop for every quantum the form can hand it: the same number
 * field (src/AlgorithmSelection.tsx:36-40, src/App.tsx:163-165) sets the
 * level-1 quantum, levels 2 and 3 use twice and four times it
 * (src/components/MFLQ.tsx:38-40), and the effect re-runs on every change
 * (src/components/MFLQ.tsx:189). With a quantum of 0 or less every slice
 * is 0 or negative, and the loop never ends.
 */
module MlfqQuantum {
  import opened Common
  import opened Sorting
  import opened Accounting
  import opened Admission
  import opened Levels
  import opened Mlfq

  /** Three queues, a level per record, and every queued position one of the records. */
  predicate Addressed(s: State) {
    && |s.queues| == 3 && s.next <= |s.procs| && |s.level| == |s.procs|
    && Below(s.queues[0], |s.procs|) && Below(s.queues[1], |s.procs|) && Below(s.queues[2], |s.procs|)
  }

  /** The queues after a slice still name only records. */
  lemma AfterSliceBelow(qs: seq<seq<nat>>, k: int, j: nat, next: nat, n: nat, requeue: bool, size: nat)
    requires |qs| == 3 && 1 <= k <= 3 && qs[k - 1] != [] && next <= n <= size && j < size
    requires Below(qs[0], size) && Below(qs[1], size) && Below(qs[2], size)
    ensures var qs' := AfterSlice(qs, k, j, next, n, requeue);
      |qs'| == 3 && Below(qs'[0], size) && Below(qs'[1], size) && Below(qs'[2], size)
  {
  }

  /**
   * One iteration of the loop as written (src/components/MFLQ.tsx:71-137),
   * for any integer quantum: the slice is min(quantum of the level,
   * remaining) however small, the per-unit loop pushes nothing for a slice
   * below 1, and the clock and the remaining time move by the slice
   * whatever its sign.
   */
  function StepAsWritten(timeQuantum: int, s: State): (r: State)
    requires Addressed(s)
    ensures Addressed(r)
  {
    var k := Top(s.queues);
    if k == 0 then Idle(s)
    else
      var j := s.queues[k - 1][0];
      var slice := Min(Quantum(timeQuantum, k), s.procs[j].remaining);
      var time := s.time + slice;
      var procs := s.procs[j := Ran(s.procs[j], slice, time)];
      var n := Arrivals(Processes(s.procs), s.next, time);
      var requeue := procs[j].remaining > 0;
      AfterSliceBelow(s.queues, k, j, s.next, n, requeue, |s.procs|);
      State(time, s.timeline + Repeat(Entry(s.procs[j].process.pid, k), Max(slice, 0)), procs,
            Demoted(s.level, k, j, requeue), AfterSlice(s.queues, k, j, s.next, n, requeue), n)
  }

  /**
   * One iteration as written, for any integer quantum: with all queues
   * empty, the idle entry (0, 0) and one unit of time; otherwise the head
   * of the top level runs min(q, 2q or 4q by level, remaining) units
   * whatever the sign, the clock and its remaining time move by that,
   * the timeline grows by the positive part only, and an unfinished head
   * goes last in the next lower level. A quantum of 0 or less therefore
   * leaves the clock where it was (or earlier) and the timeline unchanged.
   */
  lemma StepAsWrittenOutcome(timeQuantum: int, s: State)
    requires Addressed(s)
    ensures var r := StepAsWritten(timeQuantum, s); |r.procs| == |s.procs|
    ensures var r := StepAsWritten(timeQuantum, s);
      Top(s.queues) == 0 ==> r.time == s.time + 1 && r.timeline == s.timeline + [Entry(0, 0)]
    ensures var r := StepAsWritten(timeQuantum, s);
      Top(s.queues) != 0 ==>
      var k := Top(s.queues);
      var j := s.queues[k - 1][0];
      var slice := r.time - s.time;
      && j < |s.procs| && slice == Min(Quantum(timeQuantum, k), s.procs[j].remaining)
      && Quantum(timeQuantum, k) == (if k == 1 then timeQuantum else if k == 2 then 2 * timeQuantum else 4 * timeQuantum)
      && r.procs[j].remaining == s.procs[j].remaining - slice
      && |r.timeline| == |s.timeline| + Max(slice, 0) && r.timeline[..|s.timeline|] == s.timeline
      && (timeQuantum <= 0 ==> r.time <= s.time && r.timeline == s.timeline)
      && (r.procs[j].remaining > 0 ==>
            var t := Min(k + 1, 3);
            r.queues[t - 1] != [] && r.queues[t - 1][|r.queues[t - 1]| - 1] == j)
  {
    var k := Top(s.queues);
    if k != 0 {
      var j := s.queues[k - 1][0];
      var slice := Min(Quantum(timeQuantum, k), s.procs[j].remaining);
      var time := s.time + slice;
      var procs := s.procs[j := Ran(s.procs[j], slice, time)];
      var n := Arrivals(Processes(s.procs), s.next, time);
      var requeue := procs[j].remaining > 0;
      var tl := s.timeline + Repeat(Entry(s.procs[j].process.pid, k), Max(slice, 0));
      var qs := AfterSlice(s.queues, k, j, s.next, n, requeue);
      assert StepAsWritten(timeQuantum, s) == State(time, tl, procs, Demoted(s.level, k, j, requeue), qs, n);
      AfterSliceQueues(s.queues, k, j, s.next, n, requeue);
      SlicePrefix(s.timeline, Entry(s.procs[j].process.pid, k), Max(slice, 0));
      assert timeQuantum <= 0 ==> Quantum(timeQuantum, k) <= 0 && slice <= 0;
    }
  }

  /** Appending a run of units keeps the timeline as a prefix; an empty run changes nothing. */
  lemma SlicePrefix(tl: seq<Entry>, e: Entry, m: nat)
    ensures |tl + Repeat(e, m)| == |tl| + m && (tl + Repeat(e, m))[..|tl|] == tl
    ensures m == 0 ==> tl + Repeat(e, m) == tl
  {
    assert (tl + Repeat(e, m))[..|tl|] == tl;
    if m == 0 {
      assert Repeat(e, m) == [];
    }
  }

  /** `n` iterations of the loop as written. */
  function IterateAsWritten(timeQuantum: int, s: State, n: nat): (r: State)
    requires Addressed(s)
    ensures Addressed(r)
    decreases n
  {
    if n == 0 then s else IterateAsWritten(timeQuantum, StepAsWritten(timeQuantum, s), n - 1)
  }

  /** With a quantum of at least 1, the loop as written is the step of the model. */
  lemma AgreesWhenPositive(q: int, s: State)
    requires Ready(q, s)
    ensures Addressed(s) && StepAsWritten(q, s) == Step(q, s)
  {
    var k := Top(s.queues);
    if k != 0 {
      var j := s.queues[k - 1][0];
      assert s.procs[j].remaining >= 1;
      assert Quantum(q, k) >= 1;
      assert Max(Min(Quantum(q, k), s.procs[j].remaining), 0) == Min(Quantum(q, k), s.procs[j].remaining);
    }
  }

  /** Every process in `queue` is unfinished. */
  predicate Waiting(procs: seq<Running>, queue: seq<nat>)
    requires Below(queue, |procs|)
  {
    forall i :: 0 <= i < |queue| ==> procs[queue[i]].remaining > 0
  }

  /**
   * A loop state that cannot make progress: something is queued, every
   * queued process is unfinished, and nothing more has arrived by now.
   */
  predicate Stuck(s: State) {
    && Addressed(s)
    && Top(s.queues) != 0
    && s.next == Arrivals(Processes(s.procs), s.next, s.time)
    && Waiting(s.procs, s.queues[0]) && Waiting(s.procs, s.queues[1]) && Waiting(s.procs, s.queues[2])
  }

  /** Dropping the head of a queue and adding `j` keeps every queued process unfinished. */
  lemma WaitingRotate(procs: seq<Running>, procs': seq<Running>, qs: seq<seq<nat>>, k: int, j: nat, next: nat)
    requires |qs| == 3 && 1 <= k <= 3 && qs[k - 1] != [] && j < |procs| && |procs'| == |procs|
    requires Below(qs[0], |procs|) && Below(qs[1], |procs|) && Below(qs[2], |procs|)
    requires Waiting(procs, qs[0]) && Waiting(procs, qs[1]) && Waiting(procs, qs[2])
    requires procs'[j].remaining > 0
    requires forall x :: 0 <= x < |procs| && x != j ==> procs'[x] == procs[x]
    requires next <= |procs|
    ensures var qs' := AfterSlice(qs, k, j, next, next, true);
      && |qs'| == 3 && Below(qs'[0], |procs|) && Below(qs'[1], |procs|) && Below(qs'[2], |procs|)
      && Waiting(procs', qs'[0]) && Waiting(procs', qs'[1]) && Waiting(procs', qs'[2])
      && Top(qs') != 0
  {
    var qs' := AfterSlice(qs, k, j, next, next, true);
    assert Range(next, next) == [];
    forall l, i | 0 <= l < 3 && 0 <= i < |qs'[l]|
      ensures qs'[l][i] < |procs| && procs'[qs'[l][i]].remaining > 0
    {
      var x := qs'[l][i];
      if x != j {
        assert exists l', i' :: 0 <= l' < 3 && 0 <= i' < |qs[l']| && qs[l'][i'] == x by {
          if l == k - 1 && !(l == Min(k + 1, 3) - 1 && i == |qs'[l]| - 1) {
            assert qs'[l][i] == qs[l][i + 1];
          } else if l != Min(k + 1, 3) - 1 {
            assert qs'[l][i] == qs[l][i];
          } else {
            assert i < |qs'[l]| - 1;
            assert qs'[l][i] == qs[l][i];
          }
        }
      }
    }
  }

  /**
   * With a quantum of 0 or less, an iteration from a stuck state is stuck
   * again: the head runs for 0 or fewer units and is queued at the next
   * lower level; the clock does not advance (it stays put for a quantum of 0
   * and goes back for a negative one), the timeline is unchanged, the
   * records are those of the same processes, and no remaining time drops.
   */
  lemma StuckStep(timeQuantum: int, s: State)
    requires timeQuantum <= 0 && Stuck(s)
    ensures var r := StepAsWritten(timeQuantum, s);
      && Stuck(r) && r.time <= s.time && (timeQuantum == 0 ==> r.time == s.time)
      && r.timeline == s.timeline && |r.procs| == |s.procs| && Processes(r.procs) == Processes(s.procs)
      && forall x :: 0 <= x < |s.procs| ==> r.procs[x].remaining >= s.procs[x].remaining
  {
    var pl := Processes(s.procs);
    var k := Top(s.queues);
    var j := s.queues[k - 1][0];
    assert s.procs[j].remaining > 0;
    var slice := Min(Quantum(timeQuantum, k), s.procs[j].remaining);
    assert slice == Quantum(timeQuantum, k) <= 0;
    var time := s.time + slice;
    var procs := s.procs[j := Ran(s.procs[j], slice, time)];
    ProcessesOfUpdate(s.procs, j, Ran(s.procs[j], slice, time));
    assert Arrivals(pl, s.next, time) == s.next;
    var r := StepAsWritten(timeQuantum, s);
    assert r == State(time, s.timeline, procs, Demoted(s.level, k, j, true),
                      AfterSlice(s.queues, k, j, s.next, s.next, true), s.next) by {
      assert Repeat(Entry(s.procs[j].process.pid, k), 0) == [];
    }
    WaitingRotate(s.procs, procs, s.queues, k, j, s.next);
  }

  /**
   * From a stuck state, with a quantum of 0 or less, the loop condition
   * (some process still has time remaining) holds after any number of
   * iterations, the clock never goes past where it was and no unit is ever
   * added to the timeline: the loop never ends.
   */
  lemma StuckForever(timeQuantum: int, s: State, n: nat)
    requires timeQuantum <= 0 && Stuck(s)
    ensures var r := IterateAsWritten(timeQuantum, s, n);
      && Stuck(r) && Unfinished(r.procs) && r.timeline == s.timeline
      && r.time <= s.time && (timeQuantum == 0 ==> r.time == s.time)
  {
    StuckIterate(timeQuantum, s, n);
    StuckUnfinished(IterateAsWritten(timeQuantum, s, n));
  }

  /** The induction behind `StuckForever`: each iteration is a `StuckStep`. */
  lemma {:induction false} StuckIterate(timeQuantum: int, s: State, n: nat)
    requires timeQuantum <= 0 && Stuck(s)
    ensures var r := IterateAsWritten(timeQuantum, s, n);
      && Stuck(r) && r.timeline == s.timeline && r.time <= s.time && (timeQuantum == 0 ==> r.time == s.time)
    decreases n
  {
    if n > 0 {
      var s1 := StepAsWritten(timeQuantum, s);
      StuckStep(timeQuantum, s);
      StuckIterate(timeQuantum, s1, n - 1);
      assert IterateAsWritten(timeQuantum, s, n) == IterateAsWritten(timeQuantum, s1, n - 1);
    }
  }

  /** A stuck state has an unfinished process: the head of its top queue. */
  lemma StuckUnfinished(s: State)
    requires Stuck(s)
    ensures Unfinished(s.procs)
  {
    var k := Top(s.queues);
    assert s.procs[s.queues[k - 1][0]].remaining > 0;
  }

  /**
   * A cleared quantum field with one process P1 arriving at 0 with burst
   * 1: P1 is admitted to level 1 at time 0, and from then on the loop goes
   * round forever at time 0 with an empty timeline, P1 sinking to level 3
   * on slices of 0 units.
   */
  lemma ClearedQuantumNeverEnds(n: nat)
    ensures var r := IterateAsWritten(0, Initial([Process(1, 0, 1)]), n);
      && Unfinished(r.procs) && r.time == 0 && r.timeline == []
  {
    var p := Running(Process(1, 0, 1), 1, None);
    ClearedStart(p);
    StuckForever(0, Initial([Process(1, 0, 1)]), n);
  }

  /** The start of that run: P1's fresh record at level 1, queued at level 1, time 0; it is stuck. */
  lemma ClearedStart(p: Running)
    requires p == Running(Process(1, 0, 1), 1, None)
    ensures Initial([Process(1, 0, 1)]) == State(0, [], [p], [1], [[0], [], []], 1)
    ensures Stuck(Initial([Process(1, 0, 1)]))
  {
    var ps := [Process(1, 0, 1)];
    assert Extend(ps) == [p];
    assert SortBy([p], RunningArrival) == [p] by {
      assert [p][1..] == [];
    }
    assert Processes([p]) == ps;
    assert Arrivals(ps, 0, 0) == 1;
    assert Arrivals(ps, 1, 0) == 1;
    assert Range(0, 1) == [0];
    assert Repeat(1, 1) == [1];
  }
}
