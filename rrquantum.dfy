/**
 * The round-robin loop for every quantum the form can hand it. The field's
 * text becomes a number with no bound check (src/AlgorithmSelection.tsx:36-40),
 * the number goes straight to the component (src/App.tsx:160-162), and the
 * effect re-runs the simulation whenever it changes (src/RR.tsx:121); a
 * cleared field gives 0. The `min="1"` on the field only limits its spinner
 * and form validation. With a quantum of 0 or less, every slice is 0 or
 * negative: the clock never advances, no unit is ever recorded, no process
 * gets closer to finishing, and the loop never ends.
 */
module RoundRobinQuantum {
  import opened Common
  import opened Sorting
  import opened Accounting
  import opened RoundRobin

  /** Every position a loop state names is one of its records. */
  predicate Addressed(s: State) {
    s.next <= |s.procs| && forall i :: 0 <= i < |s.queue| ==> s.queue[i] < |s.procs|
  }

  /**
   * One iteration of the loop as written (src/RR.tsx:50-84), for any integer
   * quantum: the slice is min(timeQuantum, remaining) however small, the
   * per-unit loop pushes nothing for a slice below 1, and the clock and the
   * remaining time move by the slice whatever its sign.
   */
  function StepAsWritten(timeQuantum: int, s: State): (r: State)
    requires Addressed(s)
    ensures Addressed(r)
  {
    var a := Admitted(s);
    if a.queue == [] then Idle(a)
    else
      var j := a.queue[0];
      var slice := Min(timeQuantum, a.procs[j].remaining);
      var time := a.time + slice;
      var procs := a.procs[j := Ran(a.procs[j], slice, time)];
      var n := Arrivals(Processes(a.procs), a.next, time);
      State(time, a.timeline + Repeat(a.procs[j].process.pid, Max(slice, 0)), procs,
            a.queue[1..] + Range(a.next, n) + (if procs[j].remaining > 0 then [j] else []), n)
  }

  /**
   * One iteration as written, for any integer quantum: an empty queue after
   * admission gives the idle unit 0 and one unit of time; otherwise the head
   * runs min(timeQuantum, remaining) units whatever the sign, the clock and
   * its remaining time move by that, and the timeline grows by the positive
   * part only. A quantum of 0 or less therefore leaves the clock where it
   * was (or earlier) and the timeline unchanged.
   */
  lemma StepAsWrittenOutcome(timeQuantum: int, s: State)
    requires Addressed(s)
    ensures var r := StepAsWritten(timeQuantum, s); |r.procs| == |s.procs|
    ensures var r := StepAsWritten(timeQuantum, s);
      Admitted(s).queue == [] ==> r.time == s.time + 1 && r.timeline == s.timeline + [0]
    ensures var r := StepAsWritten(timeQuantum, s);
      Admitted(s).queue != [] ==>
      var j := Admitted(s).queue[0];
      var slice := r.time - s.time;
      && j < |s.procs| && slice == Min(timeQuantum, s.procs[j].remaining)
      && r.procs[j].remaining == s.procs[j].remaining - slice
      && |r.timeline| == |s.timeline| + Max(slice, 0) && r.timeline[..|s.timeline|] == s.timeline
      && (timeQuantum <= 0 ==> r.time <= s.time && r.timeline == s.timeline)
  {
    var a := Admitted(s);
    if a.queue != [] {
      var j := a.queue[0];
      var slice := Min(timeQuantum, a.procs[j].remaining);
      var tl := a.timeline + Repeat(a.procs[j].process.pid, Max(slice, 0));
      assert tl[..|a.timeline|] == a.timeline;
      assert timeQuantum <= 0 ==> slice <= 0 && tl == a.timeline;
    }
  }

  /** `n` iterations of the loop as written. */
  function IterateAsWritten(timeQuantum: int, s: State, n: nat): (r: State)
    requires Addressed(s)
    ensures Addressed(r)
    decreases n
  {
    if n == 0 then s else IterateAsWritten(timeQuantum, StepAsWritten(timeQuantum, s), n - 1)
  }

  /** With a quantum of at least 1, the loop as written is the step of the model. */
  lemma AgreesWhenPositive(q: int, s: State)
    requires Ready(q, s)
    ensures Addressed(s) && StepAsWritten(q, s) == Step(q, s)
  {
    AdmitOk(Processes(s.procs), s.procs, s.queue, s.next, s.time);
    var a := Admitted(s);
    if a.queue != [] {
      HeadUnfinished(a.procs, a.queue, a.next, a.time);
      assert Max(Min(q, a.procs[a.queue[0]].remaining), 0) == Min(q, a.procs[a.queue[0]].remaining);
    }
  }

  /**
   * A loop state that cannot make progress: something is queued, every
   * queued process is unfinished, and nothing more has arrived by now.
   */
  predicate Stuck(s: State) {
    && Addressed(s)
    && s.queue != []
    && s.next == Arrivals(Processes(s.procs), s.next, s.time)
    && forall i :: 0 <= i < |s.queue| ==> s.procs[s.queue[i]].remaining > 0
  }

  /** Admission from a stuck state admits nothing. */
  lemma StuckAdmitted(s: State)
    requires Stuck(s)
    ensures Admitted(s) == s
  {
    assert Range(s.next, s.next) == [];
    assert s.queue + [] == s.queue;
  }

  /**
   * With a quantum of 0 or less, an iteration from a stuck state is stuck
   * again: the clock does not advance (it stays put for a quantum of 0 and
   * goes back for a negative one), the timeline is unchanged, the
   * records are those of the same processes, and no remaining time drops.
   */
  lemma StuckStep(timeQuantum: int, s: State)
    requires timeQuantum <= 0 && Stuck(s)
    ensures var r := StepAsWritten(timeQuantum, s);
      && Stuck(r) && r.time <= s.time && (timeQuantum == 0 ==> r.time == s.time)
      && r.timeline == s.timeline && |r.procs| == |s.procs| && Processes(r.procs) == Processes(s.procs)
      && forall x :: 0 <= x < |s.procs| ==> r.procs[x].remaining >= s.procs[x].remaining
  {
    StuckAdmitted(s);
    var pl := Processes(s.procs);
    var j := s.queue[0];
    var slice := Min(timeQuantum, s.procs[j].remaining);
    assert slice == timeQuantum;
    var time := s.time + slice;
    var procs := s.procs[j := Ran(s.procs[j], slice, time)];
    ProcessesOfUpdate(s.procs, j, Ran(s.procs[j], slice, time));
    assert Arrivals(pl, s.next, time) == s.next;
    var r := StepAsWritten(timeQuantum, s);
    assert r == State(time, s.timeline, procs, s.queue[1..] + [j], s.next) by {
      assert Repeat(s.procs[j].process.pid, 0) == [];
      assert Range(s.next, s.next) == [];
    }
    forall i | 0 <= i < |r.queue|
      ensures r.procs[r.queue[i]].remaining > 0
    {
      if i < |s.queue| - 1 {
        assert r.queue[i] == s.queue[i + 1];
      }
    }
  }

  /**
   * From a stuck state, with a quantum of 0 or less, the loop condition
   * (some process still has time remaining) holds after any number of
   * iterations, the clock never goes past where it was and no unit is ever
   * added to the timeline: the loop never ends.
   */
  lemma {:induction false} StuckForever(timeQuantum: int, s: State, n: nat)
    requires timeQuantum <= 0 && Stuck(s)
    ensures var r := IterateAsWritten(timeQuantum, s, n);
      && Stuck(r) && Unfinished(r.procs) && r.timeline == s.timeline
      && r.time <= s.time && (timeQuantum == 0 ==> r.time == s.time)
    decreases n
  {
    var r := IterateAsWritten(timeQuantum, s, n);
    if n > 0 {
      StuckStep(timeQuantum, s);
      StuckForever(timeQuantum, StepAsWritten(timeQuantum, s), n - 1);
    }
    StuckUnfinished(r);
  }

  /** A stuck state has an unfinished process: the head of its queue. */
  lemma StuckUnfinished(s: State)
    requires Stuck(s)
    ensures Unfinished(s.procs)
  {
    assert s.procs[s.queue[0]].remaining > 0;
  }

  /**
   * A cleared quantum field with one process P1 arriving at 0 with burst
   * 1: the first iteration dispatches P1 for a slice of 0 units, and from
   * then on the loop goes round forever at time 0 with an empty timeline.
   */
  lemma ClearedQuantumNeverEnds(n: nat)
    ensures var r := IterateAsWritten(0, Initial([Process(1, 0, 1)]), n + 1);
      && Unfinished(r.procs) && r.time == 0 && r.timeline == []
  {
    var p := Running(Process(1, 0, 1), 1, None);
    ClearedStart(p);
    ClearedFirst(p);
    var s1 := State(0, [], [p], [0], 1);
    StuckForever(0, s1, n);
    assert IterateAsWritten(0, Initial([Process(1, 0, 1)]), n + 1) == IterateAsWritten(0, s1, n);
  }

  /** The start of that run: the one fresh record, nothing queued, time 0. */
  lemma ClearedStart(p: Running)
    requires p == Running(Process(1, 0, 1), 1, None)
    ensures Initial([Process(1, 0, 1)]) == State(0, [], [p], [], 0)
  {
    assert Extend([Process(1, 0, 1)]) == [p];
    assert SortBy([p], RunningArrival) == [p] by {
      assert [p][1..] == [];
    }
  }

  /** Its first iteration: P1 is admitted and dispatched for 0 units, which leaves the loop stuck. */
  lemma ClearedFirst(p: Running)
    requires p == Running(Process(1, 0, 1), 1, None)
    ensures StepAsWritten(0, State(0, [], [p], [], 0)) == State(0, [], [p], [0], 1)
    ensures Stuck(State(0, [], [p], [0], 1))
  {
    var ps := [Process(1, 0, 1)];
    assert Processes([p]) == ps;
    assert Arrivals(ps, 0, 0) == 1;
    assert Arrivals(ps, 1, 0) == 1;
    assert Range(0, 1) == [0];
    assert Repeat(1, 0) == [];
  }
}
