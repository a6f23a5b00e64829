/**
 * Round robin (src/RR.tsx): one FIFO ready queue of positions in the
 * arrival-sorted record list and a fixed quantum. Each dispatch runs the
 * head of the queue for min(quantum, remaining) units; processes that
 * arrived by the end of the slice are queued before the process itself is
 * re-queued at the tail.
 */
module RoundRobin {
  import opened Common
  import opened Sorting
  import opened Accounting
  import opened Trace
  import opened Admission

  /**
   * The simulation state: the clock, the timeline so far, the records of
   * `processList`, the ready queue (positions in `processList`) and the
   * admission index `i`.
   */
  datatype State = State(time: int, timeline: seq<int>, procs: seq<Running>, queue: seq<nat>, next: nat)

  /**
   * What the ready queue keeps: positions below `next` have been admitted,
   * exactly the unfinished ones among them are queued, once each; positions
   * from `next` on are untouched; everything admitted had arrived by `time`.
   */
  predicate QueueOk(procs: seq<Running>, queue: seq<nat>, next: nat, time: int) {
    && next <= |procs|
    && Below(queue, next)
    && QueuedOnce(procs, queue, next)
    && Untouched(procs, next)
    && Arrived(procs, next, time)
  }

  /** Each admitted position is queued once if unfinished, never if finished. */
  predicate QueuedOnce(procs: seq<Running>, queue: seq<nat>, next: nat) {
    forall j :: 0 <= j < next && j < |procs| ==> Occurrences(queue, j) == if procs[j].remaining > 0 then 1 else 0
  }

  /** What a step needs: a positive quantum and a consistent queue. */
  predicate Ready(q: int, s: State) {
    q >= 1 && QueueOk(s.procs, s.queue, s.next, s.time) && PositiveBursts(s.procs)
  }

  /** Admission keeps the queue consistent and puts only unfinished positions in it. */
  lemma AdmitOk(pl: seq<Process>, procs: seq<Running>, queue: seq<nat>, next: nat, time: int)
    requires QueueOk(procs, queue, next, time) && PositiveBursts(procs)
    requires Processes(procs) == pl
    ensures var n := Arrivals(pl, next, time);
      QueueOk(procs, queue + Range(next, n), n, time)
  {
    var n := Arrivals(pl, next, time);
    var added := Range(next, n);
    var a := (queue + added, n);
    assert forall j :: 0 <= j < a.1 ==> Occurrences(a.0, j) == if procs[j].remaining > 0 then 1 else 0 by {
      forall j | 0 <= j < a.1
        ensures Occurrences(a.0, j) == if procs[j].remaining > 0 then 1 else 0
      {
        OccurrencesRange(next, a.1, j);
        OccurrencesAppend(queue, added, j);
        if j >= next {
          NotBelow(queue, next, j);
        }
      }
    }
    assert forall i :: 0 <= i < |a.0| ==> a.0[i] < a.1 by {
      forall i | 0 <= i < |a.0|
        ensures a.0[i] < a.1
      {
        if i >= |queue| {
          assert a.0[i] == added[i - |queue|];
        }
      }
    }
    assert forall j :: 0 <= j < a.1 ==> procs[j].process.arrivalTime <= time by {
      forall j | 0 <= j < a.1
        ensures procs[j].process.arrivalTime <= time
      {
        assert pl[j] == procs[j].process;
      }
    }
  }

  /** The head of a consistent queue is an unfinished position. */
  lemma HeadUnfinished(procs: seq<Running>, queue: seq<nat>, next: nat, time: int)
    requires QueueOk(procs, queue, next, time) && queue != []
    ensures queue[0] < |procs| && procs[queue[0]].remaining > 0
  {
    OccurrencesHead(queue);
  }

  /**
   * After a slice of the head `j`, ending at `now`: the rest of the queue,
   * then the arrivals admitted at `now`, then `j` again if it is unfinished,
   * is a consistent queue for the updated records.
   */
  lemma DispatchQueue(pl: seq<Process>, procs: seq<Running>, queue: seq<nat>, next: nat, time: int,
                      j: nat, slice: int, now: int, procs': seq<Running>, f: seq<nat>, next': nat)
    requires QueueOk(procs, queue, next, time) && PositiveBursts(procs) && queue != [] && j == queue[0]
    requires j < |procs| && 1 <= slice <= procs[j].remaining && now == time + slice
    requires procs' == procs[j := Ran(procs[j], slice, now)]
    requires Processes(procs) == pl && next' == Arrivals(pl, next, now)
    requires f == queue[1..] + Range(next, next') + if procs[j].remaining > slice then [j] else []
    ensures QueueOk(procs', f, next', now)
  {
    assert Below(f, next') by {
      DispatchBelow(queue, next, next', f, procs[j].remaining > slice);
    }
    assert QueuedOnce(procs', f, next') by {
      DispatchCounts(procs, queue, next, now, slice, procs', f, next');
    }
    assert Untouched(procs', next') by {
      UntouchedUpdate(procs, next, next', j, Ran(procs[j], slice, now));
    }
    assert Arrived(procs', next', now) by {
      DispatchArrived(pl, procs, next, time, slice, j);
    }
  }

  lemma DispatchBelow(queue: seq<nat>, next: nat, next': nat, f: seq<nat>, requeue: bool)
    requires Below(queue, next) && queue != [] && next <= next'
    requires f == queue[1..] + Range(next, next') + (if requeue then [queue[0]] else [])
    ensures Below(f, next')
  {
    var rest := queue[1..];
    var added := Range(next, next');
    forall i | 0 <= i < |f|
      ensures f[i] < next'
    {
      if i < |rest| {
        assert f[i] == queue[i + 1];
      } else if i < |rest| + |added| {
        assert f[i] == added[i - |rest|];
      }
    }
  }

  lemma DispatchCounts(procs: seq<Running>, queue: seq<nat>, next: nat, time': int, slice: int,
                       procs': seq<Running>, f: seq<nat>, next': nat)
    requires next <= |procs| && Below(queue, next) && QueuedOnce(procs, queue, next)
    requires Untouched(procs, next) && PositiveBursts(procs) && queue != []
    requires 1 <= slice <= procs[queue[0]].remaining
    requires procs' == procs[queue[0] := Ran(procs[queue[0]], slice, time')]
    requires next <= next' <= |procs|
    requires f == queue[1..] + Range(next, next') + if procs[queue[0]].remaining > slice then [queue[0]] else []
    ensures QueuedOnce(procs', f, next')
  {
    var requeue := procs[queue[0]].remaining > slice;
    assert QueuedOnce(procs', f, next') by {
      forall k: nat | k < next' && k < |procs'|
        ensures Occurrences(f, k) == if procs'[k].remaining > 0 then 1 else 0
      {
        CountAfterSlice(queue, next, next', requeue, k);
      }
    }
  }

  /** How often `k` occurs in the queue after a slice of its head. */
  lemma CountAfterSlice(queue: seq<nat>, next: nat, next': nat, requeue: bool, k: nat)
    requires Below(queue, next) && queue != [] && next <= next'
    ensures var f := queue[1..] + Range(next, next') + (if requeue then [queue[0]] else []);
      Occurrences(f, k)
        == (if k < next then Occurrences(queue, k) - (if k == queue[0] then 1 else 0) else 0)
         + (if next <= k < next' then 1 else 0)
         + (if requeue && k == queue[0] then 1 else 0)
  {
    var rest := queue[1..];
    var added := Range(next, next');
    var back: seq<nat> := if requeue then [queue[0]] else [];
    assert [queue[0]] + rest == queue;
    assert [queue[0]][..0] == [];
    OccurrencesAppend([queue[0]], rest, k);
    OccurrencesAppend(rest, added, k);
    OccurrencesAppend(rest + added, back, k);
    OccurrencesRange(next, next', k);
    if k >= next {
      NotBelow(queue, next, k);
    }
  }

  /** The admission loop: every position that has arrived by now joins the tail of the queue, in order. */
  function Admitted(s: State): State
    requires s.next <= |s.procs|
  {
    var n := Arrivals(Processes(s.procs), s.next, s.time);
    s.(queue := s.queue + Range(s.next, n), next := n)
  }

  /** Nothing is queued: the CPU idles for one unit (pid 0). */
  function Idle(s: State): State {
    State(s.time + 1, s.timeline + [0], s.procs, s.queue, s.next)
  }

  /**
   * The head `j` runs `min(timeQuantum, remaining)` units, arrivals during
   * the slice are admitted, and `j` is re-queued behind them if unfinished
   * (its finish time is the end of the slice otherwise).
   */
  function Dispatch(q: int, s: State): State
    requires q >= 1 && s.queue != [] && s.queue[0] < |s.procs| && s.next <= |s.procs|
    requires s.procs[s.queue[0]].remaining >= 0
  {
    var j := s.queue[0];
    var slice := Min(q, s.procs[j].remaining);
    var time := s.time + slice;
    var procs := s.procs[j := Ran(s.procs[j], slice, time)];
    var n := Arrivals(Processes(s.procs), s.next, time);
    State(time, s.timeline + Repeat(s.procs[j].process.pid, slice), procs,
          s.queue[1..] + Range(s.next, n) + if procs[j].remaining > 0 then [j] else [], n)
  }

  /** One iteration of the simulation loop. */
  function Step(q: int, s: State): State
    requires Ready(q, s)
  {
    var a := Admitted(s);
    AdmitOk(Processes(s.procs), s.procs, s.queue, s.next, s.time);
    if a.queue == [] then Idle(a)
    else
      HeadUnfinished(a.procs, a.queue, a.next, a.time);
      Dispatch(q, a)
  }

  /** What the loop keeps true, starting from the arrival-sorted records of `pl`. */
  predicate Inv(pl: seq<Process>, q: int, s: State) {
    && ValidProcesses(pl)
    && ArrivalSorted(pl)
    && q >= 1
    && Processes(s.procs) == pl
    && s.time == |s.timeline|
    && Accounted(s.procs, s.timeline)
    && QueueOk(s.procs, s.queue, s.next, s.time)
  }

  lemma InvReady(pl: seq<Process>, q: int, s: State)
    requires Inv(pl, q, s)
    ensures Ready(q, s)
  {
    forall j | 0 <= j < |s.procs|
      ensures s.procs[j].process.burstTime >= 1
    {
      assert pl[j] == s.procs[j].process && ValidProcess(pl[j]);
    }
  }

  /** The start: fresh records sorted by arrival, an empty queue, admission index 0, time 0. */
  function Initial(ps: seq<Process>): State {
    State(0, [], SortBy(Extend(ps), RunningArrival), [], 0)
  }

  lemma InitialInv(ps: seq<Process>, q: int)
    requires ValidProcesses(ps) && q >= 1
    ensures Inv(SortBy(ps, ArrivalOf), q, Initial(ps))
  {
    SortedExtension(ps);
    SortedValid(ps);
    AccountedInitially(SortBy(ps, ArrivalOf));
  }

  /**
   * An idle unit (src/RR.tsx:57-61) keeps the invariant, and happens only
   * while some unfinished process has yet to arrive.
   */
  lemma IdleStepInv(pl: seq<Process>, q: int, s: State)
    requires Inv(pl, q, s) && Unfinished(s.procs)
    requires Admitted(s).queue == []
    ensures Ready(q, s) && Inv(pl, q, Step(q, s))
    ensures Step(q, s).procs == s.procs && Step(q, s).time == s.time + 1 && s.time < MaxArrival(pl)
    ensures Step(q, s).timeline == s.timeline + [0] && Step(q, s).queue == []
    ensures Step(q, s).next == Arrivals(pl, s.next, s.time)
  {
    InvReady(pl, q, s);
    AdmitOk(Processes(s.procs), s.procs, s.queue, s.next, s.time);
    assert Step(q, s) == Idle(Admitted(s));
    IdentifiedOf(pl, s.procs);
    IdleUnit(s.procs, s.timeline);
    var j :| 0 <= j < |s.procs| && s.procs[j].remaining > 0;
    ArrivalsSorted(pl, s.next, s.time);
    assert pl[j] == s.procs[j].process;
  }

  /** The head of the queue after an admission is an unfinished position. */
  lemma AdmittedHead(q: int, s: State, queue: seq<nat>, next: nat, j: nat)
    requires Ready(q, s)
    requires next == Arrivals(Processes(s.procs), s.next, s.time)
    requires queue == s.queue + Range(s.next, next)
    requires queue != [] && j == queue[0]
    ensures j < |s.procs| && 1 <= s.procs[j].remaining
  {
    AdmitOk(Processes(s.procs), s.procs, s.queue, s.next, s.time);
    HeadUnfinished(s.procs, queue, next, s.time);
  }

  /**
   * The step after an admission that left the queue non-empty, spelled out:
   * `queue` and `next` are the queue and index after admission, `j` its
   * head, which runs `slice` units up to `now`.
   */
  lemma StepDispatch(q: int, s: State, queue: seq<nat>, next: nat, j: nat, slice: int, now: int, n: nat,
                     tl': seq<int>, procs': seq<Running>, f: seq<nat>)
    requires Ready(q, s)
    requires next == Arrivals(Processes(s.procs), s.next, s.time)
    requires queue == s.queue + Range(s.next, next)
    requires queue != [] && j == queue[0] && j < |s.procs| && s.procs[j].remaining >= 1
    requires slice == Min(q, s.procs[j].remaining) && now == s.time + slice
    requires n == Arrivals(Processes(s.procs), next, now)
    requires tl' == s.timeline + Repeat(s.procs[j].process.pid, slice)
    requires procs' == s.procs[j := Ran(s.procs[j], slice, now)]
    requires f == queue[1..] + Range(next, n) + (if s.procs[j].remaining > slice then [j] else [])
    ensures Step(q, s) == State(now, tl', procs', f, n)
  {
  }

  /** The invariant from its parts, for a state given by its fields. */
  lemma InvOf(pl: seq<Process>, q: int, time: int, tl: seq<int>, procs: seq<Running>, queue: seq<nat>, next: nat)
    requires ValidProcesses(pl) && ArrivalSorted(pl) && q >= 1
    requires Processes(procs) == pl && time == |tl|
    requires Accounted(procs, tl) && QueueOk(procs, queue, next, time)
    ensures Inv(pl, q, State(time, tl, procs, queue, next))
  {
  }

  /**
   * A dispatch (src/RR.tsx:62-83) from the admitted queue `queue` keeps the
   * invariant and uses up `slice` units of work.
   */
  lemma DispatchInv(pl: seq<Process>, q: int, time: int, tl: seq<int>, procs: seq<Running>, queue: seq<nat>, next: nat,
                    j: nat, slice: int, now: int, n: nat, r: Running, tl': seq<int>, procs': seq<Running>, f: seq<nat>)
    requires ValidProcesses(pl) && ArrivalSorted(pl) && q >= 1
    requires Processes(procs) == pl && time == |tl| && Accounted(procs, tl)
    requires QueueOk(procs, queue, next, time) && PositiveBursts(procs)
    requires queue != [] && j == queue[0] && j < |procs| && procs[j].remaining >= 1
    requires slice == Min(q, procs[j].remaining) && now == time + slice && n == Arrivals(pl, next, now)
    requires r == Ran(procs[j], slice, now) && procs' == procs[j := r]
    requires tl' == tl + Repeat(procs[j].process.pid, slice)
    requires f == queue[1..] + Range(next, n) + (if procs[j].remaining > slice then [j] else [])
    ensures Inv(pl, q, State(now, tl', procs', f, n))
    ensures TotalRemaining(procs') == TotalRemaining(procs) - slice
  {
    IdentifiedOf(pl, procs);
    HeadArrived(procs, queue, next, time, j);
    RunSlice(procs, tl, j, slice, now);
    DispatchQueue(pl, procs, queue, next, time, j, slice, now, procs', f, n);
    ProcessesOfUpdate(procs, j, r);
    TotalRemainingUpdate(procs, j, r);
    InvOf(pl, q, now, tl', procs', f, n);
  }

  /** The head of the queue was admitted, so it has arrived. */
  lemma HeadArrived(procs: seq<Running>, queue: seq<nat>, next: nat, time: int, j: nat)
    requires QueueOk(procs, queue, next, time) && queue != [] && j == queue[0] && j < |procs|
    ensures procs[j].process.arrivalTime <= time
  {
  }

  lemma RunStepInv(pl: seq<Process>, q: int, s: State)
    requires Inv(pl, q, s)
    requires Admitted(s).queue != []
    ensures Ready(q, s) && Inv(pl, q, Step(q, s))
    ensures TotalRemaining(Step(q, s).procs) < TotalRemaining(s.procs)
  {
    InvReady(pl, q, s);
    AdmitOk(pl, s.procs, s.queue, s.next, s.time);
    var next := Arrivals(pl, s.next, s.time);
    var queue := s.queue + Range(s.next, next);
    var j := queue[0];
    AdmittedHead(q, s, queue, next, j);
    var slice := Min(q, s.procs[j].remaining);
    var now := s.time + slice;
    var n := Arrivals(pl, next, now);
    var r := Ran(s.procs[j], slice, now);
    var tl' := s.timeline + Repeat(s.procs[j].process.pid, slice);
    var procs' := s.procs[j := r];
    var f := queue[1..] + Range(next, n) + (if s.procs[j].remaining > slice then [j] else []);
    StepDispatch(q, s, queue, next, j, slice, now, n, tl', procs', f);
    DispatchInv(pl, q, s.time, s.timeline, s.procs, queue, next, j, slice, now, n, r, tl', procs', f);
  }

  /**
   * What a dispatch does (src/RR.tsx:62-83): the head `j` of the admitted
   * queue runs for between 1 and q units, min(q, remaining) of them; the
   * timeline grows by exactly those units, each holding `j`'s pid; only
   * `j`'s record changes, its remaining time dropping by the slice; the
   * processes that arrived by the end of the slice join the queue, and `j`
   * behind them if unfinished, while a finished `j` gets the end of the
   * slice as its finish time and leaves the queue for good.
   */
  lemma SliceOutcome(pl: seq<Process>, q: int, s: State)
    requires Inv(pl, q, s) && Admitted(s).queue != []
    ensures var a := Admitted(s);
      var j := a.queue[0];
      var r := Step(q, s);
      var slice := r.time - s.time;
      && j < |s.procs| && |r.procs| == |s.procs|
      && 1 <= slice <= q && slice == Min(q, s.procs[j].remaining)
      && |r.timeline| == |s.timeline| + slice && r.timeline[..|s.timeline|] == s.timeline
      && (forall i :: |s.timeline| <= i < |r.timeline| ==> r.timeline[i] == s.procs[j].process.pid)
      && r.procs[j].remaining == s.procs[j].remaining - slice
      && (forall x :: 0 <= x < |s.procs| && x != j ==> r.procs[x] == s.procs[x])
      && a.next <= r.next && r.next == Arrivals(pl, a.next, r.time)
      && (r.procs[j].remaining > 0 ==> r.queue == a.queue[1..] + Range(a.next, r.next) + [j])
      && (r.procs[j].remaining == 0 ==>
            && r.procs[j].finishTime == Some(r.time)
            && r.queue == a.queue[1..] + Range(a.next, r.next)
            && Occurrences(r.queue, j) == 0)
  {
    InvReady(pl, q, s);
    AdmitOk(pl, s.procs, s.queue, s.next, s.time);
    var next := Arrivals(pl, s.next, s.time);
    var queue := s.queue + Range(s.next, next);
    var j := queue[0];
    AdmittedHead(q, s, queue, next, j);
    RunStepInv(pl, q, s);
    var a := Admitted(s);
    assert Step(q, s) == Dispatch(q, a);
    DispatchFacts(q, a);
    assert j < next;
  }

  /** The dispatch of an unfinished head, in terms of the state it starts from. */
  lemma DispatchFacts(q: int, a: State)
    requires q >= 1 && a.queue != [] && a.queue[0] < |a.procs| && a.next <= |a.procs|
    requires a.procs[a.queue[0]].remaining >= 1
    ensures var j := a.queue[0];
      var r := Dispatch(q, a);
      var slice := r.time - a.time;
      && |r.procs| == |a.procs|
      && 1 <= slice <= q && slice == Min(q, a.procs[j].remaining)
      && |r.timeline| == |a.timeline| + slice && r.timeline[..|a.timeline|] == a.timeline
      && (forall i :: |a.timeline| <= i < |r.timeline| ==> r.timeline[i] == a.procs[j].process.pid)
      && r.procs[j].remaining == a.procs[j].remaining - slice
      && (forall x :: 0 <= x < |a.procs| && x != j ==> r.procs[x] == a.procs[x])
      && a.next <= r.next && r.next == Arrivals(Processes(a.procs), a.next, r.time)
      && r.queue == a.queue[1..] + Range(a.next, r.next) + (if r.procs[j].remaining > 0 then [j] else [])
      && (r.procs[j].remaining == 0 ==> r.procs[j].finishTime == Some(r.time))
  {
    var r := Dispatch(q, a);
    assert r.timeline[..|a.timeline|] == a.timeline;
  }

  /** A step keeps the invariant and either uses work or idles before an arrival. */
  lemma StepInv(pl: seq<Process>, q: int, s: State)
    requires Inv(pl, q, s) && Unfinished(s.procs)
    ensures Ready(q, s) && Inv(pl, q, Step(q, s))
    ensures TotalRemaining(Step(q, s).procs) < TotalRemaining(s.procs)
         || (TotalRemaining(Step(q, s).procs) == TotalRemaining(s.procs)
             && s.time < MaxArrival(pl) && Step(q, s).time == s.time + 1)
  {
    if Admitted(s).queue == [] {
      IdleStepInv(pl, q, s);
    } else {
      RunStepInv(pl, q, s);
    }
  }

  /** The simulation loop: iterate the step until nothing remains. */
  function Run(pl: seq<Process>, q: int, s: State): State
    requires Inv(pl, q, s)
    decreases TotalRemaining(s.procs), MaxArrival(pl) - s.time
  {
    if !Unfinished(s.procs) then s
    else
      StepInv(pl, q, s);
      TotalRemainingBounds(s.procs);
      Run(pl, q, Step(q, s))
  }

  /** The loop ends with the invariant kept and nothing remaining. */
  lemma {:induction false} RunInv(pl: seq<Process>, q: int, s: State)
    requires Inv(pl, q, s)
    ensures Inv(pl, q, Run(pl, q, s)) && !Unfinished(Run(pl, q, s).procs)
    decreases TotalRemaining(s.procs), MaxArrival(pl) - s.time
  {
    if Unfinished(s.procs) {
      StepInv(pl, q, s);
      TotalRemainingBounds(s.procs);
      RunInv(pl, q, Step(q, s));
    }
  }

  /** The final state of the round-robin simulation of `ps` with quantum `q`. */
  function Simulate(ps: seq<Process>, q: int): (r: State)
    requires ValidProcesses(ps) && q >= 1
    ensures AllFinished(r.procs)
  {
    InitialInv(ps, q);
    var pl := SortBy(ps, ArrivalOf);
    RunInv(pl, q, Initial(ps));
    var r := Run(pl, q, Initial(ps));
    InvReady(pl, q, r);
    AccountedComplete(r.procs, r.timeline);
    r
  }

  /** The simulation ends in a state that keeps the invariant, with nothing remaining. */
  lemma SimulateInv(ps: seq<Process>, q: int)
    requires ValidProcesses(ps) && q >= 1
    ensures Inv(SortBy(ps, ArrivalOf), q, Simulate(ps, q)) && !Unfinished(Simulate(ps, q).procs)
  {
    InitialInv(ps, q);
    RunInv(SortBy(ps, ArrivalOf), q, Initial(ps));
  }

  /**
   * A finished state: every record has its finish time, appears in the
   * timeline exactly burstTime times, finished at the end of its last unit
   * and no earlier than arrival + burst; the timeline is the idle units
   * plus all bursts.
   */
  lemma FinishedProperties(pl: seq<Process>, q: int, s: State)
    requires Inv(pl, q, s) && !Unfinished(s.procs)
    ensures AllFinished(s.procs)
    ensures forall j :: 0 <= j < |pl| ==> Occurrences(s.timeline, pl[j].pid) == pl[j].burstTime
    ensures forall j :: 0 <= j < |s.procs| ==>
      s.procs[j].finishTime.value >= s.procs[j].process.arrivalTime + s.procs[j].process.burstTime
    ensures |s.timeline| == Occurrences(s.timeline, 0) + SumBursts(pl)
  {
    assert forall j :: 0 <= j < |s.procs| ==> s.procs[j].process == pl[j] && ValidProcess(pl[j]);
    AccountedComplete(s.procs, s.timeline);
  }

  /**
   * What the round-robin simulation of a valid list ends with: the records
   * are the input stably sorted by arrival, each finished, appears in the
   * timeline exactly burstTime times, finished at the end of its last unit
   * and no earlier than arrival + burst; the timeline is the idle units
   * plus all bursts and the clock is its length.
   */
  lemma SimulateProperties(ps: seq<Process>, q: int)
    requires ValidProcesses(ps) && q >= 1
    ensures var s := Simulate(ps, q);
      && AllFinished(s.procs)
      && Processes(s.procs) == SortBy(ps, ArrivalOf)
      && ArrivalSorted(Processes(s.procs))
      && multiset(Processes(s.procs)) == multiset(ps)
      && s.time == |s.timeline|
      && (forall j :: 0 <= j < |ps| ==> Occurrences(s.timeline, ps[j].pid) == ps[j].burstTime)
      && (forall j :: 0 <= j < |s.procs| ==>
            s.procs[j].finishTime.value >= s.procs[j].process.arrivalTime + s.procs[j].process.burstTime)
      && FinishRecorded(s.procs, s.timeline)
      && |s.timeline| == Occurrences(s.timeline, 0) + SumBursts(ps)
  {
    var pl := SortBy(ps, ArrivalOf);
    var s := Simulate(ps, q);
    SimulateInv(ps, q);
    SortedValid(ps);
    FinishedProperties(pl, q, s);
    PermutedCounts(ps, pl, s.timeline);
  }

  /**
   * One dispatch (src/RR.tsx:63-83) of the head of the admitted queue
   * `queue`, where `s` is the state at the top of the iteration: the slice
   * loop, the update of the record, the second admission and the re-queue
   * or finish. Together with its effect on the array this is the step of `s`.
   */
  method RunHead(processList: array<Running>, q: int, time: int, timeline: seq<int>, queue: seq<nat>,
                 next: nat, ghost s: State)
    returns (time': int, timeline': seq<int>, queue': seq<nat>, next': nat)
    requires Ready(q, s) && s.procs == processList[..] && s.time == time && s.timeline == timeline
    requires next == Arrivals(Processes(s.procs), s.next, s.time) && queue == s.queue + Range(s.next, next)
    requires queue != []
    modifies processList
    ensures Step(q, s) == State(time', timeline', processList[..], queue', next')
  {
    var j := queue[0];
    AdmittedHead(q, s, queue, next, j);
    var current := processList[j];
    var slice := Min(q, current.remaining);
    timeline' := timeline;
    for t := 0 to slice
      invariant timeline' == timeline + Repeat(current.process.pid, t)
    {
      timeline' := timeline' + [current.process.pid];
    }
    time' := time + slice;
    ghost var r := Ran(current, slice, time');
    current := current.(remaining := current.remaining - slice);
    processList[j] := current;
    ProcessesOfUpdate(s.procs, j, r);
    queue', next' := Admit(processList, queue[1..], next, time');
    if current.remaining > 0 {
      queue' := queue' + [j];
    } else {
      current := current.(finishTime := Some(time'));
      processList[j] := current;
    }
    ghost var procs' := processList[..];
    assert procs' == s.procs[j := r];
    StepDispatch(q, s, queue, next, j, slice, time', next', timeline', procs', queue');
  }

  /**
   * One iteration of the simulation loop (src/RR.tsx:51-84) from state `s`:
   * the admission, then an idle unit or a dispatch.
   */
  method Iteration(processList: array<Running>, q: int, time: int, timeline: seq<int>, queue: seq<nat>,
                   next: nat, ghost s: State)
    returns (time': int, timeline': seq<int>, queue': seq<nat>, next': nat)
    requires Ready(q, s) && s == State(time, timeline, processList[..], queue, next)
    modifies processList
    ensures Step(q, s) == State(time', timeline', processList[..], queue', next')
  {
    queue', next' := Admit(processList, queue, next, time);
    if |queue'| == 0 {
      timeline' := timeline + [0];
      time' := time + 1;
    } else {
      time', timeline', queue', next' := RunHead(processList, q, time, timeline, queue', next', s);
    }
  }

  /**
   * The simulation loop (src/RR.tsx:32-84) over the arrival-sorted records
   * in `processList`: `time`, `timeline`, `readyQueue` and `i` start at
   * zero and empty, and the loop ends in the final state of the round-robin
   * simulation of `ps`.
   */
  method SimulationLoop(processList: array<Running>, timeQuantum: int, ghost ps: seq<Process>)
    returns (timeline: seq<int>)
    requires ValidProcesses(ps) && timeQuantum >= 1 && processList[..] == Initial(ps).procs
    modifies processList
    ensures timeline == Simulate(ps, timeQuantum).timeline && processList[..] == Simulate(ps, timeQuantum).procs
  {
    ghost var pl := SortBy(ps, ArrivalOf);
    var time := 0;
    timeline := [];
    var readyQueue: seq<nat> := [];
    var i: nat := 0;
    InitialInv(ps, timeQuantum);
    while Unfinished(processList[..])
      invariant Inv(pl, timeQuantum, State(time, timeline, processList[..], readyQueue, i))
      invariant Run(pl, timeQuantum, State(time, timeline, processList[..], readyQueue, i)) == Simulate(ps, timeQuantum)
      decreases TotalRemaining(processList[..]), MaxArrival(pl) - time
    {
      ghost var s := State(time, timeline, processList[..], readyQueue, i);
      StepInv(pl, timeQuantum, s);
      TotalRemainingBounds(s.procs);
      time, timeline, readyQueue, i := Iteration(processList, timeQuantum, time, timeline, readyQueue, i, s);
    }
  }

  /**
   * The round-robin effect (src/RR.tsx:31-121): the records sorted by
   * arrival in an array, the simulation loop, then the results in that
   * order, the segments and the total time.
   */
  method RunRoundRobin(processes: seq<Process>, timeQuantum: int)
    returns (timeline: seq<int>, results: seq<ProcessResult>, segments: seq<Segment>, totalTime: int)
    requires ValidProcesses(processes) && timeQuantum >= 1
    ensures timeline == Simulate(processes, timeQuantum).timeline
    ensures results == Results(Simulate(processes, timeQuantum).procs)
    ensures |results| == |processes|
    ensures forall j :: 0 <= j < |results| ==>
      var p := SortBy(processes, ArrivalOf)[j];
      && results[j].pid == p.pid && results[j].arrivalTime == p.arrivalTime && results[j].burstTime == p.burstTime
      && results[j].finishTime >= p.arrivalTime + p.burstTime
    ensures forall j :: 0 <= j < |processes| ==> Occurrences(timeline, processes[j].pid) == processes[j].burstTime
    ensures totalTime == |timeline| == Occurrences(timeline, 0) + SumBursts(processes)
    ensures segments == Compress(timeline) && Tiles(segments, 0, totalTime) && Alternating(segments)
  {
    var sorted := SortBy(Extend(processes), RunningArrival);
    var processList := new Running[|sorted|];
    forall k | 0 <= k < |sorted| {
      processList[k] := sorted[k];
    }
    assert processList[..] == sorted;
    timeline := SimulationLoop(processList, timeQuantum, processes);
    SimulateProperties(processes, timeQuantum);
    results := Results(processList[..]);
    segments := CompressTimeline(timeline);
    totalTime := |timeline|;
  }

  /** A slice of the worked example: after admission the head runs, from a state with work left. */
  lemma ExampleSlice(pl: seq<Process>, q: int, s: State, a: State, s': State)
    requires Inv(pl, q, s) && Unfinished(s.procs)
    requires Admitted(s) == a && a.queue != []
    requires a.queue[0] < |a.procs| && a.next <= |a.procs| && a.procs[a.queue[0]].remaining >= 0
    requires Dispatch(q, a) == s'
    ensures Inv(pl, q, s') && Run(pl, q, s) == Run(pl, q, s')
  {
    StepInv(pl, q, s);
  }

  lemma ProcessesPair(a: Running, b: Running)
    ensures Processes([a, b]) == [a.process, b.process]
  {
  }

  /**
   * The states of the worked example: the start, the start after admitting
   * P1, and the states after each of the three slices.
   */
  function ExampleStates(): (ss: seq<State>)
    ensures |ss| == 5
  {
    var p1, p2 := Process(1, 0, 4), Process(2, 1, 2);
    [ State(0, [], [Running(p1, 4, None), Running(p2, 2, None)], [], 0),
      State(0, [], [Running(p1, 4, None), Running(p2, 2, None)], [0], 1),
      State(2, [1, 1], [Running(p1, 2, None), Running(p2, 2, None)], [1, 0], 2),
      State(4, [1, 1, 2, 2], [Running(p1, 2, None), Running(p2, 0, Some(4))], [0], 2),
      State(6, [1, 1, 2, 2, 1, 1], [Running(p1, 0, Some(6)), Running(p2, 0, Some(4))], [], 2) ]
  }

  /** The worked example's input is already in arrival order. */
  lemma ExampleStart()
    ensures var ps := [Process(1, 0, 4), Process(2, 1, 2)];
      SortBy(ps, ArrivalOf) == ps && Initial(ps) == ExampleStates()[0]
  {
    var ps := [Process(1, 0, 4), Process(2, 1, 2)];
    SortBySortedInput(ps, ArrivalOf);
    SortedExtension(ps);
    assert Extend(ps) == ExampleStates()[0].procs;
  }

  /** A state whose queue head is a record that can be dispatched. */
  predicate Headed(s: State) {
    s.queue != [] && s.queue[0] < |s.procs| && s.next <= |s.procs| && s.procs[s.queue[0]].remaining >= 0
  }

  /** An input already in arrival order: the simulation is the loop run from its first state. */
  lemma SimulateFrom(ps: seq<Process>, q: int, s: State)
    requires ValidProcesses(ps) && q >= 1
    requires SortBy(ps, ArrivalOf) == ps && Initial(ps) == s
    ensures Inv(ps, q, s) && Simulate(ps, q) == Run(ps, q, s)
  {
    InitialInv(ps, q);
  }

  lemma ExampleValid()
    ensures ValidProcesses([Process(1, 0, 4), Process(2, 1, 2)])
  {
  }

  /** The simulation of the worked example is the loop run from its first state. */
  lemma ExampleInit(ps: seq<Process>, s: State)
    requires ps == [Process(1, 0, 4), Process(2, 1, 2)] && s == ExampleStates()[0]
    ensures ValidProcesses(ps) && Inv(ps, 2, s) && Simulate(ps, 2) == Run(ps, 2, s)
  {
    ExampleStart();
    ExampleValid();
    SimulateFrom(ps, 2, s);
  }

  /** Admission and the three slices, evaluated. */
  lemma ExampleSteps()
    ensures var ss := ExampleStates();
      && Unfinished(ss[0].procs) && Unfinished(ss[2].procs) && Unfinished(ss[3].procs)
      && ss[0].next <= |ss[0].procs| && Headed(ss[1]) && Headed(ss[2]) && Headed(ss[3])
      && Admitted(ss[0]) == ss[1] && Dispatch(2, ss[1]) == ss[2]
      && Admitted(ss[2]) == ss[2] && Dispatch(2, ss[2]) == ss[3]
      && Admitted(ss[3]) == ss[3] && Dispatch(2, ss[3]) == ss[4]
  {
    var ss := ExampleStates();
    var ps := [Process(1, 0, 4), Process(2, 1, 2)];
    ProcessesPair(ss[0].procs[0], ss[0].procs[1]);
    ProcessesPair(ss[2].procs[0], ss[2].procs[1]);
    ProcessesPair(ss[3].procs[0], ss[3].procs[1]);
    assert ss[0].procs[0].remaining > 0 && ss[2].procs[0].remaining > 0 && ss[3].procs[0].remaining > 0;
    assert Arrivals(ps, 0, 0) == 1 && Arrivals(ps, 1, 2) == 2;
    assert Arrivals(ps, 2, 4) == 2 && Arrivals(ps, 2, 6) == 2;
  }

  /** The last state of the worked example is finished, and what it shows. */
  lemma ExampleEnd()
    ensures var r := ExampleStates()[4];
      && !Unfinished(r.procs) && AllFinished(r.procs)
      && Compress(r.timeline) == [Segment(1, 0, 2), Segment(2, 2, 4), Segment(1, 4, 6)]
      && Results(r.procs) == [ProcessResult(1, 0, 4, 6), ProcessResult(2, 1, 2, 4)]
  {
    var tl := ExampleStates()[4].timeline;
    assert RunsFrom(tl, 4, 5) == [Segment(1, 4, 6)];
    assert RunsFrom(tl, 2, 3) == [Segment(2, 2, 4)] + RunsFrom(tl, 4, 5);
    assert RunsFrom(tl, 0, 1) == [Segment(1, 0, 2)] + RunsFrom(tl, 2, 3);
  }

  /** Three slices, each after an admission, take the loop from `ss[0]` to the finished `ss[4]`. */
  lemma ExampleRun(pl: seq<Process>, q: int, ss: seq<State>)
    requires |ss| == 5 && q >= 1 && ss[0].next <= |ss[0].procs| && Headed(ss[1]) && Headed(ss[2]) && Headed(ss[3])
    requires Admitted(ss[0]) == ss[1] && Dispatch(q, ss[1]) == ss[2]
    requires Admitted(ss[2]) == ss[2] && Dispatch(q, ss[2]) == ss[3]
    requires Admitted(ss[3]) == ss[3] && Dispatch(q, ss[3]) == ss[4]
    requires Inv(pl, q, ss[0])
    requires Unfinished(ss[0].procs) && Unfinished(ss[2].procs) && Unfinished(ss[3].procs) && !Unfinished(ss[4].procs)
    ensures Run(pl, q, ss[0]) == ss[4]
  {
    ExampleSlice(pl, q, ss[0], ss[1], ss[2]);
    ExampleSlice(pl, q, ss[2], ss[2], ss[3]);
    ExampleSlice(pl, q, ss[3], ss[3], ss[4]);
  }

  /**
   * The worked example P1(0,4), P2(1,2) with quantum 2: P2 arrives during
   * P1's first slice and is queued ahead of it, giving the segments
   * [1,0,2], [2,2,4], [1,4,6] and the finish times P1 = 6, P2 = 4.
   */
  lemma RoundRobinExample()
    ensures var r := Simulate([Process(1, 0, 4), Process(2, 1, 2)], 2);
      && r.timeline == [1, 1, 2, 2, 1, 1]
      && Compress(r.timeline) == [Segment(1, 0, 2), Segment(2, 2, 4), Segment(1, 4, 6)]
      && Results(r.procs) == [ProcessResult(1, 0, 4, 6), ProcessResult(2, 1, 2, 4)]
  {
    var ps := [Process(1, 0, 4), Process(2, 1, 2)];
    ExampleInit(ps, ExampleStates()[0]);
    ExampleSteps();
    ExampleEnd();
    ExampleRun(ps, 2, ExampleStates());
  }
}
