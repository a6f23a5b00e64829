/**
 * The three-level feedback queue (src/components/MFLQ.tsx:36-189). Levels
 * 1, 2 and 3 have quanta q, 2q and 4q. New arrivals always enter level 1;
 * the head of the highest non-empty level runs for min(quantum, remaining)
 * units; an unfinished process is demoted one level (level 3 keeps it) and
 * queued behind the processes that arrived during its slice.
 */
module Mlfq {
  import opened Common
  import opened Sorting
  import opened Accounting
  import opened Admission
  import opened Trace
  import opened Levels

  /** The quantum of level k: q, 2q and 4q for levels 1, 2 and 3. */
  function Quantum(q: int, k: int): int {
    if k == 1 then q else if k == 2 then q * 2 else q * 4
  }

  /** The pids of the timeline entries, the view the bookkeeping is stated on. */
  function Pids(tl: seq<Entry>): (r: seq<int>)
    ensures |r| == |tl|
    ensures forall i :: 0 <= i < |tl| ==> r[i] == tl[i].pid
  {
    seq(|tl|, i requires 0 <= i < |tl| => tl[i].pid)
  }

  /**
   * The simulation state: the clock, the timeline so far, the records of
   * `processList`, their `currentQueue` fields, the queues of levels 1-3
   * (positions in `processList`, at indices 0-2) and `arrivalIndex`.
   */
  datatype State = State(time: int, timeline: seq<Entry>, procs: seq<Running>, level: seq<int>,
                         queues: seq<seq<nat>>, next: nat)

  /** How often position `x` is queued, over the three levels. */
  function Queued(qs: seq<seq<nat>>, x: int): nat
    requires |qs| == 3
  {
    Occurrences(qs[0], x) + Occurrences(qs[1], x) + Occurrences(qs[2], x)
  }

  /** Each admitted position is queued once, at one level, if unfinished, never if finished. */
  predicate QueuedOnce(procs: seq<Running>, qs: seq<seq<nat>>, next: nat)
    requires |qs| == 3
  {
    forall j :: 0 <= j < next && j < |procs| ==> Queued(qs, j) == if procs[j].remaining > 0 then 1 else 0
  }

  /** Every process that has arrived by `time` has been admitted. */
  predicate Caught(procs: seq<Running>, next: nat, time: int) {
    next < |procs| ==> procs[next].process.arrivalTime > time
  }

  /**
   * Levels are 1-3; positions not yet admitted are at level 1; a queued
   * position sits at its recorded level, and those at level 1 have not run
   * (so a demoted process never returns to level 1).
   */
  predicate LevelsOk(procs: seq<Running>, level: seq<int>, qs: seq<seq<nat>>, next: nat)
    requires |qs| == 3
  {
    && (forall j :: 0 <= j < |level| ==> 1 <= level[j] <= 3)
    && (forall j :: next <= j < |level| ==> level[j] == 1)
    && (forall i :: 0 <= i < |qs[0]| && qs[0][i] < |level| && qs[0][i] < |procs| ==>
          level[qs[0][i]] == 1 && procs[qs[0][i]].remaining == procs[qs[0][i]].process.burstTime)
    && (forall i :: 0 <= i < |qs[1]| && qs[1][i] < |level| ==> level[qs[1][i]] == 2)
    && (forall i :: 0 <= i < |qs[2]| && qs[2][i] < |level| ==> level[qs[2][i]] == 3)
  }

  /** What the three queues keep. */
  predicate QueueOk(procs: seq<Running>, level: seq<int>, qs: seq<seq<nat>>, next: nat, time: int) {
    && |qs| == 3
    && |level| == |procs|
    && next <= |procs|
    && Below(qs[0], next) && Below(qs[1], next) && Below(qs[2], next)
    && QueuedOnce(procs, qs, next)
    && Untouched(procs, next)
    && Arrived(procs, next, time)
    && Caught(procs, next, time)
    && LevelsOk(procs, level, qs, next)
  }

  /** Timeline entries are idle `Entry(0, 0)` or a busy unit at a level 1-3. */
  predicate EntriesOk(tl: seq<Entry>) {
    forall i :: 0 <= i < |tl| ==> tl[i] == Entry(0, 0) || (tl[i].pid != 0 && 1 <= tl[i].queue <= 3)
  }

  /**
   * The shape a step needs: three queues, a level per record, and the head
   * of each non-empty queue an unfinished record.
   */
  predicate Shaped(s: State) {
    && |s.queues| == 3 && s.next <= |s.procs| && |s.level| == |s.procs|
    && forall l :: 0 <= l < 3 && s.queues[l] != [] ==>
         s.queues[l][0] < |s.procs| && s.procs[s.queues[l][0]].remaining >= 1
  }

  /** What the invariant gives a step: a positive quantum, shaped and consistent queues, positive bursts. */
  predicate Ready(q: int, s: State) {
    q >= 1 && Shaped(s) && QueueOk(s.procs, s.level, s.queues, s.next, s.time) && PositiveBursts(s.procs)
  }

  /** The level the next process is taken from: the highest non-empty one, 0 when all are empty. */
  function Top(qs: seq<seq<nat>>): (k: int)
    requires |qs| == 3
    ensures 0 <= k <= 3
    ensures k == 0 <==> qs[0] == [] && qs[1] == [] && qs[2] == []
    ensures k >= 1 ==> qs[k - 1] != [] && forall l :: 0 <= l < k - 1 ==> qs[l] == []
  {
    if qs[0] != [] then 1 else if qs[1] != [] then 2 else if qs[2] != [] then 3 else 0
  }

  /** All queues empty: an idle unit `Entry(0, 0)`, then the admission at the new time into level 1. */
  function Idle(s: State): State
    requires |s.queues| == 3 && s.next <= |s.procs|
  {
    var n := Arrivals(Processes(s.procs), s.next, s.time + 1);
    State(s.time + 1, s.timeline + [Entry(0, 0)], s.procs, s.level,
          s.queues[0 := s.queues[0] + Range(s.next, n)], n)
  }

  /**
   * The queues after a slice of the head `j` of level `k`: `j` leaves level
   * k, the arrivals admitted at the end of the slice join level 1, and then,
   * when `requeue`, `j` joins the tail of the next lower level (level 3 for
   * a process already there).
   */
  function AfterSlice(qs: seq<seq<nat>>, k: int, j: nat, next: nat, n: nat, requeue: bool): seq<seq<nat>>
    requires |qs| == 3 && 1 <= k <= 3 && qs[k - 1] != [] && next <= n
  {
    var shifted := qs[k - 1 := qs[k - 1][1..]];
    var admitted := shifted[0 := shifted[0] + Range(next, n)];
    var t := Min(k + 1, 3);
    if requeue then admitted[t - 1 := admitted[t - 1] + [j]] else admitted
  }

  /** The recorded level after a slice: a requeued process moves from level 1 to 2 or from 2 to 3. */
  function Demoted(level: seq<int>, k: int, j: nat, requeue: bool): seq<int> {
    if requeue && k < 3 && j < |level| then level[j := k + 1] else level
  }

  /**
   * The head `j` of level `k` runs `min(quantum_k, remaining)` units tagged
   * with level k; arrivals during the slice enter level 1; `j` is then
   * demoted and queued at its new level if unfinished (1 to 2, 2 to 3, 3
   * stays), its finish time being the end of the slice otherwise.
   */
  function Dispatch(q: int, s: State, k: int): State
    requires q >= 1 && 1 <= k <= 3 && |s.queues| == 3 && s.queues[k - 1] != []
    requires s.queues[k - 1][0] < |s.procs| && s.next <= |s.procs| && |s.level| == |s.procs|
    requires s.procs[s.queues[k - 1][0]].remaining >= 0
  {
    var j := s.queues[k - 1][0];
    var slice := Min(Quantum(q, k), s.procs[j].remaining);
    var time := s.time + slice;
    var procs := s.procs[j := Ran(s.procs[j], slice, time)];
    var n := Arrivals(Processes(s.procs), s.next, time);
    var requeue := procs[j].remaining > 0;
    State(time, s.timeline + Repeat(Entry(s.procs[j].process.pid, k), slice), procs,
          Demoted(s.level, k, j, requeue), AfterSlice(s.queues, k, j, s.next, n, requeue), n)
  }

  /** One iteration of the simulation loop. */
  function Step(q: int, s: State): State
    requires q >= 1 && Shaped(s)
  {
    var k := Top(s.queues);
    if k == 0 then Idle(s) else Dispatch(q, s, k)
  }

  /** A queued position occurs in its queue. */
  lemma OccurrencesMember(s: seq<int>, i: nat)
    requires i < |s|
    ensures Occurrences(s, s[i]) >= 1
  {
    assert s == s[..i] + s[i..];
    OccurrencesAppend(s[..i], s[i..], s[i]);
    OccurrencesHead(s[i..]);
  }

  /** The head of a non-empty level is an unfinished position at that level. */
  lemma HeadUnfinished(procs: seq<Running>, level: seq<int>, qs: seq<seq<nat>>, next: nat, time: int, l: nat)
    requires QueueOk(procs, level, qs, next, time) && l < 3 && qs[l] != []
    ensures qs[l][0] < |procs| && procs[qs[l][0]].remaining > 0 && level[qs[l][0]] == l + 1
  {
    OccurrencesHead(qs[l]);
  }

  /** What the loop keeps true, starting from the arrival-sorted records of `pl`. */
  predicate Inv(pl: seq<Process>, q: int, s: State) {
    && ValidProcesses(pl)
    && ArrivalSorted(pl)
    && q >= 1
    && Processes(s.procs) == pl
    && s.time == |s.timeline|
    && Accounted(s.procs, Pids(s.timeline))
    && EntriesOk(s.timeline)
    && QueueOk(s.procs, s.level, s.queues, s.next, s.time)
  }

  lemma InvReady(pl: seq<Process>, q: int, s: State)
    requires Inv(pl, q, s)
    ensures Ready(q, s)
  {
    forall j | 0 <= j < |s.procs|
      ensures s.procs[j].process.burstTime >= 1
    {
      assert pl[j] == s.procs[j].process && ValidProcess(pl[j]);
    }
    forall l | 0 <= l < 3 && s.queues[l] != []
      ensures s.queues[l][0] < |s.procs| && s.procs[s.queues[l][0]].remaining >= 1
    {
      HeadUnfinished(s.procs, s.level, s.queues, s.next, s.time, l);
    }
  }

  /**
   * The start (src/components/MFLQ.tsx:42-68): the records sorted by arrival,
   * all at level 1, empty queues and the processes arrived at time 0
   * admitted to level 1.
   */
  function Initial(ps: seq<Process>): State {
    var procs := SortBy(Extend(ps), RunningArrival);
    var n := Arrivals(Processes(procs), 0, 0);
    State(0, [], procs, Repeat(1, |procs|), [Range(0, n), [], []], n)
  }

  /** Records extended from `pl` and admitted at time 0 give consistent queues. */
  lemma InitialQueues(pl: seq<Process>, procs: seq<Running>, level: seq<int>, n: nat)
    requires ValidProcesses(pl) && procs == Extend(pl) && Processes(procs) == pl
    requires level == Repeat(1, |procs|) && n == Arrivals(pl, 0, 0)
    ensures QueueOk(procs, level, [Range(0, n), [], []], n, 0)
  {
    var qs: seq<seq<nat>> := [Range(0, n), [], []];
    forall j | 0 <= j < n
      ensures Queued(qs, j) == if procs[j].remaining > 0 then 1 else 0
    {
      OccurrencesRange(0, n, j);
      assert ValidProcess(pl[j]);
    }
  }

  lemma InitialInv(ps: seq<Process>, q: int)
    requires ValidProcesses(ps) && q >= 1
    ensures Inv(SortBy(ps, ArrivalOf), q, Initial(ps))
  {
    var pl := SortBy(ps, ArrivalOf);
    SortedExtension(ps);
    SortedValid(ps);
    AccountedInitially(pl);
    var s := Initial(ps);
    InitialQueues(pl, s.procs, s.level, s.next);
    assert Pids([]) == [];
  }

  /** Appending entries appends their pids. */
  lemma PidsAppend(tl: seq<Entry>, more: seq<Entry>, tl': seq<Entry>)
    requires tl' == tl + more
    ensures Pids(tl') == Pids(tl) + Pids(more)
  {
  }

  lemma PidsRepeat(pid: int, k: int, n: nat)
    ensures Pids(Repeat(Entry(pid, k), n)) == Repeat(pid, n)
  {
  }

  /** All queues empty and an idle unit: the new arrivals alone make up level 1. */
  lemma IdleQueues(pl: seq<Process>, procs: seq<Running>, level: seq<int>, qs: seq<seq<nat>>, next: nat,
                   time: int, n: nat, qs': seq<seq<nat>>)
    requires QueueOk(procs, level, qs, next, time) && PositiveBursts(procs) && Processes(procs) == pl
    requires qs[0] == [] && qs[1] == [] && qs[2] == []
    requires n == Arrivals(pl, next, time + 1) && qs' == qs[0 := qs[0] + Range(next, n)]
    ensures QueueOk(procs, level, qs', n, time + 1)
  {
    assert qs'[0] == Range(next, n);
    forall j | 0 <= j < n
      ensures Queued(qs', j) == if procs[j].remaining > 0 then 1 else 0
    {
      OccurrencesRange(next, n, j);
    }
    forall j | 0 <= j < n
      ensures procs[j].process.arrivalTime <= time + 1
    {
      assert pl[j] == procs[j].process;
    }
    assert n < |procs| ==> pl[n] == procs[n].process;
  }

  /** Nothing queued while something is unfinished: that process has yet to arrive. */
  lemma IdleBeforeArrival(pl: seq<Process>, procs: seq<Running>, level: seq<int>, qs: seq<seq<nat>>,
                          next: nat, time: int)
    requires QueueOk(procs, level, qs, next, time) && Processes(procs) == pl && ArrivalSorted(pl)
    requires qs[0] == [] && qs[1] == [] && qs[2] == [] && Unfinished(procs)
    ensures time < MaxArrival(pl)
  {
    var j :| 0 <= j < |procs| && procs[j].remaining > 0;
    assert Queued(qs, j) == 0;
    assert pl[j] == procs[j].process && pl[next] == procs[next].process;
  }

  /** The invariant from its parts, for a state given by its fields. */
  lemma InvOf(pl: seq<Process>, q: int, time: int, tl: seq<Entry>, ptl: seq<int>, procs: seq<Running>,
              level: seq<int>, qs: seq<seq<nat>>, next: nat)
    requires ValidProcesses(pl) && ArrivalSorted(pl) && q >= 1
    requires Processes(procs) == pl && time == |tl| && ptl == Pids(tl)
    requires Accounted(procs, ptl) && EntriesOk(tl) && QueueOk(procs, level, qs, next, time)
    ensures Inv(pl, q, State(time, tl, procs, level, qs, next))
  {
  }

  /**
   * An idle unit (src/components/MFLQ.tsx:89-101) keeps the invariant, and
   * happens only while some unfinished process has yet to arrive.
   */
  lemma IdleStepInv(pl: seq<Process>, q: int, s: State)
    requires Inv(pl, q, s) && Unfinished(s.procs) && Top(s.queues) == 0
    ensures Ready(q, s) && Inv(pl, q, Step(q, s))
    ensures Step(q, s).procs == s.procs && Step(q, s).time == s.time + 1 && s.time < MaxArrival(pl)
    ensures Step(q, s).timeline == s.timeline + [Entry(0, 0)]
    ensures Step(q, s).next == Arrivals(pl, s.next, s.time + 1)
    ensures Step(q, s).queues == [Range(s.next, Step(q, s).next), [], []]
  {
    IdleKeepsInv(pl, q, s);
    IdleShape(q, s);
  }

  /** The invariant part of `IdleStepInv`. */
  lemma IdleKeepsInv(pl: seq<Process>, q: int, s: State)
    requires Inv(pl, q, s) && Unfinished(s.procs) && Top(s.queues) == 0
    ensures Ready(q, s) && Inv(pl, q, Step(q, s))
    ensures Step(q, s).procs == s.procs && Step(q, s).time == s.time + 1 && s.time < MaxArrival(pl)
  {
    InvReady(pl, q, s);
    var n := Arrivals(pl, s.next, s.time + 1);
    var tl' := s.timeline + [Entry(0, 0)];
    var qs' := s.queues[0 := s.queues[0] + Range(s.next, n)];
    assert Step(q, s) == State(s.time + 1, tl', s.procs, s.level, qs', n);
    IdleQueues(pl, s.procs, s.level, s.queues, s.next, s.time, n, qs');
    IdleBeforeArrival(pl, s.procs, s.level, s.queues, s.next, s.time);
    IdentifiedOf(pl, s.procs);
    var ptl := Pids(s.timeline);
    var ptl' := Pids(tl');
    PidsAppend(s.timeline, [Entry(0, 0)], tl');
    assert Pids([Entry(0, 0)]) == [0];
    IdleUnit(s.procs, ptl);
    InvOf(pl, q, s.time + 1, tl', ptl', s.procs, s.level, qs', n);
  }

  /** With all three queues empty, the step idles with `Entry(0, 0)` and admits into queue 1 only. */
  lemma IdleShape(q: int, s: State)
    requires q >= 1 && Shaped(s) && Top(s.queues) == 0
    ensures var r := Step(q, s);
      && r.timeline == s.timeline + [Entry(0, 0)]
      && r.next == Arrivals(Processes(s.procs), s.next, s.time + 1)
      && r.queues == [Range(s.next, r.next), [], []]
  {
    var r := Step(q, s);
    assert r == Idle(s);
    assert s.queues[0] + Range(s.next, r.next) == Range(s.next, r.next);
  }

  /** The per-level counts of a position after a slice of the head `j` of level `k`. */
  lemma QueuedAfterSlice(qs: seq<seq<nat>>, k: int, j: nat, next: nat, n: nat, requeue: bool, x: int)
    requires |qs| == 3 && 1 <= k <= 3 && qs[k - 1] != [] && j == qs[k - 1][0] && next <= n
    ensures Queued(AfterSlice(qs, k, j, next, n, requeue), x)
         == Queued(qs, x) - (if x == j then 1 else 0) + (if next <= x < n then 1 else 0)
          + (if requeue && x == j then 1 else 0)
  {
    var rest := qs[k - 1][1..];
    assert [j] + rest == qs[k - 1];
    assert [j][..0] == [];
    OccurrencesAppend([j], rest, x);
    var shifted := qs[k - 1 := rest];
    OccurrencesAppend(shifted[0], Range(next, n), x);
    OccurrencesRange(next, n, x);
    var admitted := shifted[0 := shifted[0] + Range(next, n)];
    var t := Min(k + 1, 3);
    OccurrencesAppend(admitted[t - 1], [j], x);
    assert [j][..0] == [];
  }

  /** A head queued once is queued nowhere else (`h` is the index of its level). */
  lemma HeadOnly(qs: seq<seq<nat>>, h: nat, j: nat)
    requires |qs| == 3 && h < 3 && qs[h] != [] && j == qs[h][0] && Queued(qs, j) == 1
    ensures forall i :: 1 <= i < |qs[h]| ==> qs[h][i] != j
    ensures forall l, i :: 0 <= l < 3 && l != h && 0 <= i < |qs[l]| ==> qs[l][i] != j
  {
    var rest := qs[h][1..];
    assert [j] + rest == qs[h];
    assert [j][..0] == [];
    OccurrencesAppend([j], rest, j);
    forall i | 1 <= i < |qs[h]|
      ensures qs[h][i] != j
    {
      if qs[h][i] == j {
        assert rest[i - 1] == j;
        OccurrencesMember(rest, i - 1);
      }
    }
    forall l, i | 0 <= l < 3 && l != h && 0 <= i < |qs[l]|
      ensures qs[l][i] != j
    {
      if qs[l][i] == j {
        OccurrencesMember(qs[l], i);
      }
    }
  }

  /**
   * Where element `i` of level `l` comes from after a slice: an old entry of
   * that level other than the dispatched head (`from` >= 0), an arrival
   * admitted at the end of the slice (-1), or the requeued process (-2).
   */
  lemma SliceElement(qs: seq<seq<nat>>, k: int, j: nat, next: nat, n: nat, requeue: bool, qs': seq<seq<nat>>,
                     l: nat, i: nat) returns (from: int)
    requires |qs| == 3 && 1 <= k <= 3 && qs[k - 1] != [] && next <= n && l < 3
    requires qs' == AfterSlice(qs, k, j, next, n, requeue) && i < |qs'[l]|
    ensures -2 <= from
    ensures from >= 0 ==> from < |qs[l]| && qs[l][from] == qs'[l][i] && (l == k - 1 ==> from >= 1)
    ensures from == -1 ==> l == 0 && next <= qs'[l][i] < n
    ensures from == -2 ==> qs'[l][i] == j && requeue && l == Min(k + 1, 3) - 1
  {
    var t := Min(k + 1, 3);
    var a := if l == k - 1 then qs[l][1..] else qs[l];
    var b := if l == 0 then Range(next, n) else [];
    var c := if requeue && l == t - 1 then [j] else [];
    assert qs'[l] == a + b + c;
    if i < |a| {
      from := if l == k - 1 then i + 1 else i;
      assert qs'[l][i] == a[i];
    } else if i < |a| + |b| {
      from := -1;
      assert qs'[l][i] == b[i - |a|];
    } else {
      from := -2;
      assert qs'[l][i] == c[i - |a| - |b|];
    }
  }

  /**
   * Level `l` after a slice of the head `j` of level `k`: its positions
   * were admitted by `n`, sit at level l + 1 and, at level 1, have not run.
   */
  lemma SliceLevel(procs: seq<Running>, level: seq<int>, qs: seq<seq<nat>>, next: nat,
                   k: int, j: nat, n: nat, requeue: bool, procs': seq<Running>, r: Running,
                   level': seq<int>, qs': seq<seq<nat>>, l: nat)
    requires |qs| == 3 && |level| == |procs| && l < 3 && Below(qs[l], next) && LevelsOk(procs, level, qs, next)
    requires next <= n <= |procs| && Untouched(procs, next)
    requires 1 <= k <= 3 && qs[k - 1] != [] && j == qs[k - 1][0] && j < next && level[j] == k
    requires Queued(qs, j) == 1
    requires procs' == procs[j := r] && r.process == procs[j].process
    requires level' == Demoted(level, k, j, requeue) && qs' == AfterSlice(qs, k, j, next, n, requeue)
    ensures |qs'| == 3 && Below(qs'[l], n)
    ensures forall i :: 0 <= i < |qs'[l]| && qs'[l][i] < |level'| ==> level'[qs'[l][i]] == l + 1
    ensures l == 0 ==> forall i :: 0 <= i < |qs'[0]| && qs'[0][i] < |procs'| ==>
      procs'[qs'[0][i]].remaining == procs'[qs'[0][i]].process.burstTime
  {
    HeadOnly(qs, k - 1, j);
    forall i | 0 <= i < |qs'[l]|
      ensures qs'[l][i] < n
      ensures qs'[l][i] < |level'| ==> level'[qs'[l][i]] == l + 1
      ensures l == 0 && qs'[l][i] < |procs'| ==> procs'[qs'[l][i]].remaining == procs'[qs'[l][i]].process.burstTime
    {
      var from := SliceElement(qs, k, j, next, n, requeue, qs', l, i);
      var x := qs'[l][i];
      if from >= 0 {
        assert x != j;
        assert level'[x] == level[x] && procs'[x] == procs[x];
      } else if from == -1 {
        assert x != j;
      }
    }
  }

  /** After a slice every admitted, unfinished position is queued once, the finished nowhere. */
  lemma SliceQueuedOnce(procs: seq<Running>, level: seq<int>, qs: seq<seq<nat>>, next: nat, time: int,
                        k: int, j: nat, slice: int, now: int, n: nat, requeue: bool, procs': seq<Running>,
                        qs': seq<seq<nat>>)
    requires QueueOk(procs, level, qs, next, time) && PositiveBursts(procs)
    requires 1 <= k <= 3 && qs[k - 1] != [] && j == qs[k - 1][0] && j < |procs|
    requires 1 <= slice <= procs[j].remaining && next <= n <= |procs|
    requires procs' == procs[j := Ran(procs[j], slice, now)] && requeue == (procs[j].remaining > slice)
    requires qs' == AfterSlice(qs, k, j, next, n, requeue)
    ensures |qs'| == 3 && QueuedOnce(procs', qs', n)
  {
    forall x | 0 <= x < n && x < |procs'|
      ensures Queued(qs', x) == if procs'[x].remaining > 0 then 1 else 0
    {
      QueuedAfterSlice(qs, k, j, next, n, requeue, x);
      if x >= next {
        NotBelow(qs[0], next, x);
        NotBelow(qs[1], next, x);
        NotBelow(qs[2], next, x);
      }
    }
  }

  /** After a slice every queue names only admitted positions, each at its queue's level. */
  lemma SliceLevels(procs: seq<Running>, level: seq<int>, qs: seq<seq<nat>>, next: nat,
                    k: int, j: nat, n: nat, requeue: bool, procs': seq<Running>, r: Running,
                    level': seq<int>, qs': seq<seq<nat>>)
    requires |qs| == 3 && |level| == |procs| && LevelsOk(procs, level, qs, next)
    requires Below(qs[0], next) && Below(qs[1], next) && Below(qs[2], next)
    requires next <= n <= |procs| && Untouched(procs, next)
    requires 1 <= k <= 3 && qs[k - 1] != [] && j == qs[k - 1][0] && j < next && level[j] == k
    requires Queued(qs, j) == 1
    requires procs' == procs[j := r] && r.process == procs[j].process
    requires level' == Demoted(level, k, j, requeue) && qs' == AfterSlice(qs, k, j, next, n, requeue)
    ensures |qs'| == 3 && |level'| == |procs'|
    ensures Below(qs'[0], n) && Below(qs'[1], n) && Below(qs'[2], n) && LevelsOk(procs', level', qs', n)
  {
    SliceLevel(procs, level, qs, next, k, j, n, requeue, procs', r, level', qs', 0);
    SliceLevel(procs, level, qs, next, k, j, n, requeue, procs', r, level', qs', 1);
    SliceLevel(procs, level, qs, next, k, j, n, requeue, procs', r, level', qs', 2);
  }

  /** The queues after a slice (src/components/MFLQ.tsx:104-137) are consistent. */
  lemma DispatchQueues(pl: seq<Process>, procs: seq<Running>, level: seq<int>, qs: seq<seq<nat>>, next: nat,
                       time: int, k: int, j: nat, slice: int, now: int, n: nat, requeue: bool, r: Running,
                       procs': seq<Running>, level': seq<int>, qs': seq<seq<nat>>)
    requires QueueOk(procs, level, qs, next, time) && PositiveBursts(procs) && Processes(procs) == pl
    requires 1 <= k <= 3 && qs[k - 1] != [] && j == qs[k - 1][0] && j < |procs| && level[j] == k
    requires 1 <= slice <= procs[j].remaining && now == time + slice && n == Arrivals(pl, next, now)
    requires r == Ran(procs[j], slice, now) && procs' == procs[j := r] && requeue == (procs[j].remaining > slice)
    requires level' == Demoted(level, k, j, requeue) && qs' == AfterSlice(qs, k, j, next, n, requeue)
    ensures QueueOk(procs', level', qs', n, now)
  {
    SliceQueuedOnce(procs, level, qs, next, time, k, j, slice, now, n, requeue, procs', qs');
    OccurrencesMember(qs[k - 1], 0);
    SliceLevels(procs, level, qs, next, k, j, n, requeue, procs', r, level', qs');
    UntouchedUpdate(procs, next, n, j, r);
    DispatchArrived(pl, procs, next, time, slice, j);
    assert n < |procs| ==> pl[n] == procs'[n].process;
  }

  /** The pids of a slice of `pid` appended to the timeline. */
  lemma PidsSlice(tl: seq<Entry>, tl': seq<Entry>, pid: int, k: int, slice: nat, ptl: seq<int>, ptl': seq<int>)
    requires tl' == tl + Repeat(Entry(pid, k), slice) && ptl == Pids(tl) && ptl' == Pids(tl')
    ensures ptl' == ptl + Repeat(pid, slice) && |tl'| == |tl| + slice
  {
    PidsAppend(tl, Repeat(Entry(pid, k), slice), tl');
    PidsRepeat(pid, k, slice);
  }

  /**
   * A dispatch of the head `j` of level `k` keeps the invariant and uses up
   * `slice` units of work.
   */
  lemma DispatchInv(pl: seq<Process>, q: int, time: int, tl: seq<Entry>, ptl: seq<int>, procs: seq<Running>,
                    level: seq<int>, qs: seq<seq<nat>>, next: nat, k: int, j: nat, slice: int, now: int, n: nat,
                    requeue: bool, r: Running, tl': seq<Entry>, ptl': seq<int>, procs': seq<Running>,
                    level': seq<int>, qs': seq<seq<nat>>)
    requires ValidProcesses(pl) && ArrivalSorted(pl) && q >= 1
    requires Processes(procs) == pl && time == |tl| && ptl == Pids(tl) && Accounted(procs, ptl) && EntriesOk(tl)
    requires QueueOk(procs, level, qs, next, time) && PositiveBursts(procs)
    requires 1 <= k <= 3 && qs[k - 1] != [] && j == qs[k - 1][0] && j < |procs| && level[j] == k
    requires procs[j].remaining >= 1
    requires slice == Min(Quantum(q, k), procs[j].remaining) && now == time + slice && n == Arrivals(pl, next, now)
    requires r == Ran(procs[j], slice, now) && procs' == procs[j := r] && requeue == (procs[j].remaining > slice)
    requires tl' == tl + Repeat(Entry(procs[j].process.pid, k), slice) && ptl' == Pids(tl')
    requires level' == Demoted(level, k, j, requeue) && qs' == AfterSlice(qs, k, j, next, n, requeue)
    ensures Inv(pl, q, State(now, tl', procs', level', qs', n))
    ensures TotalRemaining(procs') == TotalRemaining(procs) - slice
  {
    IdentifiedOf(pl, procs);
    PidsSlice(tl, tl', procs[j].process.pid, k, slice, ptl, ptl');
    RunSlice(procs, ptl, j, slice, now);
    SliceEntries(tl, tl', procs[j].process.pid, k, slice);
    DispatchQueues(pl, procs, level, qs, next, time, k, j, slice, now, n, requeue, r, procs', level', qs');
    ProcessesOfUpdate(procs, j, r);
    TotalRemainingUpdate(procs, j, r);
    InvOf(pl, q, now, tl', ptl', procs', level', qs', n);
  }

  /** A slice appends busy entries at level k. */
  lemma SliceEntries(tl: seq<Entry>, tl': seq<Entry>, pid: int, k: int, slice: nat)
    requires EntriesOk(tl) && pid != 0 && 1 <= k <= 3 && tl' == tl + Repeat(Entry(pid, k), slice)
    ensures EntriesOk(tl')
  {
    forall i | |tl| <= i < |tl'|
      ensures tl'[i] == Entry(pid, k)
    {
    }
  }

  /** The step that dispatches the head `j` of the top level `k`, given by its fields. */
  lemma StepDispatch(q: int, s: State, k: int, j: nat, slice: int, now: int, n: nat, requeue: bool,
                     tl': seq<Entry>, procs': seq<Running>, level': seq<int>, qs': seq<seq<nat>>)
    requires q >= 1 && Shaped(s) && k == Top(s.queues) && k >= 1
    requires j == s.queues[k - 1][0] && j < |s.procs| && s.procs[j].remaining >= 1
    requires slice == Min(Quantum(q, k), s.procs[j].remaining) && now == s.time + slice
    requires n == Arrivals(Processes(s.procs), s.next, now) && requeue == (s.procs[j].remaining > slice)
    requires tl' == s.timeline + Repeat(Entry(s.procs[j].process.pid, k), slice)
    requires procs' == s.procs[j := Ran(s.procs[j], slice, now)]
    requires level' == Demoted(s.level, k, j, requeue) && qs' == AfterSlice(s.queues, k, j, s.next, n, requeue)
    ensures Step(q, s) == State(now, tl', procs', level', qs', n)
  {
  }

  /** A dispatch (src/components/MFLQ.tsx:102-137) keeps the invariant and uses up work. */
  lemma RunStepInv(pl: seq<Process>, q: int, s: State)
    requires Inv(pl, q, s) && Top(s.queues) != 0
    ensures Ready(q, s) && Inv(pl, q, Step(q, s))
    ensures TotalRemaining(Step(q, s).procs) < TotalRemaining(s.procs)
  {
    InvReady(pl, q, s);
    var k := Top(s.queues);
    HeadUnfinished(s.procs, s.level, s.queues, s.next, s.time, k - 1);
    var j := s.queues[k - 1][0];
    var slice := Min(Quantum(q, k), s.procs[j].remaining);
    var now := s.time + slice;
    var n := Arrivals(pl, s.next, now);
    var requeue := s.procs[j].remaining > slice;
    var r := Ran(s.procs[j], slice, now);
    var tl' := s.timeline + Repeat(Entry(s.procs[j].process.pid, k), slice);
    var ptl := Pids(s.timeline);
    var ptl' := Pids(tl');
    var procs' := s.procs[j := r];
    var level' := Demoted(s.level, k, j, requeue);
    var qs' := AfterSlice(s.queues, k, j, s.next, n, requeue);
    StepDispatch(q, s, k, j, slice, now, n, requeue, tl', procs', level', qs');
    DispatchInv(pl, q, s.time, s.timeline, ptl, s.procs, s.level, s.queues, s.next, k, j, slice, now, n,
                requeue, r, tl', ptl', procs', level', qs');
  }

  /** Queue 1 and the tail of the level `j` moves to, after a slice. */
  lemma AfterSliceQueues(qs: seq<seq<nat>>, k: int, j: nat, next: nat, n: nat, requeue: bool)
    requires |qs| == 3 && 1 <= k <= 3 && qs[k - 1] != [] && next <= n
    ensures var qs' := AfterSlice(qs, k, j, next, n, requeue);
      && |qs'| == 3
      && qs'[0] == (if k == 1 then qs[0][1..] else qs[0]) + Range(next, n)
      && qs'[1] == (if k == 2 then qs[1][1..] else qs[1]) + (if requeue && k == 1 then [j] else [])
      && qs'[2] == (if k == 3 then qs[2][1..] else qs[2]) + (if requeue && k >= 2 then [j] else [])
      && (requeue ==> var t := Min(k + 1, 3); qs'[t - 1] != [] && qs'[t - 1][|qs'[t - 1]| - 1] == j)
  {
  }

  /** The recorded level after a slice: one lower when requeued, level 3 keeping its processes. */
  lemma DemotedLevel(level: seq<int>, k: int, j: nat, requeue: bool)
    requires 1 <= k <= 3 && j < |level| && level[j] == k
    ensures |Demoted(level, k, j, requeue)| == |level|
    ensures requeue ==> Demoted(level, k, j, requeue)[j] == Min(k + 1, 3)
  {
  }

  /**
   * What a dispatch does (src/components/MFLQ.tsx:76-137): the head `j` of
   * the highest non-empty level k runs for between 1 and that level's
   * quantum (q, 2q or 4q) units, min(quantum, remaining) of them; the
   * timeline grows by exactly those units, each tagged (pid, k); only `j`'s
   * record changes, its remaining time dropping by the slice; queue 1 keeps
   * its waiting processes and gains those that arrived by the end of the
   * slice; an unfinished `j` is then recorded at, and queued at the tail
   * of, the next lower level (level 3 keeps it), while a finished `j` gets
   * the end of the slice as its finish time.
   */
  lemma DispatchOutcome(q: int, s: State, k: int, j: nat, r: State)
    requires q >= 1 && Shaped(s) && k == Top(s.queues) && k >= 1 && j == s.queues[k - 1][0]
    requires s.level[j] == k && r == Step(q, s)
    ensures Quantum(q, k) == (if k == 1 then q else if k == 2 then 2 * q else 4 * q)
    ensures var slice := r.time - s.time;
      && |r.procs| == |s.procs| && |r.level| == |s.level|
      && 1 <= slice <= Quantum(q, k) && slice == Min(Quantum(q, k), s.procs[j].remaining)
      && |r.timeline| == |s.timeline| + slice && r.timeline[..|s.timeline|] == s.timeline
      && (forall i :: |s.timeline| <= i < |r.timeline| ==> r.timeline[i] == Entry(s.procs[j].process.pid, k))
      && r.procs[j].remaining == s.procs[j].remaining - slice
      && (forall x :: 0 <= x < |s.procs| && x != j ==> r.procs[x] == s.procs[x])
      && |r.queues| == 3
      && s.next <= r.next && r.next == Arrivals(Processes(s.procs), s.next, r.time)
      && r.queues[0] == (if k == 1 then s.queues[0][1..] else s.queues[0]) + Range(s.next, r.next)
      && r.queues[1] == (if k == 2 then s.queues[1][1..] else s.queues[1])
                        + (if r.procs[j].remaining > 0 && k == 1 then [j] else [])
      && r.queues[2] == (if k == 3 then s.queues[2][1..] else s.queues[2])
                        + (if r.procs[j].remaining > 0 && k >= 2 then [j] else [])
      && (r.procs[j].remaining > 0 ==>
            var t := Min(k + 1, 3);
            && r.level[j] == t
            && r.queues[t - 1] != [] && r.queues[t - 1][|r.queues[t - 1]| - 1] == j)
      && (r.procs[j].remaining == 0 ==> r.procs[j].finishTime == Some(r.time))
  {
    var slice := Min(Quantum(q, k), s.procs[j].remaining);
    var now := s.time + slice;
    var n := Arrivals(Processes(s.procs), s.next, now);
    var requeue := s.procs[j].remaining > slice;
    var tl' := s.timeline + Repeat(Entry(s.procs[j].process.pid, k), slice);
    var procs' := s.procs[j := Ran(s.procs[j], slice, now)];
    var level' := Demoted(s.level, k, j, requeue);
    var qs' := AfterSlice(s.queues, k, j, s.next, n, requeue);
    StepDispatch(q, s, k, j, slice, now, n, requeue, tl', procs', level', qs');
    AfterSliceQueues(s.queues, k, j, s.next, n, requeue);
    DemotedLevel(s.level, k, j, requeue);
  }

  /**
   * Under the invariant a dispatch is from a level whose head is recorded
   * at that level (so `DispatchOutcome` applies), and a process that the
   * slice finishes is left in no queue (src/components/MFLQ.tsx:122-137).
   */
  lemma SliceOutcome(pl: seq<Process>, q: int, s: State)
    requires Inv(pl, q, s) && Top(s.queues) != 0
    ensures Ready(q, s)
    ensures var k := Top(s.queues); var j := s.queues[k - 1][0];
      && j < |s.procs| && s.level[j] == k && s.procs[j].remaining >= 1
      && (Step(q, s).procs[j].remaining == 0 ==> Queued(Step(q, s).queues, j) == 0)
  {
    InvReady(pl, q, s);
    var k := Top(s.queues);
    HeadUnfinished(s.procs, s.level, s.queues, s.next, s.time, k - 1);
    var j := s.queues[k - 1][0];
    var r := Step(q, s);
    RunStepInv(pl, q, s);
    if r.procs[j].remaining == 0 {
      assert j < s.next;
      FinishedUnqueued(r.procs, r.level, r.queues, r.next, r.time, j);
    }
  }

  /** A finished, admitted position is in no queue. */
  lemma FinishedUnqueued(procs: seq<Running>, level: seq<int>, qs: seq<seq<nat>>, next: nat, time: int, j: nat)
    requires QueueOk(procs, level, qs, next, time) && j < next && procs[j].remaining == 0
    ensures Queued(qs, j) == 0
  {
  }

  /** A step keeps the invariant and either uses work or idles before an arrival. */
  lemma StepInv(pl: seq<Process>, q: int, s: State)
    requires Inv(pl, q, s) && Unfinished(s.procs)
    ensures Ready(q, s) && Inv(pl, q, Step(q, s))
    ensures TotalRemaining(Step(q, s).procs) < TotalRemaining(s.procs)
         || (TotalRemaining(Step(q, s).procs) == TotalRemaining(s.procs)
             && s.time < MaxArrival(pl) && Step(q, s).time == s.time + 1)
  {
    if Top(s.queues) == 0 {
      IdleKeepsInv(pl, q, s);
    } else {
      RunStepInv(pl, q, s);
    }
  }

  /** Under the invariant the work still owed is never negative: the loop's measure is bounded below. */
  lemma InvOwed(pl: seq<Process>, q: int, s: State)
    requires Inv(pl, q, s)
    ensures TotalRemaining(s.procs) >= 0
  {
    TotalRemainingBounds(s.procs);
  }

  /** The simulation loop: iterate the step until nothing remains. */
  function Run(pl: seq<Process>, q: int, s: State): State
    requires Inv(pl, q, s)
    decreases TotalRemaining(s.procs), MaxArrival(pl) - s.time
  {
    if !Unfinished(s.procs) then s
    else
      StepInv(pl, q, s);
      TotalRemainingBounds(s.procs);
      Run(pl, q, Step(q, s))
  }

  /** The loop ends with the invariant kept and nothing remaining. */
  lemma {:induction false} RunInv(pl: seq<Process>, q: int, s: State)
    requires Inv(pl, q, s)
    ensures Inv(pl, q, Run(pl, q, s)) && !Unfinished(Run(pl, q, s).procs)
    decreases TotalRemaining(s.procs), MaxArrival(pl) - s.time
  {
    if Unfinished(s.procs) {
      StepInv(pl, q, s);
      TotalRemainingBounds(s.procs);
      RunInv(pl, q, Step(q, s));
    }
  }

  /** The final state of the MLFQ simulation of `ps` with base quantum `q`. */
  function Simulate(ps: seq<Process>, q: int): (r: State)
    requires ValidProcesses(ps) && q >= 1
    ensures AllFinished(r.procs)
  {
    InitialInv(ps, q);
    var pl := SortBy(ps, ArrivalOf);
    RunInv(pl, q, Initial(ps));
    var r := Run(pl, q, Initial(ps));
    InvReady(pl, q, r);
    AccountedComplete(r.procs, Pids(r.timeline));
    r
  }

  /** The simulation ends in a state that keeps the invariant, with nothing remaining. */
  lemma SimulateInv(ps: seq<Process>, q: int)
    requires ValidProcesses(ps) && q >= 1
    ensures Inv(SortBy(ps, ArrivalOf), q, Simulate(ps, q)) && !Unfinished(Simulate(ps, q).procs)
  {
    InitialInv(ps, q);
    RunInv(SortBy(ps, ArrivalOf), q, Initial(ps));
  }
}
