/**
 * What the demotion rule of the feedback queue guarantees
 * (src/components/MFLQ.tsx:122-137): every process gets one slice of at
 * most q units at level 1, then one of at most 2q units at level 2, and
 * what is left at level 3; so in the end it has run min(q, burst) units at
 * level 1, min(2q, burst - q) at level 2 and burst - 3q, if positive, at
 * level 3.
 */
module Demotion {
  import opened Common
  import opened Sorting
  import opened Accounting
  import opened Levels
  import opened Mlfq

  /** Units the timeline gives `pid` at level `k`. */
  function LevelUnits(tl: seq<Entry>, pid: int, k: int): nat {
    Occurrences(Mask(tl, k), pid)
  }

  /**
   * The units of a record at each level, for its current level `l`: at
   * level 1 all it used (nothing if it is still waiting there, at most q),
   * at level 2 a first slice of q and the rest (nothing yet if waiting
   * there, at most 2q), at level 3 slices of q and 2q and the rest.
   */
  predicate StagedAt(r: Running, l: int, tl: seq<Entry>, q: int) {
    var used := r.process.burstTime - r.remaining;
    var c1 := LevelUnits(tl, r.process.pid, 1);
    var c2 := LevelUnits(tl, r.process.pid, 2);
    var c3 := LevelUnits(tl, r.process.pid, 3);
    && (l == 1 ==> c1 == used && used <= q && c2 == 0 && c3 == 0 && (r.remaining > 0 ==> used == 0))
    && (l == 2 ==> c1 == q && c2 == used - q && used <= 3 * q && c3 == 0 && (r.remaining > 0 ==> used == q))
    && (l == 3 ==> c1 == q && c2 == 2 * q && c3 == used - 3 * q)
  }

  predicate Staged(q: int, procs: seq<Running>, level: seq<int>, tl: seq<Entry>) {
    |level| == |procs| && forall j :: 0 <= j < |procs| ==> StagedAt(procs[j], level[j], tl, q)
  }

  lemma MaskAppend(tl: seq<Entry>, more: seq<Entry>, k: int)
    ensures Mask(tl + more, k) == Mask(tl, k) + Mask(more, k)
  {
  }

  /** Units at a level add up over a concatenation. */
  lemma LevelUnitsAppend(tl: seq<Entry>, more: seq<Entry>, pid: int, k: int)
    ensures LevelUnits(tl + more, pid, k) == LevelUnits(tl, pid, k) + LevelUnits(more, pid, k)
  {
    MaskAppend(tl, more, k);
    OccurrencesAppend(Mask(tl, k), Mask(more, k), pid);
  }

  /** A slice of `n` units of `p` at level `k'` gives `p` n units at level k' and nothing elsewhere. */
  lemma LevelUnitsSlice(p: int, k': int, n: nat, pid: int, k: int)
    requires p != 0 && pid != 0
    ensures LevelUnits(Repeat(Entry(p, k'), n), pid, k) == if pid == p && k == k' then n else 0
  {
    var m := if k == k' then p else 0;
    assert Mask(Repeat(Entry(p, k'), n), k) == Repeat(m, n);
    RepeatCount(m, n, pid);
  }

  /** Nothing has run at the start. */
  lemma StagedInitially(ps: seq<Process>, q: int)
    requires ValidProcesses(ps) && q >= 1
    ensures Staged(q, Initial(ps).procs, Initial(ps).level, Initial(ps).timeline)
  {
    var s := Initial(ps);
    forall j | 0 <= j < |s.procs|
      ensures StagedAt(s.procs[j], s.level[j], s.timeline, q)
    {
      SortedExtension(ps);
      assert s.procs[j] in multiset(Extend(ps));
      var i :| 0 <= i < |ps| && Extend(ps)[i] == s.procs[j];
      assert Mask([], 1) == [] && Mask([], 2) == [] && Mask([], 3) == [];
    }
  }

  /** An idle unit gives no process any units. */
  lemma StagedIdle(q: int, procs: seq<Running>, level: seq<int>, tl: seq<Entry>, tl': seq<Entry>)
    requires Staged(q, procs, level, tl) && Identified(procs) && tl' == tl + [Entry(0, 0)]
    ensures Staged(q, procs, level, tl')
  {
    forall j, k | 0 <= j < |procs| && 1 <= k <= 3
      ensures LevelUnits(tl', procs[j].process.pid, k) == LevelUnits(tl, procs[j].process.pid, k)
    {
      LevelUnitsAppend(tl, [Entry(0, 0)], procs[j].process.pid, k);
      assert Mask([Entry(0, 0)], k) == [0];
      assert Occurrences([0], procs[j].process.pid) == Occurrences([], procs[j].process.pid) + 0;
    }
  }

  /** Units of each process at each level after a slice of process `j` at level `k`. */
  lemma SliceUnits(procs: seq<Running>, tl: seq<Entry>, j: nat, k: int, slice: nat, tl': seq<Entry>, i: nat, l: int)
    requires Identified(procs) && j < |procs| && i < |procs|
    requires tl' == tl + Repeat(Entry(procs[j].process.pid, k), slice)
    ensures LevelUnits(tl', procs[i].process.pid, l)
      == LevelUnits(tl, procs[i].process.pid, l) + (if i == j && l == k then slice else 0)
  {
    LevelUnitsAppend(tl, Repeat(Entry(procs[j].process.pid, k), slice), procs[i].process.pid, l);
    LevelUnitsSlice(procs[j].process.pid, k, slice, procs[i].process.pid, l);
  }

  /** A slice of the head `j` of level `k`, with the demotion after it, keeps the stages. */
  lemma StagedSlice(q: int, procs: seq<Running>, level: seq<int>, tl: seq<Entry>, k: int, j: nat, slice: int,
                    now: int, requeue: bool, procs': seq<Running>, level': seq<int>, tl': seq<Entry>)
    requires q >= 1 && Staged(q, procs, level, tl) && Identified(procs)
    requires 1 <= k <= 3 && j < |procs| && level[j] == k && procs[j].remaining >= 1
    requires slice == Min(Quantum(q, k), procs[j].remaining) && requeue == (procs[j].remaining > slice)
    requires procs' == procs[j := Ran(procs[j], slice, now)] && level' == Demoted(level, k, j, requeue)
    requires tl' == tl + Repeat(Entry(procs[j].process.pid, k), slice)
    ensures Staged(q, procs', level', tl')
  {
    forall i | 0 <= i < |procs'|
      ensures StagedAt(procs'[i], level'[i], tl', q)
    {
      SliceUnits(procs, tl, j, k, slice, tl', i, 1);
      SliceUnits(procs, tl, j, k, slice, tl', i, 2);
      SliceUnits(procs, tl, j, k, slice, tl', i, 3);
      if i != j {
        assert procs'[i] == procs[i] && level'[i] == level[i];
      }
    }
  }

  /** A step from a staged state keeps the stages. */
  lemma StagedStep(pl: seq<Process>, q: int, s: State)
    requires Inv(pl, q, s) && Staged(q, s.procs, s.level, s.timeline)
    ensures Ready(q, s) && Staged(q, Step(q, s).procs, Step(q, s).level, Step(q, s).timeline)
  {
    InvReady(pl, q, s);
    IdentifiedOf(pl, s.procs);
    var k := Top(s.queues);
    if k == 0 {
      StagedIdle(q, s.procs, s.level, s.timeline, s.timeline + [Entry(0, 0)]);
    } else {
      HeadUnfinished(s.procs, s.level, s.queues, s.next, s.time, k - 1);
      var j := s.queues[k - 1][0];
      var slice := Min(Quantum(q, k), s.procs[j].remaining);
      var now := s.time + slice;
      var n := Arrivals(pl, s.next, now);
      var requeue := s.procs[j].remaining > slice;
      var tl' := s.timeline + Repeat(Entry(s.procs[j].process.pid, k), slice);
      var procs' := s.procs[j := Ran(s.procs[j], slice, now)];
      var level' := Demoted(s.level, k, j, requeue);
      var qs' := AfterSlice(s.queues, k, j, s.next, n, requeue);
      StepDispatch(q, s, k, j, slice, now, n, requeue, tl', procs', level', qs');
      StagedSlice(q, s.procs, s.level, s.timeline, k, j, slice, now, requeue, procs', level', tl');
    }
  }

  /** The loop keeps the stages. */
  lemma {:induction false} RunStaged(pl: seq<Process>, q: int, s: State)
    requires Inv(pl, q, s) && Staged(q, s.procs, s.level, s.timeline)
    ensures Staged(q, Run(pl, q, s).procs, Run(pl, q, s).level, Run(pl, q, s).timeline)
    decreases TotalRemaining(s.procs), MaxArrival(pl) - s.time
  {
    if Unfinished(s.procs) {
      StepInv(pl, q, s);
      TotalRemainingBounds(s.procs);
      StagedStep(pl, q, s);
      RunStaged(pl, q, Step(q, s));
    }
  }

  /** A finished record's units per level, from its stage. */
  lemma FinishedShares(r: Running, l: int, tl: seq<Entry>, q: int)
    requires StagedAt(r, l, tl, q) && 1 <= l <= 3 && r.remaining == 0 && q >= 1
    ensures LevelUnits(tl, r.process.pid, 1) == Min(q, r.process.burstTime)
    ensures LevelUnits(tl, r.process.pid, 2) == Min(2 * q, Max(0, r.process.burstTime - q))
    ensures LevelUnits(tl, r.process.pid, 3) == Max(0, r.process.burstTime - 3 * q)
  {
  }
}
