/**
 * The MLFQ timeline (one entry per time unit, tagged with the queue level
 * the unit ran at) and its per-level segment builder `getSegments`
 * (src/components/MFLQ.tsx:144-170): the runs of one level, idle units and
 * units of other levels skipped.
 */
module Levels {
  import opened Common
  import opened Sorting
  import opened Trace

  /** A timeline entry: the pid and level 1-3 of a unit; pid 0 at level 0 is an idle unit. */
  datatype Entry = Entry(pid: int, queue: int)

  /** The scan's `start` and `currentPid`, both null or both set. */
  datatype OpenRun = NoRun | RunFrom(start: nat, pid: int)

  /** The level-k, non-idle test on a timeline entry. */
  predicate AtLevel(e: Entry, k: int) {
    e.queue == k && e.pid != 0
  }

  /**
   * The scan of `getSegments(k)` from index `i` with the run `open`: a unit
   * of level k opens a run or, under another pid, closes the open one and
   * opens its own; any other unit closes the open run; the end of the
   * timeline closes the last one.
   */
  function Scan(tl: seq<Entry>, k: int, i: nat, open: OpenRun): seq<Segment>
    requires i <= |tl|
    decreases |tl| - i
  {
    if i == |tl| then
      if open.RunFrom? then [Segment(open.pid, open.start, |tl|)] else []
    else if AtLevel(tl[i], k) then
      if open.NoRun? then Scan(tl, k, i + 1, RunFrom(i, tl[i].pid))
      else if tl[i].pid != open.pid then
        [Segment(open.pid, open.start, i)] + Scan(tl, k, i + 1, RunFrom(i, tl[i].pid))
      else Scan(tl, k, i + 1, open)
    else if open.RunFrom? then [Segment(open.pid, open.start, i)] + Scan(tl, k, i + 1, NoRun)
    else Scan(tl, k, i + 1, NoRun)
  }

  /** The segments of level k, as the per-level chart builder produces them. */
  function Segments(tl: seq<Entry>, k: int): seq<Segment> {
    Scan(tl, k, 0, NoRun)
  }

  /** The level-k view of the timeline: the pid where a unit ran at level k, 0 elsewhere. */
  function Mask(tl: seq<Entry>, k: int): (m: seq<int>)
    ensures |m| == |tl|
    ensures forall i :: 0 <= i < |tl| ==> m[i] == if AtLevel(tl[i], k) then tl[i].pid else 0
  {
    seq(|tl|, i requires 0 <= i < |tl| => if AtLevel(tl[i], k) then tl[i].pid else 0)
  }

  function IsBusy(s: Segment): bool {
    s.pid != 0
  }

  /** Segments in increasing time order, none overlapping the next ones. */
  predicate Ordered(segs: seq<Segment>) {
    forall a, b :: 0 <= a < b < |segs| ==> segs[a].endTime <= segs[b].startTime
  }

  /** Unit `x` lies in one of the segments. */
  predicate Covered(segs: seq<Segment>, x: int) {
    exists a :: 0 <= a < |segs| && segs[a].startTime <= x < segs[a].endTime
  }

  /**
   * From `start` to `i` the mask is constant: scanning on from `i` with the
   * run that constant value means (none for 0) gives the non-idle runs of
   * the run-length compression of the mask from `start`.
   */
  lemma {:induction false} ScanCompress(tl: seq<Entry>, k: int, m: seq<int>, start: nat, i: nat)
    requires m == Mask(tl, k) && start < i <= |tl|
    requires forall x :: start <= x < i ==> m[x] == m[start]
    ensures Filter(RunsFrom(m, start, i), IsBusy)
         == Scan(tl, k, i, if m[start] != 0 then RunFrom(start, m[start]) else NoRun)
    decreases |tl| - i
  {
    var open := if m[start] != 0 then RunFrom(start, m[start]) else NoRun;
    if i < |tl| {
      if m[i] != m[start] {
        ScanCompress(tl, k, m, i, i + 1);
        var seg := Segment(m[start], start, i);
        var rest := RunsFrom(m, i, i + 1);
        assert RunsFrom(m, start, i) == [seg] + rest;
        FilterCons(seg, rest, IsBusy);
      } else {
        ScanCompress(tl, k, m, start, i + 1);
      }
    }
  }

  lemma FilterCons<T>(x: T, s: seq<T>, P: T -> bool)
    ensures Filter([x] + s, P) == (if P(x) then [x] else []) + Filter(s, P)
  {
    assert ([x] + s)[1..] == s;
  }

  /**
   * `getSegments(k)` is the run-length compression (src/RR.tsx:92-108) of
   * the level-k view of the timeline, with the idle runs dropped.
   */
  lemma SegmentsCompress(tl: seq<Entry>, k: int)
    ensures Segments(tl, k) == Filter(Compress(Mask(tl, k)), IsBusy)
  {
    if tl != [] {
      ScanCompress(tl, k, Mask(tl, k), 0, 1);
    }
  }

  /** Contiguous segments are ordered. */
  lemma TilesOrdered(segs: seq<Segment>, from: int, to: int)
    requires Tiles(segs, from, to)
    ensures Ordered(segs)
  {
    forall a, b | 0 <= a < b < |segs|
      ensures segs[a].endTime <= segs[b].startTime
    {
      TilesStep(segs, from, to, a, b);
    }
  }

  lemma {:induction false} TilesStep(segs: seq<Segment>, from: int, to: int, a: nat, b: nat)
    requires Tiles(segs, from, to) && a < b < |segs|
    ensures segs[a].endTime <= segs[b].startTime
    decreases b - a
  {
    if b > a + 1 {
      TilesStep(segs, from, to, a, b - 1);
    }
  }

  /** A unit of the tiled interval lies in one of the segments. */
  lemma {:induction false} TilesCover(segs: seq<Segment>, from: int, to: int, x: int)
    requires Tiles(segs, from, to) && from <= x < to
    ensures Covered(segs, x)
    decreases |segs|
  {
    if x >= segs[0].endTime {
      var rest := segs[1..];
      assert rest[0] == segs[1];
      assert Tiles(rest, segs[0].endTime, to) by {
        forall c | 0 <= c < |rest| - 1
          ensures rest[c].endTime == rest[c + 1].startTime
        {
          assert rest[c] == segs[c + 1] && rest[c + 1] == segs[c + 2];
        }
      }
      TilesCover(rest, segs[0].endTime, to, x);
      var a :| 0 <= a < |rest| && rest[a].startTime <= x < rest[a].endTime;
      assert segs[a + 1] == rest[a];
    } else {
      assert segs[0].startTime <= x < segs[0].endTime;
    }
  }

  /** Keeping only some of the segments keeps them ordered. */
  lemma {:induction false} FilterOrdered(segs: seq<Segment>, P: Segment -> bool)
    requires Ordered(segs)
    ensures Ordered(Filter(segs, P))
  {
    if segs != [] {
      var rest := segs[1..];
      assert Ordered(rest) by {
        forall a, b | 0 <= a < b < |rest|
          ensures rest[a].endTime <= rest[b].startTime
        {
          assert rest[a] == segs[a + 1] && rest[b] == segs[b + 1];
        }
      }
      FilterOrdered(rest, P);
      FilterMembers(rest, P);
      var r := Filter(segs, P);
      var fr := Filter(rest, P);
      if P(segs[0]) {
        assert r == [segs[0]] + fr;
        forall a, b | 0 <= a < b < |r|
          ensures r[a].endTime <= r[b].startTime
        {
          if a == 0 {
            assert r[b] == fr[b - 1] && fr[b - 1] in rest;
            var c :| 0 <= c < |rest| && rest[c] == fr[b - 1];
            assert segs[c + 1] == rest[c];
          } else {
            assert r[a] == fr[a - 1] && r[b] == fr[b - 1];
          }
        }
      } else {
        assert r == fr;
      }
    }
  }

  /** Dropping idle segments does not change how long a process runs. */
  lemma {:induction false} FilterDuration(segs: seq<Segment>, pid: int)
    requires pid != 0
    ensures Duration(Filter(segs, IsBusy), pid) == Duration(segs, pid)
  {
    if segs != [] {
      FilterDuration(segs[1..], pid);
      var rest := Filter(segs[1..], IsBusy);
      if IsBusy(segs[0]) {
        assert Filter(segs, IsBusy) == [segs[0]] + rest;
        assert ([segs[0]] + rest)[1..] == rest;
      } else {
        assert Filter(segs, IsBusy) == rest;
      }
    }
  }

  /**
   * The segments of level k are non-empty, inside the timeline, none of
   * them idle, and every unit of one ran at level k under its pid.
   */
  lemma SegmentsUnits(tl: seq<Entry>, k: int)
    ensures var r := Segments(tl, k);
      && (forall a :: 0 <= a < |r| ==> 0 <= r[a].startTime < r[a].endTime <= |tl| && r[a].pid != 0)
      && (forall a, x :: 0 <= a < |r| && r[a].startTime <= x < r[a].endTime ==> tl[x] == Entry(r[a].pid, k))
  {
    var m := Mask(tl, k);
    var c := Compress(m);
    var r := Segments(tl, k);
    SegmentsCompress(tl, k);
    CompressProperties(m);
    FilterMembers(c, IsBusy);
    forall a | 0 <= a < |r|
      ensures 0 <= r[a].startTime < r[a].endTime <= |tl| && r[a].pid != 0
      ensures forall x :: r[a].startTime <= x < r[a].endTime ==> tl[x] == Entry(r[a].pid, k)
    {
      var b :| 0 <= b < |c| && c[b] == r[a];
    }
  }

  /** The segments of level k are in time order and disjoint. */
  lemma SegmentsOrdered(tl: seq<Entry>, k: int)
    ensures Ordered(Segments(tl, k))
  {
    var m := Mask(tl, k);
    var c := Compress(m);
    SegmentsCompress(tl, k);
    CompressProperties(m);
    TilesOrdered(c, 0, |m|);
    FilterOrdered(c, IsBusy);
  }

  /** The segments of level k cover exactly the units that ran at level k. */
  lemma SegmentsCover(tl: seq<Entry>, k: int)
    ensures forall x :: 0 <= x < |tl| ==> (Covered(Segments(tl, k), x) <==> AtLevel(tl[x], k))
  {
    var r := Segments(tl, k);
    forall x | 0 <= x < |tl| && AtLevel(tl[x], k)
      ensures Covered(r, x)
    {
      AtLevelCovered(tl, k, x);
    }
    SegmentsUnits(tl, k);
    forall x | 0 <= x < |tl| && Covered(r, x)
      ensures AtLevel(tl[x], k)
    {
      var a :| 0 <= a < |r| && r[a].startTime <= x < r[a].endTime;
    }
  }

  lemma AtLevelCovered(tl: seq<Entry>, k: int, x: int)
    requires 0 <= x < |tl| && AtLevel(tl[x], k)
    ensures Covered(Segments(tl, k), x)
  {
    var m := Mask(tl, k);
    var c := Compress(m);
    var r := Segments(tl, k);
    SegmentsCompress(tl, k);
    CompressProperties(m);
    TilesCover(c, 0, |m|, x);
    var b :| 0 <= b < |c| && c[b].startTime <= x < c[b].endTime;
    FilterMembers(c, IsBusy);
    assert c[b] in r;
    var a :| 0 <= a < |r| && r[a] == c[b];
  }

  /** A process gets as many units in the segments of level k as it ran at level k. */
  lemma SegmentsDuration(tl: seq<Entry>, k: int, pid: int)
    requires pid != 0
    ensures Duration(Segments(tl, k), pid) == Occurrences(Mask(tl, k), pid)
  {
    SegmentsCompress(tl, k);
    FilterDuration(Compress(Mask(tl, k)), pid);
    CompressDuration(Mask(tl, k), pid);
  }

  /** The loop of `getSegments(k)` (src/components/MFLQ.tsx:144-170). */
  method GetSegments(timeline: seq<Entry>, queueNum: int) returns (segments: seq<Segment>)
    ensures segments == Segments(timeline, queueNum)
    ensures Ordered(segments)
    ensures forall a :: 0 <= a < |segments| ==>
      0 <= segments[a].startTime < segments[a].endTime <= |timeline| && segments[a].pid != 0
    ensures forall x :: 0 <= x < |timeline| ==> (Covered(segments, x) <==> AtLevel(timeline[x], queueNum))
  {
    segments := [];
    var open := NoRun;
    var total := |timeline|;
    for i := 0 to total
      invariant open.RunFrom? ==> open.start < i
      invariant segments + Scan(timeline, queueNum, i, open) == Segments(timeline, queueNum)
    {
      if AtLevel(timeline[i], queueNum) {
        if open.NoRun? {
          open := RunFrom(i, timeline[i].pid);
        } else if timeline[i].pid != open.pid {
          segments := segments + [Segment(open.pid, open.start, i)];
          open := RunFrom(i, timeline[i].pid);
        }
      } else {
        if open.RunFrom? {
          segments := segments + [Segment(open.pid, open.start, i)];
          open := NoRun;
        }
      }
    }
    if open.RunFrom? {
      segments := segments + [Segment(open.pid, open.start, total)];
    }
    SegmentsUnits(timeline, queueNum);
    SegmentsOrdered(timeline, queueNum);
    SegmentsCover(timeline, queueNum);
  }
}
