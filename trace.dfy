/**
 * The run-length compressor shared by round robin and STCF: the per-unit
 * timeline (one pid per time unit, 0 for idle) becomes contiguous segments.
 */
module Trace {
  import opened Common

  /** Number of time units a segment covers. */
  function Length(s: Segment): nat {
    if s.endTime > s.startTime then s.endTime - s.startTime else 0
  }

  /**
   * The segments partition [from, to): each is non-empty, the first starts
   * at `from`, each starts where the previous one ended, the last ends at `to`.
   */
  predicate Tiles(segs: seq<Segment>, from: int, to: int) {
    (segs == [] ==> from == to)
    && (segs != [] ==> segs[0].startTime == from && segs[|segs| - 1].endTime == to)
    && (forall k :: 0 <= k < |segs| ==> segs[k].startTime < segs[k].endTime)
    && (forall k :: 0 <= k < |segs| - 1 ==> segs[k].endTime == segs[k + 1].startTime)
  }

  /** Neighbouring segments belong to different pids. */
  predicate Alternating(segs: seq<Segment>) {
    forall k :: 0 <= k < |segs| - 1 ==> segs[k].pid != segs[k + 1].pid
  }

  /** Every unit a segment covers holds that segment's pid in the timeline. */
  predicate Constant(tl: seq<int>, segs: seq<Segment>) {
    (forall k :: 0 <= k < |segs| ==> 0 <= segs[k].startTime && segs[k].endTime <= |tl|)
    && (forall k, i :: 0 <= k < |segs| && segs[k].startTime <= i < segs[k].endTime ==>
          tl[i] == segs[k].pid)
  }

  /** The timeline a list of segments stands for: each pid repeated over its run. */
  function Expand(segs: seq<Segment>): (r: seq<int>)
  {
    if segs == [] then [] else Repeat(segs[0].pid, Length(segs[0])) + Expand(segs[1..])
  }

  /** Units given to `pid` by the segments. */
  function Duration(segs: seq<Segment>, pid: int): nat {
    if segs == [] then 0
    else (if segs[0].pid == pid then Length(segs[0]) else 0) + Duration(segs[1..], pid)
  }

  /**
   * The compressor's scan from position `t` while the current run started
   * at `start`: a change of pid closes the run, the end of the timeline
   * closes the last one.
   */
  function RunsFrom(tl: seq<int>, start: nat, t: nat): seq<Segment>
    requires start < t <= |tl|
    decreases |tl| - t
  {
    if t == |tl| then [Segment(tl[start], start, |tl|)]
    else if tl[t] != tl[start] then [Segment(tl[start], start, t)] + RunsFrom(tl, t, t + 1)
    else RunsFrom(tl, start, t + 1)
  }

  /** The segments built from a timeline (no segment for an empty timeline). */
  function Compress(tl: seq<int>): seq<Segment> {
    if tl == [] then [] else RunsFrom(tl, 0, 1)
  }

  lemma TilesCons(seg: Segment, rest: seq<Segment>, from: int, to: int)
    requires seg.startTime == from < seg.endTime
    requires Tiles(rest, seg.endTime, to)
    ensures Tiles([seg] + rest, from, to)
  {
    var r := [seg] + rest;
    forall k | 0 <= k < |r| - 1
      ensures r[k].endTime == r[k + 1].startTime
    {
      if k > 0 {
        assert r[k] == rest[k - 1] && r[k + 1] == rest[k];
      }
    }
  }

  lemma RepeatSlice(tl: seq<int>, start: nat, t: nat)
    requires start <= t <= |tl|
    requires forall i :: start <= i < t ==> tl[i] == tl[start]
    ensures start < t ==> Repeat(tl[start], t - start) == tl[start..t]
  {
  }

  /** Closing a constant run in front of the runs of the rest of the timeline. */
  lemma RunsCons(tl: seq<int>, start: nat, t: nat, rest: seq<Segment>)
    requires start < t < |tl| && tl[t] != tl[start]
    requires forall i :: start <= i < t ==> tl[i] == tl[start]
    requires rest != [] && rest[0].pid == tl[t]
    requires Tiles(rest, t, |tl|) && Alternating(rest) && Constant(tl, rest)
    requires Expand(rest) == tl[t..]
    ensures var r := [Segment(tl[start], start, t)] + rest;
      && Tiles(r, start, |tl|) && Alternating(r) && Constant(tl, r)
      && Expand(r) == tl[start..]
  {
    var seg := Segment(tl[start], start, t);
    TilesCons(seg, rest, start, |tl|);
    AlternatingCons(seg, rest);
    ConstantCons(tl, seg, rest);
    ExpandCons(tl, start, t, rest);
  }

  lemma AlternatingCons(seg: Segment, rest: seq<Segment>)
    requires Alternating(rest) && (rest != [] ==> rest[0].pid != seg.pid)
    ensures Alternating([seg] + rest)
  {
    var r := [seg] + rest;
    forall k | 0 <= k < |r| - 1
      ensures r[k].pid != r[k + 1].pid
    {
      if k > 0 {
        assert r[k] == rest[k - 1] && r[k + 1] == rest[k];
      }
    }
  }

  lemma ConstantCons(tl: seq<int>, seg: Segment, rest: seq<Segment>)
    requires 0 <= seg.startTime && seg.endTime <= |tl|
    requires forall i :: seg.startTime <= i < seg.endTime ==> tl[i] == seg.pid
    requires Constant(tl, rest)
    ensures Constant(tl, [seg] + rest)
  {
    var r := [seg] + rest;
    forall k | 0 <= k < |r|
      ensures 0 <= r[k].startTime && r[k].endTime <= |tl|
    {
      if k > 0 {
        assert r[k] == rest[k - 1];
      }
    }
    forall k, i | 0 <= k < |r| && r[k].startTime <= i < r[k].endTime
      ensures tl[i] == r[k].pid
    {
      if k > 0 {
        assert r[k] == rest[k - 1];
      }
    }
  }

  lemma ExpandCons(tl: seq<int>, start: nat, t: nat, rest: seq<Segment>)
    requires start < t <= |tl|
    requires forall i :: start <= i < t ==> tl[i] == tl[start]
    requires Expand(rest) == tl[t..]
    ensures Expand([Segment(tl[start], start, t)] + rest) == tl[start..]
  {
    var r := [Segment(tl[start], start, t)] + rest;
    RepeatSlice(tl, start, t);
    assert r[1..] == rest;
    assert Expand(r) == Repeat(tl[start], t - start) + Expand(rest);
    assert tl[start..] == tl[start..t] + tl[t..];
  }

  /**
   * What one scan produces: a partition of [start, |tl|) into constant,
   * alternating runs that expands back to the scanned suffix.
   */
  lemma {:induction false} RunsFromProperties(tl: seq<int>, start: nat, t: nat)
    requires start < t <= |tl|
    requires forall i :: start <= i < t ==> tl[i] == tl[start]
    ensures var r := RunsFrom(tl, start, t);
      && r != [] && r[0].pid == tl[start] && r[0].endTime >= t
      && Tiles(r, start, |tl|)
      && Alternating(r)
      && Constant(tl, r)
      && Expand(r) == tl[start..]
    decreases |tl| - t
  {
    var r := RunsFrom(tl, start, t);
    if t == |tl| {
      RepeatSlice(tl, start, t);
      assert Expand(r) == Repeat(tl[start], t - start) + [];
    } else if tl[t] != tl[start] {
      RunsFromProperties(tl, t, t + 1);
      var rest := RunsFrom(tl, t, t + 1);
      assert r == [Segment(tl[start], start, t)] + rest;
      RunsCons(tl, start, t, rest);
    } else {
      RunsFromProperties(tl, start, t + 1);
    }
  }

  /**
   * The compressed timeline: the segments cover [0, |tl|) contiguously,
   * neighbours differ in pid, every unit keeps its pid (idle runs become
   * pid-0 segments), and expanding the segments gives the timeline back.
   */
  lemma CompressProperties(tl: seq<int>)
    ensures Tiles(Compress(tl), 0, |tl|)
    ensures Alternating(Compress(tl))
    ensures Constant(tl, Compress(tl))
    ensures Expand(Compress(tl)) == tl
    ensures Compress(tl) == [] <==> tl == []
  {
    if tl != [] {
      RunsFromProperties(tl, 0, 1);
    }
  }

  lemma {:induction false} DurationExpand(segs: seq<Segment>, pid: int)
    ensures Occurrences(Expand(segs), pid) == Duration(segs, pid)
  {
    if segs != [] {
      DurationExpand(segs[1..], pid);
      OccurrencesAppend(Repeat(segs[0].pid, Length(segs[0])), Expand(segs[1..]), pid);
      RepeatCount(segs[0].pid, Length(segs[0]), pid);
    }
  }

  /** The units a pid gets across its segments are exactly its occurrences in the timeline. */
  lemma CompressDuration(tl: seq<int>, pid: int)
    ensures Duration(Compress(tl), pid) == Occurrences(tl, pid)
  {
    CompressProperties(tl);
    DurationExpand(Compress(tl), pid);
  }

  /** The compressor loop (src/RR.tsx:92-108, identical in src/STCF.tsx:69-85). */
  method CompressTimeline(timeline: seq<int>) returns (segments: seq<Segment>)
    ensures segments == Compress(timeline)
    ensures Tiles(segments, 0, |timeline|) && Alternating(segments)
    ensures Constant(timeline, segments) && Expand(segments) == timeline
  {
    segments := [];
    if |timeline| > 0 {
      var start := 0;
      var currentPid := timeline[0];
      for t := 1 to |timeline|
        invariant start < t && currentPid == timeline[start]
        invariant forall i :: start <= i < t ==> timeline[i] == currentPid
        invariant segments + RunsFrom(timeline, start, t) == Compress(timeline)
      {
        if timeline[t] != currentPid {
          segments := segments + [Segment(currentPid, start, t)];
          start := t;
          currentPid := timeline[t];
        }
      }
      segments := segments + [Segment(currentPid, start, |timeline|)];
    }
    CompressProperties(timeline);
  }
}
