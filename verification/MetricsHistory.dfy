// History points: a bounded window, and downsampling to one point per bucket.
module MetricsHistory {
  import opened Arithmetic
  import opened Text
  import StableSort

  datatype Point = Point(ts: int, summary: string)

  function ByTime(): Point -> StableSort.Key {
    (p: Point) => (p.ts, 0)
  }

  function Since(points: seq<Point>, cutoff: int): (r: seq<Point>)
    ensures forall p :: p in r <==> p in points && p.ts >= cutoff
  {
    if points == [] then []
    else if points[0].ts >= cutoff then [points[0]] + Since(points[1..], cutoff)
    else Since(points[1..], cutoff)
  }

  // The points stay in order.
  lemma {:induction false} SinceJoins(a: seq<Point>, b: seq<Point>, cutoff: int)
    ensures Since(a + b, cutoff) == Since(a, cutoff) + Since(b, cutoff)
  {
    if a == [] {
      assert a + b == b;
    } else {
      assert (a + b)[1..] == a[1..] + b;
      SinceJoins(a[1..], b, cutoff);
    }
  }

  predicate Ascending(points: seq<Point>) {
    forall i, j :: 0 <= i < j < |points| ==> points[i].ts <= points[j].ts
  }

  // out is the subsequence of points at the strictly increasing indices idx.
  ghost predicate Subsequence(points: seq<Point>, out: seq<Point>, idx: seq<nat>) {
    && |idx| == |out|
    && (forall k :: 0 <= k < |idx| ==> idx[k] < |points| && out[k] == points[idx[k]])
    && (forall k, l :: 0 <= k < l < |idx| ==> idx[k] < idx[l])
  }

  // The first n points are each represented by an output at or after them and
  // less than `resolution` later.
  ghost predicate Covers(points: seq<Point>, n: nat, idx: seq<nat>, resolution: int) {
    n <= |points| && forall c :: 0 <= c < n ==> Represented(points, c, idx, resolution)
  }

  ghost predicate Represented(points: seq<Point>, c: nat, idx: seq<nat>, resolution: int)
    requires c < |points|
  {
    exists k :: 0 <= k < |idx| && c <= idx[k] < |points| && points[idx[k]].ts - points[c].ts < resolution
  }

  // Closing a bucket that starts at `first` with its last point i.
  lemma {:induction false} CloseBucket(points: seq<Point>, idx: seq<nat>, resolution: int, first: nat, i: nat)
    requires Ascending(points) && first <= i < |points| && Covers(points, first, idx, resolution)
    requires points[i].ts - points[first].ts < resolution
    ensures Covers(points, i + 1, idx + [i], resolution)
  {
    forall c | 0 <= c < i + 1 ensures Represented(points, c, idx + [i], resolution) {
      if c < first {
        assert Represented(points, c, idx, resolution);
        var k :| 0 <= k < |idx| && c <= idx[k] < |points| && points[idx[k]].ts - points[c].ts < resolution;
        assert (idx + [i])[k] == idx[k];
      } else {
        assert points[first].ts <= points[c].ts;
        assert (idx + [i])[|idx|] == i;
      }
    }
  }

  lemma {:induction false} AppendIndex(points: seq<Point>, out: seq<Point>, idx: seq<nat>, i: nat)
    requires Subsequence(points, out, idx) && i < |points|
    requires forall k :: 0 <= k < |idx| ==> idx[k] < i
    ensures Subsequence(points, out + [points[i]], idx + [i])
  {
  }

  // A subsequence that ends in the last point and represents every point, with
  // at most span/resolution + 1 members; everything when the resolution is not
  // positive.
  ghost predicate Downsampled(points: seq<Point>, out: seq<Point>, idx: seq<nat>, resolution: int) {
    && points != [] && out != [] && Subsequence(points, out, idx)
    && idx[|idx| - 1] == |points| - 1
    && (resolution > 0 ==>
          && Covers(points, |points|, idx, resolution)
          && (|out| - 1) * resolution <= points[|points| - 1].ts - points[0].ts)
    && (resolution <= 0 ==> out == points)
  }

  ghost predicate Represents(points: seq<Point>, out: seq<Point>, resolution: int) {
    exists idx :: Downsampled(points, out, idx, resolution)
  }

  lemma {:induction false} SortedAscends(points: seq<Point>)
    ensures Ascending(StableSort.Sort(ByTime(), points))
    ensures points != [] ==> StableSort.Sort(ByTime(), points) != []
  {
    StableSort.SortSpec(ByTime(), points);
    StableSort.SortMembers(ByTime(), points);
    var sorted := StableSort.Sort(ByTime(), points);
    forall i, j | 0 <= i < j < |sorted| ensures sorted[i].ts <= sorted[j].ts {
      assert StableSort.KeyLe(ByTime()(sorted[i]), ByTime()(sorted[j]));
    }
  }

  // The outputs for the first `first` points, whose buckets are closed.
  ghost predicate Closed(points: seq<Point>, out: seq<Point>, idx: seq<nat>, first: nat, resolution: int) {
    && first < |points| && Subsequence(points, out, idx)
    && (forall k :: 0 <= k < |idx| ==> idx[k] < first)
    && (resolution > 0 ==> Covers(points, first, idx, resolution))
    && (resolution > 0 ==> Mul(|out|, resolution) <= points[first].ts - points[0].ts)
    && (resolution <= 0 ==> out == points[..first])
  }

  // The bucket from `first` to i is emitted as its last point, and i + 1 opens the next.
  lemma {:induction false} CloseNext(points: seq<Point>, out: seq<Point>, idx: seq<nat>, first: nat, i: nat,
                                     resolution: int)
    requires Ascending(points) && Closed(points, out, idx, first, resolution) && first <= i < |points| - 1
    requires resolution > 0 ==> points[i].ts - points[first].ts < resolution
    requires points[i + 1].ts >= points[first].ts + resolution
    requires resolution <= 0 ==> i == first
    ensures Closed(points, out + [points[i]], idx + [i], i + 1, resolution)
  {
    if resolution > 0 {
      CloseBucket(points, idx, resolution, first, i);
    }
    AppendIndex(points, out, idx, i);
  }

  lemma {:induction false} CloseLast(points: seq<Point>, out: seq<Point>, idx: seq<nat>, first: nat, resolution: int)
    requires Ascending(points) && Closed(points, out, idx, first, resolution)
    requires resolution > 0 ==> points[|points| - 1].ts - points[first].ts < resolution
    requires resolution <= 0 ==> first == |points| - 1
    ensures Downsampled(points, out + [points[|points| - 1]], idx + [|points| - 1], resolution)
  {
    if resolution > 0 {
      CloseBucket(points, idx, resolution, first, |points| - 1);
      assert points[first].ts <= points[|points| - 1].ts;
      MulIsProduct(|out|, resolution);
    }
    AppendIndex(points, out, idx, |points| - 1);
  }

  // The bucketing loop over points sorted by time.
  method Downsample(points: seq<Point>, resolution: int) returns (out: seq<Point>)
    requires points != [] && Ascending(points)
    ensures Represents(points, out, resolution)
  {
    out := [];
    ghost var idx: seq<nat> := [];
    var bucketStart := points[0].ts;
    var bucket: Option<Point> := None;
    ghost var first := 0; // where the open bucket starts
    for i := 0 to |points|
      invariant Closed(points, out, idx, first, resolution) && bucketStart == points[first].ts
      invariant if i == 0 then bucket.None? && first == 0 else first < i && bucket == Some(points[i - 1])
      invariant resolution > 0 && i > 0 ==> points[i - 1].ts - bucketStart < resolution
      invariant resolution <= 0 && i > 0 ==> first == i - 1
    {
      var p := points[i];
      assert points[first].ts <= p.ts;
      if p.ts >= bucketStart + resolution {
        if bucket.Some? {
          CloseNext(points, out, idx, first, i - 1, resolution);
          out, idx, first := out + [bucket.value], idx + [i - 1], i;
        }
        bucketStart := p.ts;
        bucket := Some(p);
      } else {
        bucket := Some(p);
      }
    }
    CloseLast(points, out, idx, first, resolution);
    out, idx := out + [bucket.value], idx + [|points| - 1];
  }

  // What is asked about: recent memory, or the files without any, by time.
  function Candidates(history: seq<Point>, files: seq<Point>, cutoff: int): (points: seq<Point>)
    ensures if exists p :: p in history && p.ts >= cutoff
            then forall p :: p in points <==> p in history && p.ts >= cutoff
            else multiset(points) == multiset(files)
  {
    var memory := Since(history, cutoff);
    StableSort.SortSpec(ByTime(), if memory != [] then memory else files);
    StableSort.SortMembers(ByTime(), if memory != [] then memory else files);
    assert memory != [] ==> memory[0] in memory;
    StableSort.Sort(ByTime(), if memory != [] then memory else files)
  }

  class MetricsPersistence {
    const maxPoints: nat
    var history: seq<Point>

    constructor (maxPoints: nat)
      requires maxPoints > 0
      ensures this.maxPoints == maxPoints && history == []
    {
      this.maxPoints := maxPoints;
      history := [];
    }

    // Append, then keep the newest maxPoints.
    method Snapshot(p: Point)
      requires maxPoints > 0
      modifies this
      ensures history == var all := old(history) + [p];
                         if |all| > maxPoints then all[|all| - maxPoints..] else all
      ensures |old(history)| <= maxPoints ==> |history| <= maxPoints
    {
      history := history + [p];
      if |history| > maxPoints {
        history := history[|history| - maxPoints..];
      }
    }

    // `files` is what the on-disk snapshots since the cutoff hold, in file order.
    method GetHistory(files: seq<Point>, now: int, minutes: int, resolution: int) returns (out: seq<Point>)
      ensures var points := Candidates(history, files, now - minutes * 60);
              && Ascending(points)
              && if points == [] then out == [] else Represents(points, out, resolution)
    {
      var candidates := Since(history, now - minutes * 60);
      if candidates == [] {
        candidates := files;
      }
      SortedAscends(candidates);
      candidates := StableSort.Sort(ByTime(), candidates);
      if candidates == [] {
        return [];
      }
      out := Downsample(candidates, resolution);
    }
  }
}
