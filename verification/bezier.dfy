/** Baking a curve: the serialised chain of (left handle, body point, right
    handle) triples becomes a polyline of `PointsPerCurve` samples per cubic
    Bezier segment, each sample computed by three rounds of de Casteljau
    interpolation. */
module Bezier {
  import opened Wrappers

  const PointsPerCurve: nat := 100

  datatype Point = Point(x: real, y: real)

  /** One serialised control point: a body point with its optional tangent
      handles (`None` is the JSON `null` of the first and last triple). */
  datatype Triple = Triple(left: Option<Point>, body: Point, right: Option<Point>)

  /** The four control points of one cubic segment: body, its right handle,
      the next body's left handle, the next body. */
  datatype Segment = Segment(p1: Point, p2: Point, p3: Point, p4: Point)

  datatype BakeError =
    | TooFewPoints        // `pt4` is never bound: fewer than two triples
    | MissingHandle(ix: nat)  // a `null` handle is indexed in segment `ix`

  /** One linear-interpolation step: `b * t + a * (1 - t)`. */
  function Mix(a: real, b: real, t: real): real {
    b * t + a * (1.0 - t)
  }

  /** `calculateCurveAt` on one coordinate: three rounds of interpolation. */
  function DeCasteljau(a: real, b: real, c: real, d: real, t: real): real {
    var ab := Mix(a, b, t);
    var bc := Mix(b, c, t);
    var cd := Mix(c, d, t);
    Mix(Mix(ab, bc, t), Mix(bc, cd, t), t)
  }

  /** The cubic Bernstein form of the same curve. */
  function Bernstein(a: real, b: real, c: real, d: real, t: real): real {
    var s := 1.0 - t;
    s * s * s * a + 3.0 * s * s * t * b + 3.0 * s * t * t * c + t * t * t * d
  }

  function CurveAt(seg: Segment, t: real): Point {
    Point(DeCasteljau(seg.p1.x, seg.p2.x, seg.p3.x, seg.p4.x, t),
          DeCasteljau(seg.p1.y, seg.p2.y, seg.p3.y, seg.p4.y, t))
  }

  /** The three-round construction is the Bernstein cubic; in particular it
      starts at the body point and ends at the next body point. */
  lemma DeCasteljauIsBernstein(a: real, b: real, c: real, d: real, t: real)
    ensures DeCasteljau(a, b, c, d, t) == Bernstein(a, b, c, d, t)
    ensures DeCasteljau(a, b, c, d, 0.0) == a
    ensures DeCasteljau(a, b, c, d, 1.0) == d
  {
    var s := 1.0 - t;
    var ab := Mix(a, b, t);
    var bc := Mix(b, c, t);
    var cd := Mix(c, d, t);
    assert ab == s * a + t * b;
    assert bc == s * b + t * c;
    assert cd == s * c + t * d;
    var abc := Mix(ab, bc, t);
    var bcd := Mix(bc, cd, t);
    assert abc == s * s * a + 2.0 * s * t * b + t * t * c;
    assert bcd == s * s * b + 2.0 * s * t * c + t * t * d;
    assert Mix(abc, bcd, t) == s * abc + t * bcd;
  }

  /** The samples of one segment: its first body point, then the interior
      points at `t = i/100` for `i` in 1..99. */
  function SegmentSamples(seg: Segment): (r: seq<Point>)
    ensures |r| == PointsPerCurve
    ensures r[0] == seg.p1
    ensures forall i :: 0 < i < PointsPerCurve ==> r[i] == CurveAt(seg, i as real / PointsPerCurve as real)
  {
    [seg.p1] + seq(PointsPerCurve - 1, j => CurveAt(seg, (j + 1) as real / PointsPerCurve as real))
  }

  /** Sample `k` of the polyline: which segment it comes from and where. */
  function SampleOf(segs: seq<Segment>, k: nat): Point
    requires k < PointsPerCurve * |segs|
  {
    var s := k / PointsPerCurve;
    var i := k % PointsPerCurve;
    if i == 0 then segs[s].p1 else CurveAt(segs[s], i as real / PointsPerCurve as real)
  }

  /** The per-segment samples concatenated, without the final body point. */
  function Flatten(segs: seq<Segment>): (r: seq<Point>)
    ensures |r| == PointsPerCurve * |segs|
    ensures forall k :: 0 <= k < |r| ==> r[k] == SampleOf(segs, k)
  {
    if |segs| == 0 then []
    else
      var head := SegmentSamples(segs[0]);
      var rest := Flatten(segs[1..]);
      var r := head + rest;
      assert forall k :: PointsPerCurve <= k < |r| ==> r[k] == SampleOf(segs, k) by {
        forall k | PointsPerCurve <= k < |r|
          ensures r[k] == SampleOf(segs, k)
        {
          ShiftSample(segs, k);
        }
      }
      r
  }

  /** Dropping the first segment shifts every later sample by one segment. */
  lemma ShiftSample(segs: seq<Segment>, k: nat)
    requires |segs| > 0 && PointsPerCurve <= k < PointsPerCurve * |segs|
    ensures SampleOf(segs[1..], k - PointsPerCurve) == SampleOf(segs, k)
  {
    var k' := k - PointsPerCurve;
    assert k' / PointsPerCurve == k / PointsPerCurve - 1;
    assert k' % PointsPerCurve == k % PointsPerCurve;
  }

  /** The whole polyline of a non-empty list of segments. */
  function Polyline(segs: seq<Segment>): (r: seq<Point>)
    requires |segs| > 0
    ensures |r| == PointsPerCurve * |segs| + 1
    ensures r[0] == segs[0].p1
    ensures r[|r| - 1] == segs[|segs| - 1].p4
    ensures forall s :: 0 <= s < |segs| ==> r[PointsPerCurve * s] == segs[s].p1
    ensures forall k :: 0 <= k < |r| - 1 ==> r[k] == SampleOf(segs, k)
  {
    var flat := Flatten(segs);
    assert forall s :: 0 <= s < |segs| ==> flat[PointsPerCurve * s] == SampleOf(segs, PointsPerCurve * s);
    flat + [segs[|segs| - 1].p4]
  }

  /** The segments formed by consecutive triples; raises exactly when the
      baking loop would (too few triples, or a `null` handle it indexes). */
  function SegmentsOf(c: seq<Triple>): (r: Result<seq<Segment>, BakeError>)
    ensures r.Ok? <==> |c| >= 2 && HandlesPresent(c)
    ensures r.Ok? ==> |r.value| == |c| - 1
    ensures r.Ok? ==> forall i :: 0 <= i < |c| - 1 ==> r.value[i] == SegmentAt(c, i)
  {
    if |c| < 2 then Err(TooFewPoints) else SegmentsFrom(c, 0)
  }

  /** Every handle the baking loop reads is present. */
  predicate HandlesPresent(c: seq<Triple>) {
    forall i :: 0 <= i < |c| - 1 ==> SegmentReadable(c, i)
  }

  /** Segment `i` reads the right handle of triple `i` and the left handle of
      triple `i + 1`. */
  predicate SegmentReadable(c: seq<Triple>, i: nat)
    requires i < |c| - 1
  {
    c[i].right.Some? && c[i + 1].left.Some?
  }

  /** The cubic segment between triples `i` and `i + 1`. */
  function SegmentAt(c: seq<Triple>, i: nat): Segment
    requires i < |c| - 1 && SegmentReadable(c, i)
  {
    Segment(c[i].body, c[i].right.value, c[i + 1].left.value, c[i + 1].body)
  }

  function SegmentsFrom(c: seq<Triple>, ix: nat): (r: Result<seq<Segment>, BakeError>)
    requires ix < |c|
    decreases |c| - ix
    ensures r.Ok? <==> forall i :: ix <= i < |c| - 1 ==> SegmentReadable(c, i)
    ensures r.Err? ==> r.error.MissingHandle? && ix <= r.error.ix < |c| - 1
    ensures r.Ok? ==> |r.value| == |c| - 1 - ix
    ensures r.Ok? ==> forall i :: ix <= i < |c| - 1 ==> r.value[i - ix] == SegmentAt(c, i)
  {
    if ix == |c| - 1 then Ok([])
    else match (c[ix].right, c[ix + 1].left)
      case (Some(p2), Some(p3)) =>
        var rest :- SegmentsFrom(c, ix + 1);
        Ok([Segment(c[ix].body, p2, p3, c[ix + 1].body)] + rest)
      case _ =>
        assert !SegmentReadable(c, ix);
        Err(MissingHandle(ix))
  }

  /** `Curve.__init__`: bake the serialised curve into its polyline. */
  function Bake(c: seq<Triple>): (r: Result<seq<Point>, BakeError>)
    ensures r.Ok? <==> |c| >= 2 && HandlesPresent(c)
    ensures r.Ok? ==> |r.value| == (|c| - 1) * PointsPerCurve + 1
    ensures r.Ok? ==> r.value[0] == c[0].body && r.value[|r.value| - 1] == c[|c| - 1].body
    ensures r.Ok? ==> forall i :: 0 <= i < |c| ==> r.value[PointsPerCurve * i] == c[i].body
  {
    var segs :- SegmentsOf(c);
    PolylineBodies(c, segs);
    Ok(Polyline(segs))
  }

  lemma PolylineBodies(c: seq<Triple>, segs: seq<Segment>)
    requires SegmentsOf(c) == Ok(segs)
    ensures forall i :: 0 <= i < |c| ==> Polyline(segs)[PointsPerCurve * i] == c[i].body
  {
    var poly := Polyline(segs);
    forall i | 0 <= i < |c|
      ensures poly[PointsPerCurve * i] == c[i].body
    {
      if i < |c| - 1 {
        assert poly[PointsPerCurve * i] == segs[i].p1;
      } else {
        assert PointsPerCurve * i == |poly| - 1;
      }
    }
  }

  /** Between two body points the baked polyline holds exactly the de
      Casteljau samples of the segment they span. */
  lemma BakeInterior(c: seq<Triple>, i: nat, j: nat)
    requires Bake(c).Ok?
    requires i < |c| - 1 && 0 < j < PointsPerCurve
    ensures SegmentReadable(c, i)
    ensures Bake(c).value[PointsPerCurve * i + j] == CurveAt(SegmentAt(c, i), j as real / PointsPerCurve as real)
  {
    var segs := SegmentsOf(c).value;
    var k := PointsPerCurve * i + j;
    assert k / PointsPerCurve == i && k % PointsPerCurve == j;
    assert Polyline(segs)[k] == SampleOf(segs, k);
  }
}
