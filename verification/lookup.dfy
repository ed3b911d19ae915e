/** `Curve.getY`: find the rightmost baked point whose x does not exceed the
    query by binary search, then interpolate linearly to its successor; below
    the first point or at/after the last one the end value is returned. */
module CurveLookup {
  import opened Bezier

  /** Bracket facts about a search position `ix` in `pts`: every point at or
      before it has x <= q, the one after it has x > q. */
  predicate Brackets(pts: seq<Point>, q: real, ix: int) {
    && -1 <= ix < |pts|
    && (ix >= 0 ==> pts[ix].x <= q)
    && (ix + 1 < |pts| ==> pts[ix + 1].x > q)
  }

  /** The binary search of `getY` as a recursion on the window
      `[left, right)`; `(left + right) // 2` is Dafny's `/` on naturals. */
  function Bisect(pts: seq<Point>, q: real, left: nat, right: nat): (ix: int)
    requires left <= right <= |pts|
    requires left == 0 || pts[left - 1].x <= q
    requires right == |pts| || pts[right].x > q
    decreases right - left
    ensures Brackets(pts, q, ix)
    ensures left - 1 <= ix <= right - 1
  {
    if left < right then
      var mid := (left + right) / 2;
      if pts[mid].x > q then Bisect(pts, q, left, mid) else Bisect(pts, q, mid + 1, right)
    else
      right - 1
  }

  /** Linear interpolation between `a` and `b` at abscissa `q`. */
  function Lerp(a: Point, b: Point, q: real): real
    requires a.x < b.x
  {
    var pos := (q - a.x) / (b.x - a.x);
    b.y * pos + a.y * (1.0 - pos)
  }

  /** The y value of `getY` as a pure function. Whatever the order of the
      points, the bracket it interpolates in has a positive width, so the
      division never fails, and the value never leaves the y-range of the
      bracketing pair. */
  function Lookup(pts: seq<Point>, q: real): (y: real)
    requires |pts| >= 1
    ensures var ix := Bisect(pts, q, 0, |pts|);
      && (ix < 0 ==> y == pts[0].y)
      && (ix == |pts| - 1 ==> y == pts[|pts| - 1].y)
      && (0 <= ix < |pts| - 1 ==> pts[ix].x <= q < pts[ix + 1].x && Between(y, pts[ix].y, pts[ix + 1].y))
  {
    var ix := Bisect(pts, q, 0, |pts|);
    if ix < 0 then pts[0].y
    else if ix + 1 >= |pts| then pts[|pts| - 1].y
    else
      LerpBetween(pts[ix], pts[ix + 1], q);
      Lerp(pts[ix], pts[ix + 1], q)
  }

  predicate Between(y: real, a: real, b: real) {
    (a <= y <= b) || (b <= y <= a)
  }

  lemma LerpBetween(a: Point, b: Point, q: real)
    requires a.x <= q < b.x
    ensures Between(Lerp(a, b, q), a.y, b.y)
  {
    var d := b.x - a.x;
    var pos := (q - a.x) / d;
    assert pos * d == q - a.x;
    assert 0.0 <= pos;
    assert (1.0 - pos) * d == d - (q - a.x) > 0.0;
    PositiveFactor(1.0 - pos, d);
    var y := b.y * pos + a.y * (1.0 - pos);
    assert y - a.y == (b.y - a.y) * pos;
    assert b.y - y == (b.y - a.y) * (1.0 - pos);
    if a.y <= b.y {
      MulNonNegative(b.y - a.y, pos);
      MulNonNegative(b.y - a.y, 1.0 - pos);
    } else {
      MulNonNegative(a.y - b.y, pos);
      MulNonNegative(a.y - b.y, 1.0 - pos);
    }
  }

  lemma MulNonNegative(u: real, v: real)
    requires 0.0 <= u && 0.0 <= v
    ensures 0.0 <= u * v
  {
  }

  lemma PositiveFactor(u: real, d: real)
    requires 0.0 < d && 0.0 < u * d
    ensures 0.0 < u
  {
    if u <= 0.0 {
      MulNonNegative(-u, d);
    }
  }

  /** The search loop of `getY`, with its final boundary checks. */
  method GetY(pts: seq<Point>, q: real) returns (y: real)
    requires |pts| >= 1
    ensures y == Lookup(pts, q)
  {
    var left := 0;
    var right := |pts|;
    while left < right
      invariant 0 <= left <= right <= |pts|
      invariant left == 0 || pts[left - 1].x <= q
      invariant right == |pts| || pts[right].x > q
      invariant Bisect(pts, q, left, right) == Bisect(pts, q, 0, |pts|)
      decreases right - left
    {
      var ix := (left + right) / 2;
      if pts[ix].x > q {
        right := ix;
      } else {
        left := ix + 1;
      }
    }
    var ix := right - 1;
    if ix < 0 {
      y := pts[0].y;
    } else if ix + 1 >= |pts| {
      y := pts[|pts| - 1].y;
    } else {
      var pos := (q - pts[ix].x) / (pts[ix + 1].x - pts[ix].x);
      y := pts[ix + 1].y * pos + pts[ix].y * (1.0 - pos);
    }
  }

  // ---------------------------------------------------------------------------
  // Reference definition on an x-sorted polyline.

  /** Points in non-decreasing x order. */
  predicate Sorted(pts: seq<Point>) {
    forall i, j :: 0 <= i < j < |pts| ==> pts[i].x <= pts[j].x
  }

  /** Points in strictly increasing x order. */
  predicate StrictlySorted(pts: seq<Point>) {
    forall i, j :: 0 <= i < j < |pts| ==> pts[i].x < pts[j].x
  }

  /** The index of the rightmost point with x <= q, or -1, by a plain scan
      from the end. */
  function LastAtMost(pts: seq<Point>, q: real): (ix: int)
    ensures -1 <= ix < |pts|
    ensures ix >= 0 ==> pts[ix].x <= q
    ensures forall j :: ix < j < |pts| ==> pts[j].x > q
  {
    if |pts| == 0 then -1
    else if pts[|pts| - 1].x <= q then |pts| - 1
    else LastAtMost(pts[..|pts| - 1], q)
  }

  /** Reference value of the curve at `q`: clamp outside, interpolate after
      the rightmost point not beyond `q` inside. */
  function Interpolant(pts: seq<Point>, q: real): real
    requires |pts| >= 1
  {
    var ix := LastAtMost(pts, q);
    if ix < 0 then pts[0].y
    else if ix == |pts| - 1 then pts[|pts| - 1].y
    else Lerp(pts[ix], pts[ix + 1], q)
  }

  /** On a sorted polyline exactly one position brackets `q`. */
  lemma BracketIsLastAtMost(pts: seq<Point>, q: real, ix: int)
    requires Sorted(pts)
    requires Brackets(pts, q, ix)
    ensures ix == LastAtMost(pts, q)
  {
  }

  /** On an x-sorted polyline the binary search computes the reference value. */
  lemma LookupSorted(pts: seq<Point>, q: real)
    requires |pts| >= 1 && Sorted(pts)
    ensures Lookup(pts, q) == Interpolant(pts, q)
  {
    BracketIsLastAtMost(pts, q, Bisect(pts, q, 0, |pts|));
  }

  /** On a sorted polyline a query below the first point returns its y, and a
      query at or after the last point returns the last y. */
  lemma LookupClampsOutside(pts: seq<Point>, q: real)
    requires |pts| >= 1 && Sorted(pts)
    ensures q < pts[0].x ==> Lookup(pts, q) == pts[0].y
    ensures pts[|pts| - 1].x <= q ==> Lookup(pts, q) == pts[|pts| - 1].y
  {
    LookupSorted(pts, q);
  }

  /** On a strictly sorted polyline the lookup passes through every point. */
  lemma LookupAtSample(pts: seq<Point>, k: nat)
    requires k < |pts| && StrictlySorted(pts)
    ensures Lookup(pts, pts[k].x) == pts[k].y
  {
    var q := pts[k].x;
    assert Sorted(pts);
    LookupSorted(pts, q);
    assert Brackets(pts, q, k);
    BracketIsLastAtMost(pts, q, k);
    if k < |pts| - 1 {
      LerpAtStart(pts[k], pts[k + 1]);
    }
  }

  /** Interpolation at the left end of the bracket gives its left value. */
  lemma LerpAtStart(a: Point, b: Point)
    requires a.x < b.x
    ensures Lerp(a, b, a.x) == a.y
  {
    assert (a.x - a.x) / (b.x - a.x) == 0.0;
  }
}
