/** Curve editing: the chain of body points of a plot, each with its tangent
    handles. The panel's linked list of points is a sequence in chain order:
    the head has no left handle, the tail no right handle. */
module Editor {
  import opened Wrappers
  import opened Numerics
  import opened Bezier

  const SpawnMinDist: real := 0.02
  const YMargin: real := 0.25
  const ZoomMax: real := 100.0
  const ZoomMultiplier: real := 1.2

  /** A body point and its handles (`CurvePoint`s). */
  datatype Body = Body(x: real, y: real, left: Option<Point>, right: Option<Point>)

  datatype Side = Left | Right

  // ---------------------------------------------------------------------------
  // Clamping boxes

  /** `ControlPoint.limitCoords`: the unit square. */
  function LimitBody(x: real, y: real): (p: Point)
    ensures InBodyBox(p)
    ensures 0.0 <= x <= 1.0 && 0.0 <= y <= 1.0 ==> p == Point(x, y)
  {
    Point(Clamp(x, 0.0, 1.0), Clamp(y, 0.0, 1.0))
  }

  /** `CurvePoint.limitCoords`: x in [0,1], y with a margin above and below. */
  function LimitHandle(x: real, y: real): (p: Point)
    ensures InHandleBox(p)
    ensures InHandleBox(Point(x, y)) ==> p == Point(x, y)
  {
    Point(Clamp(x, 0.0, 1.0), Clamp(y, -YMargin, 1.0 + YMargin))
  }

  predicate InBodyBox(p: Point) {
    0.0 <= p.x <= 1.0 && 0.0 <= p.y <= 1.0
  }

  predicate InHandleBox(p: Point) {
    0.0 <= p.x <= 1.0 && -YMargin <= p.y <= 1.0 + YMargin
  }

  /** `CurvePoint.move`: clamp to the handle box, then keep a left handle at
      or left of its body and a right handle at or right of it. */
  function HandleMove(parentX: real, side: Side, x: real, y: real): (h: Point)
    ensures 0.0 <= parentX <= 1.0 ==> InHandleBox(h)
    ensures side == Left ==> h.x <= parentX
    ensures side == Right ==> h.x >= parentX
    ensures InHandleBox(Point(x, y)) && OnSide(parentX, side, x) ==> h == Point(x, y)
  {
    var p := LimitHandle(x, y);
    match side
    case Left => Point(if p.x <= parentX then p.x else parentX, p.y)
    case Right => Point(if p.x >= parentX then p.x else parentX, p.y)
  }

  predicate OnSide(parentX: real, side: Side, x: real) {
    match side
    case Left => x <= parentX
    case Right => x >= parentX
  }

  // ---------------------------------------------------------------------------
  // The chain invariant

  predicate HandleOk(b: Body, side: Side, h: Point) {
    InHandleBox(h) && OnSide(b.x, side, h.x)
  }

  /** What every edit keeps: at least two points, the head at x = 0 and the
      tail at x = 1, body x non-decreasing along the chain, every point in its
      box, handles exactly where a neighbour exists, and every handle on its
      own side of its body. */
  predicate Valid(c: seq<Body>) {
    && |c| >= 2
    && c[0].x == 0.0 && c[|c| - 1].x == 1.0
    && (forall i, j :: 0 <= i < j < |c| ==> c[i].x <= c[j].x)
    && (forall i :: 0 <= i < |c| ==> BodyOk(c, i))
  }

  /** The per-point part of `Valid`. */
  predicate BodyOk(c: seq<Body>, i: nat)
    requires i < |c|
  {
    var b := c[i];
    && InBodyBox(Point(b.x, b.y))
    && (b.left.Some? <==> i > 0)
    && (b.right.Some? <==> i < |c| - 1)
    && (b.left.Some? ==> HandleOk(b, Left, b.left.value))
    && (b.right.Some? ==> HandleOk(b, Right, b.right.value))
  }

  // ---------------------------------------------------------------------------
  // Spawning and the initial chain

  /** `ControlPoint.spawn`: the point clamped to its box, a left handle just
      left of it when it has a predecessor, a right handle just right of it
      when it has a successor, both at its height. */
  function Spawn(hasPrev: bool, hasNext: bool, x: real, y: real): (b: Body)
    ensures InBodyBox(Point(b.x, b.y))
    ensures b.left.Some? <==> hasPrev
    ensures b.right.Some? <==> hasNext
    ensures b.left.Some? ==> HandleOk(b, Left, b.left.value) && b.left.value.y == b.y
    ensures b.right.Some? ==> HandleOk(b, Right, b.right.value) && b.right.value.y == b.y
    ensures b.left.Some? && b.x >= SpawnMinDist ==> b.left.value.x == b.x - SpawnMinDist
    ensures b.right.Some? && b.x <= 1.0 - SpawnMinDist ==> b.right.value.x == b.x + SpawnMinDist
  {
    var p := LimitBody(x, y);
    Body(p.x, p.y,
         if hasPrev then Some(LimitHandle(p.x - SpawnMinDist, p.y)) else None,
         if hasNext then Some(LimitHandle(p.x + SpawnMinDist, p.y)) else None)
  }

  /** The chain a new panel starts with: head at (0, 0.5), tail at (1, 0.5). */
  function InitialChain(): (c: seq<Body>)
    ensures Valid(c) && |c| == 2
    ensures c[0].y == 0.5 && c[1].y == 0.5
  {
    [Spawn(false, true, 0.0, 0.5), Spawn(true, false, 1.0, 0.5)]
  }

  // ---------------------------------------------------------------------------
  // Moving

  /** The x a dragged body point ends at: frozen at the ends of the chain,
      otherwise clamped between its neighbours. */
  function MovedX(c: seq<Body>, i: nat, x: real): (nx: real)
    requires i < |c|
    ensures i == 0 || i == |c| - 1 ==> nx == c[i].x
    ensures 0 < i < |c| - 1 && c[i - 1].x <= c[i + 1].x ==> c[i - 1].x <= nx <= c[i + 1].x
    ensures 0 < i < |c| - 1 && c[i - 1].x <= x <= c[i + 1].x ==> nx == x
  {
    if i == 0 || i == |c| - 1 then c[i].x else Clamp(x, c[i - 1].x, c[i + 1].x)
  }

  /** A handle carried along by its body's displacement, then clamped. */
  function Carry(h: Option<Point>, parentX: real, side: Side, dx: real, dy: real): (r: Option<Point>)
    ensures r.Some? <==> h.Some?
    ensures r.Some? ==> OnSide(parentX, side, r.value.x)
    ensures r.Some? && 0.0 <= parentX <= 1.0 ==> InHandleBox(r.value)
    ensures h.Some? && HandleOk(Body(parentX, 0.0, None, None), side, Point(h.value.x + dx, h.value.y + dy))
            ==> r == Some(Point(h.value.x + dx, h.value.y + dy))
  {
    match h
    case None => None
    case Some(p) => Some(HandleMove(parentX, side, p.x + dx, p.y + dy))
  }

  /** `ControlPoint.move`: the body goes to the clamped position and both
      handles follow by the same displacement, each clamped again. */
  function MoveBody(c: seq<Body>, i: nat, x: real, y: real): (r: seq<Body>)
    requires i < |c|
    ensures |r| == |c|
    ensures forall j :: 0 <= j < |c| && j != i ==> r[j] == c[j]
    ensures r[i].x == MovedX(c, i, LimitBody(x, y).x) && r[i].y == LimitBody(x, y).y
    ensures r[i].left.Some? <==> c[i].left.Some?
    ensures r[i].right.Some? <==> c[i].right.Some?
  {
    var p := LimitBody(x, y);
    var nx := MovedX(c, i, p.x);
    var dx := nx - c[i].x;
    var dy := p.y - c[i].y;
    c[i := Body(nx, p.y, Carry(c[i].left, nx, Left, dx, dy), Carry(c[i].right, nx, Right, dx, dy))]
  }

  /** Dragging a body point keeps the chain valid. */
  lemma MoveBodyValid(c: seq<Body>, i: nat, x: real, y: real)
    requires Valid(c) && i < |c|
    ensures Valid(MoveBody(c, i, x, y))
  {
    var r := MoveBody(c, i, x, y);
    forall j | 0 <= j < |r|
      ensures BodyOk(r, j)
    {
      assert BodyOk(c, j);
    }
    assert r[i].x == MovedX(c, i, LimitBody(x, y).x);
    if 0 < i < |c| - 1 {
      assert c[i - 1].x <= r[i].x <= c[i + 1].x;
    }
  }

  /** A handle that stays inside its box and on its side moves rigidly with
      its body: the body's displacement is the handle's. */
  lemma MoveBodyRigid(c: seq<Body>, i: nat, x: real, y: real, side: Side)
    requires i < |c|
    requires var h := if side == Left then c[i].left else c[i].right;
      var r := MoveBody(c, i, x, y);
      h.Some? && HandleOk(r[i], side, Point(h.value.x + (r[i].x - c[i].x), h.value.y + (r[i].y - c[i].y)))
    ensures var h := if side == Left then c[i].left else c[i].right;
      var r := MoveBody(c, i, x, y);
      var h' := if side == Left then r[i].left else r[i].right;
      h' == Some(Point(h.value.x + (r[i].x - c[i].x), h.value.y + (r[i].y - c[i].y)))
  {
  }

  /** `CurvePoint.move` on a handle of point `i`. */
  function MoveHandle(c: seq<Body>, i: nat, side: Side, x: real, y: real): (r: seq<Body>)
    requires i < |c|
    requires side == Left ==> c[i].left.Some?
    requires side == Right ==> c[i].right.Some?
    ensures |r| == |c|
    ensures forall j :: 0 <= j < |c| && j != i ==> r[j] == c[j]
    ensures r[i].x == c[i].x && r[i].y == c[i].y
    ensures side == Left ==> r[i].right == c[i].right && r[i].left == Some(HandleMove(c[i].x, Left, x, y))
    ensures side == Right ==> r[i].left == c[i].left && r[i].right == Some(HandleMove(c[i].x, Right, x, y))
  {
    var h := HandleMove(c[i].x, side, x, y);
    match side
    case Left => c[i := c[i].(left := Some(h))]
    case Right => c[i := c[i].(right := Some(h))]
  }

  /** Dragging a handle keeps the chain valid. */
  lemma MoveHandleValid(c: seq<Body>, i: nat, side: Side, x: real, y: real)
    requires Valid(c) && i < |c|
    requires side == Left ==> c[i].left.Some?
    requires side == Right ==> c[i].right.Some?
    ensures Valid(MoveHandle(c, i, side, x, y))
  {
    var r := MoveHandle(c, i, side, x, y);
    forall j | 0 <= j < |r|
      ensures BodyOk(r, j)
    {
      assert BodyOk(c, j);
      if j == i {
        assert r[i].left.Some? <==> c[i].left.Some?;
        assert r[i].right.Some? <==> c[i].right.Some?;
      }
    }
  }

  // ---------------------------------------------------------------------------
  // Inserting

  /** Where `addControlPoint` inserts: before the first point after the head
      whose x exceeds `x`, or before the tail. */
  function InsertIndex(c: seq<Body>, x: real): (k: nat)
    requires |c| >= 2
    ensures 1 <= k <= |c| - 1
    ensures forall j :: 1 <= j < k ==> c[j].x <= x
    ensures k < |c| - 1 ==> x < c[k].x
  {
    InsertFrom(c, x, 1)
  }

  function InsertFrom(c: seq<Body>, x: real, k: nat): (r: nat)
    requires 1 <= k <= |c| - 1
    decreases |c| - k
    ensures k <= r <= |c| - 1
    ensures forall j :: k <= j < r ==> c[j].x <= x
    ensures r < |c| - 1 ==> x < c[r].x
  {
    if x < c[k].x || k == |c| - 1 then k else InsertFrom(c, x, k + 1)
  }

  /** The search loop of `addControlPoint`, walking the chain from the head. */
  method FindInsertIndex(c: seq<Body>, x: real) returns (k: nat)
    requires |c| >= 2
    ensures k == InsertIndex(c, x)
  {
    k := 1;
    while !(x < c[k].x || k == |c| - 1)
      invariant 1 <= k <= |c| - 1
      invariant InsertFrom(c, x, k) == InsertIndex(c, x)
      decreases |c| - k
    {
      k := k + 1;
    }
  }

  /** `addControlPoint`: spawn a new point, with both handles, between the
      neighbours the search found. */
  function AddControlPoint(c: seq<Body>, x: real, y: real): (r: seq<Body>)
    requires |c| >= 2
    ensures |r| == |c| + 1
    ensures var k := InsertIndex(c, x);
      && r[..k] == c[..k] && r[k + 1..] == c[k..]
      && r[k] == Spawn(true, true, x, y)
  {
    var k := InsertIndex(c, x);
    c[..k] + [Spawn(true, true, x, y)] + c[k..]
  }

  /** Inserting keeps the chain valid; in particular the clamped new point
      lies between its neighbours. */
  lemma AddControlPointValid(c: seq<Body>, x: real, y: real)
    requires Valid(c)
    ensures Valid(AddControlPoint(c, x, y))
    ensures var k := InsertIndex(c, x); var r := AddControlPoint(c, x, y);
      r[k - 1].x <= r[k].x <= r[k + 1].x
  {
    var r := AddControlPoint(c, x, y);
    InsertedPlaces(c, x, y);
    InsertOrdered(c, x, y);
    InsertBodiesOk(c, x, y);
    assert r[0] == c[0] && r[|r| - 1] == c[|c| - 1];
  }

  /** Where each point of the old chain ends up. */
  lemma InsertedPlaces(c: seq<Body>, x: real, y: real)
    requires |c| >= 2
    ensures var k := InsertIndex(c, x); var r := AddControlPoint(c, x, y);
      && r[k] == Spawn(true, true, x, y)
      && (forall j :: 0 <= j < k ==> r[j] == c[j])
      && (forall j :: k < j < |r| ==> r[j] == c[j - 1])
  {
    var k := InsertIndex(c, x);
    var r := AddControlPoint(c, x, y);
    assert forall j :: 0 <= j < k ==> r[j] == r[..k][j];
    assert forall j :: k < j < |r| ==> r[j] == r[k + 1..][j - k - 1];
  }

  lemma InsertOrdered(c: seq<Body>, x: real, y: real)
    requires Valid(c)
    ensures var k := InsertIndex(c, x); var r := AddControlPoint(c, x, y);
      && r[k - 1].x <= r[k].x <= r[k + 1].x
      && forall i, j :: 0 <= i < j < |r| ==> r[i].x <= r[j].x
  {
    var k := InsertIndex(c, x);
    var r := AddControlPoint(c, x, y);
    var b := Spawn(true, true, x, y);
    InsertedPlaces(c, x, y);
    // The new x is the clamp of `x` into [0,1], and the search bounds it.
    assert c[k - 1].x <= b.x by {
      if k - 1 >= 1 {
        assert c[k - 1].x <= x;
      }
    }
    assert b.x <= c[k].x by {
      if k < |c| - 1 {
        assert x < c[k].x;
      }
    }
    forall i, j | 0 <= i < j < |r|
      ensures r[i].x <= r[j].x
    {
      if j < k || i > k {
      } else if i == k {
        assert c[k].x <= c[j - 1].x;
      } else if j == k {
        assert c[i].x <= c[k - 1].x;
      } else {
        assert c[i].x <= c[j - 1].x;
      }
    }
  }

  lemma InsertBodiesOk(c: seq<Body>, x: real, y: real)
    requires Valid(c)
    ensures var r := AddControlPoint(c, x, y);
      forall j :: 0 <= j < |r| ==> BodyOk(r, j)
  {
    var k := InsertIndex(c, x);
    var r := AddControlPoint(c, x, y);
    InsertedPlaces(c, x, y);
    forall j | 0 <= j < |r|
      ensures BodyOk(r, j)
    {
      if j < k {
        assert BodyOk(c, j);
      } else if j > k {
        assert BodyOk(c, j - 1);
      }
    }
  }

  // ---------------------------------------------------------------------------
  // Deleting

  /** What the context menu was opened on. */
  datatype Target = Nothing | BodyPoint(ix: nat) | HandlePoint(ix: nat, side: Side)

  /** `isDeletable`: walk from the point after the head; reaching the tail
      means no, meeting the target first means yes. */
  method IsDeletable(c: seq<Body>, target: Target) returns (b: bool)
    requires |c| >= 2
    ensures b <==> target.BodyPoint? && 0 < target.ix < |c| - 1
  {
    var cur := 1;
    while true
      invariant 1 <= cur <= |c| - 1
      invariant !(target.BodyPoint? && 0 < target.ix < cur)
      decreases |c| - cur
    {
      if cur == |c| - 1 {
        return false;
      }
      if target == BodyPoint(cur) {
        return true;
      }
      cur := cur + 1;
    }
  }

  /** `ControlPoint.delete`, as offered by the menu: only interior points
      are ever deleted, and their handles go with them. */
  function Delete(c: seq<Body>, i: nat): (r: seq<Body>)
    requires 0 < i < |c| - 1
    ensures |r| == |c| - 1
    ensures forall j :: 0 <= j < i ==> r[j] == c[j]
    ensures forall j :: i <= j < |r| ==> r[j] == c[j + 1]
    ensures multiset(r) + multiset{c[i]} == multiset(c)
  {
    assert c == c[..i] + [c[i]] + c[i + 1..];
    c[..i] + c[i + 1..]
  }

  /** Deleting an interior point keeps the chain valid, so the chain never
      drops below two points. */
  lemma DeleteValid(c: seq<Body>, i: nat)
    requires Valid(c) && 0 < i < |c| - 1
    ensures Valid(Delete(c, i))
  {
    var r := Delete(c, i);
    forall j | 0 <= j < |r|
      ensures BodyOk(r, j)
    {
      if j < i {
        assert BodyOk(c, j);
      } else {
        assert BodyOk(c, j + 1);
      }
    }
    assert forall a, b :: 0 <= a < b < |r| ==> r[a].x <= r[b].x by {
      forall a, b | 0 <= a < b < |r|
        ensures r[a].x <= r[b].x
      {
        var a' := if a < i then a else a + 1;
        var b' := if b < i then b else b + 1;
        assert r[a] == c[a'] && r[b] == c[b'];
      }
    }
  }

  // ---------------------------------------------------------------------------
  // Curves

  /** `getCurves`: one segment per pair of neighbours, from a body point, its
      right handle, the next point's left handle and the next point. */
  function GetCurves(c: seq<Body>): (r: seq<Segment>)
    requires |c| >= 1 && Linked(c)
    ensures |r| == |c| - 1
    ensures forall i :: 0 <= i < |c| - 1 ==>
      r[i] == Segment(Point(c[i].x, c[i].y), c[i].right.value, c[i + 1].left.value, Point(c[i + 1].x, c[i + 1].y))
    ensures Valid(c) ==> forall i :: 0 <= i < |r| ==> OrderedSegment(r[i])
  {
    ValidSegmentsOrdered(c);
    seq(|c| - 1, i requires 0 <= i < |c| - 1 =>
      Segment(Point(c[i].x, c[i].y), c[i].right.value, c[i + 1].left.value, Point(c[i + 1].x, c[i + 1].y)))
  }

  /** A segment of a valid chain: its start handle lies right of its start,
      its end handle left of its end, the end not left of the start, and both
      handles inside the handle box. */
  predicate OrderedSegment(s: Segment) {
    && s.p1.x <= s.p2.x && s.p3.x <= s.p4.x && s.p1.x <= s.p4.x
    && InHandleBox(s.p2) && InHandleBox(s.p3)
  }

  /** In a valid chain every segment is ordered. */
  lemma ValidSegmentsOrdered(c: seq<Body>)
    ensures Valid(c) ==> Linked(c) && forall i :: 0 <= i < |c| - 1 ==>
      OrderedSegment(Segment(Point(c[i].x, c[i].y), c[i].right.value, c[i + 1].left.value, Point(c[i + 1].x, c[i + 1].y)))
  {
    if Valid(c) {
      ValidLinked(c);
      forall i | 0 <= i < |c| - 1
        ensures OrderedSegment(Segment(Point(c[i].x, c[i].y), c[i].right.value, c[i + 1].left.value, Point(c[i + 1].x, c[i + 1].y)))
      {
        assert BodyOk(c, i) && BodyOk(c, i + 1);
      }
    }
  }

  /** Neighbours face each other with handles. */
  predicate Linked(c: seq<Body>) {
    && (forall i :: 0 <= i < |c| - 1 ==> c[i].right.Some?)
    && (forall i :: 0 < i < |c| ==> c[i].left.Some?)
  }

  lemma ValidLinked(c: seq<Body>)
    requires Valid(c)
    ensures Linked(c)
  {
    forall i | 0 <= i < |c|
      ensures (i < |c| - 1 ==> c[i].right.Some?) && (0 < i ==> c[i].left.Some?)
    {
      assert BodyOk(c, i);
    }
  }

  /** The chain as the serialised triples a curve is baked from. */
  function Triples(c: seq<Body>): (t: seq<Triple>)
    ensures |t| == |c|
    ensures forall i :: 0 <= i < |c| ==> t[i] == Triple(c[i].left, Point(c[i].x, c[i].y), c[i].right)
  {
    seq(|c|, i requires 0 <= i < |c| => Triple(c[i].left, Point(c[i].x, c[i].y), c[i].right))
  }

  /** Every valid chain bakes: the segments the baker forms from its triples
      are exactly the panel's curves. */
  lemma CurvesAreSegments(c: seq<Body>)
    requires Valid(c)
    ensures Linked(c) && SegmentsOf(Triples(c)) == Ok(GetCurves(c))
    ensures Bake(Triples(c)).Ok?
  {
    ValidLinked(c);
    var t := Triples(c);
    forall i | 0 <= i < |t| - 1
      ensures SegmentReadable(t, i)
    {
      assert BodyOk(c, i) && BodyOk(c, i + 1);
    }
    var segs := SegmentsOf(t).value;
    assert segs == GetCurves(c);
  }

  // ---------------------------------------------------------------------------
  // Zoom

  /** `calculateZoom` as written: after scaling the visible
      range around the clamped focus `x`, the edge corrections look at the
      old range instead of the new one. */
  function CalculateZoomAsWritten(start: real, stop: real, x: real, multiplier: real): (r: (real, real))
    requires stop != start && multiplier != 0.0
    ensures multiplier / (stop - start) > ZoomMax ==> r == (start, stop)
    ensures start < stop && 0.0 < multiplier && multiplier / (stop - start) <= ZoomMax ==>
      if (stop - start) / multiplier > 1.0 then r == (0.0, 1.0) else r.1 - r.0 == (stop - start) / multiplier
  {
    if multiplier / (stop - start) <= ZoomMax then
      var (a, b) := Scaled(start, stop, x, multiplier);
      var d := b - a;
      if d > 1.0 then (0.0, 1.0)
      else if start < 0.0 then (0.0, d)
      else if stop > 1.0 then (1.0 - d, 1.0)
      else (a, b)
    else (start, stop)
  }

  /** The range scaled by `1/multiplier` around the focus clamped into it. */
  function Scaled(start: real, stop: real, x: real, multiplier: real): (r: (real, real))
    requires multiplier != 0.0
    ensures start <= stop && multiplier > 0.0 ==> r.1 - r.0 == (stop - start) / multiplier
    ensures start <= stop ==> start <= Clamp(x, start, stop) <= stop
  {
    var cx := Clamp(x, start, stop);
    var k := 1.0 - 1.0 / multiplier;
    (start + (cx - start) * k, stop - (stop - cx) * k)
  }

  /** A zoom-out at the left edge of a view that lies inside [0,1] can
      return a range reaching past 1: view (0.1, 0.9), focus 0.1, one wheel
      step out gives (0.1, 1.06). */
  lemma ZoomAsWrittenLeavesUnitRange()
    ensures var r := CalculateZoomAsWritten(0.1, 0.9, 0.1, 1.0 / ZoomMultiplier);
      r == (0.1, 1.06) && r.1 > 1.0
  {
    var m := 1.0 / ZoomMultiplier;
    assert 1.0 / m == 1.2;
    assert m / (0.9 - 0.1) <= ZoomMax;
    var (a, b) := Scaled(0.1, 0.9, 0.1, m);
    assert a == 0.1 && b == 1.06;
  }

  /** `calculateZoom` with the edge corrections applied to the new range. */
  function CalculateZoom(start: real, stop: real, x: real, multiplier: real): (r: (real, real))
    requires stop != start && multiplier != 0.0
    ensures multiplier / (stop - start) > ZoomMax ==> r == (start, stop)
    ensures 0.0 <= start < stop <= 1.0 && multiplier > 0.0 ==> 0.0 <= r.0 < r.1 <= 1.0
    ensures (&& 0.0 <= start < stop <= 1.0 && multiplier > 0.0 && multiplier / (stop - start) <= ZoomMax
             && (stop - start) / multiplier > 1.0) ==> r == (0.0, 1.0)
    ensures (&& 0.0 <= start < stop <= 1.0 && multiplier > 0.0 && multiplier / (stop - start) <= ZoomMax
             && (stop - start) / multiplier <= 1.0) ==> r.1 - r.0 == (stop - start) / multiplier
  {
    if multiplier / (stop - start) <= ZoomMax then
      var (a, b) := Scaled(start, stop, x, multiplier);
      var d := b - a;
      if d > 1.0 then (0.0, 1.0)
      else if a < 0.0 then (0.0, d)
      else if b > 1.0 then (1.0 - d, 1.0)
      else (a, b)
    else (start, stop)
  }

  /** Away from the edges the focus keeps its relative place in the view:
      the point under the mouse stays under the mouse. */
  lemma ZoomKeepsFocus(start: real, stop: real, x: real, multiplier: real)
    requires 0.0 <= start < stop <= 1.0 && multiplier > 0.0
    requires multiplier / (stop - start) <= ZoomMax
    requires var (a, b) := Scaled(start, stop, x, multiplier); 0.0 <= a && b <= 1.0
    ensures var r := CalculateZoom(start, stop, x, multiplier);
      var cx := Clamp(x, start, stop);
      (cx - r.0) * (stop - start) == (cx - start) * (r.1 - r.0)
  {
    var cx := Clamp(x, start, stop);
    var (a, b) := Scaled(start, stop, x, multiplier);
    var k := 1.0 - 1.0 / multiplier;
    assert cx - a == (cx - start) * (1.0 - k);
    assert b - a == (stop - start) * (1.0 - k);
  }
}
