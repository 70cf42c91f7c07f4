/** Which brush stamps GLView::drawPaintStrokes draws for a stroke: one stamp
    centred on every recorded point and, between a non-null previous point
    and the next point at distance d, one in-between stamp for each integer
    i with 1 <= i < d.  The distance (QVector2D::distanceToPoint) is left
    uninterpreted: it is a function value supplied by the caller. */
module StrokeStamps {
  import opened Geometry

  /** The number of integers i with 1 <= i < d, i.e. how often the loop
      `for (int i = 1; i < distance; i++)` runs. */
  function TweenCount(d: real): (n: nat)
    ensures n == 0 <==> d <= 1.0
  {
    if d <= 1.0 then 0 else -((-d).Floor) - 1
  }

  /** The first n in-between stamps from p back towards prev: the i-th sits
      at prev * (i/d) + p * (1 - i/d). */
  function TweensUpTo(prev: Point2, p: Point2, d: real, n: nat): (r: seq<Point2>)
    requires n == 0 || d > 0.0
    ensures |r| == n
  {
    if n == 0 then [] else TweensUpTo(prev, p, d, n - 1) + [Lerp(prev, p, n as real / d)]
  }

  /** All in-between stamps of a segment of length d. */
  function Tweens(prev: Point2, p: Point2, d: real): (r: seq<Point2>)
    ensures |r| == TweenCount(d)
  {
    if d <= 1.0 then [] else TweensUpTo(prev, p, d, TweenCount(d))
  }

  /** The k-th in-between stamp (counting from 0) sits (k+1)/d of the way
      from p to prev. */
  lemma {:induction false} TweenAt(prev: Point2, p: Point2, d: real, n: nat, k: nat)
    requires d > 0.0 && k < n
    ensures TweensUpTo(prev, p, d, n)[k] == Lerp(prev, p, (k + 1) as real / d)
  {
    if k < n - 1 {
      TweenAt(prev, p, d, n - 1, k);
    }
  }

  /** What one iteration of the outer loop draws for point p when the
      previously drawn point is prev (the origin when there is none). */
  function Segment(prev: Point2, p: Point2, dist: (Point2, Point2) -> real): seq<Point2> {
    [p] + (if IsNull(prev) then [] else Tweens(prev, p, dist(prev, p)))
  }

  /** The stamps drawn for points when the loop starts with prevPoint == prev. */
  function StampsFrom(prev: Point2, points: seq<Point2>, dist: (Point2, Point2) -> real): (r: seq<Point2>)
    ensures |r| >= |points|
    decreases |points|
  {
    if points == [] then []
    else Segment(prev, points[0], dist) + StampsFrom(points[0], points[1..], dist)
  }

  /** The stamps drawPaintStrokes draws for the stroke list: prevPoint starts
      default-constructed, i.e. null. */
  function Stamps(points: seq<Point2>, dist: (Point2, Point2) -> real): seq<Point2> {
    StampsFrom(Origin, points, dist)
  }

  /** The point drawn just before points[k], or prev when k is 0. */
  function PrevOf(prev: Point2, points: seq<Point2>, k: nat): Point2
    requires k <= |points|
  {
    if k == 0 then prev else points[k - 1]
  }

  /** The outer loop of drawPaintStrokes, collecting stamp centres instead
      of emitting quads. */
  method EnumerateStamps(points: seq<Point2>, dist: (Point2, Point2) -> real) returns (stamps: seq<Point2>)
    ensures stamps == Stamps(points, dist)
  {
    stamps := [];
    var prev := Origin;
    for j := 0 to |points|
      invariant prev == PrevOf(Origin, points, j)
      invariant stamps == Stamps(points[..j], dist)
    {
      var p := points[j];
      StampsSnoc(Origin, points[..j], p, dist);
      assert points[..j + 1] == points[..j] + [p];
      stamps := stamps + [p];
      if !IsNull(prev) {
        var tweens := Interpolate(prev, p, dist(prev, p));
        stamps := stamps + tweens;
      }
      prev := p;
    }
    assert points[..|points|] == points;
  }

  /** The inner loop of drawPaintStrokes: for i = 1, 2, ... while i < d, the
      point i/d of the way from p back to prev. */
  method Interpolate(prev: Point2, p: Point2, d: real) returns (tweens: seq<Point2>)
    ensures tweens == Tweens(prev, p, d)
  {
    tweens := [];
    var i := 1;
    while (i as real) < d
      invariant 1 <= i <= TweenCount(d) + 1
      invariant d > 1.0 || i == 1
      invariant tweens == TweensUpTo(prev, p, d, i - 1)
    {
      TweenCountExact(d, i);
      var a := i as real / d;
      tweens := tweens + [Lerp(prev, p, a)];
      i := i + 1;
    }
    TweenCountExact(d, i);
  }

  /** The loop bound is exact: i is drawn iff 1 <= i < d. */
  lemma TweenCountExact(d: real, i: int)
    ensures (1 <= i <= TweenCount(d)) <==> (1 <= i && (i as real) < d)
  {
    if d > 1.0 {
      var f := (-d).Floor;
      assert f as real <= -d < f as real + 1.0;
    }
  }

  /** Stroke continuity: between two points more than one unit apart there
      are at least d - 1 (so at least floor(d) - 1) in-between stamps, and
      fewer than d. */
  lemma TweenCountBounds(d: real)
    requires d > 1.0
    ensures d - 1.0 <= TweenCount(d) as real < d
    ensures TweenCount(d) >= d.Floor - 1
  {
    var f := (-d).Floor;
    assert f as real <= -d < f as real + 1.0;
    assert d.Floor as real <= d;
  }

  /** Position, as a fraction of the way from p to prev, of the k-th stamp of
      a segment: p itself is 0, the in-between stamps are k/d, prev is 1. */
  function SegmentParam(d: real, k: nat): real
    requires d > 1.0 && k <= TweenCount(d) + 1
  {
    if k == TweenCount(d) + 1 then 1.0 else k as real / d
  }

  /** The k-th point along a segment: p, then the in-between stamps, then prev. */
  function SegmentPoint(prev: Point2, p: Point2, d: real, k: nat): Point2
    requires d > 1.0 && k <= TweenCount(d) + 1
  {
    if k == 0 then p
    else if k <= TweenCount(d) then Tweens(prev, p, d)[k - 1]
    else prev
  }

  /** No gaps: walking from p to prev through the in-between stamps, every
      step is the vector prev - p scaled by a factor in (0, 1/d].  When d is
      the Euclidean length of prev - p, no step exceeds one pixel. */
  lemma ConsecutiveStampsClose(prev: Point2, p: Point2, d: real, k: nat)
    requires d > 1.0 && k <= TweenCount(d)
    ensures var g := SegmentParam(d, k + 1) - SegmentParam(d, k);
            && 0.0 < g <= 1.0 / d
            && SegmentPoint(prev, p, d, k + 1).x - SegmentPoint(prev, p, d, k).x == (prev.x - p.x) * g
            && SegmentPoint(prev, p, d, k + 1).y - SegmentPoint(prev, p, d, k).y == (prev.y - p.y) * g
  {
    SegmentPointAt(prev, p, d, k);
    SegmentPointAt(prev, p, d, k + 1);
    LerpStep(prev, p, SegmentParam(d, k), SegmentParam(d, k + 1));
    ParamGap(d, k);
  }

  /** Consecutive segment parameters are at most 1/d apart, and increasing. */
  lemma ParamGap(d: real, k: nat)
    requires d > 1.0 && k <= TweenCount(d)
    ensures 0.0 < SegmentParam(d, k + 1) - SegmentParam(d, k) <= 1.0 / d
  {
    var n := TweenCount(d);
    TweenCountBounds(d);
    if k < n {
      assert SegmentParam(d, k + 1) - SegmentParam(d, k) == 1.0 / d;
    } else {
      assert SegmentParam(d, k + 1) - SegmentParam(d, k) == 1.0 - n as real / d;
      LastGap(d, n as real);
    }
  }

  /** The step from the last in-between stamp to prev is positive and no
      longer than the others. */
  lemma LastGap(d: real, n: real)
    requires d > 1.0 && d - 1.0 <= n < d
    ensures 0.0 < 1.0 - n / d <= 1.0 / d
  {
    assert n / d < 1.0 by { DivBelowOne(n, d); }
    assert (d - 1.0) / d <= n / d by { DivMonotone(d - 1.0, n, d); }
    assert (d - 1.0) / d == 1.0 - 1.0 / d;
  }

  /** Every point of a segment is the interpolation at its parameter. */
  lemma SegmentPointAt(prev: Point2, p: Point2, d: real, k: nat)
    requires d > 1.0 && k <= TweenCount(d) + 1
    ensures SegmentPoint(prev, p, d, k) == Lerp(prev, p, SegmentParam(d, k))
  {
    if k == 0 {
      assert SegmentParam(d, k) == 0.0;
    } else if k <= TweenCount(d) {
      TweenAt(prev, p, d, TweenCount(d), k - 1);
    }
  }

  lemma LerpStep(prev: Point2, p: Point2, a: real, b: real)
    ensures Lerp(prev, p, b).x - Lerp(prev, p, a).x == (prev.x - p.x) * (b - a)
    ensures Lerp(prev, p, b).y - Lerp(prev, p, a).y == (prev.y - p.y) * (b - a)
  {
  }

  lemma DivBelowOne(x: real, d: real)
    requires d > 0.0 && x < d
    ensures x / d < 1.0
  {
  }

  lemma DivMonotone(x: real, y: real, d: real)
    requires d > 0.0 && x <= y
    ensures x / d <= y / d
  {
  }

  /** Every recorded point is stamped. */
  lemma {:induction false} EveryPointStamped(prev: Point2, points: seq<Point2>, dist: (Point2, Point2) -> real, k: nat)
    requires k < |points|
    ensures points[k] in StampsFrom(prev, points, dist)
    decreases k
  {
    if k > 0 {
      EveryPointStamped(points[0], points[1..], dist, k - 1);
    }
  }

  /** Stamping a concatenation is stamping each part in turn, the second
      part starting from the last point of the first. */
  lemma {:induction false} StampsAppend(prev: Point2, a: seq<Point2>, b: seq<Point2>, dist: (Point2, Point2) -> real)
    ensures StampsFrom(prev, a + b, dist) == StampsFrom(prev, a, dist) + StampsFrom(PrevOf(prev, a, |a|), b, dist)
    decreases |a|
  {
    if a == [] {
      assert a + b == b;
    } else {
      var seg0 := Segment(prev, a[0], dist);
      calc {
        StampsFrom(prev, a + b, dist);
        { assert (a + b)[0] == a[0]; assert (a + b)[1..] == a[1..] + b; }
        seg0 + StampsFrom(a[0], a[1..] + b, dist);
        { StampsAppend(a[0], a[1..], b, dist);
          assert PrevOf(a[0], a[1..], |a| - 1) == PrevOf(prev, a, |a|); }
        seg0 + (StampsFrom(a[0], a[1..], dist) + StampsFrom(PrevOf(prev, a, |a|), b, dist));
        (seg0 + StampsFrom(a[0], a[1..], dist)) + StampsFrom(PrevOf(prev, a, |a|), b, dist);
      }
    }
  }

  /** The stamps split around any point: everything before it, its own segment
      (drawn from the point before it), and everything after it. */
  lemma StampsSplit(prev: Point2, points: seq<Point2>, dist: (Point2, Point2) -> real, k: nat)
    requires k < |points|
    ensures StampsFrom(prev, points, dist)
         == StampsFrom(prev, points[..k], dist)
          + Segment(PrevOf(prev, points, k), points[k], dist)
          + StampsFrom(points[k], points[k + 1..], dist)
  {
    assert points == points[..k] + points[k..];
    StampsAppend(prev, points[..k], points[k..], dist);
    assert PrevOf(prev, points[..k], k) == PrevOf(prev, points, k);
    assert points[k..][1..] == points[k + 1..];
  }

  /** No in-between stamps follow a null (origin) point: such a point
      contributes only the stamp on the next point itself.  The first point
      of a stroke, whose predecessor is the default null point, behaves the
      same way. */
  lemma NoTweensAfterNull(points: seq<Point2>, dist: (Point2, Point2) -> real, k: nat)
    requires k < |points|
    requires k == 0 || IsNull(points[k - 1])
    ensures Stamps(points, dist)
         == Stamps(points[..k], dist) + [points[k]] + StampsFrom(points[k], points[k + 1..], dist)
  {
    StampsSplit(Origin, points, dist, k);
  }

  /** Appending one point to the stroke list (one mouse move) extends the
      stamps by exactly that point's segment. */
  lemma {:induction false} StampsSnoc(prev: Point2, points: seq<Point2>, q: Point2, dist: (Point2, Point2) -> real)
    ensures StampsFrom(prev, points + [q], dist)
         == StampsFrom(prev, points, dist) + Segment(PrevOf(prev, points, |points|), q, dist)
    decreases |points|
  {
    if points == [] {
      assert points + [q] == [q];
    } else {
      var rest := points[1..];
      StampsSnoc(points[0], rest, q, dist);
      assert (points + [q])[1..] == rest + [q];
      assert PrevOf(points[0], rest, |rest|) == PrevOf(prev, points, |points|);
    }
  }

  /** Total number of in-between stamps, counted pair by pair. */
  function TweenTotal(prev: Point2, points: seq<Point2>, dist: (Point2, Point2) -> real): nat
    decreases |points|
  {
    if points == [] then 0
    else (if IsNull(prev) then 0 else TweenCount(dist(prev, points[0])))
         + TweenTotal(points[0], points[1..], dist)
  }

  /** One stamp per point plus the in-between stamps of each pair whose first
      point is not null. */
  lemma {:induction false} StampCount(prev: Point2, points: seq<Point2>, dist: (Point2, Point2) -> real)
    ensures |StampsFrom(prev, points, dist)| == |points| + TweenTotal(prev, points, dist)
    decreases |points|
  {
    if points != [] {
      StampCount(points[0], points[1..], dist);
    }
  }
}
