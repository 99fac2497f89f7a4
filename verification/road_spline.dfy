/**
 * `RoadSpline`: a piecewise cubic Bézier road. Control points are read in windows of
 * four starting every third point, so neighbouring windows share an end point, and
 * each window is evaluated with the Bernstein basis.
 */
module RoadSplines {
  import opened Geometry
  import opened SplinePaths

  /** The cubic Bernstein weights (1−t)³, 3(1−t)²t, 3(1−t)t², t³. */
  function BernsteinWeights(t: real): (w: Weights)
    ensures w.c0 + w.c1 + w.c2 + w.c3 == 1.0
    ensures t == 0.0 ==> w == Weights(1.0, 0.0, 0.0, 0.0)
    ensures t == 1.0 ==> w == Weights(0.0, 0.0, 0.0, 1.0)
  {
    var u := 1.0 - t;
    var tt := t * t;
    var uu := u * u;
    assert uu * u + 3.0 * uu * t + 3.0 * u * tt + tt * t == (u + t) * (u + t) * (u + t);
    Weights(uu * u, 3.0 * uu * t, 3.0 * u * tt, tt * t)
  }

  /** On [0, 1] every Bernstein weight is non-negative. */
  lemma BernsteinWeightsNonNegative(t: real)
    requires 0.0 <= t <= 1.0
    ensures var w := BernsteinWeights(t); w.c0 >= 0.0 && w.c1 >= 0.0 && w.c2 >= 0.0 && w.c3 >= 0.0
  {
    var u := 1.0 - t;
    NonNegativeProduct(u * u, u);
    NonNegativeProduct(3.0 * u * u, t);
    NonNegativeProduct(3.0 * u, t * t);
    NonNegativeProduct(t * t, t);
  }

  lemma NonNegativeProduct(a: real, b: real)
    requires a >= 0.0 && b >= 0.0
    ensures a * b >= 0.0
  {
  }

  /** `EvaluateBezier`: the cubic Bézier point at `t`, which starts at p0 and ends at p3. */
  function EvaluateBezier(p0: Vec3, p1: Vec3, p2: Vec3, p3: Vec3, t: real): (r: Vec3)
    ensures t == 0.0 ==> r == p0
    ensures t == 1.0 ==> r == p3
  {
    BlendAtCorners(p0, p1, p2, p3);
    Blend(BernsteinWeights(t), p0, p1, p2, p3)
  }

  lemma BlendAtCorners(p0: Vec3, p1: Vec3, p2: Vec3, p3: Vec3)
    ensures Blend(Weights(1.0, 0.0, 0.0, 0.0), p0, p1, p2, p3) == p0
    ensures Blend(Weights(0.0, 0.0, 0.0, 1.0), p0, p1, p2, p3) == p3
  {
  }

  /**
   * For t in [0, 1] the point is a convex combination of the control points, so each
   * coordinate lies between the smallest and the largest control coordinate.
   */
  lemma BezierInControlBox(p0: Vec3, p1: Vec3, p2: Vec3, p3: Vec3, t: real, lo: Vec3, hi: Vec3)
    requires 0.0 <= t <= 1.0
    requires lo.x <= p0.x <= hi.x && lo.x <= p1.x <= hi.x && lo.x <= p2.x <= hi.x && lo.x <= p3.x <= hi.x
    requires lo.y <= p0.y <= hi.y && lo.y <= p1.y <= hi.y && lo.y <= p2.y <= hi.y && lo.y <= p3.y <= hi.y
    requires lo.z <= p0.z <= hi.z && lo.z <= p1.z <= hi.z && lo.z <= p2.z <= hi.z && lo.z <= p3.z <= hi.z
    ensures var r := EvaluateBezier(p0, p1, p2, p3, t);
            lo.x <= r.x <= hi.x && lo.y <= r.y <= hi.y && lo.z <= r.z <= hi.z
  {
    var w := BernsteinWeights(t);
    BernsteinWeightsNonNegative(t);
    CombineBetween(w, p0.x, p1.x, p2.x, p3.x, lo.x, hi.x);
    CombineBetween(w, p0.y, p1.y, p2.y, p3.y, lo.y, hi.y);
    CombineBetween(w, p0.z, p1.z, p2.z, p3.z, lo.z, hi.z);
  }

  lemma CombineBetween(w: Weights, a: real, b: real, c: real, d: real, lo: real, hi: real)
    requires w.c0 >= 0.0 && w.c1 >= 0.0 && w.c2 >= 0.0 && w.c3 >= 0.0 && w.c0 + w.c1 + w.c2 + w.c3 == 1.0
    requires lo <= a <= hi && lo <= b <= hi && lo <= c <= hi && lo <= d <= hi
    ensures lo <= Combine(w, a, b, c, d) <= hi
  {
    var a0, l0, h0 := WeightedBetween(w.c0, a, lo, hi);
    var a1, l1, h1 := WeightedBetween(w.c1, b, lo, hi);
    var a2, l2, h2 := WeightedBetween(w.c2, c, lo, hi);
    var a3, l3, h3 := WeightedBetween(w.c3, d, lo, hi);
    assert l0 + l1 + l2 + l3 == (w.c0 + w.c1 + w.c2 + w.c3) * lo == lo;
    assert h0 + h1 + h2 + h3 == (w.c0 + w.c1 + w.c2 + w.c3) * hi == hi;
    assert Combine(w, a, b, c, d) == a0 + a1 + a2 + a3;
  }

  /** A non-negative weight keeps the order of a value between two bounds. */
  lemma WeightedBetween(c: real, a: real, lo: real, hi: real) returns (ca: real, cl: real, ch: real)
    requires c >= 0.0 && lo <= a <= hi
    ensures ca == c * a && cl == c * lo && ch == c * hi
    ensures cl <= ca <= ch
  {
    NonNegativeProduct(c, a - lo);
    NonNegativeProduct(c, hi - a);
    ca, cl, ch := c * a, c * lo, c * hi;
  }

  // ---------------------------------------------------------------------------
  // Windows of four control points
  // ---------------------------------------------------------------------------

  /**
   * The window starts of the loop `for (i = 0; i <= n - 4; i += 3)`: 0, 3, 6, … while a
   * whole window of four points fits, and none at all with fewer than four points.
   */
  function WindowStarts(n: int): (r: seq<nat>)
    ensures n < 4 ==> r == []
    ensures forall k :: 0 <= k < |r| ==> r[k] == 3 * k && r[k] + 3 < n
    ensures 3 * |r| > n - 4
  {
    var count := if n < 4 then 0 else (n - 4) / 3 + 1;
    seq(count, k requires 0 <= k < count => 3 * k)
  }

  /** Window `m` exists exactly when its first control point `3m` leaves room for four points. */
  lemma WindowCount(n: int, m: nat)
    ensures m < |WindowStarts(n)| <==> 3 * m <= n - 4
  {
    if m < |WindowStarts(n)| {
      assert WindowStarts(n)[m] == 3 * m;
    }
  }

  /** The window of four control points that starts at `i`. */
  function BezierWindow(cp: seq<Vec3>, i: nat): (w: Window)
    requires i + 3 < |cp|
    ensures w.p0 == cp[i] && w.p3 == cp[i + 3]
  {
    Window(cp[i], cp[i + 1], cp[i + 2], cp[i + 3])
  }

  function EvaluateBezierWindow(w: Window, t: real): Vec3 {
    EvaluateBezier(w.p0, w.p1, w.p2, w.p3, t)
  }

  /**
   * Consecutive windows share a control point, so the road is continuous: window k
   * ends (t = 1) exactly where window k + 1 starts (t = 0).
   */
  lemma ConsecutiveWindowsJoin(cp: seq<Vec3>, k: nat)
    requires k + 1 < |WindowStarts(|cp|)|
    ensures BezierWindow(cp, WindowStarts(|cp|)[k]).p3 == BezierWindow(cp, WindowStarts(|cp|)[k + 1]).p0
    ensures EvaluateBezierWindow(BezierWindow(cp, WindowStarts(|cp|)[k]), 1.0)
            == EvaluateBezierWindow(BezierWindow(cp, WindowStarts(|cp|)[k + 1]), 0.0)
  {
    var starts := WindowStarts(|cp|);
    assert starts[k] + 3 == starts[k + 1];
    var a := BezierWindow(cp, starts[k]);
    var b := BezierWindow(cp, starts[k + 1]);
    assert a.p3 == b.p0;
  }

  /**
   * The points the gizmo of one window joins with lines: p0, then the curve at
   * t = j / segmentsPerCurve for j = 1 … segmentsPerCurve.
   */
  function GizmoPoints(w: Window, segmentsPerCurve: int): (r: seq<Vec3>)
    ensures |r| == NonNeg(segmentsPerCurve) + 1 && r[0] == w.p0
    ensures segmentsPerCurve >= 1 ==> r[|r| - 1] == w.p3
  {
    [w.p0] + seq(NonNeg(segmentsPerCurve),
                 k requires 0 <= k < NonNeg(segmentsPerCurve) => GizmoPoint(w, segmentsPerCurve, k + 1))
  }

  /** The gizmo's j-th point, at t = j / segmentsPerCurve. */
  function GizmoPoint(w: Window, segmentsPerCurve: int, j: int): (r: Vec3)
    requires 1 <= j <= segmentsPerCurve
    ensures j == segmentsPerCurve ==> r == w.p3
  {
    assert j == segmentsPerCurve ==> j as real / segmentsPerCurve as real == 1.0;
    EvaluateBezierWindow(w, j as real / segmentsPerCurve as real)
  }

  /** The gizmo polyline of every window starts and ends on the window's own end points. */
  lemma GizmoPolylineSpansWindow(cp: seq<Vec3>, k: nat, segmentsPerCurve: int)
    requires k < |WindowStarts(|cp|)| && segmentsPerCurve >= 1
    ensures var ps := GizmoPoints(BezierWindow(cp, WindowStarts(|cp|)[k]), segmentsPerCurve);
            ps[0] == cp[3 * k] && ps[|ps| - 1] == cp[3 * k + 3]
  {
  }
}
