/**
 * The arc-length sampled Catmull-Rom path of `SplinePath.cs`.
 *
 * A path's control points are sampled window by window into a table of
 * (point, cumulative distance) samples; positions and directions are then looked up
 * by distance along the path. `SplinePath` keeps the points and the distances in two
 * parallel lists that only `GenerateSplinePoints` writes; here they are one list of
 * pairs, so the two always have the same length.
 */
module SplinePaths {
  import opened Geometry
  import opened Options

  // ---------------------------------------------------------------------------
  // Catmull-Rom evaluation of one four-point window
  // ---------------------------------------------------------------------------

  datatype Window = Window(p0: Vec3, p1: Vec3, p2: Vec3, p3: Vec3)

  datatype Weights = Weights(c0: real, c1: real, c2: real, c3: real)

  /** The blending weights of the uniform Catmull-Rom basis at parameter `t`. */
  function CatmullRomWeights(t: real): (w: Weights)
    ensures w.c0 + w.c1 + w.c2 + w.c3 == 1.0
    ensures t == 0.0 ==> w == Weights(0.0, 1.0, 0.0, 0.0)
    ensures t == 1.0 ==> w == Weights(0.0, 0.0, 1.0, 0.0)
  {
    var t2 := t * t;
    var t3 := t2 * t;
    Weights(-0.5 * t3 + t2 - 0.5 * t,
            1.5 * t3 - 2.5 * t2 + 1.0,
            -1.5 * t3 + 2.0 * t2 + 0.5 * t,
            0.5 * t3 - 0.5 * t2)
  }

  /** One coordinate of the weighted sum of four points. */
  function Combine(w: Weights, a: real, b: real, c: real, d: real): real {
    w.c0 * a + w.c1 * b + w.c2 * c + w.c3 * d
  }

  function Blend(w: Weights, p0: Vec3, p1: Vec3, p2: Vec3, p3: Vec3): Vec3 {
    Vec3(Combine(w, p0.x, p1.x, p2.x, p3.x),
         Combine(w, p0.y, p1.y, p2.y, p3.y),
         Combine(w, p0.z, p1.z, p2.z, p3.z))
  }

  /** `EvaluateCatmullRom`: the curve through p1 (at t = 0) and p2 (at t = 1). */
  function EvaluateCatmullRom(p0: Vec3, p1: Vec3, p2: Vec3, p3: Vec3, t: real): (r: Vec3)
    ensures t == 0.0 ==> r == p1
    ensures t == 1.0 ==> r == p2
  {
    Blend(CatmullRomWeights(t), p0, p1, p2, p3)
  }

  function EvaluateWindow(w: Window, t: real): Vec3 {
    EvaluateCatmullRom(w.p0, w.p1, w.p2, w.p3, t)
  }

  /** Because the weights sum to one, moving all four points by `v` moves the curve by `v`. */
  lemma CatmullRomTranslation(p0: Vec3, p1: Vec3, p2: Vec3, p3: Vec3, v: Vec3, t: real)
    ensures EvaluateCatmullRom(Add(p0, v), Add(p1, v), Add(p2, v), Add(p3, v), t)
            == Add(EvaluateCatmullRom(p0, p1, p2, p3, t), v)
  {
    var w := CatmullRomWeights(t);
    CombineShift(w, p0.x, p1.x, p2.x, p3.x, v.x);
    CombineShift(w, p0.y, p1.y, p2.y, p3.y, v.y);
    CombineShift(w, p0.z, p1.z, p2.z, p3.z, v.z);
  }

  lemma CombineShift(w: Weights, a: real, b: real, c: real, d: real, v: real)
    requires w.c0 + w.c1 + w.c2 + w.c3 == 1.0
    ensures Combine(w, a + v, b + v, c + v, d + v) == Combine(w, a, b, c, d) + v
  {
    assert Combine(w, a + v, b + v, c + v, d + v)
        == Combine(w, a, b, c, d) + (w.c0 + w.c1 + w.c2 + w.c3) * v;
  }

  // ---------------------------------------------------------------------------
  // The sampled table
  // ---------------------------------------------------------------------------

  /**
   * The window used for the segment from control point i to i + 1: the first
   * segment repeats cp[0] as p0, the last repeats the final point as p3, and a
   * two-point path takes the first branch with p3 = cp[1]. All three branches agree
   * with "neighbouring indices clamped into the list".
   */
  function SegmentWindow(cp: seq<Vec3>, i: nat): (w: Window)
    requires i < |cp| - 1
    ensures w == Window(cp[if i == 0 then 0 else i - 1], cp[i], cp[i + 1],
                        cp[if i + 2 < |cp| then i + 2 else |cp| - 1])
  {
    var n := |cp|;
    if i == 0 then
      Window(cp[0], cp[0], cp[1], cp[if 2 < n - 1 then 2 else n - 1])
    else if i == n - 2 then
      Window(cp[if 0 > n - 3 then 0 else n - 3], cp[n - 2], cp[n - 1], cp[n - 1])
    else
      Window(cp[i - 1], cp[i], cp[i + 1], cp[i + 2])
  }

  function NonNeg(k: int): nat { if k < 0 then 0 else k }

  /** The points one window contributes: t = j / segmentsPerCurve for j = 1 .. segmentsPerCurve. */
  function WindowSamples(w: Window, spc: int): (r: seq<Vec3>)
    ensures |r| == NonNeg(spc)
    ensures spc >= 1 ==> r[spc - 1] == w.p2
  {
    if spc <= 0 then []
    else seq(spc, k requires 0 <= k < spc => WindowPoint(w, spc, k + 1))
  }

  /** The `j`-th of a window's `spc` samples, at `t = j / spc`. */
  function WindowPoint(w: Window, spc: int, j: int): (r: Vec3)
    requires 1 <= j <= spc
    ensures j == spc ==> r == w.p2
  {
    assert j == spc ==> j as real / spc as real == 1.0;
    EvaluateWindow(w, j as real / spc as real)
  }

  /** A loop over all of `ws` ends having appended all of it. */
  lemma AppendWholeSlice<T>(done: seq<T>, ws: seq<T>)
    ensures done + ws[..0] == done && done + ws[..|ws|] == done + ws
  {
    assert ws[..0] == [] && ws[..|ws|] == ws;
  }

  lemma AppendSliceStep<T>(done: seq<T>, ws: seq<T>, j: int)
    requires 1 <= j <= |ws|
    ensures (done + ws[..j - 1]) + [ws[j - 1]] == done + ws[..j]
  {
    assert ws[..j] == ws[..j - 1] + [ws[j - 1]];
  }

  /**
   * The inner loop of `GenerateSplinePoints`: evaluates the window at `t = j / spc`
   * for `j` in 1..spc and appends each point with the running length.
   */
  method AppendWindowSamples(g: Geometry, w: Window, spc: int, table: seq<Sample>, length: real,
                             ghost done: seq<Vec3>)
    returns (table': seq<Sample>, length': real)
    requires |done| >= 1 && table == CumulativeTable(g, done)
    requires length == table[|table| - 1].distance
    ensures table' == CumulativeTable(g, done + WindowSamples(w, spc))
    ensures length' == table'[|table'| - 1].distance
  {
    ghost var ws := WindowSamples(w, spc);
    AppendWholeSlice(done, ws);
    ghost var pts := done;
    table', length' := table, length;
    var prevPoint := table[|table| - 1].point;
    var j := 1;
    while j <= spc
      invariant 1 <= j <= NonNeg(spc) + 1
      invariant pts == done + ws[..j - 1]
      invariant |pts| >= 1 && table' == CumulativeTable(g, pts)
      invariant prevPoint == table'[|table'| - 1].point
      invariant length' == table'[|table'| - 1].distance
    {
      var point := WindowPoint(w, spc, j);
      assert point == ws[j - 1];
      table', length' := AppendPoint(g, pts, table', length', prevPoint, point);
      AppendSliceStep(done, ws, j);
      pts := pts + [point];
      prevPoint := point;
      j := j + 1;
    }
  }

  /** One step of that loop: the running length grows by the step from the previous point. */
  method AppendPoint(g: Geometry, ghost pts: seq<Vec3>, table: seq<Sample>, length: real, prevPoint: Vec3, point: Vec3)
    returns (table': seq<Sample>, length': real)
    requires |pts| >= 1 && table == CumulativeTable(g, pts)
    requires prevPoint == table[|table| - 1].point && length == table[|table| - 1].distance
    ensures table' == CumulativeTable(g, pts + [point])
    ensures table'[|table'| - 1].point == point && length' == table'[|table'| - 1].distance
  {
    TableStep(g, pts, table, point);
    length' := length + Distance(g, prevPoint, point);
    table' := table + [Sample(point, length')];
  }

  /** The sampled points after the first `m` windows, starting from cp[0]. */
  function SplinePoints(cp: seq<Vec3>, spc: int, m: nat): (r: seq<Vec3>)
    requires 2 <= |cp| && m <= |cp| - 1
    ensures |r| >= 1 && r[0] == cp[0]
  {
    if m == 0 then [cp[0]]
    else SplinePoints(cp, spc, m - 1) + WindowSamples(SegmentWindow(cp, m - 1), spc)
  }

  /** Each window adds segmentsPerCurve points (none when it is not positive). */
  lemma {:induction false} SplinePointsLength(cp: seq<Vec3>, spc: int, m: nat)
    requires 2 <= |cp| && m <= |cp| - 1
    ensures |SplinePoints(cp, spc, m)| == 1 + m * NonNeg(spc)
  {
    if m > 0 {
      SplinePointsLength(cp, spc, m - 1);
      MulSucc(m - 1, NonNeg(spc));
    }
  }

  /** Sampling more windows only appends: the first m windows' points are a prefix. */
  lemma {:induction false} SplinePointsPrefix(cp: seq<Vec3>, spc: int, k: nat, m: nat)
    requires 2 <= |cp| && k <= m <= |cp| - 1
    ensures SplinePoints(cp, spc, k) <= SplinePoints(cp, spc, m)
    decreases m - k
  {
    if k < m {
      SplinePointsPrefix(cp, spc, k, m - 1);
    }
  }

  /** After m >= 1 windows the last point is control point m. */
  lemma SplinePointsLast(cp: seq<Vec3>, spc: int, m: nat)
    requires 2 <= |cp| && 1 <= m <= |cp| - 1 && spc >= 1
    ensures SplinePoints(cp, spc, m)[|SplinePoints(cp, spc, m)| - 1] == cp[m]
  {
    var ws := WindowSamples(SegmentWindow(cp, m - 1), spc);
    assert SplinePoints(cp, spc, m) == SplinePoints(cp, spc, m - 1) + ws;
  }

  datatype Sample = Sample(point: Vec3, distance: real)

  /** The table of `pts` with each point's cumulative polyline distance from the first. */
  function CumulativeTable(g: Geometry, pts: seq<Vec3>): (r: seq<Sample>)
    requires |pts| >= 1
    ensures |r| == |pts| && r[0].distance == 0.0
    ensures forall k :: 0 <= k < |pts| ==> r[k].point == pts[k]
  {
    if |pts| == 1 then [Sample(pts[0], 0.0)]
    else
      var prev := CumulativeTable(g, pts[..|pts| - 1]);
      prev + [Sample(pts[|pts| - 1],
                     prev[|prev| - 1].distance + Distance(g, pts[|pts| - 2], pts[|pts| - 1]))]
  }

  /** Each entry adds the distance from the previous point to the previous entry. */
  lemma {:induction false} CumulativeStep(g: Geometry, pts: seq<Vec3>, k: nat)
    requires 0 < k < |pts|
    ensures CumulativeTable(g, pts)[k].distance
            == CumulativeTable(g, pts)[k - 1].distance + Distance(g, pts[k - 1], pts[k])
  {
    if k < |pts| - 1 {
      var init := pts[..|pts| - 1];
      CumulativeStep(g, init, k);
      assert CumulativeTable(g, pts)[..|pts| - 1] == CumulativeTable(g, init);
    }
  }

  lemma CumulativeAppend(g: Geometry, pts: seq<Vec3>, p: Vec3)
    requires |pts| >= 1
    ensures var prev := CumulativeTable(g, pts);
            CumulativeTable(g, pts + [p])
            == prev + [Sample(p, prev[|prev| - 1].distance + Distance(g, pts[|pts| - 1], p))]
  {
    assert (pts + [p])[..|pts|] == pts;
  }

  lemma TableStep(g: Geometry, pts: seq<Vec3>, table: seq<Sample>, p: Vec3)
    requires |pts| >= 1 && table == CumulativeTable(g, pts)
    ensures CumulativeTable(g, pts + [p])
            == table + [Sample(p, table[|table| - 1].distance + Distance(g, table[|table| - 1].point, p))]
  {
    CumulativeAppend(g, pts, p);
    assert table[|table| - 1].point == pts[|pts| - 1];
  }

  /** What `GenerateSplinePoints` leaves in the table. */
  function GeneratedSamples(g: Geometry, cp: seq<Vec3>, spc: int): seq<Sample> {
    if |cp| < 2 then [] else CumulativeTable(g, SplinePoints(cp, spc, |cp| - 1))
  }

  /** What `GenerateSplinePoints` leaves in `totalLength`: unchanged below two points. */
  function GeneratedLength(g: Geometry, cp: seq<Vec3>, spc: int, oldLength: real): real {
    var s := GeneratedSamples(g, cp, spc);
    if |s| == 0 then oldLength else s[|s| - 1].distance
  }

  /** A table as the lookups expect it: starts at 0, never decreases, ends at `total`. */
  ghost predicate WellFormedTable(s: seq<Sample>, total: real) {
    && |s| >= 1
    && s[0].distance == 0.0
    && (forall a, b :: 0 <= a <= b < |s| ==> s[a].distance <= s[b].distance)
    && s[|s| - 1].distance == total
  }

  lemma {:induction false} CumulativeNonDecreasing(g: Geometry, pts: seq<Vec3>, a: nat, b: nat)
    requires a <= b < |pts|
    ensures CumulativeTable(g, pts)[a].distance <= CumulativeTable(g, pts)[b].distance
    decreases b - a
  {
    if a < b {
      CumulativeNonDecreasing(g, pts, a, b - 1);
      CumulativeStep(g, pts, b);
    }
  }

  /**
   * With at least two control points the table has 1 + (n - 1) * segmentsPerCurve
   * samples, starts at distance 0, never decreases and ends at the total length.
   */
  lemma GeneratedTableWellFormed(g: Geometry, cp: seq<Vec3>, spc: int, oldLength: real)
    requires |cp| >= 2
    ensures |GeneratedSamples(g, cp, spc)| == 1 + (|cp| - 1) * NonNeg(spc)
    ensures WellFormedTable(GeneratedSamples(g, cp, spc), GeneratedLength(g, cp, spc, oldLength))
  {
    var pts := SplinePoints(cp, spc, |cp| - 1);
    SplinePointsLength(cp, spc, |cp| - 1);
    forall a, b | 0 <= a <= b < |pts|
      ensures CumulativeTable(g, pts)[a].distance <= CumulativeTable(g, pts)[b].distance
    {
      CumulativeNonDecreasing(g, pts, a, b);
    }
  }

  /** A generated total length is never negative when the earlier one was not. */
  lemma GeneratedLengthNonNegative(g: Geometry, cp: seq<Vec3>, spc: int, oldLength: real)
    requires oldLength >= 0.0
    ensures GeneratedLength(g, cp, spc, oldLength) >= 0.0
  {
    if |cp| >= 2 {
      var pts := SplinePoints(cp, spc, |cp| - 1);
      CumulativeNonDecreasing(g, pts, 0, |pts| - 1);
    }
  }

  lemma SplinePointsPassThrough(cp: seq<Vec3>, spc: int, m: nat, k: nat)
    requires 2 <= |cp| && m <= |cp| - 1 && spc >= 1 && k <= m
    ensures k * spc < |SplinePoints(cp, spc, m)|
    ensures SplinePoints(cp, spc, m)[k * spc] == cp[k]
  {
    SplinePointsLength(cp, spc, k);
    SplinePointsLength(cp, spc, m);
    MulMonotone(k, m, spc);
    SplinePointsPrefix(cp, spc, k, m);
    if k > 0 {
      SplinePointsLast(cp, spc, k);
    }
  }

  lemma MulSucc(m: nat, c: nat)
    ensures (m + 1) * c == m * c + c
  {}

  lemma MulMonotone(a: nat, b: nat, c: nat)
    requires a <= b
    ensures a * c <= b * c
  {}

  /**
   * Sample number `idx = k * segmentsPerCurve` is control point k: the path passes
   * through every control point.
   */
  lemma GeneratedPassesThroughControlPoints(g: Geometry, cp: seq<Vec3>, spc: int, k: nat, idx: nat)
    requires |cp| >= 2 && spc >= 1 && k < |cp| && idx == k * spc
    ensures idx < |GeneratedSamples(g, cp, spc)|
    ensures GeneratedSamples(g, cp, spc)[idx].point == cp[k]
  {
    var pts := SplinePoints(cp, spc, |cp| - 1);
    SplinePointsPassThrough(cp, spc, |cp| - 1, k);
    PointOfTable(g, pts, idx);
  }

  lemma PointOfTable(g: Geometry, pts: seq<Vec3>, i: nat)
    requires i < |pts|
    ensures CumulativeTable(g, pts)[i].point == pts[i]
  {
  }

  // ---------------------------------------------------------------------------
  // Lookups by distance
  // ---------------------------------------------------------------------------

  /**
   * The linear bracketing scan of the lookups: the first i >= from with
   * distance <= s[i + 1].distance.
   */
  function FindSegment(s: seq<Sample>, distance: real, from: nat): (r: Option<nat>)
    decreases |s| - from
    ensures r.Some? ==> from <= r.value && r.value + 1 < |s| && distance <= s[r.value + 1].distance
    ensures r.Some? ==> forall m :: from < m <= r.value ==> s[m].distance < distance
    ensures r.None? ==> forall m :: from < m < |s| ==> s[m].distance < distance
  {
    if from + 1 >= |s| then None
    else if distance <= s[from + 1].distance then Some(from)
    else FindSegment(s, distance, from + 1)
  }

  /**
   * `GetPositionAtDistance` on a table: the owner's origin for an empty table, else
   * the clamped distance interpolated within its bracketing pair. Where the pair is
   * zero length `SplinePath` divides zero by zero; the model returns the pair's start.
   */
  function PositionAt(s: seq<Sample>, total: real, origin: Vec3, distance: real): (r: Vec3)
    ensures |s| == 0 ==> r == origin
    ensures |s| == 1 ==> r == s[0].point
  {
    if |s| == 0 then origin
    else
      var d := Clamp(distance, 0.0, total);
      match FindSegment(s, d, 0)
      case None => s[|s| - 1].point
      case Some(i) =>
        var segmentStart := s[i].distance;
        var segmentEnd := s[i + 1].distance;
        if segmentEnd == segmentStart then s[i].point
        else Lerp(s[i].point, s[i + 1].point, (d - segmentStart) / (segmentEnd - segmentStart))
  }

  /**
   * `GetDirectionAtDistance` on a table: the owner's forward axis below two samples,
   * else the normalised difference of some consecutive pair of samples.
   */
  function DirectionAt(g: Geometry, s: seq<Sample>, total: real, forward: Vec3, distance: real): (r: Vec3)
    ensures |s| < 2 ==> r == forward
    ensures |s| >= 2 ==> exists i :: 0 <= i < |s| - 1 && r == DirectionBetween(g, s[i].point, s[i + 1].point)
  {
    if |s| < 2 then forward
    else
      var d := Clamp(distance, 0.0, total);
      match FindSegment(s, d, 0)
      case None =>
        var k := |s| - 2;
        assert k + 1 == |s| - 1;
        DirectionBetween(g, s[k].point, s[k + 1].point)
      case Some(i) => DirectionBetween(g, s[i].point, s[i + 1].point)
  }

  /** Any distance outside [0, total] gives the same position as the clamped distance. */
  lemma PositionAtClamps(s: seq<Sample>, total: real, origin: Vec3, distance: real)
    requires total >= 0.0
    ensures PositionAt(s, total, origin, distance) == PositionAt(s, total, origin, Clamp(distance, 0.0, total))
  {}

  /** On a well-formed table distance 0 is the first sample. */
  lemma PositionAtZero(s: seq<Sample>, total: real, origin: Vec3)
    requires WellFormedTable(s, total)
    ensures PositionAt(s, total, origin, 0.0) == s[0].point
  {
    if |s| >= 2 {
      assert 0.0 <= s[1].distance;
      assert FindSegment(s, 0.0, 0) == Some(0);
    }
  }

  /** On a well-formed table of two or more samples every lookup finds a bracketing pair. */
  lemma LookupFindsBracket(s: seq<Sample>, total: real, distance: real)
    requires WellFormedTable(s, total) && |s| >= 2
    ensures FindSegment(s, Clamp(distance, 0.0, total), 0).Some?
  {
    assert 0.0 <= total by { assert s[0].distance <= s[|s| - 1].distance; }
    var d := Clamp(distance, 0.0, total);
    if FindSegment(s, d, 0).None? {
      assert false;
    }
  }

  /**
   * When the lookup brackets a distance with the pair i, i + 1, the position lies on
   * that pair's segment and the direction is the same pair's normalised difference.
   */
  lemma LookupsShareBracket(g: Geometry, s: seq<Sample>, total: real, origin: Vec3, forward: Vec3,
                            distance: real, i: nat)
    requires WellFormedTable(s, total) && |s| >= 2
    requires FindSegment(s, Clamp(distance, 0.0, total), 0) == Some(i)
    ensures DirectionAt(g, s, total, forward, distance) == DirectionBetween(g, s[i].point, s[i + 1].point)
    ensures var u := SegmentParameter(s, i, Clamp(distance, 0.0, total));
            && 0.0 <= u <= 1.0
            && PositionAt(s, total, origin, distance) == Lerp(s[i].point, s[i + 1].point, u)
  {
    PositionInBracket(s, total, origin, distance, i);
  }

  /** The position half of `LookupsShareBracket`, which needs no geometry. */
  lemma PositionInBracket(s: seq<Sample>, total: real, origin: Vec3, distance: real, i: nat)
    requires WellFormedTable(s, total) && |s| >= 2
    requires FindSegment(s, Clamp(distance, 0.0, total), 0) == Some(i)
    ensures var u := SegmentParameter(s, i, Clamp(distance, 0.0, total));
            && 0.0 <= u <= 1.0
            && PositionAt(s, total, origin, distance) == Lerp(s[i].point, s[i + 1].point, u)
  {
    var d := Clamp(distance, 0.0, total);
    assert 0.0 <= total by { assert s[0].distance <= s[|s| - 1].distance; }
    var a, b := s[i].distance, s[i + 1].distance;
    assert a <= d by {
      if i > 0 { assert s[i].distance < d; }
    }
    if b != a {
      UnitQuotient(d - a, b - a);
    }
  }

  /** Where in its bracketing pair a distance falls, as a fraction of the pair's length. */
  function SegmentParameter(s: seq<Sample>, i: nat, d: real): real
    requires i + 1 < |s|
  {
    var segmentStart := s[i].distance;
    var segmentEnd := s[i + 1].distance;
    if segmentEnd == segmentStart then 0.0 else (d - segmentStart) / (segmentEnd - segmentStart)
  }

  /** Gathers the position lookup facts for `SplinePath.GetPositionAtDistance`. */
  lemma PositionLookup(s: seq<Sample>, total: real, origin: Vec3, distance: real)
    ensures s == [] ==> PositionAt(s, total, origin, distance) == origin
    ensures WellFormedTable(s, total) && distance <= 0.0 ==> PositionAt(s, total, origin, distance) == s[0].point
    ensures WellFormedTable(s, total) && |s| >= 2 ==>
              var d := Clamp(distance, 0.0, total);
              var k := FindSegment(s, d, 0);
              && k.Some?
              && 0.0 <= SegmentParameter(s, k.value, d) <= 1.0
              && PositionAt(s, total, origin, distance) == Lerp(s[k.value].point, s[k.value + 1].point, SegmentParameter(s, k.value, d))
  {
    if WellFormedTable(s, total) {
      assert 0.0 <= total by { assert s[0].distance <= s[|s| - 1].distance; }
      if distance <= 0.0 {
        PositionAtClamps(s, total, origin, distance);
        PositionAtZero(s, total, origin);
      }
      if |s| >= 2 {
        LookupFindsBracket(s, total, distance);
        PositionInBracket(s, total, origin, distance, FindSegment(s, Clamp(distance, 0.0, total), 0).value);
      }
    }
  }

  /** Gathers the direction lookup facts for `SplinePath.GetDirectionAtDistance`. */
  lemma DirectionLookup(g: Geometry, s: seq<Sample>, total: real, forward: Vec3, distance: real)
    ensures WellFormedTable(s, total) && |s| >= 2 ==>
              var k := FindSegment(s, Clamp(distance, 0.0, total), 0);
              && k.Some?
              && DirectionAt(g, s, total, forward, distance) == DirectionBetween(g, s[k.value].point, s[k.value + 1].point)
  {
    if WellFormedTable(s, total) && |s| >= 2 {
      LookupFindsBracket(s, total, distance);
    }
  }

  lemma UnitQuotient(x: real, y: real)
    requires 0.0 <= x <= y && y != 0.0
    ensures 0.0 <= x / y <= 1.0
  {}

  /** A table whose consecutive samples are at strictly increasing distances. */
  ghost predicate StrictlyIncreasing(s: seq<Sample>) {
    forall k :: 0 < k < |s| ==> s[k - 1].distance < s[k].distance
  }

  lemma {:induction false} StrictlyIncreasingOrdered(s: seq<Sample>, a: nat, b: nat)
    requires StrictlyIncreasing(s) && a < b < |s|
    ensures s[a].distance < s[b].distance
    decreases b - a
  {
    if a + 1 < b {
      StrictlyIncreasingOrdered(s, a, b - 1);
    }
  }

  /** Looking up a sample's own distance returns that sample, when no segment has zero length. */
  lemma PositionAtSampleDistance(s: seq<Sample>, total: real, origin: Vec3, k: nat)
    requires WellFormedTable(s, total) && StrictlyIncreasing(s) && k < |s|
    ensures PositionAt(s, total, origin, s[k].distance) == s[k].point
  {
    if k == 0 {
      PositionAtZero(s, total, origin);
    } else {
      var d := s[k].distance;
      assert Clamp(d, 0.0, total) == d;
      var r := FindSegment(s, d, 0);
      if r.None? {
        assert false;
      }
      var i := r.value;
      if i + 1 < k {
        StrictlyIncreasingOrdered(s, i + 1, k);
        assert false;
      }
      if i + 1 > k {
        assert false;
      }
      assert i == k - 1;
      assert (d - s[i].distance) / (s[k].distance - s[i].distance) == 1.0;
    }
  }

  // ---------------------------------------------------------------------------
  // The path object
  // ---------------------------------------------------------------------------

  class SplinePath {
    var controlPoints: seq<Vec3>
    var segmentsPerCurve: int
    var laneIndex: int
    var laneWidth: real
    var leftLane: SplinePath?
    var rightLane: SplinePath?
    var nextPath: SplinePath?
    var previousPath: SplinePath?
    /** `splinePoints` and `splineDistances`, pairwise. */
    var samples: seq<Sample>
    var totalLength: real
    /** `transform.position` and `transform.forward` of the owning object. */
    var origin: Vec3
    var forward: Vec3

    /** The serialized defaults followed by `Awake`, which builds the table. */
    constructor (g: Geometry, controlPoints: seq<Vec3>, segmentsPerCurve: int, laneIndex: int,
                 origin: Vec3, forward: Vec3)
      ensures this.controlPoints == controlPoints && this.segmentsPerCurve == segmentsPerCurve
      ensures this.laneIndex == laneIndex && this.origin == origin && this.forward == forward
      ensures laneWidth == 3.5
      ensures leftLane == null && rightLane == null && nextPath == null && previousPath == null
      ensures samples == GeneratedSamples(g, controlPoints, segmentsPerCurve)
      ensures totalLength == GeneratedLength(g, controlPoints, segmentsPerCurve, 0.0)
    {
      this.controlPoints := controlPoints;
      this.segmentsPerCurve := segmentsPerCurve;
      this.laneIndex := laneIndex;
      this.laneWidth := 3.5;
      this.origin := origin;
      this.forward := forward;
      leftLane, rightLane, nextPath, previousPath := null, null, null, null;
      samples := [];
      totalLength := 0.0;
      new;
      GenerateSplinePoints(g);
    }

    /**
     * `GenerateSplinePoints`: clears the table and, with two or more control points,
     * rebuilds it window by window. Below two points it returns before resetting
     * `totalLength`, so an earlier length survives.
     */
    method GenerateSplinePoints(g: Geometry)
      modifies this`samples, this`totalLength
      ensures samples == GeneratedSamples(g, controlPoints, segmentsPerCurve)
      ensures totalLength == GeneratedLength(g, controlPoints, segmentsPerCurve, old(totalLength))
    {
      samples := [];
      var cp := controlPoints;
      var spc := segmentsPerCurve;
      if |cp| < 2 {
        return;
      }
      var table := [Sample(cp[0], 0.0)];
      var length := 0.0;
      var i := 0;
      while i < |cp| - 1
        invariant 0 <= i <= |cp| - 1
        invariant table == CumulativeTable(g, SplinePoints(cp, spc, i))
        invariant length == table[|table| - 1].distance
      {
        ghost var done := SplinePoints(cp, spc, i);
        table, length := AppendWindowSamples(g, SegmentWindow(cp, i), spc, table, length, done);
        i := i + 1;
      }
      samples, totalLength := table, length;
    }

    function GetTotalLength(): (r: real)
      reads this
      ensures r == totalLength
    {
      totalLength
    }

    /**
     * `GetPositionAtDistance`, on this path's current table: the origin for an empty
     * table, the first sample at or below distance 0, and otherwise a point on the
     * segment between the two samples that bracket the clamped distance.
     */
    function GetPositionAtDistance(distance: real): (r: Vec3)
      reads this
      ensures samples == [] ==> r == origin
      ensures WellFormedTable(samples, totalLength) && distance <= 0.0 ==> r == samples[0].point
      ensures WellFormedTable(samples, totalLength) && |samples| >= 2 ==>
                var d := Clamp(distance, 0.0, totalLength);
                var k := FindSegment(samples, d, 0);
                && k.Some?
                && 0.0 <= SegmentParameter(samples, k.value, d) <= 1.0
                && r == Lerp(samples[k.value].point, samples[k.value + 1].point, SegmentParameter(samples, k.value, d))
    {
      PositionLookup(samples, totalLength, origin, distance);
      PositionAt(samples, totalLength, origin, distance)
    }

    /**
     * `GetDirectionAtDistance`, on this path's current table: the forward axis below
     * two samples, and otherwise the direction of the same bracketing pair that
     * `GetPositionAtDistance` interpolates within.
     */
    function GetDirectionAtDistance(g: Geometry, distance: real): (r: Vec3)
      reads this
      ensures |samples| < 2 ==> r == forward
      ensures WellFormedTable(samples, totalLength) && |samples| >= 2 ==>
                var k := FindSegment(samples, Clamp(distance, 0.0, totalLength), 0);
                && k.Some?
                && r == DirectionBetween(g, samples[k.value].point, samples[k.value + 1].point)
    {
      DirectionLookup(g, samples, totalLength, forward, distance);
      DirectionAt(g, samples, totalLength, forward, distance)
    }

    function GetNextPath(): (r: SplinePath?)
      reads this
      ensures r == nextPath
    {
      nextPath
    }

    function GetPreviousPath(): (r: SplinePath?)
      reads this
      ensures r == previousPath
    {
      previousPath
    }

    function GetLeftLane(): (r: SplinePath?)
      reads this
      ensures r == leftLane
    {
      leftLane
    }

    function GetRightLane(): (r: SplinePath?)
      reads this
      ensures r == rightLane
    {
      rightLane
    }
  }
}
