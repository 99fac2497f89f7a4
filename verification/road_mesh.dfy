/**
 * `RoadMeshGenerator.GenerateMesh`: the vertex, uv and triangle lists of a road strip
 * laid along a `RoadSpline`.
 *
 * Every window of four control points is sampled at `subdivisions + 1` parameters.
 * Each sample adds a pair of vertices half a road width either side of the curve, a
 * pair of uvs whose v is the running length so far, and (except for a window's first
 * sample) the two triangles of the quad that joins it to the previous sample.
 *
 * The lists are built by the imperative `GenerateMesh`, which is proved equal to the
 * fold `BuildBuffers` of `AddSample` over the sample list `MeshSamples`; the shape of
 * the lists is then proved about the fold.
 */
module RoadMeshes {
  import opened Geometry
  import opened Options
  import opened SplinePaths
  import opened RoadSplines

  /** The serialized defaults of the generator. */
  const DefaultWidth: real := 2.0
  const DefaultSubdivisions: int := 100

  /**
   * What the loop body needs of one sample: its position, the look-ahead point used for
   * the road direction (absent on a window's last sample, which looks back instead) and
   * whether it is joined to the previous sample by a quad (every sample but a window's first).
   */
  datatype MeshSample = MeshSample(pos: Vec3, ahead: Option<Vec3>, joinsPrevious: bool)

  /** The generator's five running values: the three lists, the running length and the previous position. */
  datatype Buffers = Buffers(verts: seq<Vec3>, uvs: seq<Vec2>, tris: seq<int>, totalLength: real, prevPos: Vec3)

  /** The start of `GenerateMesh`: empty lists, length 0 and the previous position at the origin. */
  const EmptyBuffers: Buffers := Buffers([], [], [], 0.0, Zero)

  /** `i / (float)subdivisions`; with no subdivisions the single sample is taken at the window start. */
  function SampleParameter(i: int, subdivisions: int): real {
    if subdivisions == 0 then 0.0 else i as real / subdivisions as real
  }

  /** The first sample is at the window start, the last at its end, and every sample in between. */
  lemma SampleParameterRange(i: int, subdivisions: int)
    ensures i == 0 ==> SampleParameter(i, subdivisions) == 0.0
    ensures subdivisions >= 1 && i == subdivisions ==> SampleParameter(i, subdivisions) == 1.0
    ensures subdivisions >= 1 && 0 <= i <= subdivisions ==> 0.0 <= SampleParameter(i, subdivisions) <= 1.0
  {
  }

  /** The curve point of sample `i`, at t = i / subdivisions. */
  function SamplePosition(w: Window, subdivisions: int, i: int): (r: Vec3)
    ensures i == 0 ==> r == w.p0
    ensures subdivisions >= 1 && i == subdivisions ==> r == w.p3
  {
    SampleParameterRange(i, subdivisions);
    EvaluateBezierWindow(w, SampleParameter(i, subdivisions))
  }

  /** The look-ahead point of sample `i`, at min(t + 0.01, 1). */
  function SampleAhead(w: Window, subdivisions: int, i: int): Vec3 {
    EvaluateBezierWindow(w, Min(SampleParameter(i, subdivisions) + 0.01, 1.0))
  }

  /** Sample `i` of window `w`. */
  function WindowSample(w: Window, subdivisions: int, i: int): (s: MeshSample)
    requires 0 <= i <= subdivisions
    ensures s.joinsPrevious <==> i > 0
    ensures s.ahead.None? <==> i == subdivisions
    ensures i == 0 ==> s.pos == w.p0
    ensures subdivisions >= 1 && i == subdivisions ==> s.pos == w.p3
  {
    MeshSample(SamplePosition(w, subdivisions, i),
               if i < subdivisions then Some(SampleAhead(w, subdivisions, i)) else None,
               i > 0)
  }

  /** The `subdivisions + 1` samples of one window. */
  function WindowMeshSamples(w: Window, subdivisions: int): (r: seq<MeshSample>)
    ensures |r| == NonNeg(subdivisions + 1)
  {
    seq(NonNeg(subdivisions + 1), i requires 0 <= i < NonNeg(subdivisions + 1) => WindowSample(w, subdivisions, i))
  }

  /** The samples of the first `m` windows, window after window. */
  function MeshSamples(cp: seq<Vec3>, subdivisions: int, m: nat): (r: seq<MeshSample>)
    requires m <= |WindowStarts(|cp|)|
  {
    if m == 0 then []
    else MeshSamples(cp, subdivisions, m - 1) + WindowMeshSamples(BezierWindow(cp, WindowStarts(|cp|)[m - 1]), subdivisions)
  }

  /** Every window contributes `subdivisions + 1` samples (none when `subdivisions < 0`). */
  lemma {:induction false} MeshSamplesLength(cp: seq<Vec3>, subdivisions: int, m: nat)
    requires m <= |WindowStarts(|cp|)|
    ensures |MeshSamples(cp, subdivisions, m)| == m * NonNeg(subdivisions + 1)
  {
    if m > 0 {
      MeshSamplesLength(cp, subdivisions, m - 1);
      MulSucc(m - 1, NonNeg(subdivisions + 1));
    }
  }

  /** The six indices of the quad that joins sample `k - 1` to sample `k`. */
  function Quad(k: int): seq<int> {
    [2 * k - 2, 2 * k, 2 * k - 1, 2 * k, 2 * k + 1, 2 * k - 1]
  }

  /**
   * One pass of the inner loop body: two vertices at pos ± right·width/2, two uvs at the
   * running length, the quad's six indices when the sample joins the previous one, then
   * the running length grows by the distance from the previous position.
   */
  function AddSample(g: Geometry, width: real, b: Buffers, s: MeshSample): Buffers {
    var forward := if s.ahead.Some? then Sub(s.ahead.value, s.pos) else Sub(s.pos, b.prevPos);
    var right := Cross(Up, g.normalize(forward));
    var half := Scale(width * 0.5, right);
    var verts := b.verts + [Add(s.pos, half), Sub(s.pos, half)];
    var uvs := b.uvs + [Vec2(0.0, b.totalLength), Vec2(1.0, b.totalLength)];
    var baseIndex := |verts| - 4;
    var tris := if s.joinsPrevious
                then b.tris + [baseIndex + 0, baseIndex + 2, baseIndex + 1, baseIndex + 2, baseIndex + 3, baseIndex + 1]
                else b.tris;
    Buffers(verts, uvs, tris, b.totalLength + g.norm(Sub(s.pos, b.prevPos)), s.pos)
  }

  /** The buffers after the loop body has run on each sample in turn. */
  function BuildBuffers(g: Geometry, width: real, samples: seq<MeshSample>): (r: Buffers)
    ensures |r.verts| == 2 * |samples| && |r.uvs| == 2 * |samples|
    ensures samples == [] ==> r == EmptyBuffers
    ensures samples != [] ==> r.prevPos == samples[|samples| - 1].pos
  {
    if samples == [] then EmptyBuffers
    else AddSample(g, width, BuildBuffers(g, width, samples[..|samples| - 1]), samples[|samples| - 1])
  }

  /** Where one pass of the loop body puts its six triangle indices. */
  lemma AddSampleTris(g: Geometry, width: real, b: Buffers, s: MeshSample, n: nat)
    requires |b.verts| == 2 * n
    ensures AddSample(g, width, b, s).tris == b.tris + (if s.joinsPrevious then Quad(n) else [])
  {
    assert 2 * (n + 1) - 4 == 2 * n - 2;
  }

  lemma BuildSnoc(g: Geometry, width: real, samples: seq<MeshSample>, s: MeshSample)
    ensures BuildBuffers(g, width, samples + [s]) == AddSample(g, width, BuildBuffers(g, width, samples), s)
  {
    assert (samples + [s])[..|samples|] == samples;
  }

  // ---------------------------------------------------------------------------
  // The imperative generator
  // ---------------------------------------------------------------------------

  /**
   * One pass of the inner loop body of `GenerateMesh`, for sample `i` of window `w`: the
   * running values become those `AddSample` gives for that sample.
   */
  method AppendSample(g: Geometry, width: real, w: Window, subdivisions: int, i: int, b: Buffers)
    returns (b': Buffers)
    requires 0 <= i <= subdivisions
    ensures b' == AddSample(g, width, b, WindowSample(w, subdivisions, i))
  {
    ghost var s := WindowSample(w, subdivisions, i);
    var pos := SamplePosition(w, subdivisions, i);
    var forward := if i < subdivisions then Sub(SampleAhead(w, subdivisions, i), pos) else Sub(pos, b.prevPos);
    assert forward == if s.ahead.Some? then Sub(s.ahead.value, s.pos) else Sub(s.pos, b.prevPos);
    var right := Cross(Up, g.normalize(forward));
    var verts := b.verts + [Add(pos, Scale(width * 0.5, right)), Sub(pos, Scale(width * 0.5, right))];
    var uvs := b.uvs + [Vec2(0.0, b.totalLength), Vec2(1.0, b.totalLength)];
    var tris := b.tris;
    if i > 0 {
      var baseIndex := |verts| - 4;
      tris := tris + [baseIndex + 0, baseIndex + 2, baseIndex + 1, baseIndex + 2, baseIndex + 3, baseIndex + 1];
    }
    b' := Buffers(verts, uvs, tris, b.totalLength + g.norm(Sub(pos, b.prevPos)), pos);
  }

  /** The buffers after the first `i` samples of window `w`, starting from `start`. */
  ghost function WindowPrefix(g: Geometry, width: real, start: Buffers, w: Window, subdivisions: int, i: nat): Buffers
    requires i <= NonNeg(subdivisions + 1)
  {
    if i == 0 then start
    else AddSample(g, width, WindowPrefix(g, width, start, w, subdivisions, i - 1), WindowSample(w, subdivisions, i - 1))
  }

  /** Building over one more sample of a window is one more `AddSample`. */
  lemma BuildWindowStep(g: Geometry, width: real, done: seq<MeshSample>, w: Window, subdivisions: int, i: int)
    requires 0 <= i <= subdivisions
    ensures BuildBuffers(g, width, done + WindowMeshSamples(w, subdivisions)[..i + 1])
            == AddSample(g, width, BuildBuffers(g, width, done + WindowMeshSamples(w, subdivisions)[..i]),
                         WindowSample(w, subdivisions, i))
  {
    var ws := WindowMeshSamples(w, subdivisions);
    assert ws[i] == WindowSample(w, subdivisions, i);
    AppendSliceStep(done, ws, i + 1);
    BuildSnoc(g, width, done + ws[..i], ws[i]);
  }

  /** Folding sample by sample is building over the window's prefix. */
  lemma {:induction false} WindowPrefixBuilds(g: Geometry, width: real, done: seq<MeshSample>, w: Window,
                                              subdivisions: int, i: nat)
    requires i <= NonNeg(subdivisions + 1)
    ensures WindowPrefix(g, width, BuildBuffers(g, width, done), w, subdivisions, i)
            == BuildBuffers(g, width, done + WindowMeshSamples(w, subdivisions)[..i])
  {
    if i == 0 {
      AppendWholeSlice(done, WindowMeshSamples(w, subdivisions));
    } else {
      WindowPrefixBuilds(g, width, done, w, subdivisions, i - 1);
      BuildWindowStep(g, width, done, w, subdivisions, i - 1);
    }
  }

  /** Entry `k + 1` of a window trace is entry `k` with sample `k` added. */
  ghost predicate TraceStep(g: Geometry, width: real, w: Window, subdivisions: int, trace: seq<Buffers>, k: int)
    requires 0 <= k <= subdivisions && k + 1 < |trace|
  {
    trace[k + 1] == AddSample(g, width, trace[k], WindowSample(w, subdivisions, k))
  }

  /** The successive buffers of the inner loop over window `w`: one entry per sample, plus the start. */
  ghost predicate IsWindowTrace(g: Geometry, width: real, w: Window, subdivisions: int, trace: seq<Buffers>) {
    && |trace| == NonNeg(subdivisions + 1) + 1
    && forall k :: 0 <= k < |trace| - 1 ==> TraceStep(g, width, w, subdivisions, trace, k)
  }

  /** The trace of window `w` from `start`: its entries are the window's prefixes. */
  ghost function WindowTrace(g: Geometry, width: real, start: Buffers, w: Window, subdivisions: int): (trace: seq<Buffers>)
    ensures IsWindowTrace(g, width, w, subdivisions, trace)
    ensures trace[0] == start
    ensures trace[|trace| - 1] == WindowPrefix(g, width, start, w, subdivisions, NonNeg(subdivisions + 1))
  {
    var n := NonNeg(subdivisions + 1);
    var trace := seq(n + 1, k requires 0 <= k <= n => WindowPrefix(g, width, start, w, subdivisions, k));
    assert forall k :: 0 <= k < |trace| - 1 ==> TraceStep(g, width, w, subdivisions, trace, k) by {
      forall k | 0 <= k < |trace| - 1
        ensures TraceStep(g, width, w, subdivisions, trace, k)
      {
        assert trace[k + 1] == WindowPrefix(g, width, start, w, subdivisions, k + 1);
      }
    }
    trace
  }

  /**
   * The inner loop of `GenerateMesh` over the samples of one window: it passes through
   * every entry of the window's trace and ends at the last.
   */
  method AppendWindowMesh(g: Geometry, width: real, w: Window, subdivisions: int, b: Buffers,
                          ghost trace: seq<Buffers>)
    returns (b': Buffers)
    requires IsWindowTrace(g, width, w, subdivisions, trace) && trace[0] == b
    ensures b' == trace[|trace| - 1]
  {
    b' := b;
    var i := 0;
    while i <= subdivisions
      invariant 0 <= i < |trace|
      invariant b' == trace[i]
    {
      assert TraceStep(g, width, w, subdivisions, trace, i);
      b' := AppendSample(g, width, w, subdivisions, i, b');
      i := i + 1;
    }
  }

  /** One pass of the outer loop of `GenerateMesh`: the window that starts at control point `seg = 3m`. */
  method AppendWindowAt(g: Geometry, width: real, cp: seq<Vec3>, subdivisions: int, seg: int, ghost m: nat, b: Buffers)
    returns (b': Buffers)
    requires m < |WindowStarts(|cp|)| && seg == 3 * m
    requires b == BuildBuffers(g, width, MeshSamples(cp, subdivisions, m))
    ensures b' == BuildBuffers(g, width, MeshSamples(cp, subdivisions, m + 1))
  {
    var window := Window(cp[seg], cp[seg + 1], cp[seg + 2], cp[seg + 3]);
    assert BezierWindow(cp, WindowStarts(|cp|)[m]) == window;
    b' := AppendWindowMesh(g, width, window, subdivisions, b, WindowTrace(g, width, b, window, subdivisions));
    WindowPrefixBuilds(g, width, MeshSamples(cp, subdivisions, m), window, subdivisions, NonNeg(subdivisions + 1));
    AppendWholeSlice(MeshSamples(cp, subdivisions, m), WindowMeshSamples(window, subdivisions));
  }

  /**
   * `GenerateMesh`: nothing with fewer than four control points; otherwise the lists
   * built over every window, in window order.
   */
  method GenerateMesh(g: Geometry, controlPoints: seq<Vec3>, width: real, subdivisions: int)
    returns (r: Option<Buffers>)
    ensures r.None? <==> |controlPoints| < 4
    ensures r.Some? ==>
              r.value == BuildBuffers(g, width, MeshSamples(controlPoints, subdivisions, |WindowStarts(|controlPoints|)|))
  {
    if |controlPoints| < 4 {
      return None;
    }
    var b := EmptyBuffers;
    ghost var m: nat := 0;
    var seg := 0;
    while seg <= |controlPoints| - 4
      invariant seg == 3 * m && m <= |WindowStarts(|controlPoints|)|
      invariant b == BuildBuffers(g, width, MeshSamples(controlPoints, subdivisions, m))
      decreases |controlPoints| - seg
    {
      WindowCount(|controlPoints|, m);
      b := AppendWindowAt(g, width, controlPoints, subdivisions, seg, m, b);
      m := m + 1;
      seg := seg + 3;
    }
    WindowCount(|controlPoints|, m);
    return Some(b);
  }

  // ---------------------------------------------------------------------------
  // The shape of the lists
  // ---------------------------------------------------------------------------

  /** The quads of the joined samples, in sample order. */
  function QuadIndices(samples: seq<MeshSample>): (r: seq<int>)
    ensures |r| % 6 == 0
  {
    if samples == [] then []
    else
      var n := |samples| - 1;
      QuadIndices(samples[..n]) + (if samples[n].joinsPrevious then Quad(n) else [])
  }

  /**
   * `baseIndex = verts.Count - 4` makes each sample's quad join its own two vertices
   * (2k, 2k+1) to the previous sample's (2k−2, 2k−1).
   */
  lemma {:induction false} TrianglesAreQuads(g: Geometry, width: real, samples: seq<MeshSample>)
    ensures BuildBuffers(g, width, samples).tris == QuadIndices(samples)
  {
    if samples != [] {
      var n := |samples| - 1;
      TrianglesAreQuads(g, width, samples[..n]);
      AddSampleTris(g, width, BuildBuffers(g, width, samples[..n]), samples[n], n);
    }
  }

  /**
   * When the first sample does not join a previous one, every triangle index names a
   * vertex that exists.
   */
  lemma {:induction false} QuadIndicesInBounds(samples: seq<MeshSample>)
    requires samples != [] ==> !samples[0].joinsPrevious
    ensures forall q :: 0 <= q < |QuadIndices(samples)| ==> 0 <= QuadIndices(samples)[q] < 2 * |samples|
  {
    if samples != [] {
      var n := |samples| - 1;
      var prefix := samples[..n];
      assert prefix != [] ==> prefix[0] == samples[0];
      QuadIndicesInBounds(prefix);
    }
  }

  /** Every triangle index of a generated mesh lies in [0, verts.Count). */
  lemma TrianglesInBounds(g: Geometry, cp: seq<Vec3>, width: real, subdivisions: int)
    ensures var b := BuildBuffers(g, width, MeshSamples(cp, subdivisions, |WindowStarts(|cp|)|));
            forall q :: 0 <= q < |b.tris| ==> 0 <= b.tris[q] < |b.verts|
  {
    var samples := MeshSamples(cp, subdivisions, |WindowStarts(|cp|)|);
    if samples != [] {
      FirstSampleStartsWindow(cp, subdivisions, |WindowStarts(|cp|)|);
    }
    TrianglesAreQuads(g, width, samples);
    QuadIndicesInBounds(samples);
  }

  /** The flattened list starts with the first sample of the first window, which joins nothing. */
  lemma {:induction false} FirstSampleStartsWindow(cp: seq<Vec3>, subdivisions: int, m: nat)
    requires m <= |WindowStarts(|cp|)| && MeshSamples(cp, subdivisions, m) != []
    ensures !MeshSamples(cp, subdivisions, m)[0].joinsPrevious
  {
    if MeshSamples(cp, subdivisions, m - 1) != [] {
      FirstSampleStartsWindow(cp, subdivisions, m - 1);
    }
  }

  /**
   * Sample `i` of window `w` comes right after the samples of the windows before it
   * (`MeshSamplesLength`: `w · (subdivisions + 1)` of them).
   */
  lemma {:induction false} SampleOfWindow(cp: seq<Vec3>, subdivisions: int, m: nat, w: nat, i: nat)
    requires m <= |WindowStarts(|cp|)| && w < m && i <= subdivisions
    ensures |MeshSamples(cp, subdivisions, w)| + i < |MeshSamples(cp, subdivisions, m)|
    ensures MeshSamples(cp, subdivisions, m)[|MeshSamples(cp, subdivisions, w)| + i]
            == WindowMeshSamples(BezierWindow(cp, WindowStarts(|cp|)[w]), subdivisions)[i]
  {
    var earlier := MeshSamples(cp, subdivisions, m - 1);
    var window := BezierWindow(cp, WindowStarts(|cp|)[m - 1]);
    assert MeshSamples(cp, subdivisions, m) == earlier + WindowMeshSamples(window, subdivisions);
    var block := WindowMeshSamples(window, subdivisions);
    if w < m - 1 {
      SampleOfWindow(cp, subdivisions, m - 1, w, i);
      AppendIndex(earlier, block, |MeshSamples(cp, subdivisions, w)| + i);
    } else {
      AppendIndex(earlier, block, |earlier| + i);
    }
  }

  /** Indexing into a concatenation. */
  lemma AppendIndex<T>(a: seq<T>, b: seq<T>, k: nat)
    requires k < |a| + |b|
    ensures (a + b)[k] == if k < |a| then a[k] else b[k - |a|]
  {
  }

  /**
   * A sample is joined to the one before it exactly when it is not its window's first:
   * no quad joins the last sample of one window to the first sample of the next.
   */
  lemma SampleJoinsWithinWindow(cp: seq<Vec3>, subdivisions: int, m: nat, w: nat, i: nat)
    requires m <= |WindowStarts(|cp|)| && w < m && i <= subdivisions
    ensures |MeshSamples(cp, subdivisions, w)| + i < |MeshSamples(cp, subdivisions, m)|
    ensures MeshSamples(cp, subdivisions, m)[|MeshSamples(cp, subdivisions, w)| + i].joinsPrevious <==> i > 0
  {
    SampleOfWindow(cp, subdivisions, m, w, i);
    var window := BezierWindow(cp, WindowStarts(|cp|)[w]);
    assert WindowMeshSamples(window, subdivisions)[i] == WindowSample(window, subdivisions, i);
  }

  /** Half the sum of sample k's two vertices. */
  function PairCentre(verts: seq<Vec3>, k: nat): Vec3
    requires 2 * k + 1 < |verts|
  {
    Scale(0.5, Add(verts[2 * k], verts[2 * k + 1]))
  }

  /** The two vertices of every sample are placed symmetrically about the curve point. */
  lemma {:induction false} VertexPairsCentred(g: Geometry, width: real, samples: seq<MeshSample>)
    ensures var b := BuildBuffers(g, width, samples);
            forall k :: 0 <= k < |samples| ==> PairCentre(b.verts, k) == samples[k].pos
  {
    if samples != [] {
      var n := |samples| - 1;
      VertexPairsCentred(g, width, samples[..n]);
      var before := BuildBuffers(g, width, samples[..n]);
      var after := BuildBuffers(g, width, samples);
      forall k | 0 <= k < |samples|
        ensures PairCentre(after.verts, k) == samples[k].pos
      {
        if k < n {
          assert after.verts[2 * k] == before.verts[2 * k] && after.verts[2 * k + 1] == before.verts[2 * k + 1];
          assert PairCentre(after.verts, k) == PairCentre(before.verts, k);
          assert samples[..n][k] == samples[k];
        }
      }
    }
  }

  /** The v coordinate of sample k's uvs. */
  function SampleV(uvs: seq<Vec2>, k: nat): real
    requires 2 * k < |uvs|
  {
    uvs[2 * k].v
  }

  /**
   * Uvs laid out as the generator lays them: in pairs (0, v), (1, v), with v starting
   * at 0, never decreasing and never exceeding `total`.
   */
  predicate RunningUvs(uvs: seq<Vec2>, total: real) {
    && |uvs| % 2 == 0
    && (forall k :: 0 <= k < |uvs| / 2 ==>
          uvs[2 * k] == Vec2(0.0, SampleV(uvs, k)) && uvs[2 * k + 1] == Vec2(1.0, SampleV(uvs, k)))
    && (uvs != [] ==> SampleV(uvs, 0) == 0.0)
    && (forall j, k :: 0 <= j <= k < |uvs| / 2 ==> SampleV(uvs, j) <= SampleV(uvs, k))
    && (forall k :: 0 <= k < |uvs| / 2 ==> SampleV(uvs, k) <= total)
  }

  /** Appending a pair at the current running length keeps the layout, whatever the running length grows to. */
  lemma RunningUvsSnoc(uvs: seq<Vec2>, total: real, total': real)
    requires RunningUvs(uvs, total) && total >= 0.0 && total' >= total
    requires uvs == [] ==> total == 0.0
    ensures RunningUvs(uvs + [Vec2(0.0, total), Vec2(1.0, total)], total')
  {
    var after := uvs + [Vec2(0.0, total), Vec2(1.0, total)];
    var n := |uvs| / 2;
    assert SampleV(after, n) == total;
    assert forall k :: 0 <= k < n ==> SampleV(after, k) == SampleV(uvs, k);
    assert forall k :: 0 <= k < n ==> after[2 * k] == uvs[2 * k] && after[2 * k + 1] == uvs[2 * k + 1];
  }

  /**
   * The uvs of sample k are (0, v) and (1, v) with v the running length before that
   * sample: v starts at 0, never decreases and never exceeds the final running length.
   */
  lemma {:induction false} UvsFollowRunningLength(g: Geometry, width: real, samples: seq<MeshSample>)
    ensures var b := BuildBuffers(g, width, samples);
            b.totalLength >= 0.0 && RunningUvs(b.uvs, b.totalLength)
  {
    if samples != [] {
      var n := |samples| - 1;
      UvsFollowRunningLength(g, width, samples[..n]);
      var before := BuildBuffers(g, width, samples[..n]);
      AddSampleUvs(g, width, before, samples[n]);
      AddSampleLength(g, width, before, samples[n]);
      RunningUvsSnoc(before.uvs, before.totalLength, BuildBuffers(g, width, samples).totalLength);
    }
  }

  /**
   * The previous position starts at the origin, so the second sample's v is the first
   * point's distance from the origin rather than 0 or a distance along the road.
   */
  lemma SecondVFromOrigin(g: Geometry, width: real, samples: seq<MeshSample>)
    requires |samples| >= 2
    ensures SampleV(BuildBuffers(g, width, samples).uvs, 1) == g.norm(Sub(samples[0].pos, Zero))
  {
    var b2 := BuildBuffers(g, width, samples[..2]);
    assert samples[..2][..1] == [samples[0]];
    assert [samples[0]][..0] == [];
    UvPrefixStable(g, width, samples, 2);
  }

  /** Later samples never rewrite the uvs of earlier ones. */
  lemma {:induction false} UvPrefixStable(g: Geometry, width: real, samples: seq<MeshSample>, n: nat)
    requires n <= |samples|
    ensures BuildBuffers(g, width, samples).uvs[..2 * n] == BuildBuffers(g, width, samples[..n]).uvs
  {
    if n < |samples| {
      var prefix := samples[..|samples| - 1];
      LastSampleKeepsUvs(g, width, samples, n);
      UvPrefixStable(g, width, prefix, n);
      assert prefix[..n] == samples[..n];
      calc {
        BuildBuffers(g, width, samples).uvs[..2 * n];
        BuildBuffers(g, width, prefix).uvs[..2 * n];
        BuildBuffers(g, width, prefix[..n]).uvs;
      }
    } else {
      assert samples[..n] == samples;
    }
  }

  lemma LastSampleKeepsUvs(g: Geometry, width: real, samples: seq<MeshSample>, n: nat)
    requires n < |samples|
    ensures BuildBuffers(g, width, samples).uvs[..2 * n]
            == BuildBuffers(g, width, samples[..|samples| - 1]).uvs[..2 * n]
  {
    var before := BuildBuffers(g, width, samples[..|samples| - 1]);
    AddSampleUvs(g, width, before, samples[|samples| - 1]);
    var added := [Vec2(0.0, before.totalLength), Vec2(1.0, before.totalLength)];
    assert (before.uvs + added)[..2 * n] == before.uvs[..2 * n];
  }

  /** One pass of the loop body never shortens the running length. */
  lemma AddSampleLength(g: Geometry, width: real, b: Buffers, s: MeshSample)
    ensures AddSample(g, width, b, s).totalLength >= b.totalLength
  {
  }

  /** One pass of the loop body appends the uvs (0, v) and (1, v) with v the running length so far. */
  lemma AddSampleUvs(g: Geometry, width: real, b: Buffers, s: MeshSample)
    ensures AddSample(g, width, b, s).uvs == b.uvs + [Vec2(0.0, b.totalLength), Vec2(1.0, b.totalLength)]
  {
  }

  /** A generated mesh has two vertices and two uvs per sample, (subdivisions + 1) samples per window. */
  lemma MeshSizes(g: Geometry, cp: seq<Vec3>, width: real, subdivisions: int)
    requires subdivisions >= 0
    ensures var b := BuildBuffers(g, width, MeshSamples(cp, subdivisions, |WindowStarts(|cp|)|));
            |b.verts| == |b.uvs| == 2 * (|WindowStarts(|cp|)| * (subdivisions + 1))
  {
    MeshSamplesLength(cp, subdivisions, |WindowStarts(|cp|)|);
  }
}
