/** The triangle walk of Camera.Render, as a function of the projected
    vertices and the index list: which triangles are read, which are skipped,
    which lines are drawn and how the walk ends. */
module Pipeline {
  import opened Numerics

  /** A projected vertex: Project's NaN sentinel for a point behind the camera,
      or screen coordinates and depth. */
  datatype Projected = Invalid | Valid(x: real, y: real, z: real)

  datatype Point = Point(x: real, y: real)

  /** One Graphics.DrawLine call, from one screen point to another. */
  datatype Line = Line(from: Point, to: Point)

  datatype RenderMode = Wireframe | Rasterize

  /** The exceptions that leave Render: OverflowException from allocating a
      z-buffer with a negative size, IndexOutOfRangeException from an index
      outside the vertex array, NotSupportedException from Rasterize mode. */
  datatype RenderError = NegativeBufferSize | IndexOutOfRange | NotSupported

  /** How Render ended (normally, or with an exception) and the lines it drew. */
  datatype RenderResult = RenderResult(error: Option<RenderError>, lines: seq<Line>)

  function ScreenPoint(v: Projected): Point
    requires v.Valid?
  {
    Point(v.x, v.y)
  }

  /** The three edges of a triangle, v1 to v2, v2 to v3 and v3 to v1. */
  function Edges(v1: Projected, v2: Projected, v3: Projected): (r: seq<Line>)
    requires v1.Valid? && v2.Valid? && v3.Valid?
    ensures |r| == 3
    ensures r[0].from == r[2].to && r[1].from == r[0].to && r[2].from == r[1].to
    ensures r[0].from == ScreenPoint(v1) && r[1].from == ScreenPoint(v2) && r[2].from == ScreenPoint(v3)
  {
    [Line(ScreenPoint(v1), ScreenPoint(v2)), Line(ScreenPoint(v2), ScreenPoint(v3)), Line(ScreenPoint(v3), ScreenPoint(v1))]
  }

  /** DrawLine called on each line in turn until one throws OverflowException:
      the lines drawn are those before the first overflowing one. */
  function DrawUntilOverflow(lines: seq<Line>, overflows: Line -> bool): (drawn: seq<Line>)
    ensures |drawn| <= |lines| && drawn == lines[..|drawn|]
    ensures forall i :: 0 <= i < |drawn| ==> !overflows(drawn[i])
    ensures |drawn| < |lines| ==> overflows(lines[|drawn|])
  {
    if |lines| == 0 || overflows(lines[0]) then []
    else [lines[0]] + DrawUntilOverflow(lines[1..], overflows)
  }

  /** RenderWireFrame: the edges of the triangle, up to the first that overflows. */
  function RenderWireFrame(v1: Projected, v2: Projected, v3: Projected, overflows: Line -> bool): (r: seq<Line>)
    requires v1.Valid? && v2.Valid? && v3.Valid?
    ensures |r| <= 3 && r == Edges(v1, v2, v3)[..|r|]
    ensures (forall k :: 0 <= k < 3 ==> !overflows(Edges(v1, v2, v3)[k])) ==> r == Edges(v1, v2, v3)
    ensures forall k :: 0 <= k < |r| ==> !overflows(r[k])
    ensures |r| < 3 ==> overflows(Edges(v1, v2, v3)[|r|])
  {
    DrawUntilOverflow(Edges(v1, v2, v3), overflows)
  }

  /** Index `i` of the index list names a vertex. */
  predicate IndexInRange(projected: seq<Projected>, indices: seq<Int32>, i: nat)
    requires i < |indices|
  {
    0 <= indices[i] < |projected|
  }

  /** The three indices of triangle `t` (offsets 3t, 3t+1, 3t+2) all name vertices. */
  predicate TriangleInRange(projected: seq<Projected>, indices: seq<Int32>, t: nat)
    requires 3 * t + 2 < |indices|
  {
    IndexInRange(projected, indices, 3 * t)
    && IndexInRange(projected, indices, 3 * t + 1)
    && IndexInRange(projected, indices, 3 * t + 2)
  }

  function Corner(projected: seq<Projected>, indices: seq<Int32>, i: nat): Projected
    requires i < |indices| && IndexInRange(projected, indices, i)
  {
    projected[indices[i]]
  }

  /** Triangle `t` is drawn: its three projected vertices are valid. */
  predicate Accepted(projected: seq<Projected>, indices: seq<Int32>, t: nat)
    requires 3 * t + 2 < |indices| && TriangleInRange(projected, indices, t)
  {
    Corner(projected, indices, 3 * t).Valid?
    && Corner(projected, indices, 3 * t + 1).Valid?
    && Corner(projected, indices, 3 * t + 2).Valid?
  }

  function TriangleEdges(projected: seq<Projected>, indices: seq<Int32>, t: nat): seq<Line>
    requires 3 * t + 2 < |indices| && TriangleInRange(projected, indices, t) && Accepted(projected, indices, t)
  {
    Edges(Corner(projected, indices, 3 * t), Corner(projected, indices, 3 * t + 1), Corner(projected, indices, 3 * t + 2))
  }

  /** One pass of the triangle loop: the lines it draws, or the exception it lets out. */
  datatype Step = Drew(lines: seq<Line>) | Threw(error: RenderError)

  function TriangleStep(projected: seq<Projected>, indices: seq<Int32>, t: nat, mode: RenderMode, overflows: Line -> bool): Step
    requires 3 * t + 2 < |indices|
  {
    if !TriangleInRange(projected, indices, t) then Threw(IndexOutOfRange)
    else if !Accepted(projected, indices, t) then Drew([])
    else if mode == Wireframe then
      Drew(RenderWireFrame(Corner(projected, indices, 3 * t), Corner(projected, indices, 3 * t + 1),
                           Corner(projected, indices, 3 * t + 2), overflows))
    else Threw(NotSupported)
  }

  /** The first `n` passes of the triangle loop. */
  function Walk(projected: seq<Projected>, indices: seq<Int32>, n: nat, mode: RenderMode, overflows: Line -> bool): RenderResult
    requires 3 * n <= |indices|
  {
    if n == 0 then RenderResult(None, [])
    else
      var prev := Walk(projected, indices, n - 1, mode, overflows);
      if prev.error.Some? then prev
      else match TriangleStep(projected, indices, n - 1, mode, overflows)
        case Drew(lines) => RenderResult(None, prev.lines + lines)
        case Threw(e) => RenderResult(Some(e), prev.lines)
  }

  /** The number of triangles the loop visits: whole triples only. */
  function TriangleCount(indices: seq<Int32>): (n: nat)
    ensures 3 * n <= |indices| < 3 * n + 3
  {
    |indices| / 3
  }

  /** How many of the first `n` triangles are accepted. */
  function AcceptedCount(projected: seq<Projected>, indices: seq<Int32>, n: nat): nat
    requires 3 * n <= |indices|
    requires forall t :: 0 <= t < n ==> TriangleInRange(projected, indices, t)
  {
    if n == 0 then 0
    else AcceptedCount(projected, indices, n - 1) + if Accepted(projected, indices, n - 1) then 1 else 0
  }

  // ---------------------------------------------------------------------
  // Properties of the walk

  /** One more pass after a walk that has not thrown. */
  lemma WalkNext(projected: seq<Projected>, indices: seq<Int32>, t: nat, mode: RenderMode, overflows: Line -> bool)
    requires 3 * t + 2 < |indices|
    requires Walk(projected, indices, t, mode, overflows).error.None?
    ensures var prev, next := Walk(projected, indices, t, mode, overflows), Walk(projected, indices, t + 1, mode, overflows);
      match TriangleStep(projected, indices, t, mode, overflows)
      case Drew(lines) => next == RenderResult(None, prev.lines + lines)
      case Threw(e) => next == RenderResult(Some(e), prev.lines)
  {
  }

  /** Once an exception has left the loop, later triangles change nothing. */
  lemma {:induction false} WalkStops(projected: seq<Projected>, indices: seq<Int32>, n: nat, n': nat, mode: RenderMode, overflows: Line -> bool)
    requires n <= n' && 3 * n' <= |indices|
    requires Walk(projected, indices, n, mode, overflows).error.Some?
    ensures Walk(projected, indices, n', mode, overflows) == Walk(projected, indices, n, mode, overflows)
    decreases n' - n
  {
    if n < n' {
      WalkStops(projected, indices, n, n' - 1, mode, overflows);
    }
  }

  /** Each pass only adds lines after those already drawn. */
  lemma {:induction false} WalkGrows(projected: seq<Projected>, indices: seq<Int32>, n: nat, n': nat, mode: RenderMode, overflows: Line -> bool)
    requires n <= n' && 3 * n' <= |indices|
    ensures var a, b := Walk(projected, indices, n, mode, overflows), Walk(projected, indices, n', mode, overflows);
      |a.lines| <= |b.lines| && b.lines[..|a.lines|] == a.lines
    decreases n' - n
  {
    if n < n' {
      WalkGrows(projected, indices, n, n' - 1, mode, overflows);
    }
  }

  /** The walk reads no index beyond the last whole triple: a trailing one or
      two indices change nothing. */
  lemma {:induction false} WalkIgnoresTail(projected: seq<Projected>, indices: seq<Int32>, tail: seq<Int32>, n: nat, mode: RenderMode, overflows: Line -> bool)
    requires 3 * n <= |indices|
    ensures Walk(projected, indices + tail, n, mode, overflows) == Walk(projected, indices, n, mode, overflows)
  {
    if n > 0 {
      WalkIgnoresTail(projected, indices, tail, n - 1, mode, overflows);
      var i := 3 * (n - 1);
      assert (indices + tail)[i] == indices[i];
      assert (indices + tail)[i + 1] == indices[i + 1];
      assert (indices + tail)[i + 2] == indices[i + 2];
    }
  }

  /** Render's walk over an index list with a trailing partial triple is the
      walk over the list without it. */
  lemma PartialTripleIgnored(projected: seq<Projected>, indices: seq<Int32>, tail: seq<Int32>, mode: RenderMode, overflows: Line -> bool)
    requires |indices| % 3 == 0 && |tail| < 3
    ensures TriangleCount(indices + tail) == TriangleCount(indices)
    ensures Walk(projected, indices + tail, TriangleCount(indices + tail), mode, overflows)
         == Walk(projected, indices, TriangleCount(indices), mode, overflows)
  {
    WalkIgnoresTail(projected, indices, tail, TriangleCount(indices), mode, overflows);
  }

  /** In Wireframe mode the loop ends with an exception exactly when some
      triangle it reaches has an index outside the vertex array, and that
      exception is IndexOutOfRange. */
  lemma {:induction false} WireframeFailsOnlyOnBadIndex(projected: seq<Projected>, indices: seq<Int32>, n: nat, overflows: Line -> bool)
    requires 3 * n <= |indices|
    ensures var r := Walk(projected, indices, n, Wireframe, overflows);
      && (r.error.Some? <==> exists t :: 0 <= t < n && !TriangleInRange(projected, indices, t))
      && (r.error.Some? ==> r.error.value == IndexOutOfRange)
  {
    if n > 0 {
      WireframeFailsOnlyOnBadIndex(projected, indices, n - 1, overflows);
      var r := Walk(projected, indices, n, Wireframe, overflows);
      if !TriangleInRange(projected, indices, n - 1) {
        assert r.error.Some?;
      }
      if r.error.Some? && Walk(projected, indices, n - 1, Wireframe, overflows).error.None? {
        assert !TriangleInRange(projected, indices, n - 1);
      }
    }
  }

  /** Without overflow, Wireframe mode draws three lines for every accepted
      triangle and none for a skipped one; shared edges are drawn again. */
  lemma {:induction false} WireframeLineCount(projected: seq<Projected>, indices: seq<Int32>, n: nat, overflows: Line -> bool)
    requires 3 * n <= |indices|
    requires forall t :: 0 <= t < n ==> TriangleInRange(projected, indices, t)
    requires forall l :: !overflows(l)
    ensures Walk(projected, indices, n, Wireframe, overflows).error.None?
    ensures |Walk(projected, indices, n, Wireframe, overflows).lines| == 3 * AcceptedCount(projected, indices, n)
  {
    if n > 0 {
      WireframeLineCount(projected, indices, n - 1, overflows);
      if Accepted(projected, indices, n - 1) {
        var e := TriangleEdges(projected, indices, n - 1);
        assert DrawUntilOverflow(e, overflows) == e;
      }
    }
  }

  /** An overflow costs only the rest of its own triangle: in Wireframe mode with
      every index in range the loop always ends normally, drawing at most three
      lines per accepted triangle. */
  lemma {:induction false} OverflowAbsorbed(projected: seq<Projected>, indices: seq<Int32>, n: nat, overflows: Line -> bool)
    requires 3 * n <= |indices|
    requires forall t :: 0 <= t < n ==> TriangleInRange(projected, indices, t)
    ensures Walk(projected, indices, n, Wireframe, overflows).error.None?
    ensures |Walk(projected, indices, n, Wireframe, overflows).lines| <= 3 * AcceptedCount(projected, indices, n)
  {
    if n > 0 {
      OverflowAbsorbed(projected, indices, n - 1, overflows);
    }
  }

  /** Every line Wireframe mode draws is an edge of an accepted triangle. */
  lemma {:induction false} WireframeDrawsAcceptedEdges(projected: seq<Projected>, indices: seq<Int32>, n: nat, overflows: Line -> bool)
    requires 3 * n <= |indices|
    ensures forall l :: l in Walk(projected, indices, n, Wireframe, overflows).lines ==>
      exists t :: 0 <= t < n && TriangleInRange(projected, indices, t) && Accepted(projected, indices, t)
                  && l in TriangleEdges(projected, indices, t)
  {
    if n > 0 {
      WireframeDrawsAcceptedEdges(projected, indices, n - 1, overflows);
      var prev := Walk(projected, indices, n - 1, Wireframe, overflows);
      var r := Walk(projected, indices, n, Wireframe, overflows);
      forall l | l in r.lines
        ensures exists t :: 0 <= t < n && TriangleInRange(projected, indices, t) && Accepted(projected, indices, t)
                            && l in TriangleEdges(projected, indices, t)
      {
        if l !in prev.lines {
          var t := n - 1;
          assert TriangleInRange(projected, indices, t) && Accepted(projected, indices, t);
          var drawn := DrawUntilOverflow(TriangleEdges(projected, indices, t), overflows);
          assert r.lines == prev.lines + drawn;
          assert l in drawn;
          assert l in TriangleEdges(projected, indices, t);
        }
      }
    }
  }

  /** Rasterize mode draws nothing; with every index in range it throws
      NotSupported exactly when some triangle is accepted, and otherwise
      returns normally. */
  lemma {:induction false} RasterizeOutcome(projected: seq<Projected>, indices: seq<Int32>, n: nat, overflows: Line -> bool)
    requires 3 * n <= |indices|
    requires forall t :: 0 <= t < n ==> TriangleInRange(projected, indices, t)
    ensures Walk(projected, indices, n, Rasterize, overflows).lines == []
    ensures Walk(projected, indices, n, Rasterize, overflows).error == Some(NotSupported) <==> AcceptedCount(projected, indices, n) > 0
    ensures Walk(projected, indices, n, Rasterize, overflows).error.None? <==> AcceptedCount(projected, indices, n) == 0
  {
    if n > 0 {
      RasterizeOutcome(projected, indices, n - 1, overflows);
    }
  }
}
