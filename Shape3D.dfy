/** Q3DLib.Geometry.Shape3D: a triangle mesh with a position and a rotation,
    its world-space vertices, and the loader for the subset of Wavefront OBJ
    the library reads. */
module Geometry {
  import opened Numerics
  import opened Measurement
  import opened Text

  /** The mesh.  Its two arrays are held as values. */
  datatype Shape3D = Shape3D(vertices: seq<Vector3>, indices: seq<Int32>, position: Vector3, rotation: Vector3) {

    /** Rotate(Vector3): the same mesh, turned further by `rotationDelta`. */
    function Rotate(rotationDelta: Vector3): Shape3D
    {
      Shape3D(vertices, indices, position, rotation.Add(rotationDelta))
    }

    /** Rotate(float x, float y, float z): the overload taking the three angles. */
    function RotateComponents(x: real, y: real, z: real): (r: Shape3D)
      ensures r == Rotate(Vector3(x, y, z))
    {
      Rotate(Vector3(x, y, z))
    }

    /** Where a vertex of the mesh ends up: rotated about Y, then X, then Z by
        the shape's rotation, then moved by its position. */
    function WorldVertex(v: Vector3, m: MathF): Vector3
    {
      v.RotateY(rotation.y, m).RotateX(rotation.x, m).RotateZ(rotation.z, m).Add(position)
    }

    /** The world-space vertices, one per vertex of the mesh and in the same order. */
    function RotatedVertices(m: MathF): (r: seq<Vector3>)
      ensures |r| == |vertices|
      ensures forall i :: 0 <= i < |r| ==> r[i] == WorldVertex(vertices[i], m)
    {
      seq(|vertices|, i requires 0 <= i < |vertices| => WorldVertex(vertices[i], m))
    }

    /** GetRotatedVertices: a new array holding the world-space vertices. */
    method GetRotatedVertices(m: MathF) returns (rotatedVertices: array<Vector3>)
      ensures fresh(rotatedVertices)
      ensures rotatedVertices[..] == RotatedVertices(m)
    {
      rotatedVertices := new Vector3[|vertices|];
      var i := 0;
      while i < |vertices|
        invariant 0 <= i <= |vertices|
        invariant forall k :: 0 <= k < i ==> rotatedVertices[k] == WorldVertex(vertices[k], m)
      {
        var vertex := vertices[i];
        vertex := vertex.RotateY(rotation.y, m);
        vertex := vertex.RotateX(rotation.x, m);
        vertex := vertex.RotateZ(rotation.z, m);
        rotatedVertices[i] := vertex.Add(position);
        i := i + 1;
      }
    }
  }

  /** Rotate changes the rotation alone, by exactly the delta. */
  lemma RotateKeepsMesh(s: Shape3D, delta: Vector3)
    ensures s.Rotate(delta).vertices == s.vertices
    ensures s.Rotate(delta).indices == s.indices
    ensures s.Rotate(delta).position == s.position
    ensures s.Rotate(delta).rotation.Sub(delta) == s.rotation
  {
  }

  /** Two rotations in a row are one rotation by the sum. */
  lemma RotateCompose(s: Shape3D, a: Vector3, b: Vector3)
    ensures s.Rotate(a).Rotate(b) == s.Rotate(a.Add(b))
  {
  }

  /** Rotating by a delta and then by its negation gives the shape back. */
  lemma RotateUndo(s: Shape3D, delta: Vector3)
    ensures s.Rotate(delta).Rotate(delta.Neg()) == s
  {
    RotateCompose(s, delta, delta.Neg());
    NegInvolution(delta);
    assert s.rotation.Add(ZERO) == s.rotation;
  }

  /** The world transform can be undone: subtracting the position and rotating
      back about Z, X and Y recovers the vertex. */
  lemma WorldVertexInverse(s: Shape3D, v: Vector3, m: MathF)
    requires TrigLaws(m)
    ensures s.WorldVertex(v, m).Sub(s.position)
              .RotateZ(-s.rotation.z, m).RotateX(-s.rotation.x, m).RotateY(-s.rotation.y, m) == v
  {
    var ry := v.RotateY(s.rotation.y, m);
    var rx := ry.RotateX(s.rotation.x, m);
    var rz := rx.RotateZ(s.rotation.z, m);
    AddSubCancel(rz, s.position);
    RotateZInverse(rx, s.rotation.z, m);
    RotateXInverse(ry, s.rotation.x, m);
    RotateYInverse(v, s.rotation.y, m);
  }

  /** An unrotated shape only moves its vertices by its position. */
  lemma WorldVertexUnrotated(s: Shape3D, v: Vector3, m: MathF)
    requires TrigLaws(m) && s.rotation == ZERO
    ensures s.WorldVertex(v, m) == v.Add(s.position)
  {
    RotateByZero(v, m);
  }

  // ---------------------------------------------------------------------
  // Loading a Wavefront OBJ file

  /** The three ways FromObj fails: FileNotFoundException, the
      InvalidOperationException for an empty mesh, and the FormatException (or
      OverflowException) of float.Parse / int.Parse. */
  datatype ObjError = FileNotFound | InvalidFile | FormatError

  /** What lines of the file contribute to the vertex and index lists. */
  datatype ObjData = ObjData(vertices: seq<Vector3>, indices: seq<Int32>)

  const NO_DATA: ObjData := ObjData([], [])

  /** Appends the contribution `b` after `a`; a failure on either side is a failure. */
  function Join(a: Option<ObjData>, b: Option<ObjData>): Option<ObjData>
  {
    if a.Some? && b.Some? then Some(ObjData(a.value.vertices + b.value.vertices, a.value.indices + b.value.indices))
    else None
  }

  /** The index list of an `f` line: each token parsed as an int, minus 1, with
      C#'s unchecked wrap-around. */
  function FaceIndices(tokens: seq<string>, p: Parsers): (r: Option<seq<Int32>>)
    ensures r.Some? <==> forall j :: 0 <= j < |tokens| ==> p.parseInt(tokens[j]).Some?
    ensures r.Some? ==> |r.value| == |tokens|
    ensures r.Some? ==> forall j :: 0 <= j < |tokens| ==> r.value[j] == Wrap32(p.parseInt(tokens[j]).value - 1)
  {
    if |tokens| == 0 then Some([])
    else
      var prev := FaceIndices(tokens[..|tokens| - 1], p);
      var last := p.parseInt(tokens[|tokens| - 1]);
      if prev.Some? && last.Some? then Some(prev.value + [Wrap32(last.value - 1)]) else None
  }

  /** The vertex of a four-token `v` line, or None when a coordinate does not parse. */
  function VertexOf(parts: seq<string>, p: Parsers): (r: Option<Vector3>)
    requires |parts| == 4
    ensures r.Some? <==> p.parseFloat(parts[1]).Some? && p.parseFloat(parts[2]).Some? && p.parseFloat(parts[3]).Some?
    ensures r.Some? ==> r.value == Vector3(p.parseFloat(parts[1]).value, p.parseFloat(parts[2]).value, p.parseFloat(parts[3]).value)
  {
    var x, y, z := p.parseFloat(parts[1]), p.parseFloat(parts[2]), p.parseFloat(parts[3]);
    if x.Some? && y.Some? && z.Some? then Some(Vector3(x.value, y.value, z.value)) else None
  }

  /** Whether FromObj passes over a line without splitting it. */
  predicate Skipped(line: string)
  {
    IsNullOrWhiteSpace(line) || StartsWithHash(line)
  }

  /** What one line of the file contributes; None when a number in it does not parse. */
  function ParseLine(line: string, p: Parsers): Option<ObjData>
  {
    if Skipped(line) then Some(NO_DATA)
    else
      NonBlankHasToken(line);
      var parts := Split(line);
      if parts[0] == "v" && |parts| == 4 then
        var v := VertexOf(parts, p);
        if v.Some? then Some(ObjData([v.value], [])) else None
      else if parts[0] == "f" then
        var ix := FaceIndices(parts[1..], p);
        if ix.Some? then Some(ObjData([], ix.value)) else None
      else Some(NO_DATA)
  }

  /** What the lines contribute, read in file order. */
  function Collect(lines: seq<string>, p: Parsers): Option<ObjData>
  {
    if |lines| == 0 then Some(NO_DATA)
    else Join(Collect(lines[..|lines| - 1], p), ParseLine(lines[|lines| - 1], p))
  }

  /** FromObj's result, given whether the file exists and its lines. */
  function LoadObj(fileExists: bool, lines: seq<string>, p: Parsers): Result<Shape3D, ObjError>
  {
    if !fileExists then Failure(FileNotFound)
    else
      var d := Collect(lines, p);
      if d.None? then Failure(FormatError)
      else if |d.value.vertices| == 0 || |d.value.indices| == 0 then Failure(InvalidFile)
      else Success(Shape3D(d.value.vertices, d.value.indices, Vector3(0.0, 0.0, 500.0), ZERO))
  }

  /** Shape3D.FromObj over the lines File.ReadAllLines would return. */
  method FromObj(fileExists: bool, lines: seq<string>, p: Parsers) returns (r: Result<Shape3D, ObjError>)
    ensures r == LoadObj(fileExists, lines, p)
  {
    if !fileExists {
      return Failure(FileNotFound);
    }
    var vertices: seq<Vector3> := [];
    var indices: seq<Int32> := [];
    var k := 0;
    while k < |lines|
      invariant 0 <= k <= |lines|
      invariant Collect(lines[..k], p) == Some(ObjData(vertices, indices))
    {
      CollectStep(lines, k, p);
      var added := ReadLine(lines[k], p);
      if added.None? {
        CollectFailureStays(lines, k + 1, p);
        return Failure(FormatError);
      }
      vertices := vertices + added.value.vertices;
      indices := indices + added.value.indices;
      k := k + 1;
    }
    assert lines[..k] == lines;
    if |vertices| == 0 || |indices| == 0 {
      return Failure(InvalidFile);
    }
    return Success(Shape3D(vertices, indices, Vector3(0.0, 0.0, 500.0), ZERO));
  }

  /** The body of FromObj's loop for one line: the vertex or the indices it
      adds, or None where float.Parse or int.Parse throws. */
  method ReadLine(line: string, p: Parsers) returns (added: Option<ObjData>)
    ensures added == ParseLine(line, p)
  {
    if IsNullOrWhiteSpace(line) || StartsWithHash(line) {
      return Some(NO_DATA);
    }
    NonBlankHasToken(line);
    var parts := Split(line);
    if parts[0] == "v" && |parts| == 4 {
      var x := p.parseFloat(parts[1]);
      var y := p.parseFloat(parts[2]);
      var z := p.parseFloat(parts[3]);
      if x.None? || y.None? || z.None? {
        return None;
      }
      return Some(ObjData([Vector3(x.value, y.value, z.value)], []));
    } else if parts[0] == "f" {
      var indices := ReadFace(parts[1..], p);
      if indices.None? {
        return None;
      }
      return Some(ObjData([], indices.value));
    }
    return Some(NO_DATA);
  }

  /** The inner loop of FromObj over the tokens after `f`: each parsed, less
      one, appended to the index list; None where int.Parse throws. */
  method ReadFace(tokens: seq<string>, p: Parsers) returns (r: Option<seq<Int32>>)
    ensures r == FaceIndices(tokens, p)
  {
    var indices: seq<Int32> := [];
    var i := 0;
    while i < |tokens|
      invariant 0 <= i <= |tokens|
      invariant FaceIndices(tokens[..i], p) == Some(indices)
    {
      var index := p.parseInt(tokens[i]);
      assert tokens[..i + 1][..i] == tokens[..i];
      if index.None? {
        FaceIndicesFailureStays(tokens, i + 1, p);
        return None;
      }
      indices := indices + [Wrap32(index.value as int - 1)];
      i := i + 1;
    }
    assert tokens[..i] == tokens;
    return Some(indices);
  }

  lemma CollectStep(lines: seq<string>, k: nat, p: Parsers)
    requires k < |lines|
    ensures Collect(lines[..k + 1], p) == Join(Collect(lines[..k], p), ParseLine(lines[k], p))
  {
    assert lines[..k + 1][..k] == lines[..k];
  }

  lemma {:induction false} CollectFailureStays(lines: seq<string>, k: nat, p: Parsers)
    requires k <= |lines| && Collect(lines[..k], p).None?
    ensures Collect(lines, p).None?
    decreases |lines| - k
  {
    if k < |lines| {
      CollectStep(lines, k, p);
      CollectFailureStays(lines, k + 1, p);
    } else {
      assert lines[..k] == lines;
    }
  }

  /** The lines fail to load exactly when one of them holds a number that does not parse. */
  lemma {:induction false} CollectFailsIff(lines: seq<string>, p: Parsers)
    ensures Collect(lines, p).None? <==> exists k :: 0 <= k < |lines| && ParseLine(lines[k], p).None?
    decreases |lines|
  {
    if |lines| > 0 {
      var init := lines[..|lines| - 1];
      CollectFailsIff(init, p);
      if Collect(lines, p).None? && Collect(init, p).Some? {
        assert ParseLine(lines[|lines| - 1], p).None?;
      }
      if Collect(init, p).None? {
        var k :| 0 <= k < |init| && ParseLine(init[k], p).None?;
        assert lines[k] == init[k];
      }
      if exists k :: 0 <= k < |lines| && ParseLine(lines[k], p).None? {
        var k :| 0 <= k < |lines| && ParseLine(lines[k], p).None?;
        if k < |init| {
          assert init[k] == lines[k];
        }
      }
    }
  }

  lemma {:induction false} FaceIndicesFailureStays(tokens: seq<string>, k: nat, p: Parsers)
    requires k <= |tokens| && FaceIndices(tokens[..k], p).None?
    ensures FaceIndices(tokens, p).None?
  {
    var j :| 0 <= j < k && p.parseInt(tokens[..k][j]).None?;
    assert tokens[j] == tokens[..k][j];
  }

  // ---------------------------------------------------------------------
  // What each kind of line contributes

  /** A blank line, a white-space line and a `#` comment add nothing. */
  lemma SkippedLineAddsNothing(a: seq<string>, line: string, b: seq<string>, p: Parsers)
    requires Skipped(line)
    ensures Collect(a + [line] + b, p) == Collect(a + b, p)
  {
    CollectAppend(a + [line], b, p);
    CollectAppend(a, [line], p);
    CollectAppend(a, b, p);
    assert [line][..0] == [];
    JoinNoData(Some(NO_DATA));
    assert Collect([line], p) == Some(NO_DATA);
    JoinNoData(Collect(a, p));
  }

  /** The contributions of two pieces of a file follow each other in file order. */
  lemma {:induction false} CollectAppend(a: seq<string>, b: seq<string>, p: Parsers)
    ensures Collect(a + b, p) == Join(Collect(a, p), Collect(b, p))
    decreases |b|
  {
    if |b| == 0 {
      assert a + b == a;
      JoinNoData(Collect(a, p));
    } else {
      var b' := b[..|b| - 1];
      assert (a + b)[..|a + b| - 1] == a + b';
      assert (a + b)[|a + b| - 1] == b[|b| - 1];
      CollectAppend(a, b', p);
      JoinAssociative(Collect(a, p), Collect(b', p), ParseLine(b[|b| - 1], p));
    }
  }

  lemma JoinNoData(a: Option<ObjData>)
    ensures Join(a, Some(NO_DATA)) == a
  {
    if a.Some? {
      assert a.value.vertices + [] == a.value.vertices && a.value.indices + [] == a.value.indices;
    }
  }

  lemma JoinAssociative(a: Option<ObjData>, b: Option<ObjData>, c: Option<ObjData>)
    ensures Join(Join(a, b), c) == Join(a, Join(b, c))
  {
    if a.Some? && b.Some? && c.Some? {
      assert (a.value.vertices + b.value.vertices) + c.value.vertices
          == a.value.vertices + (b.value.vertices + c.value.vertices);
      assert (a.value.indices + b.value.indices) + c.value.indices
          == a.value.indices + (b.value.indices + c.value.indices);
    }
  }

  /** A `v` line adds one vertex, the three parsed coordinates, exactly when it
      has four tokens; with any other token count it adds nothing. */
  lemma VertexLine(line: string, p: Parsers)
    requires !Skipped(line) && |Split(line)| > 0 && Split(line)[0] == "v"
    ensures |Split(line)| != 4 ==> ParseLine(line, p) == Some(NO_DATA)
    ensures |Split(line)| == 4 ==>
      var parts := Split(line);
      var x, y, z := p.parseFloat(parts[1]), p.parseFloat(parts[2]), p.parseFloat(parts[3]);
      ParseLine(line, p) == if x.Some? && y.Some? && z.Some? then Some(ObjData([Vector3(x.value, y.value, z.value)], [])) else None
  {
  }

  /** An `f` line adds one index per token after the `f`, in token order, each the
      parsed number minus 1; it fails when any of those tokens does not parse. */
  lemma FaceLine(line: string, p: Parsers)
    requires !Skipped(line) && |Split(line)| > 0 && Split(line)[0] == "f"
    ensures var parts := Split(line);
      && (ParseLine(line, p).Some? <==> forall j :: 1 <= j < |parts| ==> p.parseInt(parts[j]).Some?)
      && (ParseLine(line, p).Some? ==>
            && ParseLine(line, p).value.vertices == []
            && |ParseLine(line, p).value.indices| == |parts| - 1
            && forall j :: 1 <= j < |parts| ==>
                 ParseLine(line, p).value.indices[j - 1] == Wrap32(p.parseInt(parts[j]).value as int - 1))
  {
    var parts := Split(line);
    var ix := FaceIndices(parts[1..], p);
    forall j | 1 <= j < |parts| ensures parts[1..][j - 1] == parts[j] { }
    if !ix.Some? {
      var j :| 0 <= j < |parts[1..]| && p.parseInt(parts[1..][j]).None?;
      assert p.parseInt(parts[j + 1]).None?;
    }
  }

  /** A line whose first token is neither `v` nor `f` adds nothing. */
  lemma OtherLine(line: string, p: Parsers)
    requires !Skipped(line) && |Split(line)| > 0 && Split(line)[0] != "v" && Split(line)[0] != "f"
    ensures ParseLine(line, p) == Some(NO_DATA)
  {
  }

  /** Tokens are separated by ' ' alone: a tab-separated vertex line is one
      token and adds nothing. */
  lemma TabSeparatedVertexIgnored(p: Parsers)
    ensures ParseLine("v\t1\t2\t3", p) == Some(NO_DATA)
  {
    var line := "v\t1\t2\t3";
    assert !IsWhiteSpace(line[0]);
    SingleToken(line);
  }

  /** A bare `f` adds no index. */
  lemma BareFaceAddsNothing(p: Parsers)
    ensures ParseLine("f", p) == Some(NO_DATA)
  {
    assert !IsWhiteSpace("f"[0]);
    SingleToken("f");
    assert Split("f")[1..] == [];
  }

  /** A face written with texture and normal references, `f 1/2/3`, fails when
      int.Parse rejects `1/2/3`. */
  lemma SlashedFaceFails(p: Parsers)
    requires p.parseInt("1/2/3").None?
    ensures ParseLine("f 1/2/3", p).None?
  {
    var line := "f 1/2/3";
    assert !IsWhiteSpace(line[0]);
    assert TokenLength(line) == 1;
    assert line[1..] == " 1/2/3";
    assert line[1..][1..] == "1/2/3";
    SingleToken("1/2/3");
    assert line[..1] == "f";
    assert Split(line[1..]) == Split("1/2/3");
    assert Split(line) == ["f", "1/2/3"];
  }

  // ---------------------------------------------------------------------
  // Outcomes of the loader

  /** A missing file fails before the lines are read; otherwise a number that
      does not parse fails with a format error; otherwise the load fails exactly
      when no vertex or no index was found; a loaded shape holds what the lines
      contributed, placed at (0, 0, 500) and unrotated. */
  lemma LoadObjOutcome(fileExists: bool, lines: seq<string>, p: Parsers)
    ensures !fileExists ==> LoadObj(fileExists, lines, p) == Failure(FileNotFound)
    ensures fileExists ==> (LoadObj(fileExists, lines, p) == Failure(FormatError) <==> Collect(lines, p).None?)
    ensures fileExists ==>
      var failed := exists k :: 0 <= k < |lines| && ParseLine(lines[k], p).None?;
      LoadObj(fileExists, lines, p) == Failure(FormatError) <==> failed
    ensures fileExists && Collect(lines, p).Some? ==>
      var d := Collect(lines, p).value;
      LoadObj(fileExists, lines, p) == Failure(InvalidFile) <==> |d.vertices| == 0 || |d.indices| == 0
    ensures LoadObj(fileExists, lines, p).Success? ==>
      && Collect(lines, p).Some?
      && LoadObj(fileExists, lines, p).value.vertices == Collect(lines, p).value.vertices
      && LoadObj(fileExists, lines, p).value.indices == Collect(lines, p).value.indices
      && LoadObj(fileExists, lines, p).value.position == Vector3(0.0, 0.0, 500.0)
      && LoadObj(fileExists, lines, p).value.rotation == ZERO
  {
    CollectFailsIff(lines, p);
  }

  /** The world-space vertices of a freshly loaded shape are its vertices moved 500 along Z. */
  lemma LoadedShapeWorld(fileExists: bool, lines: seq<string>, p: Parsers, m: MathF)
    requires TrigLaws(m) && LoadObj(fileExists, lines, p).Success?
    ensures var s := LoadObj(fileExists, lines, p).value;
      |s.RotatedVertices(m)| == |s.vertices| > 0 &&
      forall i :: 0 <= i < |s.vertices| ==> s.RotatedVertices(m)[i] == s.vertices[i].Add(Vector3(0.0, 0.0, 500.0))
  {
    var s := LoadObj(fileExists, lines, p).value;
    forall i | 0 <= i < |s.vertices|
      ensures s.RotatedVertices(m)[i] == s.vertices[i].Add(Vector3(0.0, 0.0, 500.0))
    {
      WorldVertexUnrotated(s, s.vertices[i], m);
    }
  }
}
