/** Q3DLib.Camera: a camera with a mutable position and rotation, fixed
    projection settings, and Render, which projects a shape's vertices and
    draws its triangles. */
module Rendering {
  import opened Numerics
  import opened Measurement
  import opened Geometry
  import opened Pipeline

  class Camera {
    var Position: Vector3
    var Rotation: Vector3
    /** Fov, RenderDistance and ClipPlane have private setters that nothing calls. */
    const Fov: Int32
    const RenderDistance: Int32
    const ClipPlane: real
    /** The depth buffer Render allocates; null until the first Render. */
    var zBuffer: array2?<real>

    constructor (position: Vector3, fov: Int32, renderDistance: Int32, clipPlane: real)
      ensures Position == position && Rotation == ZERO
      ensures Fov == fov && RenderDistance == renderDistance && ClipPlane == clipPlane
      ensures zBuffer == null
    {
      Position := position;
      Rotation := Vector3(0.0, 0.0, 0.0);
      Fov := fov;
      RenderDistance := renderDistance;
      ClipPlane := clipPlane;
      zBuffer := null;
    }

    // -------------------------------------------------------------------
    // Projection

    /** Perspective projection of a camera-space point onto a width x height
        screen: the NaN sentinel (Invalid) for a point on or behind the camera
        plane, whatever its other coordinates and the screen size. */
    function Project(vector: Vector3, width: Int32, height: Int32, m: MathF): (r: Projected)
      ensures r.Invalid? <==> vector.z <= 0.0
    {
      var aspect := FloatDiv(width as real, height as real);
      var fovFactor := m.tan(Fov as real * PI / 180.0 / 2.0);
      var xClip := FloatDiv(vector.x, aspect * fovFactor);
      var yClip := FloatDiv(vector.y, fovFactor);
      var zClip := FloatDiv(vector.z * (RenderDistance as real + ClipPlane) + Wrap32(2 * RenderDistance) as real * ClipPlane,
                            RenderDistance as real - ClipPlane);
      var wClip := vector.z;
      if wClip <= 0.0 then Invalid
      else
        var xNdc, yNdc, zNdc := xClip / wClip, yClip / wClip, zClip / wClip;
        Valid((width as real / 2.0) * (xNdc + 1.0), (height as real / 2.0) * (1.0 - yNdc), zNdc)
    }

    /** RotatePosition: rotation about Y, then X, then Z. */
    static function RotatePosition(position: Vector3, rotation: Vector3, m: MathF): Vector3
    {
      position.RotateY(rotation.y, m).RotateX(rotation.x, m).RotateZ(rotation.z, m)
    }

    /** Vertex `i` of the shape as Render projects it: in world space, relative
        to the camera, turned by the inverse of the camera's rotation, projected. */
    function ProjectedVertex(shape: Shape3D, i: nat, width: Int32, height: Int32, m: MathF): Projected
      reads this
      requires i < |shape.vertices|
    {
      Project(RotatePosition(shape.WorldVertex(shape.vertices[i], m).Sub(Position), Rotation.Neg(), m), width, height, m)
    }

    /** Render's projectedVertices: one entry per vertex of the shape. */
    function ProjectAll(shape: Shape3D, width: Int32, height: Int32, m: MathF): (r: seq<Projected>)
      reads this
      ensures |r| == |shape.vertices|
      ensures forall i :: 0 <= i < |r| ==> r[i] == ProjectedVertex(shape, i, width, height, m)
    {
      seq(|shape.vertices|, i reads this requires 0 <= i < |shape.vertices| => ProjectedVertex(shape, i, width, height, m))
    }

    // -------------------------------------------------------------------
    // Rendering

    /** Render: allocates and clears the z-buffer, projects every vertex, then
        walks the index list three at a time, drawing each accepted triangle as
        a wireframe (Wireframe) or throwing NotSupported (Rasterize).  The
        Graphics target is the returned line sequence; `overflows` says which
        DrawLine calls throw OverflowException. */
    method Render(shape: Shape3D, width: Int32, height: Int32, renderMode: RenderMode, m: MathF, overflows: Line -> bool)
      returns (error: Option<RenderError>, drawn: seq<Line>)
      modifies this`zBuffer
      ensures width < 0 || height < 0 ==> error == Some(NegativeBufferSize) && drawn == [] && zBuffer == old(zBuffer)
      ensures 0 <= width && 0 <= height ==>
        && zBuffer != null && fresh(zBuffer)
        && zBuffer.Length0 == width && zBuffer.Length1 == height
        && (forall x, y :: 0 <= x < width && 0 <= y < height ==> zBuffer[x, y] == FLOAT_MAX)
        && RenderResult(error, drawn)
           == Walk(ProjectAll(shape, width, height, m), shape.indices, TriangleCount(shape.indices), renderMode, overflows)
    {
      var rotatedVertices := shape.GetRotatedVertices(m);
      if width < 0 || height < 0 {
        return Some(NegativeBufferSize), [];
      }
      zBuffer := ClearedBuffer(width, height);
      var projectedVertices := ProjectVertices(shape, rotatedVertices, width, height, m);
      error, drawn := DrawTriangles(projectedVertices, shape.indices, renderMode, overflows);
    }

    /** The z-buffer loops of Render: a new width x height buffer with every cell float.MaxValue. */
    static method ClearedBuffer(width: nat, height: nat) returns (buffer: array2<real>)
      ensures fresh(buffer) && buffer.Length0 == width && buffer.Length1 == height
      ensures forall x, y :: 0 <= x < width && 0 <= y < height ==> buffer[x, y] == FLOAT_MAX
    {
      buffer := new real[width, height];
      var x := 0;
      while x < width
        invariant 0 <= x <= width
        invariant forall i, j :: 0 <= i < x && 0 <= j < height ==> buffer[i, j] == FLOAT_MAX
      {
        var y := 0;
        while y < height
          invariant 0 <= y <= height
          invariant forall i, j :: 0 <= i < x && 0 <= j < height ==> buffer[i, j] == FLOAT_MAX
          invariant forall j :: 0 <= j < y ==> buffer[x, j] == FLOAT_MAX
        {
          buffer[x, y] := FLOAT_MAX;
          y := y + 1;
        }
        x := x + 1;
      }
    }

    /** The projection loop of Render: projectedVertices[i] from rotatedVertices[i]. */
    method ProjectVertices(shape: Shape3D, rotatedVertices: array<Vector3>, width: Int32, height: Int32, m: MathF)
      returns (projectedVertices: array<Projected>)
      requires rotatedVertices[..] == shape.RotatedVertices(m)
      ensures fresh(projectedVertices)
      ensures projectedVertices[..] == ProjectAll(shape, width, height, m)
    {
      projectedVertices := new Projected[rotatedVertices.Length];
      var i := 0;
      while i < |shape.vertices|
        invariant 0 <= i <= |shape.vertices|
        invariant forall k :: 0 <= k < i ==> projectedVertices[k] == ProjectedVertex(shape, k, width, height, m)
      {
        var relativePosition := rotatedVertices[i].Sub(Position);
        relativePosition := RotatePosition(relativePosition, Rotation.Neg(), m);
        projectedVertices[i] := Project(relativePosition, width, height, m);
        i := i + 1;
      }
    }

    /** The triangle loop of Render. */
    static method DrawTriangles(projectedVertices: array<Projected>, indices: seq<Int32>, renderMode: RenderMode, overflows: Line -> bool)
      returns (error: Option<RenderError>, drawn: seq<Line>)
      ensures RenderResult(error, drawn)
           == Walk(projectedVertices[..], indices, TriangleCount(indices), renderMode, overflows)
    {
      ghost var projected := projectedVertices[..];
      ghost var n := TriangleCount(indices);
      error, drawn := None, [];
      var i := 0;
      ghost var t: nat := 0;
      while i + 2 < |indices|
        invariant i == 3 * t && t <= n
        invariant Walk(projected, indices, t, renderMode, overflows) == RenderResult(None, drawn)
      {
        var i1, i2, i3 := indices[i], indices[i + 1], indices[i + 2];
        WalkNext(projected, indices, t, renderMode, overflows);
        if !(0 <= i1 < projectedVertices.Length && 0 <= i2 < projectedVertices.Length && 0 <= i3 < projectedVertices.Length) {
          assert !TriangleInRange(projected, indices, t);
          WalkStops(projected, indices, t + 1, n, renderMode, overflows);
          return Some(IndexOutOfRange), drawn;
        }
        var vertex1, vertex2, vertex3 := projectedVertices[i1], projectedVertices[i2], projectedVertices[i3];
        assert vertex1 == Corner(projected, indices, i) && vertex2 == Corner(projected, indices, i + 1)
            && vertex3 == Corner(projected, indices, i + 2);
        if vertex1.Valid? && vertex2.Valid? && vertex3.Valid? {
          if renderMode == Wireframe {
            drawn := drawn + RenderWireFrame(vertex1, vertex2, vertex3, overflows);
          } else {
            WalkStops(projected, indices, t + 1, n, renderMode, overflows);
            return Some(NotSupported), drawn;
          }
        } else {
          assert drawn + [] == drawn;
        }
        i := i + 3;
        t := t + 1;
      }
      assert t == n;
    }

    // -------------------------------------------------------------------
    // Moving and turning

    /** Move: the position moves by direction * moveSpeed. */
    method Move(direction: Vector3, moveSpeed: real)
      modifies this`Position
      ensures Position == old(Position).Add(direction.Scale(moveSpeed))
    {
      Position := Position.Add(direction.Scale(moveSpeed));
    }

    method MoveForward(moveSpeed: real, m: MathF)
      modifies this`Position
      ensures Position == old(Position).Add(ForwardDirection(Rotation, m).Scale(moveSpeed))
      ensures Position.y == old(Position).y
    {
      Move(ForwardDirection(Rotation, m), moveSpeed);
    }

    method MoveRight(moveSpeed: real, m: MathF)
      modifies this`Position
      ensures Position == old(Position).Add(RightDirection(Rotation, m).Scale(moveSpeed))
      ensures Position.y == old(Position).y
    {
      Move(RightDirection(Rotation, m), moveSpeed);
    }

    method MoveBackward(moveSpeed: real, m: MathF)
      modifies this`Position
      ensures Position == old(Position).Add(ForwardDirection(Rotation, m).Scale(-moveSpeed))
      ensures Position.y == old(Position).y
    {
      MoveForward(-moveSpeed, m);
    }

    method MoveLeft(moveSpeed: real, m: MathF)
      modifies this`Position
      ensures Position == old(Position).Add(RightDirection(Rotation, m).Scale(-moveSpeed))
      ensures Position.y == old(Position).y
    {
      MoveRight(-moveSpeed, m);
    }

    /** Rotate(Vector3): the rotation turns by the delta. */
    method Rotate(rotationDelta: Vector3)
      modifies this`Rotation
      ensures Rotation == old(Rotation).Add(rotationDelta)
    {
      Rotation := Rotation.Add(rotationDelta);
    }

    /** Rotate(float x, float y, float z). */
    method RotateComponents(x: real, y: real, z: real)
      modifies this`Rotation
      ensures Rotation == old(Rotation).Add(Vector3(x, y, z))
    {
      Rotate(Vector3(x, y, z));
    }

    method TranslatePosition(x: real, y: real, z: real)
      modifies this`Position
      ensures Position == old(Position).Add(Vector3(x, y, z))
    {
      Position := Position.Add(Vector3(x, y, z));
    }

    method SetPosition(pos: Vector3)
      modifies this`Position
      ensures Position == pos
    {
      Position := pos;
    }
  }

  /** The direction MoveForward moves in: horizontal, turned by the yaw Rotation.y. */
  function ForwardDirection(rotation: Vector3, m: MathF): (r: Vector3)
    ensures r.y == 0.0
  {
    Vector3(m.sin(rotation.y), 0.0, m.cos(rotation.y))
  }

  /** The direction MoveRight moves in: horizontal, a quarter turn from forward. */
  function RightDirection(rotation: Vector3, m: MathF): (r: Vector3)
    ensures r.y == 0.0
  {
    Vector3(m.cos(rotation.y), 0.0, -m.sin(rotation.y))
  }

  // ---------------------------------------------------------------------
  // Properties of movement and projection

  /** Forward and right are perpendicular, and under the trigonometric laws
      both have length 1. */
  lemma ForwardRightFrame(rotation: Vector3, m: MathF)
    ensures ForwardDirection(rotation, m).Dot(RightDirection(rotation, m)) == 0.0
    ensures TrigLaws(m) ==> ForwardDirection(rotation, m).Dot(ForwardDirection(rotation, m)) == 1.0
    ensures TrigLaws(m) ==> RightDirection(rotation, m).Dot(RightDirection(rotation, m)) == 1.0
  {
    var s, c := m.sin(rotation.y), m.cos(rotation.y);
    assert ForwardDirection(rotation, m).Dot(RightDirection(rotation, m)) == s * c + 0.0 * 0.0 + c * -s;
    if TrigLaws(m) {
      assert s * s + c * c == 1.0;
    }
  }

  /** Moving backward (left) by a speed is moving forward (right) by the same
      speed in the opposite direction. */
  lemma BackwardIsReversedForward(rotation: Vector3, moveSpeed: real, m: MathF)
    ensures ForwardDirection(rotation, m).Scale(-moveSpeed) == ForwardDirection(rotation, m).Scale(moveSpeed).Neg()
    ensures RightDirection(rotation, m).Scale(-moveSpeed) == RightDirection(rotation, m).Scale(moveSpeed).Neg()
  {
  }

  /** For a camera that only yaws, the forward direction is the camera's own
      +Z axis and the right direction its +X axis, once Render undoes the
      camera's rotation. */
  lemma MovementMatchesView(rotation: Vector3, m: MathF)
    requires TrigLaws(m) && rotation.x == 0.0 && rotation.z == 0.0
    ensures Camera.RotatePosition(ForwardDirection(rotation, m), rotation.Neg(), m) == UNIT_Z
    ensures Camera.RotatePosition(RightDirection(rotation, m), rotation.Neg(), m) == UNIT_X
  {
    var s, c := m.sin(rotation.y), m.cos(rotation.y);
    assert m.sin(-rotation.y) == -s && m.cos(-rotation.y) == c;
    assert s * s + c * c == 1.0;
    SinZero(m);
    assert rotation.Neg().x == 0.0 && rotation.Neg().z == 0.0;
    var f := ForwardDirection(rotation, m).RotateY(-rotation.y, m);
    assert f == Vector3(c * s + -s * c, 0.0, s * s + c * c);
    var r := RightDirection(rotation, m).RotateY(-rotation.y, m);
    assert r == Vector3(c * c + -s * -s, 0.0, s * c + c * -s);
    RotateByZero(f, m);
    RotateByZero(r, m);
  }

  /** Turning a point into the camera's view keeps its distance from the camera. */
  lemma RotatePositionKeepsLength(position: Vector3, rotation: Vector3, m: MathF)
    requires TrigLaws(m)
    ensures var r := Camera.RotatePosition(position, rotation, m);
      r.Dot(r) == position.Dot(position)
  {
    var ry := position.RotateY(rotation.y, m);
    var rx := ry.RotateX(rotation.x, m);
    RotateYKeepsLength(position, rotation.y, m);
    RotateXKeepsLength(ry, rotation.x, m);
    RotateZKeepsLength(rx, rotation.z, m);
  }

  /** A point straight ahead of the camera lands in the middle of the screen. */
  lemma ProjectCentre(cam: Camera, z: real, width: Int32, height: Int32, m: MathF)
    requires z > 0.0 && width > 0 && height > 0
    requires m.tan(cam.Fov as real * PI / 180.0 / 2.0) != 0.0
    ensures cam.Project(Vector3(0.0, 0.0, z), width, height, m).Valid?
    ensures cam.Project(Vector3(0.0, 0.0, z), width, height, m).x == width as real / 2.0
    ensures cam.Project(Vector3(0.0, 0.0, z), width, height, m).y == height as real / 2.0
  {
  }
}
