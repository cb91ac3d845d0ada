# Q3DLib core in Dafny

A model of the core of Q3DLib, a small software 3D renderer:

- **Vector3** (module `Measurement`): an immutable three-component vector.
  It has componentwise arithmetic, equality, per-axis rotation, length,
  normalisation, cross and dot products and linear interpolation.
- **Shape3D** (module `Geometry`): a triangle mesh with a position and a
  rotation.
  - `Rotate` gives a new shape with the rotation turned further.
  - `GetRotatedVertices` gives the world-space vertices (rotation about Y,
    then X, then Z, then translation by the position).
  - `FromObj` loads the subset of Wavefront OBJ the library reads: `v x y z`
    and `f i j k ...` lines, blank lines and `#` comments skipped. It fails
    with not-found, format and invalid-file errors.
- **Camera** (module `Rendering`): a class with a mutable position and
  rotation and fixed field of view, render distance and clip plane.
  - `Render` allocates and clears the z-buffer and projects every vertex of a
    shape into screen space.
  - `Render` then walks the index list three at a time. It skips triangles
    with a vertex behind the camera and draws the others as wireframes. In
    Rasterize mode it throws NotSupported.
  - The mutators move the camera along its own forward and right directions
    or turn it.

Supporting modules:

- `Numerics` holds the shared conventions. These are C#'s 32-bit `int` with
  unchecked wrap-around (`Wrap32`), float division (`FloatDiv`), the constants
  `float.MaxValue` and `MathF.PI`, and the MathF functions and number parsers
  as parameters.
- `Text` models the three .NET string operations the loader uses:
  `char.IsWhiteSpace`, `StartsWith("#")` and
  `Split(' ', StringSplitOptions.RemoveEmptyEntries)`.
- `Pipeline` specifies Render's triangle loop as a function `Walk` of the
  projected vertices and the index list. It states which triangles are read,
  which are skipped, which lines are drawn and which exception, if any, ends
  the loop.

How the program's state and effects are modelled:

- Vector3 and Shape3D are C# readonly structs and are modelled as datatypes.
- Camera keeps its mutable properties and its `zBuffer` field as a Dafny
  `class` with `modifies` clauses.
- Each loop becomes a `while` loop. Its method is proved equal to a
  specification function:
  - GetRotatedVertices to `RotatedVertices`;
  - FromObj to `LoadObj`, built on `Collect` and `ParseLine`;
  - Render's triangle loop to `Walk`.
  The properties are proved about those functions.
- The Graphics surface is the sequence of lines Render returns.
- An uncaught exception is an error value next to the lines drawn before it.

Behaviour of the code worth noting:

- A vertex is rejected when its camera-space Z is at most 0. The clip plane
  plays no part in the rejection test (`Camera.cs:125`).
- `OverflowException` is caught per triangle. The exception comes from a
  single `DrawLine` call, so the edges of that triangle drawn before it stay
  drawn and only the rest of the triangle is lost (`Camera.cs:40-58`).
- An index outside the vertex array is not checked or recovered. The
  `IndexOutOfRangeException` ends Render (`Camera.cs:42-44`).
- The loader does not check how many indices an `f` line has
  (`Shape3D.cs:54-61`).

## Model

| member | source | states |
|---|---|---|
| Numerics.FloatDiv | Q3DLib/Camera.cs:117-130 | a quotient by a non-zero divisor times the divisor gives back the dividend; a zero divisor gives 0 (see Left out) |
| Numerics.Wrap32 | Q3DLib/Geometry/Shape3D.cs:58 | an unchecked `int` result is congruent to the exact one modulo 2^32, equals it when it fits, and `int.MinValue - 1` wraps to `int.MaxValue` |
| Measurement.Vector3.Add | Q3DLib/Measurement/Vector3.cs:23 | no contract of its own; AddSubCancel and NegInvolution state that binary `-` and unary `-` undo it |
| Measurement.Vector3.Sub | Q3DLib/Measurement/Vector3.cs:24 | no contract of its own; AddSubCancel states it undoes `+`, SubSelf that v - v is zero |
| Measurement.Vector3.Scale | Q3DLib/Measurement/Vector3.cs:25 | no contract of its own; Div and Normalize are stated as its inverse |
| Measurement.Vector3.Neg | Q3DLib/Measurement/Vector3.cs:28 | no contract of its own; NegInvolution states it is an involution and the additive inverse |
| Measurement.Vector3.Length | Q3DLib/Measurement/Vector3.cs:18 | no contract of its own; LengthZeroIff states it is non-negative and zero exactly for the zero vector |
| Measurement.Vector3.Dot | Q3DLib/Measurement/Vector3.cs:64 | no contract of its own; DotSymmetric, Cross and the Rotate*KeepsLength lemmas state its properties |
| Measurement.Vector3.Div | Q3DLib/Measurement/Vector3.cs:26 | dividing by a non-zero value is undone by multiplying by it |
| Measurement.Vector3.Eq | Q3DLib/Measurement/Vector3.cs:30 | `==` holds exactly when the two vectors are equal |
| Measurement.Vector3.Neq | Q3DLib/Measurement/Vector3.cs:31 | `!=` holds exactly when the two vectors differ |
| Measurement.Vector3.Equals | Q3DLib/Measurement/Vector3.cs:65 | `Equals(obj)` holds exactly when obj is a Vector3 equal to this one; false for a non-vector or null |
| Measurement.Vector3.RotateX | Q3DLib/Measurement/Vector3.cs:35-40 | rotation about X leaves the X component unchanged |
| Measurement.Vector3.RotateY | Q3DLib/Measurement/Vector3.cs:42-47 | rotation about Y leaves the Y component unchanged |
| Measurement.Vector3.RotateZ | Q3DLib/Measurement/Vector3.cs:49-54 | rotation about Z leaves the Z component unchanged |
| Measurement.Vector3.Normalize | Q3DLib/Measurement/Vector3.cs:56 | a zero length gives the zero vector; otherwise the result times the length is the original vector |
| Measurement.Vector3.Cross | Q3DLib/Measurement/Vector3.cs:57-62 | the cross product is perpendicular to both operands |
| Measurement.Vector3.Lerp | Q3DLib/Measurement/Vector3.cs:63 | weight 0 gives the start vector and weight 1 the target |
| Measurement.AddSubCancel | Q3DLib/Measurement/Vector3.cs:23-24 | `+` and binary `-` undo each other |
| Measurement.SubSelf | Q3DLib/Measurement/Vector3.cs:24 | a vector minus itself is zero |
| Measurement.NegInvolution | Q3DLib/Measurement/Vector3.cs:28 | unary minus is an involution and an additive inverse |
| Measurement.NeqIsNotEq | Q3DLib/Measurement/Vector3.cs:30-31 | `!=` is the negation of `==`; `Equals` on a vector agrees with `==` and is false on a non-vector |
| Measurement.DotSymmetric | Q3DLib/Measurement/Vector3.cs:64 | the dot product is symmetric |
| Measurement.CrossSelf | Q3DLib/Measurement/Vector3.cs:57-62 | a vector crossed with itself is zero |
| Measurement.CrossAntiCommutative | Q3DLib/Measurement/Vector3.cs:57-62 | swapping the operands of the cross product negates it |
| Measurement.LengthZeroIff | Q3DLib/Measurement/Vector3.cs:18 | the length is non-negative and is zero exactly for the zero vector |
| Measurement.NormalizeZeroIff | Q3DLib/Measurement/Vector3.cs:56 | normalising gives the zero vector exactly for the zero vector |
| Measurement.NormalizeUnitLength | Q3DLib/Measurement/Vector3.cs:56 | a normalised non-zero vector has unit length, for a square root that is exact (`ExactSqrt`) |
| Measurement.RotateXInverse | Q3DLib/Measurement/Vector3.cs:35-40 | rotating about X by theta and then by -theta gives the vector back |
| Measurement.RotateYInverse | Q3DLib/Measurement/Vector3.cs:42-47 | rotating about Y by theta and then by -theta gives the vector back |
| Measurement.RotateZInverse | Q3DLib/Measurement/Vector3.cs:49-54 | rotating about Z by theta and then by -theta gives the vector back |
| Measurement.RotateXKeepsLength | Q3DLib/Measurement/Vector3.cs:35-40 | rotation about X keeps the squared length |
| Measurement.RotateYKeepsLength | Q3DLib/Measurement/Vector3.cs:42-47 | rotation about Y keeps the squared length |
| Measurement.RotateZKeepsLength | Q3DLib/Measurement/Vector3.cs:49-54 | rotation about Z keeps the squared length |
| Measurement.RotateByZero | Q3DLib/Measurement/Vector3.cs:35-54 | a rotation by angle 0 about any axis is the identity |
| Text.IsWhiteSpace | Q3DLib/Geometry/Shape3D.cs:41 | no contract of its own; the Unicode White_Space characters that `char.IsWhiteSpace` accepts |
| Text.IsNullOrWhiteSpace | Q3DLib/Geometry/Shape3D.cs:41 | no contract of its own; NonBlankHasToken states that a line it rejects has a first token |
| Text.StartsWithHash | Q3DLib/Geometry/Shape3D.cs:41 | no contract of its own; SkippedLineAddsNothing states that a `#` line adds nothing |
| Text.Split | Q3DLib/Geometry/Shape3D.cs:44 | every token is non-empty and holds no space; SplitAtSpace and SingleToken state that the tokens are the maximal space-free runs |
| Text.SplitAtSpace | Q3DLib/Geometry/Shape3D.cs:44 | the tokens of `a + " " + b` are those of `a` followed by those of `b`: no token runs across a space |
| Text.SplitKeepsText | Q3DLib/Geometry/Shape3D.cs:44 | the tokens concatenated are the line with its spaces removed: only separators are lost |
| Text.NonBlankHasToken | Q3DLib/Geometry/Shape3D.cs:41-46 | a line that is not blank has a first token, so `parts[0]` exists |
| Text.SingleToken | Q3DLib/Geometry/Shape3D.cs:44 | a line without a space is one token, whatever other white space it holds |
| Geometry.Shape3D.Rotate | Q3DLib/Geometry/Shape3D.cs:11 | no contract of its own; RotateKeepsMesh, RotateCompose and RotateUndo state what it changes |
| Geometry.Shape3D.WorldVertex | Q3DLib/Geometry/Shape3D.cs:20-24 | no contract of its own; WorldVertexInverse states it can be undone, WorldVertexUnrotated what it is for zero rotation |
| Geometry.Shape3D.RotateComponents | Q3DLib/Geometry/Shape3D.cs:10 | the three-angle overload is Rotate of the vector of those angles |
| Geometry.Shape3D.RotatedVertices | Q3DLib/Geometry/Shape3D.cs:13-27 | one world vertex per mesh vertex, in order: rotated about Y, X, Z and moved by the position |
| Geometry.Shape3D.GetRotatedVertices | Q3DLib/Geometry/Shape3D.cs:13-27 | returns a new array holding exactly the world-space vertices |
| Geometry.RotateKeepsMesh | Q3DLib/Geometry/Shape3D.cs:11 | Rotate keeps vertices, indices and position, and adds exactly the delta to the rotation |
| Geometry.RotateCompose | Q3DLib/Geometry/Shape3D.cs:11 | two rotations in a row are one rotation by their sum |
| Geometry.RotateUndo | Q3DLib/Geometry/Shape3D.cs:11 | rotating by a delta and then by its negation gives the same shape |
| Geometry.WorldVertexInverse | Q3DLib/Geometry/Shape3D.cs:20-24 | the world transform is invertible: subtract the position, rotate back about Z, X, Y |
| Geometry.WorldVertexUnrotated | Q3DLib/Geometry/Shape3D.cs:20-24 | with zero rotation a world vertex is the vertex plus the position |
| Geometry.FaceIndices | Q3DLib/Geometry/Shape3D.cs:54-61 | an `f` line's indices exist exactly when every token parses; one per token, each the parsed value minus 1 with wrap-around |
| Geometry.VertexOf | Q3DLib/Geometry/Shape3D.cs:46-52 | a `v` line yields a vertex exactly when its three coordinates parse, and that vertex is the three parsed coordinates |
| Geometry.ParseLine | Q3DLib/Geometry/Shape3D.cs:41-61 | no contract of its own; SkippedLineAddsNothing, VertexLine, FaceLine and OtherLine state what each kind of line contributes |
| Geometry.Collect | Q3DLib/Geometry/Shape3D.cs:39-62 | no contract of its own; CollectAppend states it follows file order, CollectFailsIff when it fails |
| Geometry.LoadObj | Q3DLib/Geometry/Shape3D.cs:29-68 | no contract of its own; LoadObjOutcome states each outcome, LoadedShapeWorld the loaded shape's world vertices |
| Geometry.CollectFailsIff | Q3DLib/Geometry/Shape3D.cs:39-62 | the lines fail to load exactly when some line holds a number that does not parse |
| Geometry.FromObj | Q3DLib/Geometry/Shape3D.cs:29-68 | the loader's result is `LoadObj` of the file's existence and lines |
| Geometry.ReadLine | Q3DLib/Geometry/Shape3D.cs:41-61 | one pass of the loader's loop adds exactly what `ParseLine` says the line contributes |
| Geometry.ReadFace | Q3DLib/Geometry/Shape3D.cs:56-60 | the inner loop over an `f` line's tokens computes `FaceIndices` |
| Geometry.SkippedLineAddsNothing | Q3DLib/Geometry/Shape3D.cs:41-42 | inserting a blank, white-space or `#` line anywhere in a file changes nothing |
| Geometry.CollectAppend | Q3DLib/Geometry/Shape3D.cs:39-62 | the contribution of two pieces of a file is the first followed by the second; a failure in either fails the whole |
| Geometry.VertexLine | Q3DLib/Geometry/Shape3D.cs:46-52 | a `v` line adds its three coordinates as one vertex when it has four tokens, fails when one does not parse, and adds nothing otherwise |
| Geometry.FaceLine | Q3DLib/Geometry/Shape3D.cs:54-61 | an `f` line fails exactly when a token after `f` does not parse; otherwise it adds one index per token, in order, each less 1 |
| Geometry.OtherLine | Q3DLib/Geometry/Shape3D.cs:46-61 | a line whose first token is neither `v` nor `f` adds nothing |
| Geometry.TabSeparatedVertexIgnored | Q3DLib/Geometry/Shape3D.cs:44 | tokens are split on ' ' only, so a tab-separated `v` line adds nothing |
| Geometry.BareFaceAddsNothing | Q3DLib/Geometry/Shape3D.cs:54-61 | an `f` line with no indices adds nothing |
| Geometry.SlashedFaceFails | Q3DLib/Geometry/Shape3D.cs:58 | a face token such as `1/2/3` that int.Parse rejects fails the load |
| Geometry.LoadObjOutcome | Q3DLib/Geometry/Shape3D.cs:29-68 | not-found for a missing file; format error exactly when some line's number fails to parse; invalid-file exactly when no vertex or no index; on success the collected data at (0, 0, 500), unrotated |
| Geometry.LoadedShapeWorld | Q3DLib/Geometry/Shape3D.cs:67 | a loaded shape's world vertices are its vertices moved 500 along Z |
| Pipeline.Edges | Q3DLib/Camera.cs:62-69 | a wireframe triangle is three lines forming the closed cycle v1, v2, v3 |
| Pipeline.DrawUntilOverflow | Q3DLib/Camera.cs:62-69 | the lines drawn are a prefix of the edges, none overflows, and the next edge is the one that overflowed |
| Pipeline.RenderWireFrame | Q3DLib/Camera.cs:62-69 | the edges in order up to, not including, the first whose DrawLine overflows: the lines drawn never overflow, and drawing stops short only at an overflowing edge; all three when none overflows |
| Pipeline.TriangleStep | Q3DLib/Camera.cs:40-58 | no contract of its own; WalkNext states it is one pass of the loop, WireframeFailsOnlyOnBadIndex and RasterizeOutcome when it throws |
| Pipeline.Walk | Q3DLib/Camera.cs:38-59 | no contract of its own; WalkNext, WalkStops, WalkGrows, WireframeLineCount, OverflowAbsorbed, WireframeDrawsAcceptedEdges and RasterizeOutcome state its properties |
| Pipeline.TriangleCount | Q3DLib/Camera.cs:38 | the loop visits every whole triple and no partial one |
| Pipeline.WalkNext | Q3DLib/Camera.cs:38-59 | one more pass appends the triangle's lines or ends the loop with its exception |
| Pipeline.WalkStops | Q3DLib/Camera.cs:38-59 | once an exception leaves the loop, later triangles change nothing |
| Pipeline.WalkGrows | Q3DLib/Camera.cs:38-59 | each pass only appends lines after those already drawn |
| Pipeline.WalkIgnoresTail | Q3DLib/Camera.cs:38 | indices after the visited triples are never read |
| Pipeline.PartialTripleIgnored | Q3DLib/Camera.cs:38 | a trailing one or two indices change neither the triangle count nor the outcome |
| Pipeline.WireframeFailsOnlyOnBadIndex | Q3DLib/Camera.cs:40-58 | in Wireframe mode the loop throws exactly when a visited triangle has an index outside the vertex array, and the exception is IndexOutOfRange |
| Pipeline.WireframeLineCount | Q3DLib/Camera.cs:46-50 | without overflow, three lines per accepted triangle and none per skipped one |
| Pipeline.OverflowAbsorbed | Q3DLib/Camera.cs:55-58 | overflow never ends the loop; at most three lines per accepted triangle |
| Pipeline.WireframeDrawsAcceptedEdges | Q3DLib/Camera.cs:46-50 | every line drawn is an edge of a triangle whose three vertices are valid |
| Pipeline.RasterizeOutcome | Q3DLib/Camera.cs:51-52 | Rasterize mode draws nothing and throws NotSupported exactly when some triangle is accepted |
| Rendering.Camera.constructor | Q3DLib/Camera.cs:9-15 | the camera starts at the given position, unrotated, with the given settings and no z-buffer |
| Rendering.Camera.Project | Q3DLib/Camera.cs:115-137 | the result is the invalid sentinel exactly when the point's Z is at most 0, whatever the screen size |
| Rendering.Camera.RotatePosition | Q3DLib/Camera.cs:139-146 | no contract of its own; RotatePositionKeepsLength and MovementMatchesView state its properties |
| Rendering.Camera.ProjectAll | Q3DLib/Camera.cs:30-36 | one projected vertex per mesh vertex: the world vertex relative to the camera, turned by the inverse rotation, projected |
| Rendering.Camera.Render | Q3DLib/Camera.cs:19-60 | a negative size throws before anything is drawn or stored; otherwise a fresh width x height z-buffer filled with float.MaxValue, and the outcome and lines are `Walk` over the projected vertices |
| Rendering.Camera.ClearedBuffer | Q3DLib/Camera.cs:24-28 | a new buffer of the screen's size with every cell float.MaxValue |
| Rendering.Camera.ProjectVertices | Q3DLib/Camera.cs:30-36 | the projection loop fills the array with `ProjectAll` |
| Rendering.Camera.DrawTriangles | Q3DLib/Camera.cs:38-59 | the triangle loop's exception and lines are exactly `Walk` over all whole triples |
| Rendering.Camera.Move | Q3DLib/Camera.cs:148 | the position moves by direction times speed |
| Rendering.Camera.MoveForward | Q3DLib/Camera.cs:149-158 | the position moves along the forward direction of the yaw; height unchanged |
| Rendering.Camera.MoveRight | Q3DLib/Camera.cs:159-168 | the position moves along the right direction of the yaw; height unchanged |
| Rendering.Camera.MoveBackward | Q3DLib/Camera.cs:170 | the position moves against the forward direction; height unchanged |
| Rendering.Camera.MoveLeft | Q3DLib/Camera.cs:171 | the position moves against the right direction; height unchanged |
| Rendering.Camera.Rotate | Q3DLib/Camera.cs:174 | the rotation turns by the delta |
| Rendering.Camera.RotateComponents | Q3DLib/Camera.cs:173 | the rotation turns by the vector of the three angles |
| Rendering.Camera.TranslatePosition | Q3DLib/Camera.cs:175 | the position moves by the vector of the three offsets |
| Rendering.Camera.SetPosition | Q3DLib/Camera.cs:176 | the position becomes the given one |
| Rendering.ForwardDirection | Q3DLib/Camera.cs:151-155 | the forward direction is horizontal |
| Rendering.RightDirection | Q3DLib/Camera.cs:161-165 | the right direction is horizontal |
| Rendering.ForwardRightFrame | Q3DLib/Camera.cs:149-168 | forward and right are perpendicular, and both have unit length under the trigonometric laws |
| Rendering.BackwardIsReversedForward | Q3DLib/Camera.cs:170-171 | moving backward or left is moving forward or right in the opposite direction |
| Rendering.MovementMatchesView | Q3DLib/Camera.cs:139-171 | for a camera that only yaws, forward is the view's +Z axis and right its +X axis once Render undoes the camera's rotation |
| Rendering.RotatePositionKeepsLength | Q3DLib/Camera.cs:139-146 | turning a point into the camera's view keeps its distance from the camera |
| Rendering.ProjectCentre | Q3DLib/Camera.cs:115-137 | on a screen of positive size, with a field of view whose tangent is non-zero, a point straight ahead of the camera lands in the middle of the screen |

## Left out

- Floating point: components, angles and the clip plane are `real`. Rounding, NaN, infinities and float overflow are not modelled.
- `FloatDiv`: a zero divisor yields 0 instead of an infinity or NaN. In `Project`, a zero width, both sizes zero or a zero `tan(fov/2)` make the library's x or y infinite or NaN, and `RenderDistance == ClipPlane` makes its depth infinite; the model's values are finite. `Project`'s validity test depends only on Z, and `ProjectCentre` requires a positive screen size and a non-zero tangent.
- Measurement.Vector3.Div: states its result only for a non-zero divisor, because IEEE division by zero is not modelled.
- MathF.Sin, Cos, Tan and Sqrt are parameters (`MathF`). A lemma that needs one of their properties states it as a hypothesis (`TrigLaws`, `SqrtLaws`, `ExactSqrt`). These laws are exact in the model; MathF meets sin^2 + cos^2 == 1 and sqrt(s)^2 == s only up to rounding.
- float.Parse and int.Parse are parameters (`Parsers`). None stands for their FormatException, and for int.Parse's OverflowException. Since .NET Core 3.0, float.Parse returns an infinity on overflow instead of throwing; the model has no infinities, so such a token is left to the parameter. Their culture-dependent syntax is not modelled.
- `StartsWith("#")` is an ordinal comparison here. The culture-sensitive .NET comparison can treat some ignorable characters differently.
- `File.Exists` and `File.ReadAllLines` become the inputs `fileExists` and `lines`. Line splitting and file encoding are not modelled.
- Graphics, Pen and GDI+ are replaced by the returned sequence of lines and the `overflows` predicate, which says which `DrawLine` calls throw. An overflowing call is taken to draw nothing.
- Default arguments: `Camera.Rotate(x, y, z)`, `TranslatePosition` and `Shape3D.Rotate(x, y, z)` default each angle or offset to 0. The model's versions take all three; a call that omits one is the call with 0 for it.
- `Vector3.Valid` is used by Render but is not defined in Vector3.cs. The model reads it as "not Project's NaN sentinel" (`Projected.Invalid`).
- Arrays held by Shape3D are sequences, so aliasing between shapes sharing an array is not modelled. Shape3D.Rotate shares them, and nothing writes them.
- The `zBuffer` is allocated and cleared but never read. Its only reader, the commented-out RasterizeTriangle, and GetBarycentric are not part of this model.
- Render allocates its buffer after GetRotatedVertices and before the projection loop, as the source does. OutOfMemoryException for a very large buffer is not modelled.
- Render is split into ClearedBuffer, ProjectVertices and DrawTriangles, one per loop of the source.
- `Vector3.Normalized` (an alias of Normalize), GetHashCode and ToString are not modelled.
- Quaternion.cs, Vector2.cs and Window.cs are not part of this model.
