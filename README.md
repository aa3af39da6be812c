# wasm-hello-world rendering core, modelled in Dafny

This project models the rendering core of a small WebGL2 demo written in
Rust. The core has five parts:

- its linear algebra: three- and four-component vectors, 4x4 matrices, and
  integer rectangles and sizes;
- its closed set of vertex formats, each with a fixed attribute layout;
- its geometry resources: a `Primitive` that owns a vertex array and a
  buffer; an `EphemeralPrimitive` that borrows them;
- the sprite batch, which groups textured quads into as few draw commands
  as their order allows;
- the sprite renderer, which draws those commands.

Modules, in dependency order:

| file | module | models |
|---|---|---|
| `Wrappers.dfy` | `Wrappers` | `Option` and `Result` |
| `Vectors.dfy` | `Vectors` | `src/math/vector.rs` |
| `Rectangles.dfy` | `Rectangles` | `src/math/rectangle.rs` |
| `Matrices.dfy` | `Matrices` | `src/gl/math/matrix.rs` |
| `Gl.dfy` | `Gl` | the part of the WebGL2 context the core uses; the `Drawable` types and `Shader::draw` of `src/gl/shader.rs` |
| `Primitives.dfy` | `Primitives` | `src/gl/primitive.rs` |
| `Sprites.dfy` | `Sprites` | `src/gl/sprite.rs` |

Modelling decisions:

- `f32` arithmetic is idealised as exact `real` arithmetic.
- A rotation angle is given by its cosine and sine (`Matrices.Angle`). The
  rotation laws that need cos² + sin² = 1 require it (`Matrices.IsUnit`).
- `Matrix4 * Vector3` divides by the homogeneous coordinate. The model
  returns `None` where that divisor is zero; the program would produce
  infinities or NaN there.
- The WebGL2 context is a class, `Gl.Context`. It holds:
  - the live vertex arrays and buffers;
  - the contents of each buffer;
  - the current bindings;
  - the depth-test and face-culling switches;
  - the log of issued draws.

  An allocation budget stands for the driver. Once the budget is spent,
  `createVertexArray` and `createBuffer` fail.
- Textures are compared by identity, modelled as an id.
- A batch vertex keeps its destination position as a `Vector2`. It becomes
  a `Vector3` only when it is uploaded. The z that conversion supplies is a
  constant of the renderer (`liftedZ`), because the conversion is not part
  of this model.
- Each `SpriteBatch` carries a ghost history of the requests that built it.
  Its commands are always exactly `Batch(requests)`, and the batching laws
  are lemmas about `Batch`.

Some source files disagree with one another. The model reads them as
follows:

- `DrawArrayMode` in `src/gl/shader.rs` lists only `TriangleStrip`, but the
  triangle-list format in `src/gl/primitive.rs` uses `TriangleList`. The
  model has both modes.
- `SpriteBatch::add` compares source rectangles with `==`
  (`src/gl/sprite.rs:164`), but `Vector4` in `src/math/vector.rs:19-26`
  does not derive `PartialEq`. `Sprites.SameKey` reads the comparison as
  field-by-field equality of the four components.
- `src/gl/sprite.rs:81` and `src/app.rs:74` call
  `Shader::enable_vertex_attribute`, which `src/gl/shader.rs` does not
  define (it defines only the private `enable_vertex_attribute_array` that
  `Shader::draw` uses). The model leaves that call out, as it leaves out all
  attribute state.

## Model

| member | source | states |
|---|---|---|
| `Vectors.Vector4OfVector3` | src/math/vector.rs:28-34 | the result has w = 1 and keeps x, y, z |
| `Vectors.Vector3OfTuple` | src/math/vector.rs:36-42 | the components are the tuple's, in order |
| `Vectors.Vector4OfTuple` | src/math/vector.rs:44-50 | the components are the tuple's, in order |
| `Vectors.Dot` | src/math/vector.rs:61-65 | the dot product, with no contract of its own; `Vectors.DotCommutes` and `Vectors.DotSelfNonNegative` state its laws |
| `Vectors.Cross` | src/math/vector.rs:67-74 | the cross product, with no contract of its own; `Vectors.CrossAntiCommutes` and `Vectors.CrossOrthogonal` state its laws |
| `Vectors.Add` | src/math/vector.rs:76-85 | vector addition, with no contract of its own; `Vectors.AddComponentwise` and `Vectors.AddCommutes` state its laws |
| `Vectors.Sub` | src/math/vector.rs:87-96 | vector subtraction, with no contract of its own; `Vectors.SubComponentwise` and `Vectors.SubIsAddNeg` state its laws |
| `Vectors.Scale` | src/math/vector.rs:98-106 | scaling by a float, with no contract of its own; `Vectors.ScaleComponentwise` and `Vectors.NegIsScaleByMinusOne` state its laws |
| `Vectors.Neg` | src/math/vector.rs:117-124 | negation, with no contract of its own; `Vectors.NegComponentwise` and `Vectors.NegIsScaleByMinusOne` state its laws |
| `Vectors.AddComponentwise` | src/math/vector.rs:76-85 | every component of a + b is the sum of the components |
| `Vectors.SubComponentwise` | src/math/vector.rs:87-96 | every component of a - b is the difference of the components |
| `Vectors.ScaleComponentwise` | src/math/vector.rs:98-106 | every component of a * k is that component times k |
| `Vectors.NegComponentwise` | src/math/vector.rs:117-124 | every component of -a is negated |
| `Vectors.SubIsAddNeg` | src/math/vector.rs:87-96 | a - b = a + (-b); subtraction undoes addition; a - a = 0 |
| `Vectors.NegIsScaleByMinusOne` | src/math/vector.rs:117-124 | -a = a * -1; negation is an involution; a + (-a) = 0 |
| `Vectors.AddCommutes` | src/math/vector.rs:76-85 | addition commutes, and zero is its identity |
| `Vectors.DotCommutes` | src/math/vector.rs:61-65 | the dot product is symmetric |
| `Vectors.DotSelfNonNegative` | src/math/vector.rs:61-65 | a · a is never negative |
| `Vectors.CrossAntiCommutes` | src/math/vector.rs:67-74 | a × b = -(b × a), and a × a = 0 |
| `Vectors.CrossOrthogonal` | src/math/vector.rs:67-74 | a × b is orthogonal to both a and b |
| `Rectangles.RectangleOfSize` | src/math/rectangle.rs:48-52 | the rectangle sits at the origin and has the size's width and height |
| `Rectangles.SizeOfRectangle` | src/math/rectangle.rs:54-58 | the size keeps the rectangle's width and height |
| `Rectangles.SizeOfPair` | src/math/rectangle.rs:60-64 | the size is (first, second) of the pair |
| `Rectangles.SizeRoundTrip` | src/math/rectangle.rs:48-58 | size → rectangle → size is the identity |
| `Rectangles.RectangleRoundTrip` | src/math/rectangle.rs:48-58 | rectangle → size → rectangle is the identity exactly when the rectangle sits at the origin |
| `Rectangles.RectangleEquality` | src/math/rectangle.rs:6-12 | derived equality is field-by-field equality |
| `Rectangles.SizeEquality` | src/math/rectangle.rs:14-18 | derived equality is field-by-field equality |
| `Rectangles.Vector4OfRectangle` | src/math/rectangle.rs:66-71 | the (x, y, w, h) vector of a rectangle, with no contract of its own; `Rectangles.Vector4OfRectangleOfSize` and `Rectangles.Vector4OfRectangleInjective` state its laws |
| `Rectangles.Vector4OfRectangleOfSize` | src/math/rectangle.rs:66-71 | a size seen as a rectangle converts to (0, 0, w, h) |
| `Rectangles.Vector4OfRectangleInjective` | src/math/rectangle.rs:66-71 | under the model's exact integer-to-real cast, the conversion is injective: equal vectors come from equal rectangles |
| `Matrices.Mul` | src/gl/math/matrix.rs:60-96 | the matrix product, with no contract of its own; `Matrices.MulIsRowTimesColumn`, `Matrices.IdentIsUnit` and `Matrices.AffineClosedUnderMul` state its laws |
| `Matrices.Transform` | src/gl/math/matrix.rs:98-117 | the point transform has a result exactly when the homogeneous divisor is not zero, and that result times the divisor is the first three rows applied to the point |
| `Matrices.Transpose` | src/gl/math/matrix.rs:129-145 | the transpose, with no contract of its own; `Matrices.TransposeEntry` and `Matrices.TransposeInvolutive` state its laws |
| `Matrices.Rotation` | src/gl/math/matrix.rs:196-198 | the composed rotation, with no contract of its own; `Matrices.RotationOrder` and `Matrices.ZeroRotations` state its laws |
| `Matrices.Flatten` | src/gl/math/matrix.rs:119-125 | the sixteen floats of `as_ref`: the result has sixteen entries; `Matrices.FlattenIsRowMajor` states their order |
| `Matrices.Equals` | src/gl/math/matrix.rs:54-58 | entrywise comparison, with no contract of its own; `Matrices.EqualsIsEquality` states that it is equality |
| `Matrices.Ident` | src/gl/math/matrix.rs:147-153 | the identity matrix, with no contract of its own; `Matrices.IdentIsUnit`, `Matrices.IdentFixesPoints` and `Matrices.TransposeIdent` state its laws |
| `Matrices.Scaling` | src/gl/math/matrix.rs:155-162 | the scaling matrix, with no contract of its own; `Matrices.ScalingLayout` and `Matrices.ScalingTransform` state its laws |
| `Matrices.PitchRotation` | src/gl/math/matrix.rs:164-172 | rotation about the x axis, with no contract of its own; `Matrices.RotationsFixTheirAxes`, `Matrices.RotationsOrthogonal` and `Matrices.ZeroRotations` state its laws |
| `Matrices.YawRotation` | src/gl/math/matrix.rs:174-182 | rotation about the y axis, with no contract of its own; `Matrices.RotationsFixTheirAxes`, `Matrices.RotationsOrthogonal` and `Matrices.ZeroRotations` state its laws |
| `Matrices.RollRotation` | src/gl/math/matrix.rs:184-193 | rotation about the z axis, with no contract of its own; `Matrices.RotationsFixTheirAxes`, `Matrices.RotationsOrthogonal` and `Matrices.ZeroRotations` state its laws |
| `Matrices.Translation` | src/gl/math/matrix.rs:200-207 | the translation matrix, with no contract of its own; `Matrices.TranslationLayout` and `Matrices.TranslationTransform` state its laws |
| `Matrices.FlattenIsRowMajor` | src/gl/math/matrix.rs:119-125 | the sixteen floats are the entries in row-major order |
| `Matrices.EqualsIsEquality` | src/gl/math/matrix.rs:54-58 | comparing the sixteen floats is equality of matrices |
| `Matrices.TransposeEntry` | src/gl/math/matrix.rs:129-145 | entry (i, j) of the transpose is entry (j, i) |
| `Matrices.TransposeInvolutive` | src/gl/math/matrix.rs:129-145 | transposing twice gives the matrix back |
| `Matrices.TransposeIdent` | src/gl/math/matrix.rs:148-153 | the identity is its own transpose |
| `Matrices.MulIsRowTimesColumn` | src/gl/math/matrix.rs:60-96 | entry (i, j) of a product is row i of the left factor times column j of the right |
| `Matrices.IdentIsUnit` | src/gl/math/matrix.rs:148-153 | the identity is a two-sided unit of multiplication |
| `Matrices.IdentFixesPoints` | src/gl/math/matrix.rs:98-117 | the identity maps every point to itself |
| `Matrices.AffineNeverDivides` | src/gl/math/matrix.rs:98-117 | a matrix with bottom row (0, 0, 0, 1) has divisor 1, so the point transform always succeeds and is the plain linear map |
| `Matrices.AffineClosedUnderMul` | src/gl/math/matrix.rs:60-96 | a product of two such matrices is again one |
| `Matrices.ProjectedOfProduct` | src/gl/math/matrix.rs:60-117 | the first three rows of a product, applied to a point, equal the left factor applied to the right factor's image, when the right factor is affine |
| `Matrices.TransformOfProduct` | src/gl/math/matrix.rs:60-117 | for affine factors, transforming by a product is transforming by the right factor and then by the left |
| `Matrices.ScalingLayout` | src/gl/math/tests.rs:6-15 | the scaling matrix is diagonal (x, y, z, 1); scaling(12, 34, 56) has the tested layout |
| `Matrices.ScalingTransform` | src/gl/math/matrix.rs:155-162 | scaling multiplies each coordinate by its factor; it fixes the origin |
| `Matrices.TranslationLayout` | src/gl/math/matrix.rs:200-207 | the translation matrix is the identity with x, y, z in the last column |
| `Matrices.TranslationTransform` | src/gl/math/matrix.rs:200-207 | translation by t sends p to p + t |
| `Matrices.ZeroRotations` | src/gl/math/matrix.rs:164-198 | each rotation, and their composition, is the identity at angle 0 |
| `Matrices.RotationsFixTheirAxes` | src/gl/math/matrix.rs:164-194 | pitch fixes the x axis, yaw fixes the y axis, roll fixes the z axis |
| `Matrices.RotationsOrthogonal` | src/gl/math/matrix.rs:164-194 | for a unit angle, each rotation times its transpose is the identity |
| `Matrices.RotationOrder` | src/gl/math/matrix.rs:196-198 | the composed rotation applies pitch, then yaw, then roll |
| `Gl.DrawDrawable` | src/gl/shader.rs:53-71 | one draw of the drawable's vertex count, starting at vertex 0, with its vertex array bound when that vertex array is live (otherwise the binding in place before); afterwards no vertex array is bound |
| `Primitives.Mode` | src/gl/primitive.rs:35 | the draw mode each format declares (also lines 61, 87, 115), with no contract of its own; `Primitives.FormatLayout` states that only the list format draws triangle lists |
| `Primitives.Position` | src/gl/primitive.rs:36 | the position attribute each format declares (also lines 62, 88, 116), with no contract of its own; `Primitives.FormatLayout` and `Primitives.LayoutAgrees` state its laws |
| `Primitives.Color` | src/gl/primitive.rs:89 | the colour attribute, declared only by the coloured format (absent at lines 37, 63, 117), with no contract of its own; `Primitives.FormatLayout` and `Primitives.LayoutAgrees` state its laws |
| `Primitives.TextureCoordination` | src/gl/primitive.rs:38 | the texture attribute, declared by the two UV formats (also line 64; absent at lines 90, 118), with no contract of its own; `Primitives.FormatLayout` and `Primitives.LayoutAgrees` state its laws |
| `Primitives.DrawableOf` | src/gl/primitive.rs:186-210 | what a geometry built from the data reports through its `Drawable` accessors, with no contract of its own; `Primitives.Primitive.New` and `Primitives.TransferEphemeral` state that both kinds of geometry report it |
| `Primitives.VertexCount` | src/gl/primitive.rs:53-55 | the vertex count, with no contract of its own: the slice length for the tuple formats (lines 53-55, 79-81, 105-107) and whole triples for the bare strip (lines 124-126); `Primitives.SliceShape` states what it counts |
| `Primitives.FlattenUV` | src/gl/primitive.rs:40-51 | the position-then-UV tuples laid out as five floats each, so the result has five floats per tuple; `Primitives.FlattenUVAt` gives every float's place |
| `Primitives.FlattenColored` | src/gl/primitive.rs:92-103 | the position-then-colour tuples laid out as seven floats each, so the result has seven floats per tuple; `Primitives.FlattenColoredAt` gives every float's place |
| `Primitives.AsSlice` | src/gl/primitive.rs:40-122 | the floats each format uploads (lines 40-51, 66-77, 92-103, 120-122), with no contract of its own; `Primitives.SliceShape` and `Primitives.LayoutAgrees` state their shape and layout |
| `Primitives.FormatLayout` | src/gl/primitive.rs:34-118 | in every format: the position comes first with 3 components; each attribute fits in one vertex; the stride is the flattened vertex size; the others start right after the position; only the list format draws triangle lists |
| `Primitives.SliceShape` | src/gl/primitive.rs:40-127 | the uploaded floats hold exactly vertex_count vertices for the tuple formats; the bare strip keeps its floats and counts whole triples |
| `Primitives.LayoutAgrees` | src/gl/primitive.rs:32-118 | for every counted vertex and every component of a declared attribute, the float the offset and stride select is that component of that vertex's tuple |
| `Primitives.Transfer` | src/gl/primitive.rs:140-155 | the buffer's contents become the flattened data; nothing else is uploaded; the vertex array is unbound; the buffer stays bound |
| `Primitives.Primitive.New` | src/gl/primitive.rs:158-184 | when the vertex array cannot be created: that error, and nothing allocated; when the buffer cannot be created: that error, with the vertex array left alive and the budget spent; on failure no buffer, no contents and no binding changes; otherwise: a fresh primitive owning both objects, its buffer holding the data, whose accessors report the format's constants and the vertex count, with two allocations spent, no vertex array bound and its buffer bound |
| `Primitives.Primitive.NewWithoutLeak` | src/gl/primitive.rs:158-184 | the same as `New`, except that every failure leaves the live vertex arrays and buffers as they were |
| `Primitives.TwoPrimitivesOnFourAllocations` | src/gl/primitive.rs:158-184 | on a context that grants four allocations two constructions both succeed, with distinct objects, and the second one's buffer stays bound |
| `Primitives.Primitive.AsDrawable` | src/gl/primitive.rs:186-210 | the `Drawable` accessors of a primitive, which return its stored fields, with no contract of its own; `Primitives.Primitive.New` states that they equal `DrawableOf` of the data |
| `Primitives.Primitive.Drop` | src/gl/primitive.rs:212-218 | both owned objects stop being live, and nothing else is deleted; a binding to either of them reverts to none, and every other binding stays |
| `Primitives.NewThenDropUnbinds` | src/gl/primitive.rs:157-218 | a primitive built and then dropped on a fresh context leaves nothing live and nothing bound, so a later draw reads no floats |
| `Primitives.WithPrimitive` | src/gl/primitive.rs:157-218 | a primitive built with the corrected constructor `NewWithoutLeak` and dropped within one scope leaves the live objects as they were, and succeeds exactly when two allocations are available; with `New` as written a failed construction leaks a vertex array |
| `Primitives.NewLeaksOnBufferFailure` | src/gl/primitive.rs:162-167 | with exactly one allocation available, `New` fails and the vertex array it created stays live (`deleteVertexArray` is never called) |
| `Primitives.EphemeralPrimitive.AsDrawable` | src/gl/primitive.rs:241-265 | the `Drawable` accessors of an ephemeral primitive, which return the format's constants and the captured count, with no contract of its own; `Primitives.TransferEphemeral` states that they equal `DrawableOf` of the data |
| `Primitives.TransferEphemeral` | src/gl/primitive.rs:227-265 | the borrowed buffer holds the data; the drawable reports exactly what a `Primitive` built from the same data would |
| `Sprites.Quad` | src/gl/sprite.rs:127-159 | the quad has six vertices; `Sprites.QuadCorners`, `Sprites.QuadSamplesMatchingEdges` and `Sprites.QuadWinding` state which |
| `Sprites.QuadCorners` | src/gl/sprite.rs:127-159 | the six vertices are top-left, bottom-left, top-right, bottom-right, top-right, bottom-left, with texture corners (u1, v2), (u1, v1), (u2, v2), (u2, v1) |
| `Sprites.QuadSamplesMatchingEdges` | src/gl/sprite.rs:127-159 | the left and right destination edges sample u1 and u2; the top and bottom edges sample v2 and v1 |
| `Sprites.QuadWinding` | src/gl/sprite.rs:150-159 | both triangles have the same orientation, with signed area -(w * h) in pixels |
| `Sprites.Normalizer` | src/gl/sprite.rs:58-67 | there is a normalizer exactly when the screen's width and height are both non-zero |
| `Sprites.NormalizerMapsScreen` | src/gl/sprite.rs:55-67 | the normalizer never divides; it flattens z to 0; it maps the screen's (0, 0) to (-1, 1) and (w, h) to (1, -1) |
| `Sprites.NormalizedQuadFacesViewer` | src/gl/sprite.rs:150-159 | after the y-flipping normalizer, both triangles of a quad of positive size are counter-clockwise |
| `Sprites.SpriteBatch.constructor` | src/gl/sprite.rs:101-105 | a new batch holds no commands |
| `Sprites.SpriteBatch.PushVertices` | src/gl/sprite.rs:107-160 | appends exactly the six vertices of the quad and keeps what was there |
| `Sprites.SpriteBatch.Add` | src/gl/sprite.rs:162-175 | extends the last command when both texture and source match it, otherwise appends a new command; earlier commands never change; the batch stays well formed |
| `Sprites.Merge` | src/gl/sprite.rs:162-175 | one `add` on the command list, with no contract of its own; `Sprites.MergeWellFormed`, `Sprites.MergeTotal` and `Sprites.MergeTagged` state its laws |
| `Sprites.Batch` | src/gl/sprite.rs:162-175 | the command list after a sequence of `add`s on a new batch, with no contract of its own; the `Sprites.Batch…` lemmas below state its laws |
| `Sprites.BatchWellFormed` | src/gl/sprite.rs:162-175 | no two neighbouring commands share texture and source; every command holds a positive whole number of quads |
| `Sprites.BatchCommandCount` | src/gl/sprite.rs:162-175 | there is one command per run of consecutive requests with equal texture and source |
| `Sprites.BatchTotalVertices` | src/gl/sprite.rs:162-175 | every request contributes exactly six vertices |
| `Sprites.BatchPreservesDrawing` | src/gl/sprite.rs:162-175 | the batch's vertices, with their textures and sources, are the requests' quads in request order |
| `Sprites.BatchExample` | src/gl/sprite.rs:162-175 | two requests with the same texture and source share one command of 12 vertices; a third with another texture starts a second command |
| `Sprites.ReplayAt` | src/gl/sprite.rs:76-92 | replaying commands issues one draw per command, in order |
| `Sprites.ReplayDrawsEveryVertex` | src/gl/sprite.rs:76-92 | the draws cover every vertex of every command |
| `Sprites.DrawsOfBatch` | src/gl/sprite.rs:69-92 | drawing a batch issues one draw per run of equal requests, draws six vertices per request, and each draw reads five floats per vertex |
| `Sprites.Sprite.DrawCommand` | src/gl/sprite.rs:77-91 | one loop iteration uploads the command's vertices as a triangle list into the shared buffer, leaving every other buffer as it was and the shared buffer bound, draws all of them with its texture bound, then unbinds the texture |
| `Sprites.Sprite.Draw` | src/gl/sprite.rs:69-93 | depth test and face culling end up off; the draws issued are those of the batch's commands, in order; an empty batch changes no buffer and no binding; after a non-empty batch the shared buffer holds the last command's vertices and stays bound, every other buffer is as it was, and no texture and no vertex array stay bound |

## Left out

- Floating point: `f32` rounding, infinities, NaN and signed zero are not modelled; arithmetic is exact.
  Matrix equality, which compares `f32` slices in the program, is equality of reals here.
- `Matrices.Transform`: a zero homogeneous divisor gives `None` instead of the infinite or NaN vector the program returns.
- `Sprites.Normalizer`: a zero screen width or height gives `None` instead of a matrix with infinite entries.
- `Vectors.DotSelfNonNegative`: states only a · a ≥ 0, not that it is zero exactly for the zero vector.
- `look_at`, `perspective_fov`, `norm`, `normalize` and `Div<f32>` need square roots, trigonometry
  or division by a norm. They are not part of this model.
- sin and cos are not computed. A rotation takes the cosine and sine of its angle as data.
- The vertex count's `as i32` cast is taken as exact. A slice of 12-byte or larger tuples cannot
  hold 2^31 elements under Rust's allocation limit on wasm32.
- `Rectangles.Vector4OfRectangleInjective`: holds under the model's exact cast only. The program's
  `i32 as f32` rounds above 2^24, so 16777216 and 16777217 map to the same float and the program's
  conversion is not injective there.
- `Primitives.ValidData`: the tuple formats' `as_slice` indexes `self.0[0]`
  (src/gl/primitive.rs:49, 75, 101), which panics on an empty slice. The model makes a non-empty slice
  a precondition of `Primitives.Primitive.New`, `Primitives.Transfer` and
  `Primitives.TransferEphemeral` instead of modelling the panic.
- The unsafe reads in `as_slice` are modelled as the flattened tuples. The undefined behaviour of a
  slice too large to address is not modelled.
- Shader compilation and linking, uniforms, `enable_vertex_attribute`, `active_texture`, and enabling
  or disabling the program: the model records draws, bindings and buffer contents only.
  `Sprites.Normalizer` is defined and its laws are proved, but `Sprites.Sprite.Draw` neither computes
  it nor uploads it as a uniform; the renderer's `screenSize` is never read.
- `Sprite::new`, `src/app.rs`, `src/gl/gl.rs` and `src/gl/screen.rs` are not part of this model. A
  sprite renderer is built from a context and the handles it would have created.
- The conversion from `Vector2` to `Vector3` is not part of this model. Its z is the renderer
  constant `liftedZ`.
- Rust ownership is not modelled through moves. That a primitive is dropped exactly once is stated
  as a precondition (`Drop` requires a primitive not yet dropped). That `draw` consumes its batch is
  not represented: `Sprites.Sprite.Draw` leaves the batch as it was, so the model lets a batch be
  drawn again.
- Vertex attribute state: `Shader::draw` enables a drawable's attributes when they are present and
  skips them when absent, looking up each attribute location and casting it to `u32` unchecked. The
  model records no per-attribute state. It records what each format declares
  (`Primitives.FormatLayout`) and that the declared layout matches the uploaded floats
  (`Primitives.LayoutAgrees`).
- WebGL errors are not recorded. The model does follow their effect on state: binding an object that
  is not live changes nothing (`Gl.Context.BindVertexArray`, `Gl.Context.BindArrayBuffer`), and
  deleting a bound object resets that binding (`Gl.Context.DeleteVertexArray`,
  `Gl.Context.DeleteBuffer`). A deleted buffer's floats stay in `contents`, but since only live
  buffers can be bound, no draw reads them. `bufferData` with no live bound buffer changes nothing.
- `tests/gl/matrix.rs` refers to items that the sources do not define. It is not part of this model.

## Findings

| source | as written | input that shows it | evidently intended | confidence | as-written member | corrected member |
|---|---|---|---|---|---|---|
| src/gl/primitive.rs:162-167 | when `create_buffer` fails after `create_vertex_array` succeeded, the `?` returns early and `deleteVertexArray` is never called, so creations and deletions do not balance | a context that grants one allocation: `New` returns "createBuffer failed." and the vertex array it created is never explicitly deleted | a failed construction releases what it created, as `Drop` does for a successful one | not executed | `Primitives.Primitive.New`, `Primitives.NewLeaksOnBufferFailure` | `Primitives.Primitive.NewWithoutLeak` |
