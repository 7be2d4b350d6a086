# Impromptu core in Dafny

Impromptu is a small software 3D renderer written in C. Each frame, the render loop does the following:
- rotates a model;
- clears a byte-per-channel RGBA colour buffer;
- multiplies the model's mesh by a model-view-projection matrix;
- drops every triangle whose three vertices all lie beyond one and the same bounding plane of the view volume;
- divides the rest by w and maps them through the viewport matrix;
- draws each one as a wireframe of three Bresenham lines.

Material colours come from `.mtl` lines, split at spaces by a small tokenizer.

This project models that core and proves properties of it:

| module | file | models |
|---|---|---|
| `Vectors` | vectors.dfy | homogeneous vectors (vector3.c): points (w = 1), directions (w = 0), add, sub, scale, dot, cross, squared norm |
| `Matrices` | matrices.dfy | 4x4 row-major matrices (matrix4.c): add, sub, product, scale, matrix times vector, transpose, trace, determinant, the Cayley-Hamilton inverse, and the identity, translate, rotate, scale, perspective, look-at and viewport constructors |
| `FrameBuffer` | framebuffer.dfy | the colour buffer as a byte sequence: one bounds-checked pixel write (`Engine_set_pixel`) and painting a sequence of pixels |
| `Lines` | lines.dfy | the pixel sequence `Engine_bresenham` visits: the steep swap, the x ordering and the error-term walk |
| `Models` | models.dfy | `struct Model` as a class whose model matrix the mutators overwrite in place; the unit cube mesh |
| `ClipSpace` | clipspace.dfy | the cull tests, the perspective divide and the viewport step of the render loop |
| `Engines` | engines.dfy | `struct Engine` as a class owning the colour buffer; pixel, line, wireframe, clear and mesh-drawing methods proved against `FrameBuffer` and `Lines`; the `Engine_mvp` loop |
| `ObjParse` | objparse.dfy | `split` as nested loops over a line, proved against a token function; the per-line rule of `parse_mtl` over a sequence of lines |

Modelling conventions:
- `float` is modelled as `real`.
- The results of `cosf`/`sinf` are passed as a `Trig(cos, sin)` pair.
- The `1 / tanf(fov / 2)` of `Matrix4_perspective` and the `1 / sqrtf(...)` of normalisation in `Matrix4_look_at` are passed in as parameters.
- `unsigned char` channels are a `byte` newtype. The C conversion from `int` keeps the value modulo 256.
- C's float-to-int conversion in `Engine_draw_tri_wireframe` is modelled as truncation toward zero (`Trunc`).
- `(e_ + dy) << 1` is modelled as `2 * (e_ + dy)`.

Two behaviours of the code that a reader may not expect:
- **Near-plane cull.** The near test drops a triangle only when all three vertices have z < 0 (engine.c:332-336), not when any one does. Near-plane clipping is commented out.
- **`Model_translate`.** It multiplies the translation on the right (model.c:32), like the other two mutators, so it moves the model along its local axes (`Models.TranslateIsLocal`).

## Model

| member | source | states |
|---|---|---|
| Vectors.CreatePoint | vector3.c:3-6 | a point has weight 1 and the given coordinates |
| Vectors.CreateDirection | vector3.c:8-11 | a direction has weight 0 and the given coordinates |
| Vectors.NormSquared | vector3.c:46-48 | the squared norm is dot(v, v) and is never negative |
| Vectors.CrossOrthogonal | vector3.c:29-36 | the cross product is a direction (w = 0) perpendicular to both factors under dot |
| Vectors.CrossAntiCommutative | vector3.c:29-36 | cross(a, b) = -cross(b, a), and cross(a, a) is the zero direction |
| Vectors.DotSymmetric | vector3.c:38-40 | dot is symmetric and ignores both weights |
| Vectors.SubAddInverse | vector3.c:13-19 | sub undoes add, and add undoes sub, in all four components |
| Vectors.WeightArithmetic | vector3.c:13-19 | point + direction is a point; point - point is a direction |
| Vectors.DotScales | vector3.c:38-40 | dot is linear in the scale of either argument |
| Vectors.DotSub | vector3.c:38-40 | dot distributes over a difference |
| Matrices.Vector3MulMatrix4 | vector3.c:54-61 | the row-by-row product of `Vector3_mul_Matrix4` equals `Matrix4_vmul(m, v)` |
| Matrices.MulIsRowByColumn | matrix4.c:44-93 | every entry (i, j) of the product is row i of a times column j of b |
| Matrices.MulIdentity | matrix4.c:276-283 | the identity is a left and a right unit of the product |
| Matrices.MulAssociative | matrix4.c:44-93 | the product is associative |
| Matrices.MulColumn | matrix4.c:114-121 | multiplying a matrix by a vector is the product with that vector as a column |
| Matrices.VMulMul | matrix4.c:114-121 | (a b) v = a (b v) |
| Matrices.VMulIdentity | matrix4.c:114-121 | the identity leaves every vector unchanged, through both vector products |
| Matrices.AddSubInverse | matrix4.c:6-42 | sub undoes add entry by entry; scaling by 1 changes nothing |
| Matrices.TransposeInvolution | matrix4.c:123-144 | transposing twice gives the matrix back, and transposing keeps the trace |
| Matrices.TransposeMul | matrix4.c:123-140 | the transpose of a product is the product of the transposes in reverse order |
| Matrices.DetScale | matrix4.c:146-199 | the row-0 cofactor expansion gives det(scale(sx, sy, sz)) = sx sy sz and det(I) = 1 |
| Matrices.DetTranspose | matrix4.c:146-199 | the determinant of the transpose equals the determinant |
| Matrices.InverseIdentity | matrix4.c:201-236 | the Cayley-Hamilton inverse of the identity is the identity |
| Matrices.CayleyHamiltonIdentity | matrix4.c:201-236 | the adjugate the inverse builds from I, I^2 and I^3 is I |
| Matrices.AdjugateOfIdentity | matrix4.c:201-236 | the power combination of the inverse is I when every power is I |
| Matrices.TranslateAction | matrix4.c:285-295 | translate(d) adds d to a point and leaves a direction unchanged |
| Matrices.TranslateCompose | matrix4.c:285-295 | translate(u) translate(v) = translate(u + v) |
| Matrices.ScaleCompose | matrix4.c:353-360 | scale(u) scale(v) = scale of the component-wise products |
| Matrices.RotateXAtZero | matrix4.c:297-308 | the x rotation at angle 0 (cos 1, sin 0) is the identity |
| Matrices.RotateYAtZero | matrix4.c:310-321 | the y rotation at angle 0 is the identity |
| Matrices.RotateZAtZero | matrix4.c:323-334 | the z rotation at angle 0 is the identity |
| Matrices.RotateXYZZero | matrix4.c:336-350 | Rz (Ry Rx) at three zero angles is the identity |
| Matrices.RotationsOrthogonal | matrix4.c:297-334 | when cos^2 + sin^2 = 1, each axis rotation times its transpose is the identity |
| Matrices.PerspectiveDepth | matrix4.c:362-372 | the output weight is the input z; a point at z = znear gets depth 0, and one at z = zfar gets depth zfar, equal to its weight |
| Matrices.DepthAtPlanes | matrix4.c:362-372 | the depth row of the projection vanishes at znear and equals zfar at zfar |
| Matrices.LookAtEye | matrix4.c:374-400 | the look-at matrix has last row (0, 0, 0, 1) and maps the eye to the origin |
| Matrices.LookAtTarget | matrix4.c:374-400 | the target lands on the view axis at distance scale times its squared distance from the eye |
| Matrices.BasisPerpendicular | matrix4.c:374-400 | the right and up vectors the look-at builds by cross products are perpendicular to the view direction |
| Matrices.ViewRows | matrix4.c:374-400 | a view matrix with rows a, b, c and translation -dot(eye, .) maps p to the dots of p - eye |
| Matrices.ViewportAction | matrix4.c:402-409 | the viewport maps (x, y, z, w) to (W/2 (x + w), H/2 (y + w), z, w) |
| Matrices.ViewportCorners | matrix4.c:402-409 | (-1, -1, z, 1) goes to (0, 0, z, 1) and (1, 1, z, 1) to (W, H, z, 1) |
| FrameBuffer.ToByte | engine.c:71-81 | the stored channel agrees with the int argument modulo 256 |
| FrameBuffer.PixelBytes | engine.c:71-81 | a pixel is four bytes whose last is opaque alpha 255 |
| FrameBuffer.OffsetInRange | engine.c:71-81 | an in-window pixel's four bytes lie inside the buffer |
| FrameBuffer.OffsetsDisjoint | engine.c:71-81 | two different in-window pixels own disjoint bytes |
| FrameBuffer.SetPixelEffect | engine.c:71-81 | outside the window the buffer is unchanged; inside, exactly bytes 4(y width + x) .. +3 become (r, g, b, 255) |
| FrameBuffer.PaintAppend | engine.c:136-140 | painting p then q is painting p + q |
| FrameBuffer.PaintFrame | engine.c:118-123 | a byte no in-window pixel of the sequence covers keeps its value, so no write lands anywhere else |
| FrameBuffer.PaintReadBack | engine.c:118-123 | every in-window pixel of the sequence ends up holding the colour |
| FrameBuffer.PaintKeepsColor | engine.c:118-123 | a pixel already holding the colour keeps it under further painting in that colour |
| Lines.SetupFacts | engine.c:84-113 | after the steep swap and x ordering, x1 <= x2, the slope is at most 1, inc is +-1 toward y2, the major extent is max(\|dx\|, \|dy\|), and the endpoints are the originals (maybe exchanged) |
| Lines.WalkLength | engine.c:118-133 | the loop visits x2 - x + 1 columns |
| Lines.WalkSteps | engine.c:118-133 | each step advances the major coordinate by 1 and the minor one by 0 or inc |
| Lines.WalkEnds | engine.c:118-133 | with the error invariant e + (x2 - x) dy = dx n, the walk ends exactly on row y + inc n |
| Lines.PaintWalkStep | engine.c:118-133 | one loop iteration paints the current pixel and continues with the updated row and error |
| Lines.LineLength | engine.c:83-134 | a line has max(\|x2 - x1\|, \|y2 - y1\|) + 1 pixels |
| Lines.LineEndpoints | engine.c:83-134 | a line starts at one endpoint and ends at the other |
| Lines.LineConnected | engine.c:83-134 | consecutive pixels are distinct 8-neighbours |
| Lines.LineSymmetric | engine.c:98-106 | drawing A to B visits the same pixels, in the same order, as B to A |
| Lines.HorizontalExample | engine.c:83-134 | (0, 0) to (5, 0) is exactly (0, 0), (1, 0), ..., (5, 0) |
| Engines.Trunc | engine.c:136-140 | the float-to-int conversion truncates toward zero on both signs |
| Engines.WireframeHitsVertices | engine.c:136-140 | the wireframe passes through all three truncated vertices |
| Engines.Engine.constructor | engine.c:13-56 | the colour buffer has 4 bytes per pixel, all zero; the aspect ratio is width / height |
| Engines.Engine.SetPixel | engine.c:71-81 | the buffer becomes `FrameBuffer.SetPixel` of the old buffer |
| Engines.Engine.Bresenham | engine.c:83-134 | the buffer becomes the old buffer painted with `Line(x1, y1, x2, y2)` |
| Engines.Engine.DrawWalk | engine.c:118-133 | the loop paints exactly the pixels of the walk, in order |
| Engines.Engine.DrawTriWireframe | engine.c:136-140 | the buffer becomes the old one painted with the three edges v1-v2, v2-v3, v3-v1 at truncated coordinates |
| Engines.Engine.ClearFrame | engine.c:246 | every byte of the colour buffer becomes 20 |
| Engines.Engine.DrawMesh | engine.c:255-381 | the buffer becomes the old one painted, in loop order, with the wireframes of the triangles not culled, after divide and viewport |
| Engines.Mvp | engine.c:144-154 | out[i] gets the three vertices of mesh[i] times mvp for i < num_tris; nothing else in out changes; out may alias mesh |
| ClipSpace.CulledIffOnePlane | engine.c:304-343 | a triangle is culled exactly when all three vertices are strictly beyond one and the same bounding plane |
| ClipSpace.InsideNeverCulled | engine.c:304-343 | a triangle with any vertex inside the view volume is never culled |
| ClipSpace.NearNeedsAllThree | engine.c:332-336 | unless all three vertices have z < 0, only the other five planes can cull the triangle |
| ClipSpace.AllBehindCulled | engine.c:332-336 | three vertices behind the near plane cull the triangle |
| ClipSpace.PerspectiveDivide | engine.c:366-368 | a divided vertex has weight 1 |
| ClipSpace.DivideUndone | engine.c:366-368 | scaling the divided vertex back by w gives the clip-space vertex |
| ClipSpace.DivideInside | engine.c:366-368 | a vertex inside the view volume with w > 0 lands in [-1, 1]^2 x [0, 1] |
| ClipSpace.ScreenBounds | engine.c:373-375 | a divided vertex in [-1, 1]^2 lands in [0, W] x [0, H] with depth and weight kept |
| ClipSpace.ScreenTri | engine.c:366-375 | after the divide and the viewport all three weights are 1 and the colour is kept |
| ClipSpace.UndivisibleSurvivesCull | engine.c:304-368 | the cull does not guard the divide: a triangle with one vertex at weight 0 and another inside the view volume passes all six tests and still has a zero weight |
| Models.Model.constructor | model.c:3-22 | the mesh is stored as given and the model matrix is T(x, y, z) (Rxyz S) |
| Models.Model.Translate | model.c:29-33 | M becomes M T(d); the mesh is untouched |
| Models.Model.Rotate | model.c:35-39 | M becomes M Rxyz(d); the mesh is untouched |
| Models.Model.Scale | model.c:41-45 | M becomes M S(d); the mesh is untouched |
| Models.ModelMatrixOrigin | model.c:3-22 | the model matrix sends the local origin to the world point (x, y, z) |
| Models.RotationFixesOrigin | matrix4.c:336-350 | every composed rotation fixes the origin |
| Models.ModelMatrixOfUnits | model.c:161-166 | with identity factors the model matrix is the identity |
| Models.ScaleOneIsIdentity | matrix4.c:353-360 | S(1, 1, 1) is the identity |
| Models.TranslateZeroIsIdentity | matrix4.c:285-295 | T(0, 0, 0) is the identity |
| Models.TranslateByZero | model.c:29-33 | translate(0, 0, 0) leaves the model matrix unchanged |
| Models.ScaleByUnit | model.c:41-45 | scale(1, 1, 1) leaves the model matrix unchanged |
| Models.TranslateTwice | model.c:29-33 | translate(a) then translate(b) gives the matrix of translate(a + b) |
| Models.TranslateIsLocal | model.c:29-33 | after translate(d) a local point p lands where p + d used to: movement along local axes |
| Models.CubeIsCentred | model.c:47-157 | after the shift every vertex coordinate of each of the 12 triangles is -0.5 or 0.5, colours are kept, and each weight is doubled (the shift vector carries the weight too) |
| Models.ShiftMesh | model.c:151-157 | each of the first n triangles gets the shift added to its three vertices; the rest are unchanged |
| Models.CubeMesh | model.c:47-159 | a fresh array of 12 triangles, each the shifted cube triangle |
| Models.UnitCube | model.c:47-166 | a fresh model of 12 centred triangles whose model matrix, built from zero offset, zero angles and unit scale, is the identity |
| ObjParse.Split | obj_parse.c:3-29 | the first rows of out become the tokens of the line, the count is their number, and the other rows keep their contents |
| ObjParse.ReadToken | obj_parse.c:12-25 | one outer iteration skips the spaces, copies the next word and stops at the following space or the end |
| ObjParse.TokensEmpty | obj_parse.c:10-28 | the empty line has no tokens and every other line has at least one |
| ObjParse.NoSpaceInTokens | obj_parse.c:13-19 | no token contains a space |
| ObjParse.TokensKeepNonSpaces | obj_parse.c:10-26 | for every line, the tokens written one after another are the line with its spaces removed: every other character, tab and line feed included, lands in a token, in order |
| ObjParse.OnlySpaces | obj_parse.c:10-25 | a line of spaces only yields exactly one empty token |
| ObjParse.LeadingSpacesDropped | obj_parse.c:13 | spaces before a non-empty line add no token |
| ObjParse.WordThenSpaces | obj_parse.c:13-19 | a run of any number of spaces separates two words like one space |
| ObjParse.TrailingSpaces | obj_parse.c:10-25 | a run of one or more trailing spaces after a line that does not end in a space adds exactly one final empty token |
| ObjParse.SingleWord | obj_parse.c:17-19 | a space-free non-empty line is a single token |
| ObjParse.JoinRebuilds | obj_parse.c:10-26 | for a line with no leading, trailing or doubled spaces, the tokens joined by single spaces rebuild the line |
| ObjParse.MtlStep | obj_parse.c:41-50 | one line keeps the sizes and advances the material index by 0 or 1, never past the array |
| ObjParse.ParseLine | obj_parse.c:41-50 | the loop body leaves the rows, materials and index of `MtlStep` |
| ObjParse.ParseMtl | obj_parse.c:31-53 | the materials and the count are those of `MtlRun` over all lines |
| ObjParse.CountIsKdLines | obj_parse.c:47-53 | over non-empty lines, the final count is the number of lines whose first token is `Kd` |
| ObjParse.CountedAreFilled | obj_parse.c:43-50 | every counted material has a point (w = 1) as colour; materials before and past the counted range are untouched |
| ObjParse.NewmtlNames | obj_parse.c:43-45 | `newmtl` names the current material after its second token, or after the stale row 1 when there is none, and keeps its colour |
| ObjParse.KdFills | obj_parse.c:47-50 | `Kd r g b` sets the current material's colour to the point (atof r, atof g, atof b), keeps its id and advances the index |
| ObjParse.EmptyLineRepeats | obj_parse.c:40-50 | a zero-length line (`fgets` returns one only when the line starts with a NUL byte) leaves the rows as they were, so the previous line's command is applied again |
| ObjParse.LineFeedInId | obj_parse.c:40-45 | the line feed `fgets` keeps ends up inside the id: "newmtl wood\n" names the material "wood\n" |

## Left out

- The SDL window, renderer, texture and event loop, the frame timing and the buffer `malloc`/`free` (engine.c:13-69, 156-240, 383-401; main.c) are I/O and presentation. The render loop's per-frame composition of rotate, clear, mvp and draw is not a single member; its steps are `Models.Model.Rotate`, `Engines.Engine.ClearFrame`, `Matrices.Mul`, `Engines.Mvp` and `Engines.Engine.DrawMesh`.
- The depth buffer is allocated and zeroed but never read, so it is not part of the model.
- There is no filled rasteriser in the code, so none is modelled.
- Floating point: rounding, NaN and infinities are not modelled; every computation is exact over the reals. `cosf`, `sinf`, `tanf` and `sqrtf` are parameters (`Trig`, `invTan`, `invNorm`), so `Vector3_norm`, `Vector3_normalize` and `Vector3_sdiv` are not separate members.
- `Matrix4_copy` and the `*_print` helpers are left out: in value semantics a copy is an assignment. `Matrix4_zero` is the value `Matrices.Zero`.
- `Matrix4_mul` is safe when `out` aliases an input. As a function over values, `Matrices.Mul` is alias-free by construction.
- Matrices.Inverse: its formula is modelled with a det != 0 precondition. It is proved to invert the identity; for det = 1 it is only shown to equal the Cayley-Hamilton adjugate, with no claim that the product with the matrix is I. A proof that it inverts every non-singular matrix is left out as too heavy.
- Matrices.Perspective: requires zfar != znear. The source divides by zfar - znear unchecked, and over the reals that quotient has no value.
- ClipSpace.PerspectiveDivide: requires w != 0. The render loop divides by w unchecked, so a surviving triangle with a vertex at w = 0 gives infinities in C.
- Engines.Engine.DrawMesh: requires every triangle that survives the cull to be divisible (w != 0), for the same reason. `ClipSpace.UndivisibleSurvivesCull` shows that such a triangle can survive the cull.
- Engines.Engine.constructor: requires width >= 0 and height > 0. `Engine_create` divides by the height for the aspect ratio, and a negative size is not a buffer.
- Engines.Engine.Bresenham: coordinates are unbounded integers. `abs` of INT_MIN, the overflow of `e_ + dy` and the left shift of a negative `int` are not modelled.
- Engines.Trunc: out-of-range float-to-int conversions, undefined in C, are not modelled.
- Engines.Mvp: the triangles' colours in `out` are not written, exactly as in the source. The render loop draws in a fixed colour and never reads them.
- Models.UnitCube: `Model_unit_cube` builds vertices with `Vector3_create`, which no header of the project declares. The vertex weight is therefore a parameter, and the `rand() % 256` colours are a parameter too.
- ObjParse.Split: requires a line without an inner NUL, at most 16 tokens and tokens shorter than 128 bytes. The source writes past `out` and `ss` otherwise.
- ObjParse.ParseMtl: `fopen`, `fgets` and `atof` are left out:
  - The lines are the sequence `fgets` would return, each shorter than 512 bytes.
  - `atof` is a function parameter.
  - The source opens the fixed path `models/casa.mtl` and ignores its `file_name` argument.
  - The token rows start from a parameter that stands for the uninitialised local array.
  - The method requires every `newmtl` or `Kd` line to find room in `out`, and every id to be shorter than 64 bytes, since the source overflows otherwise.
- plane.c, light.c, transform.c and tri.c are not part of this model.
