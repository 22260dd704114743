# Circle batch instance store

A Dafny model of the circle-batch renderer of CustomRenderingTest. The
renderer draws many coloured circles with one instanced OpenGL draw call.
One unit-circle vertex ring is shared by all circles. Each circle supplies
its own center, radius and colour through an instance buffer of seven floats
per circle.

The model covers both variants:

- `CircleBatch` (module `CircleBatchModel`). It keeps a fixed-length host copy
  of the circles in an `array` and updates it in place. It records every
  command it issues on the GPU instance buffer. Its object invariant `Valid()`
  says that replaying those commands gives exactly `EncodeAll` of the host
  copy. The constructor establishes the invariant and `ModifyCircles` keeps it.
  `ModifyCircles` overwrites exactly the range `[start, start + |cs|)`, changes
  nothing else, and issues exactly one sub-range write, at float offset
  `start * 7`, with `7 * |cs|` floats.
- `BatchCircleDrawable` (module `BatchCircleDrawableModel`). It uploads once
  and never changes. All its fields are `const`, set by the constructor.

Shared parts:

- `Layout`: the 7-slot encoding `x, y, radius, r, g, b, a` and the attribute
  pointers. A stride of 7 floats puts the center at offset 0, the radius at
  offset 2 and the colour at offset 3. Reading an instance back through them
  returns the circle that was encoded.
- `Geometry`: the vertex-ring loop. It pushes two floats for each
  `i in [0, segmentsPerCircle]`.
- `Shader`: the compile and link outcome. A compile failure throws. A link
  failure is only printed.
- `Gl`: what a buffer command does, and the calls one draw makes.

Floats are opaque bit patterns. Positions and radii are only copied. A colour
channel `c` is stored as `c / 255.0f`, which the model keeps as the tagged slot
`Normalized(c)`: the 256 channel values give 256 distinct floats. Buffer
offsets and sizes are in floats; the source passes bytes, i.e. these values
times `sizeof(GLfloat)`. The C++ constructors can throw. Each one is modelled
by a static `Create` method that returns a `Result`, plus a Dafny constructor
for the part that runs once the shaders have compiled. The GL status words
(compile status of each stage, link status) are inputs of type `ShaderStatus`.

The model follows the code as written, including where a cleaner design would differ:

- There is no bounds check in `modifyCircles`, `modifyCircle` or `getCircle`
  (`std::copy` and `operator[]`). Valid ranges are therefore preconditions,
  not an out-of-range error.
- `segmentsPerCircle` is not validated. A negative count gives an empty ring;
  0, 1 and 2 are accepted.
- A link failure is only printed, and construction continues with an unlinked
  program (`Program.linked == false`). It is not a construction error.
- `src/BatchCircleDrawable.cpp` uses the fields `_segmentsPerCircle` and
  `_numVertices`, which `include/BatchCircleDrawable.h` does not declare. The
  model has the fields the `.cpp` file uses.

## Model

| member | source | states |
|---|---|---|
| `Ranges.Overwrite` | src/CircleBatch.cpp:194 | copying `xs` into `s` from `start` keeps the length, puts `xs[j]` at `start + j`, and leaves every index outside `[start, start + |xs|)` unchanged |
| `Ranges.SetEachIsOverwrite` | src/CircleBatch.cpp:162-168 | updating the circles one at a time from `start` ends in the same host copy as one range overwrite |
| `Layout.Encode` | src/CircleBatch.cpp:114-124 | one circle contributes exactly 7 slots |
| `Layout.EncodeAll` | src/CircleBatch.cpp:111-125 | the instance data of N circles has exactly `7 * N` slots |
| `Layout.EncodeAllAt` | src/CircleBatch.cpp:118-124 | slots `[7*i, 7*i + 7)` of the instance data are the encoding of circle i, so slot `7*i + k` holds field k of circle i |
| `Layout.EncodeAllOverwrite` | src/CircleBatch.cpp:170-194 | writing the encoding of `cs` at float offset `7 * start` into the encoding of the host copy gives the encoding of the host copy with `cs` copied in at `start` |
| `Layout.BuildInstanceData` | src/CircleBatch.cpp:173-187 | the push-back loop produces exactly `EncodeAll` of its input |
| `Layout.InstanceAttributesTile` | src/CircleBatch.cpp:137-150 | the center, radius and colour attributes of instance i, read at stride 7 and offsets 0, 2, 3, exactly tile floats `[7*i, 7*i + 7)` |
| `Layout.ReadInstanceOfEncoded` | src/BatchCircleDrawable.cpp:137-150 | reading instance i of the encoded data through the three attribute pointers recovers exactly circle i |
| `Geometry.RingPrefixAt` | src/CircleBatch.cpp:91-98 | after n iterations of the ring loop, floats `2*v` and `2*v + 1` are the cosine and sine of step v |
| `Geometry.BuildVertexRing` | src/CircleBatch.cpp:90-99 | the ring loop yields `VertexRing(S)`: `2 * (S + 1)` floats for `S >= 0`, none for a negative S |
| `Geometry.RingVertexFetches` | src/CircleBatch.cpp:99 | with the vertex count taken as floats / 2, the count is `S + 1`, every vertex drawn lies inside the ring and is point v of the circle, and one more vertex would lie outside it |
| `Geometry.FloatCountOverreadsRing` | src/CircleBatch.cpp:99 | the stored count `vertices.size()` is `2 * (S + 1)`, more than the `S + 1` vertices in the ring, and its last vertex lies past the ring's end |
| `Shader.CheckShaderCompileErrors` | src/CircleBatch.cpp:240-250 | throws exactly when the compile status is false, with the message "Shader compilation failed" |
| `Shader.BuildProgram` | src/CircleBatch.cpp:37-77 | construction fails exactly when a stage fails to compile; a link failure does not fail it: it leaves an unlinked program, and the only output is the link-failure message |
| `Gl.DrawCallsIssueOneDraw` | src/CircleBatch.cpp:202-238 | a draw makes exactly one instanced draw call with the given counts; it starts by using the program and ends by resetting SFML's GL state |
| `CircleBatchModel.CircleBatch.constructor` | src/CircleBatch.cpp:9-155 | the host copy equals the input, 7 floats per instance, the ring of `S`, `numVerticesForACircle` equal to the ring's float count, the attribute layout, one full upload of `EncodeAll(input)`, and `Valid()` |
| `CircleBatchModel.CircleBatch.Create` | src/CircleBatch.cpp:9-77 | no batch exists exactly when a shader stage fails to compile; otherwise a fresh valid batch holds the input, its draw vertex count is the ring's float count `2 * (S + 1)` (0 for a negative S), and its program is linked exactly when the link succeeded |
| `CircleBatchModel.CircleBatch.NumCircles` | src/CircleBatch.cpp:157-160 | returns the length of the host copy, which the constructor sets to the input's length |
| `CircleBatchModel.CircleBatch.ModifyCircles` | src/CircleBatch.cpp:170-195 | keeps `Valid()`; `circles[start + j] == cs[j]`, every other index unchanged, same length; exactly one new sub-range write, at offset `start * 7`, of size `7 * |cs|`, with payload `EncodeAll(cs)` |
| `CircleBatchModel.CircleBatch.ModifyCircle` | src/CircleBatch.cpp:162-168 | same effect as `ModifyCircles(i, [c])`: only index i changes, to c, with one write of `Encode(c)` at offset `i * 7` |
| `CircleBatchModel.CircleBatch.ModifyCirclesOneByOne` | include/CircleBatch.h:32-40 | k `modifyCircle` calls from `start` keep `Valid()`, leave the same host copy as one `modifyCircles` call, and append the k per-circle writes `PerCircleWrites(start, cs)` |
| `CircleBatchModel.CircleBatch.GetCircle` | src/CircleBatch.cpp:197-200 | returns the host copy's circle at the index |
| `CircleBatchModel.CircleBatch.ModifyCircleThenGet` | src/CircleBatch.cpp:162-200 | `getCircle(i)` right after `modifyCircle(i, c)` returns c |
| `CircleBatchModel.CircleBatch.Draw` | src/CircleBatch.cpp:202-238 | one instanced triangle-fan draw with vertex count `numVerticesForACircle` and instance count `circles.Length`; no modifies clause, so no state changes |
| `CircleBatchModel.CircleBatch.GpuMatchesHost` | src/CircleBatch.cpp:111-150 | under `Valid()`, reading instance i of the GPU buffer through the attribute pointers gives the host copy's circle i |
| `CircleBatchModel.RangeWriteKeepsEncoding` | src/CircleBatch.cpp:189-194 | if the instance-buffer command log leaves the encoding of the host copy, appending the one sub-range write of `modifyCircles` leaves the encoding of the updated host copy |
| `CircleBatchModel.PerCircleWritesSnoc` | src/CircleBatch.cpp:162-168 | one more `modifyCircle` call for the next circle appends one write of that circle's 7 slots at the next float offset |
| `CircleBatchModel.PerCircleWrites` | src/CircleBatch.cpp:162-168 | k successive `modifyCircle` calls issue k writes, one per circle |
| `CircleBatchModel.PerCircleUpdatesMatchRangeUpdate` | src/CircleBatch.cpp:162-195 | k single updates and one range update leave the same host copy and the same GPU buffer; the first issues k writes, the second one |
| `BatchCircleDrawableModel.BatchCircleDrawable.constructor` | src/BatchCircleDrawable.cpp:9-155 | `numCircles` is the input length; the instance buffer is `EncodeAll(input)`, of length `7 * N`; `numVertices` is the ring's float count `2 * (S + 1)`; the attribute layout; `Valid()` |
| `BatchCircleDrawableModel.BatchCircleDrawable.Create` | src/BatchCircleDrawable.cpp:9-76 | no drawable exists exactly when a shader stage fails to compile; a link failure does not stop construction |
| `BatchCircleDrawableModel.BatchCircleDrawable.Draw` | src/BatchCircleDrawable.cpp:157-194 | one instanced draw with vertex count `numVertices` and instance count `numCircles`, whatever N is; no modifies clause |
| `BatchCircleDrawableModel.BatchCircleDrawable.InstanceReadsBack` | src/BatchCircleDrawable.cpp:110-150 | reading instance i at `7*i + offset` through the three attribute pointers gives back exactly circle i |

## Left out

- OpenGL calls are foreign and are not modelled. This covers shader source and compilation, buffer, vertex-array and program creation, binding, uniforms, `glDrawArraysInstanced` and the `glBindVertexArray(_instanceVBO)` call. Only their observable effect is modelled: the instance-buffer commands, the draw-call trace, and the compile and link status words as inputs.
- Both `draw` methods ignore their `sf::RenderStates states` argument, so a transform or blend mode the caller passes has no effect. The model drops the parameter.
- SFML's `RenderTarget` is reduced to its size. `resetGLStates` is recorded as the last call of a draw.
- Float arithmetic is not modelled: the `cosf`/`sinf` ring coordinates, the `/255.0f` colour normalisation and the `2/width` viewport matrix. The ring is kept as symbolic `(step, segments)` values, the normalisation as a tagged slot, and the matrix as the target size it comes from.
- Integer widths are not modelled. Counts are unbounded. The model does not capture overflow of the ring loop's `int i` when `segmentsPerCircle` is `INT_MAX`, the conversion of `size()` to `int`, or overflow of `startIndex * 7 * sizeof(GLfloat)`.
- Resource release is not modelled. Both destructors are defaulted and free no GL object, and `BatchCircleDrawable` keeps no handle to its instance buffer at all.
- The GLSL shader text is not host logic and is not modelled.
- `src/main.cpp` and `GodotDrawingTest/CircleDrawer.cs` are not part of this model. They are window, event-loop, timing and random-generation glue.
- `CircleBatchModel.CircleBatch.GetCircle`, `ModifyCircle` and `ModifyCircles` require in-range indices. The source's behaviour outside the range is undefined, so it has nothing to model.

## Findings

| source | as written | input that shows it | evidently intended | confidence | as-written member | corrected member |
|---|---|---|---|---|---|---|
| src/CircleBatch.cpp:99 (also src/BatchCircleDrawable.cpp:98) | `_numVerticesForACircle = vertices.size()` stores the number of floats, `2 * (S + 1)`. The draw at line 231 passes it as the vertex count. | `segmentsPerCircle = 3`: the ring holds 8 floats, i.e. 4 vertices, but the draw asks for 8 vertices. Vertex 7 would read floats 14 and 15 of an 8-float buffer. | `vertices.size() / 2`, i.e. `S + 1` vertices | medium, not executed | `Geometry.FloatCountOverreadsRing` | `Geometry.RingVertexFetches` |

The two classes keep the count as written, because they model what the source stores and passes to the draw call. `Geometry.VerticesInRing` is the corrected count. `Geometry.RingVertexFetches` proves that it is exactly the number of vertices in the ring.
