# Quad batch renderer and square-wave writer, modelled in Dafny

This project models the small amount of real logic in a set of Win32 / OpenGL
learning exercises. Most of that logic is the buffer bookkeeping of a quad
batch renderer:

- a pool of quad slots, four vertices per slot;
- a static index buffer that draws each slot as two triangles;
- a per-frame submission counter;
- a render step that uploads the submitted vertices, draws their indices and
  resets the counter.

The renderer appears three times: as the `Renderer` struct of `main.cpp`, as
the C helpers of `win32_opengl.c`, and as `renderer_initialize` of `main.c`.
The model also covers the DirectSound code of `main.cpp`: the 16-bit stereo
PCM wave format and the square-wave fill of the one or two regions that a
buffer lock returns.

Modules:

- `VertexData`: `Color`, `Vertex` and `Quad`; the flat eight-float view of a
  vertex; the corner setters; `Vertex::Empty`; the three-attribute vertex
  layout.
- `QuadIndices`: the index buffer as a recursive specification
  `IndexBuffer(q)`, with the slot-by-slot loop `Fill` that all three
  renderers share, proved against it.
- `Pipeline`: the `ToColumnMajor` marshaling, the pixel-space projection
  matrix over `real`, and `DrawCall`, the record of the values one frame
  passes to GL.
- `QuadRenderer`: the `main.cpp` renderer as a class. It holds the vertex
  array, the counter, and the data last handed to each GPU object. It also
  models the main loop's per-frame submission.
- `Win32OpenGL`: the `win32_opengl.c` helpers and `win32_gl_render`.
  Their 32-bit `unsigned long` products are modelled modulo 2^32.
- `MainC`: `renderer_initialize` of `main.c`.
- `DirectSound`: the wave format, the one-second buffer size, the per-frame
  write plan, and the square-wave fill loops.

## Model

| member | source | states |
|---|---|---|
| VertexData.Red | main.cpp:462-466 | opaque red (1, 0, 0, 1), every channel in [0, 1] |
| VertexData.Green | main.cpp:467-471 | opaque green (0, 1, 0, 1), every channel in [0, 1] |
| VertexData.Blue | main.cpp:472-476 | opaque blue (0, 0, 1, 1), every channel in [0, 1] |
| VertexData.Cyan | main.cpp:477-481 | opaque cyan (0, 1, 1, 1), every channel in [0, 1] |
| VertexData.Yellow | main.cpp:482-486 | opaque yellow (1, 1, 0, 1), every channel in [0, 1] |
| VertexData.White | main.cpp:487-491 | opaque white (1, 1, 1, 1), every channel in [0, 1] |
| VertexData.Vertex.Components | main.cpp:494-508 | the flat `data[]` view has `componentsNumber` = 8 floats |
| VertexData.Vertex.WithComponent | main.cpp:507-519 | writing `data[i]` changes component i of the flat view and no other |
| VertexData.Vertex.TopLeft | main.cpp:522-524 | position becomes (0, 0); the other six components are unchanged |
| VertexData.Vertex.TopRight | main.cpp:525-527 | position becomes (1, 0); the other six components are unchanged |
| VertexData.Vertex.BottomLeft | main.cpp:528-530 | position becomes (0, 1); the other six components are unchanged |
| VertexData.Vertex.BottomRight | main.cpp:531-533 | position becomes (1, 1); the other six components are unchanged |
| VertexData.Vertex.TextTopLeft | main.cpp:534-536 | texture coordinate becomes (0, 0); the other six components are unchanged |
| VertexData.Vertex.TextTopRight | main.cpp:537-539 | texture coordinate becomes (1, 0); the other six components are unchanged |
| VertexData.Vertex.TextBottomLeft | main.cpp:540-542 | texture coordinate becomes (0, 1); the other six components are unchanged |
| VertexData.Vertex.TextBottomRight | main.cpp:543-545 | texture coordinate becomes (1, 1); the other six components are unchanged |
| VertexData.FromComponents | main.cpp:495-508 | reading a vertex from eight floats gives a vertex whose flat view is those floats |
| VertexData.ComponentsRoundTrip | main.cpp:495-508 | the flat view loses nothing: reading it back gives the same vertex |
| VertexData.Empty | main.cpp:511-521 | whatever the vertex held, all eight components end up 0 |
| VertexData.LayoutPartitionsVertex | main.cpp:690-692 | locations 0, 1, 2 all use the 8-float stride, are float-aligned and lie inside the vertex; every float of the vertex is read by exactly one attribute (both directions) |
| VertexData.LayoutReadsFields | main.cpp:690-692 | reading the flat view through each attribute gives position, texture coordinate and colour respectively |
| QuadIndices.IndexBuffer | main.cpp:568-570 | the buffer for q slots has 6q entries, each below 4q |
| QuadIndices.IndexBufferPrefix | main.cpp:669-678 | the buffer for m slots is a prefix of the buffer for any n >= m slots |
| QuadIndices.IndexBufferSlot | main.cpp:672-677 | entries 6i .. 6i+5 are exactly 4i, 4i+1, 4i+2, 4i, 4i+2, 4i+3 |
| QuadIndices.IndexBufferAt | main.cpp:670-677 | entry p is 4(p/6) plus corner p mod 6 of the pattern 0, 1, 2, 0, 2, 3, so it names a vertex of slot p/6 |
| QuadIndices.SlotWritesPartitionBuffer | main.c:22-31 | the writes at 6i + k (k < 6) for slots i < q partition the buffer: each lands inside it and holds slot i's k-th index, every position is one of them, and no two of them coincide, so each entry is written exactly once |
| QuadIndices.Fill | main.cpp:668-678 | the loop leaves exactly `IndexBuffer(q)` in the first 6q entries and leaves the rest of the array as it was |
| Pipeline.ToColumnMajor | main.cpp:708 | the macro reorders 16 entries into 16 entries |
| Pipeline.ToColumnMajorTransposes | main.cpp:708 | entry (row, col) moves from position 4 row + col to 4 col + row |
| Pipeline.ToColumnMajorInvolution | main.cpp:708 | applying the reordering twice gives the matrix back |
| Pipeline.ColumnMajorUploadPreservesMatrix | main.cpp:711-726 | read column-major, the marshaled array applies exactly the row-major matrix written in the source |
| Pipeline.ProjectionRowMajor | main.cpp:709-716 | the matrix has 16 entries |
| Pipeline.ProjectionMapsPixelsToClip | main.cpp:709-716 | the matrix maps a pixel point to x' = w x - 1 and y' = -h y + 1, with z kept and w = 1 |
| Pipeline.ProjectionCorners | main.cpp:709-716 | pixel (0, 0) lands on (-1, 1), (W, H) on (1, -1), (W, 0) on (1, 1), (0, H) on (-1, -1), and the centre on (0, 0) |
| QuadRenderer.FrameQuad | main.cpp:1114-1136 | every vertex has (u, v) == (x, y) and is white; vertex 3 is at (0, 0) and vertex 1 at (W, H); for a non-empty texture the quad has the diagram's shape (`Quad.IsUpright`) |
| QuadRenderer.QuadTriangles | main.cpp:547-552 | the slot index pattern draws a quad as the diagram's triangles a, b, c and a, c, d; for an upright quad both are wound counter-clockwise on screen |
| QuadRenderer.FrameQuadIsScaledUnitQuad | main.cpp:1114-1136 | the submitted quad is the unit bottom-left, bottom-right, top-right, top-left corners scaled to the texture; (u, v) == (x, y) and white for every vertex |
| QuadRenderer.FrameQuadFillsMatchingClient | main.cpp:1114-1136 | when the client area has the texture's size, the frame quad covers the clip square from (-1, -1) to (1, 1) |
| QuadRenderer.DrawReferencesOnlyUploadedVertices | main.cpp:722-728 | the first 6q indices only refer to the first 4q vertices, which are the ones uploaded |
| QuadRenderer.Renderer.constructor | main.cpp:572-583 | no quads are pending, and the vertex array holds 4000 vertices of arbitrary, possibly different, contents |
| QuadRenderer.Renderer.Initialize | main.cpp:642-701 | the element buffer holds `IndexBuffer(1000)`; all 4000 vertices are zero and uploaded; the layout is recorded; the counter and the texture size are unchanged |
| QuadRenderer.Renderer.LoadTexture | main.cpp:633-640 | records (w, h) as the texture dimensions |
| QuadRenderer.Renderer.SubmitFrameQuad | main.cpp:1114-1137 | vertices 0 to 3 become the frame quad; vertices 4 onward are unchanged; the counter grows by exactly one |
| QuadRenderer.Renderer.Render | main.cpp:703-735 | viewport and clear colour as given; `mvp` is the marshaled projection; uploads exactly the first 4q vertices (128q bytes); draws 6q indices; passes the texture dimensions; afterwards the counter is 0 |
| QuadRenderer.Renderer.Frame | main.cpp:1100-1163 | one pass of the main loop with no quad pending: vertices 0 to 3 become the frame quad and the rest are unchanged; the draw has the given viewport, a white clear colour, the marshaled projection, the recorded texture dimensions, 4 uploaded vertices (the frame quad) and 6 indices; the counter ends at 0 |
| Win32OpenGL.GenerateElementBuffer | win32_opengl.c:202-222 | uploads `maxQuads * 6` indices equal to `IndexBuffer(maxQuads)`, and `sizeof(unsigned long) * maxQuads * 6` bytes |
| Win32OpenGL.GenerateZeroVertexBuffer | win32_opengl.c:224-235 | uploads `sizeOfVertex * maxQuads * 4` bytes, all zero |
| Win32OpenGL.InitializeRenderer | win32_opengl.c:237-261 | the element buffer, a zero vertex buffer of 32-byte vertices, and the three-attribute layout (the same as `VertexLayout`) |
| Win32OpenGL.UInt32 | win32_opengl.c:283-292 | a 32-bit unsigned product is below 2^32, congruent to the exact product, and equal to it when it fits |
| Win32OpenGL.ToGLsizei | win32_opengl.c:292 | the `GLsizei` count is in the `int` range, congruent to the unsigned value modulo 2^32, and equal to it up to 2^31 - 1 |
| Win32OpenGL.Render | win32_opengl.c:263-299 | viewport as given; `mvp` is the same marshaled projection as main.cpp's; the upload is `vertexSize * 4 * quadsToRender` bytes whenever that fits in 32 bits; the draw count is in the `int` range and is `quadsToRender * 6` whenever that fits an `int` |
| Win32OpenGL.RenderTextureUniformIsWidthThenHeight | win32_opengl.c:263-291 | the uniform is (textureWidth, textureHeight) although the height is the earlier parameter; the clear colour is magenta |
| Win32OpenGL.RenderCountsAreExact | win32_opengl.c:283-292 | for 32-byte vertices and up to 2^24 quads nothing wraps: 128 bytes and 6 indices per quad |
| Win32OpenGL.RenderIndexCountTurnsNegative | win32_opengl.c:292 | 357913941 quads still give the count 2147483646, and 357913942 quads give the negative count -2147483644 |
| MainC.IntendedIndexBlockBytes | main.c:15-16 | the index block needs `sizeof(int)` bytes for each of the 6 * 10000 entries |
| MainC.AsWrittenIndexBlockOverrun | main.c:16-30 | as written the block is 1 byte, and every one of the 60000 int writes ends past it |
| MainC.RendererInitialize | main.c:8-33 | a vertex block of 8 * 4 * 10000 floats, which is 10000 quads of 32-byte vertices, and an index block of the intended size holding `IndexBuffer(10000)` |
| DirectSound.StereoPcm16 | main.cpp:781-798 | 2 channels, 16 bits, block 4 bytes; a consistent PCM format (byte rate = rate * block, modulo 2^32); a rate in `DWORD` range is kept |
| DirectSound.EasyBufferSize | main.cpp:857-861 | the buffer is exactly one second of audio at 48000 Hz, a whole number of blocks |
| DirectSound.PlanFrame | main.cpp:904-972 | one oscillation spans one frame of rate / 60 samples; the bytes to write are that many times the bytes per sample; the half period is half the period rounded down |
| DirectSound.EasyFramePlan | main.cpp:904-972 | at 48000 Hz with 4-byte frames a frame is 800 samples and 3200 bytes, with period 800 and half period 400 |
| DirectSound.SquareSample | main.cpp:967-982 | +16000 in the first half of each period (rounded down) and -16000 in the rest; both levels fit a `signed short` |
| DirectSound.SquareWave | main.cpp:976-993 | `count` values of the wave from a starting counter |
| DirectSound.SquareSamplePeriodic | main.cpp:977 | the wave repeats every period |
| DirectSound.SquareWaveSplit | main.cpp:974-993 | the second region continues the wave where the first stopped: the two regions together are one unbroken wave |
| DirectSound.StereoChannelsAgree | main.cpp:974-993 | when the period is a multiple of 4, the left and right values of each stereo frame are equal |
| DirectSound.WrittenBytes | main.cpp:994-1007 | the bytes accounted for a region are even, at most its size, and less than 2 below it |
| DirectSound.FillRegion | main.cpp:976-984 | the region holds the wave from the counter onward, and the counter advances by the region's length |
| DirectSound.FillFrameSound | main.cpp:948-1009 | a first region larger than the request stops at the assert with nothing written; a shorter one fills both regions with one unbroken wave from counter 0; an exact one fills the first region only; the outcome reports whether each region's whole-sample bytes add up to the request |
| DirectSound.WholeSampleRegionsAccountExactly | main.cpp:994-1009 | with even region sizes matching the request, the final assert always holds |

## Left out

- Window creation, message loops, console output, WGL context and extension
  loading, timing: operating-system glue with no logic to model.
- GL state calls (shader compile and link, texture parameters, blending,
  binding, `glGetError`): GPU objects are modelled only by the data handed
  to them. `LoadShader`, `GenerateShaderProgram` and the texture pixel
  upload are not modelled. The `textureSlot` and object-handle parameters of
  `win32_gl_render` only select GL objects and are dropped.
- DirectSound creation, `GetCurrentPosition`, `Lock`, `Unlock` and `Play`
  are foreign calls. The lock regions are parameters of `FillFrameSound`,
  given as arrays of sample values with their byte sizes.
- Floats are idealised as `real`. The float divisions at main.cpp:908,
  966 and 971 are modelled as integer division of non-negative values,
  which is what the casts give up to float rounding.
- QuadRenderer.Renderer.Render: requires a positive client size. With a
  zero size the source's float division gives an infinite scale, and the
  model excludes that case.
- Win32OpenGL.Render: requires a positive client size, for the same reason.
  It also requires that `vertexSize * 4` fits in an `int`, because the
  source computes that product as `int`.
- Win32OpenGL.GenerateElementBuffer: requires `6 * maxQuads <= 2^31`, since
  the loop computes `i * 6` in an `int`.
- QuadRenderer.Renderer.SubmitFrameQuad: requires at most 999 quads pending.
  The source never checks the capacity; in its main loop the counter is
  always 0 there.
- QuadRenderer.Renderer.constructor: the source leaves the texture
  dimensions indeterminate until `LoadTexture`; the model starts them at
  (0, 0).
- `textureLoaded` is declared in main.cpp but never read or written, so it
  is not modelled.
- `Vertex::Zero` (main.cpp:511-515) is `Empty` applied to an indeterminate
  vertex, which `VertexData.Empty` covers for every vertex.
- The `union` that makes `r`, `g`, `b` and `a` alias one float
  (main.cpp:502-505) is not modelled. The code only ever writes the colour
  as a whole `Color`, so the colour is a record of four channels.
- MainC.RendererInitialize: `malloc` leaves the vertex block uninitialised,
  so only its size is modelled. The index block has the intended size (see
  Findings).
- DirectSound.FillFrameSound: the C `assert`s stop the program in a debug
  build, and are modelled that way as outcomes. In a build with `NDEBUG`,
  the single-region branch also fills an over-long first region, and the
  model does not describe that.
- DirectSound.FillFrameSound: requires a positive period. With fewer than
  60 samples per second the period is 0, and the source's `%` divides by
  zero.
- The `(signed short)` casts are the identity here, because both levels fit
  in 16 bits (`SquareSample`).
- DirectSound.PlanFrame: does not model the `int` overflow of
  `samplesPerFrame * bytesPerSample` (main.cpp:909), which needs a frame of
  more than 2^31 - 1 bytes.
- Allocation failure is not modelled: the `assert`s after each `malloc` at
  main.c:14 and main.c:17 and the unchecked `calloc` results at
  win32_opengl.c:208 and win32_opengl.c:231 assume the memory is granted.
- Win32OpenGL.Render: the upload size reaches `glBufferData` as a
  `GLsizeiptr`. The model records it unchanged, which is right for a 64-bit
  build. It does not model a 32-bit build, where sizes of 2^31 bytes or more
  would turn negative.

## Findings

| source | as written | input that shows it | evidently intended | confidence | as-written member | corrected member |
|---|---|---|---|---|---|---|
| main.c:16 | `malloc(1, sizeof(int)*6*renderer_maxQuadCount)` is given two arguments; with no `<stdlib.h>` prototype the first, 1, is the size, so the block is 1 byte | the first write, `renderer_indexBuffer[0]`, needs 4 bytes; all 60000 writes run past the block | a block of `sizeof(int) * 6 * 10000` bytes | not executed | MainC.AsWrittenIndexBlockOverrun | MainC.RendererInitialize |
