/**
 * The renderer helpers of win32_opengl.c: element-buffer generation, the
 * zero-filled vertex buffer, the renderer set-up that combines them with the
 * vertex layout, and the values `win32_gl_render` passes to GL each frame.
 *
 * `unsigned long` and `GLuint` are 32 bits wide on this platform; products
 * computed in them wrap modulo 2^32 and are written out as such.
 */
module Win32OpenGL {
  import opened VertexData
  import opened QuadIndices
  import opened Pipeline

  const Int32Max: nat := 0x7FFF_FFFF
  const UInt32Modulus: nat := 0x1_0000_0000
  /** Size in bytes of `unsigned long`. */
  const UnsignedLongBytes: nat := 4

  /**
   * `win32_gl_generate_and_initialize_element_buffer_012023`: fills a zeroed
   * block of `maxQuads * 6` indices slot by slot and uploads
   * `sizeof(unsigned long) * maxIndices` bytes of it. The loop counter and
   * `i * 6` are `int`, so the capacity must keep `6 * maxQuads` within its
   * range.
   */
  method GenerateElementBuffer(maxQuads: nat) returns (uploaded: seq<nat>, uploadBytes: nat)
    requires 6 * maxQuads <= Int32Max + 1
    ensures uploaded == IndexBuffer(maxQuads)
    ensures |uploaded| == maxQuads * 6
    ensures uploadBytes == UnsignedLongBytes * maxQuads * 6
  {
    var maxIndices := maxQuads * 6;
    var indices := new nat[maxIndices](_ => 0);  // calloc
    Fill(indices, maxQuads);
    uploaded := indices[..];
    uploadBytes := UnsignedLongBytes * maxIndices;
  }

  /**
   * `win32_gl_generate_and_zero_initialize_vertex_buffer`: uploads a zeroed
   * block of `sizeOfVertex * maxQuads * 4` bytes.
   */
  method GenerateZeroVertexBuffer(maxQuads: nat, sizeOfVertex: nat) returns (uploaded: seq<bv8>)
    ensures |uploaded| == sizeOfVertex * (maxQuads * 4)
    ensures forall k :: 0 <= k < |uploaded| ==> uploaded[k] == 0
  {
    var maxVertices := maxQuads * 4;
    var requiredData := sizeOfVertex * maxVertices;
    var emptyData := new bv8[requiredData](_ => 0);  // calloc
    uploaded := emptyData[..];
  }

  /** What `win32_gl_initialize_renderer` leaves in the GPU objects it creates. */
  datatype RendererSetup = RendererSetup(
    elementBuffer: seq<nat>,
    elementBytes: nat,
    vertexData: seq<bv8>,
    layout: seq<Attribute>)

  /**
   * `win32_gl_initialize_renderer`: the element buffer for `maxQuads` slots,
   * a zero vertex buffer of 8-float vertices, and the three vertex
   * attributes (position, texture coordinate, colour).
   */
  method InitializeRenderer(maxQuads: nat) returns (setup: RendererSetup)
    requires 6 * maxQuads <= Int32Max + 1
    ensures setup.elementBuffer == IndexBuffer(maxQuads)
    ensures setup.elementBytes == UnsignedLongBytes * |setup.elementBuffer|
    ensures |setup.vertexData| == VertexBytes * (4 * maxQuads)
    ensures forall k :: 0 <= k < |setup.vertexData| ==> setup.vertexData[k] == 0
    ensures setup.layout == VertexLayout
  {
    var elements, elementBytes := GenerateElementBuffer(maxQuads);
    var vertexData := GenerateZeroVertexBuffer(maxQuads, FloatBytes * 8);
    var layout := [
      Attribute(0, 2, 8 * FloatBytes, 0),
      Attribute(1, 2, 8 * FloatBytes, 2 * FloatBytes),
      Attribute(2, 4, 8 * FloatBytes, 4 * FloatBytes)
    ];
    setup := RendererSetup(elements, elementBytes, vertexData, layout);
  }

  /** A product computed in a 32-bit `unsigned long`: it wraps modulo 2^32. */
  function UInt32(n: nat): (r: nat)
    ensures r < UInt32Modulus
    ensures (n - r) % UInt32Modulus == 0
    ensures n < UInt32Modulus ==> r == n
  {
    n % UInt32Modulus
  }

  /**
   * The conversion of an `unsigned long` to `GLsizei` (a 32-bit `int`) on
   * this platform: values above the `int` range wrap to negative ones.
   */
  function ToGLsizei(n: nat): (r: int)
    requires n < UInt32Modulus
    ensures -(Int32Max + 1) <= r <= Int32Max
    ensures (r - n) % UInt32Modulus == 0
    ensures n <= Int32Max ==> r == n
  {
    if n <= Int32Max then n else n - UInt32Modulus
  }

  /**
   * `win32_gl_render`: the values of one frame's GL calls. The clear colour
   * is fixed magenta; the vertex upload `vertexSize * 4 * quadsToRender` and
   * the index count `quadsToRender * 6` are 32-bit unsigned products, and the
   * index count reaches `glDrawElements` as a `GLsizei`. Note that the
   * parameters list the texture height before the width, while the uniform
   * holds (width, height).
   */
  function Render(clientWidth: nat, clientHeight: nat, vertexSize: nat, quadsToRender: nat,
                  textureHeight: int, textureWidth: int): (call: DrawCall)
    requires clientWidth > 0 && clientHeight > 0
    requires 4 * vertexSize <= Int32Max
    ensures call.viewport == (clientWidth, clientHeight)
    ensures call.mvp == ToColumnMajor(ProjectionRowMajor(clientWidth, clientHeight))
    ensures call.vertexBytes < UInt32Modulus
    ensures vertexSize * 4 * quadsToRender < UInt32Modulus ==>
      call.vertexBytes == vertexSize * 4 * quadsToRender
    ensures -(Int32Max + 1) <= call.indexCount <= Int32Max
    ensures quadsToRender * 6 <= Int32Max ==> call.indexCount == quadsToRender * 6
  {
    var w := ScaleX(clientWidth);
    var h := ScaleY(clientHeight);
    var projectionMatrix := ToColumnMajor([
      w,    0.0, 0.0, -1.0,
      0.0, -h,   0.0,  1.0,
      0.0,  0.0, 1.0,  0.0,
      0.0,  0.0, 0.0,  1.0]);
    DrawCall(
      (clientWidth, clientHeight),
      Color(1.0, 0.0, 1.0, 1.0),
      projectionMatrix,
      UInt32(vertexSize * 4 * quadsToRender),
      ToGLsizei(UInt32(quadsToRender * 6)),
      (textureWidth, textureHeight))
  }

  /**
   * The `texture_dimensions` uniform is (width, height) even though the
   * height is the earlier parameter.
   */
  lemma RenderTextureUniformIsWidthThenHeight(clientWidth: nat, clientHeight: nat, vertexSize: nat,
                                              quadsToRender: nat, textureHeight: int, textureWidth: int)
    requires clientWidth > 0 && clientHeight > 0 && 4 * vertexSize <= Int32Max
    ensures Render(clientWidth, clientHeight, vertexSize, quadsToRender, textureHeight, textureWidth)
              .textureDimensions == (textureWidth, textureHeight)
    ensures Render(clientWidth, clientHeight, vertexSize, quadsToRender, textureHeight, textureWidth)
              .clearColor == Color(1.0, 0.0, 1.0, 1.0)
  {
  }

  /**
   * For 8-float vertices and up to 2^24 quads nothing wraps: the upload is
   * `VertexBytes * 4` bytes per quad and the draw `6` indices per quad,
   * the same counts as the main.cpp renderer's `Render`.
   */
  lemma RenderCountsAreExact(clientWidth: nat, clientHeight: nat, quadsToRender: nat,
                             textureHeight: int, textureWidth: int)
    requires clientWidth > 0 && clientHeight > 0
    requires quadsToRender <= 0x100_0000
    ensures var call := Render(clientWidth, clientHeight, VertexBytes, quadsToRender, textureHeight, textureWidth);
      call.vertexBytes == VertexBytes * (4 * quadsToRender) && call.indexCount == 6 * quadsToRender
  {
  }

  /**
   * From 357913942 quads on, `quadsToRender * 6` no longer fits an `int`,
   * and the draw receives a negative count.
   */
  lemma RenderIndexCountTurnsNegative(clientWidth: nat, clientHeight: nat,
                                      textureHeight: int, textureWidth: int)
    requires clientWidth > 0 && clientHeight > 0
    ensures Render(clientWidth, clientHeight, VertexBytes, 357913942, textureHeight, textureWidth)
              .indexCount == -2147483644
    ensures Render(clientWidth, clientHeight, VertexBytes, 357913941, textureHeight, textureWidth)
              .indexCount == 2147483646
  {
  }
}
