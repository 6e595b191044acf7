/**
 * The quad batch renderer of main.cpp: a fixed pool of `MaxQuads` quad slots
 * backed by a vertex array of `4 * MaxQuads` vertices, a static index buffer
 * of `6 * MaxQuads` entries, a per-frame submission counter, and a render
 * step that uploads the submitted vertices, draws their indices and resets
 * the counter.
 *
 * GPU objects are represented by the data last handed to them
 * (`elementBuffer`, `uploadedVertices`, `attributes`); each `Render` returns
 * the values of its GL calls as a `DrawCall`.
 */
module QuadRenderer {
  import opened VertexData
  import opened QuadIndices
  import opened Pipeline

  /** Capacity of the renderer, in quads. */
  const MaxQuads: nat := 1000
  const MaxVertices: nat := MaxQuads * 4
  const MaxIndices: nat := MaxQuads * 6

  /**
   * The quad the main loop submits every frame: the texture-sized rectangle
   * with its bottom-left corner (0, H) in vertex 0, bottom-right (W, H) in 1,
   * top-right (W, 0) in 2 and top-left (0, 0) in 3; texture coordinates equal
   * to positions and a white colour. For a non-empty texture it has the
   * shape of the quad diagram.
   */
  function FrameQuad(textureWidth: int, textureHeight: int): (q: Quad)
    ensures forall k :: 0 <= k < 4 ==>
      var w := q.Vertices()[k]; w.u == w.x && w.v == w.y && w.color == White()
    ensures textureWidth > 0 && textureHeight > 0 ==> q.IsUpright()
    ensures q.d.x == 0.0 && q.d.y == 0.0
    ensures q.b.x == textureWidth as real && q.b.y == textureHeight as real
  {
    var W, H := textureWidth as real, textureHeight as real;
    Quad(
      Vertex(0.0, H, 0.0, H, White()),
      Vertex(W, H, W, H, White()),
      Vertex(W, 0.0, W, 0.0, White()),
      Vertex(0.0, 0.0, 0.0, 0.0, White()))
  }

  /**
   * The index pattern of a slot draws a quad as the diagram's two triangles
   * a, b, c and a, c, d; for a quad of the diagram's shape both are wound
   * counter-clockwise as seen on the screen.
   */
  lemma QuadTriangles(q: Quad)
    ensures seq(6, k requires 0 <= k < 6 => q.Vertices()[TriangleCorners[k]])
         == [q.a, q.b, q.c, q.a, q.c, q.d]
    ensures q.IsUpright() ==>
      CounterClockwiseOnScreen(q.a, q.b, q.c) && CounterClockwiseOnScreen(q.a, q.c, q.d)
  {
    var vs := q.Vertices();
    assert seq(6, k requires 0 <= k < 6 => vs[TriangleCorners[k]]) == [vs[0], vs[1], vs[2], vs[0], vs[2], vs[3]];
    if q.IsUpright() {
      var width, height := q.b.x - q.a.x, q.a.y - q.d.y;
      assert ScreenCross(q.a, q.b, q.c) == -(width * height);
      assert ScreenCross(q.a, q.c, q.d) == -(width * height);
      assert width * height > 0.0;
    }
  }

  /** A vertex scaled by (W, H) in both its position and its texture coordinate. */
  function Scaled(w: Vertex, W: real, H: real): Vertex {
    w.(x := w.x * W, y := w.y * H, u := w.u * W, v := w.v * H)
  }

  /**
   * The frame quad is the unit quad of the corner helpers (BottomLeft,
   * BottomRight, TopRight, TopLeft, with the matching texture corners),
   * scaled to the texture size: the winding order 0 to 3 is bottom-left,
   * bottom-right, top-right, top-left.
   */
  lemma FrameQuadIsScaledUnitQuad(textureWidth: int, textureHeight: int)
    ensures var W, H := textureWidth as real, textureHeight as real;
      var base := ZeroVertex.(color := White());
      var q := FrameQuad(textureWidth, textureHeight);
      && q.a == Scaled(base.BottomLeft().TextBottomLeft(), W, H)
      && q.b == Scaled(base.BottomRight().TextBottomRight(), W, H)
      && q.c == Scaled(base.TopRight().TextTopRight(), W, H)
      && q.d == Scaled(base.TopLeft().TextTopLeft(), W, H)
  {
  }

  /**
   * When the client area has the texture's size, the frame quad covers the
   * whole viewport: its four vertices land on the clip-space corners
   * (-1, -1), (1, -1), (1, 1), (-1, 1).
   */
  lemma FrameQuadFillsMatchingClient(size: (nat, nat))
    requires size.0 > 0 && size.1 > 0
    ensures var q := FrameQuad(size.0, size.1);
      && ToClip(size.0, size.1, q.a.x, q.a.y) == Point(-1.0, -1.0, 0.0, 1.0)
      && ToClip(size.0, size.1, q.b.x, q.b.y) == Point(1.0, -1.0, 0.0, 1.0)
      && ToClip(size.0, size.1, q.c.x, q.c.y) == Point(1.0, 1.0, 0.0, 1.0)
      && ToClip(size.0, size.1, q.d.x, q.d.y) == Point(-1.0, 1.0, 0.0, 1.0)
  {
    ProjectionCorners(size.0, size.1);
  }

  /**
   * A draw of the first `6 * quadCount` entries of the static index buffer
   * only refers to the first `4 * quadCount` vertices, exactly the ones
   * `Render` uploads.
   */
  lemma DrawReferencesOnlyUploadedVertices(quadCount: nat)
    requires quadCount <= MaxQuads
    ensures forall p :: 0 <= p < 6 * quadCount ==> IndexBuffer(MaxQuads)[p] < 4 * quadCount
  {
    IndexBufferPrefix(quadCount, MaxQuads);
    assert forall p :: 0 <= p < 6 * quadCount ==> IndexBuffer(MaxQuads)[p] == IndexBuffer(quadCount)[p];
  }

  class Renderer {
    /** The CPU-side vertex buffer, one slot of four vertices per quad. */
    const vertexBuffer: array<Vertex>
    /** Quads submitted since the last render. */
    var quadsToRender: nat
    /** Width and height recorded by the last `LoadTexture`. */
    var textureDimensions: (int, int)

    /** Contents of the element buffer object. */
    var elementBuffer: seq<nat>
    /** Contents of the vertex buffer object after the last upload. */
    var uploadedVertices: seq<Vertex>
    /** The vertex attribute layout recorded in the vertex array object. */
    var attributes: seq<Attribute>

    /** The capacity invariant: the buffer has `MaxVertices` vertices and at most `MaxQuads` quads are pending. */
    ghost predicate Valid()
      reads this
    {
      vertexBuffer.Length == MaxVertices && quadsToRender <= MaxQuads
    }

    /**
     * A renderer before `Initialize`: no quads pending. The vertex array's
     * contents are left indeterminate by the source and are given here as
     * `init`; nothing has been uploaded yet.
     */
    constructor (init: seq<Vertex>)
      requires |init| == MaxVertices
      ensures Valid() && fresh(vertexBuffer)
      ensures quadsToRender == 0
      ensures vertexBuffer[..] == init
      ensures elementBuffer == [] && uploadedVertices == [] && attributes == []
    {
      vertexBuffer := new Vertex[MaxVertices](i requires 0 <= i < MaxVertices => init[i]);
      quadsToRender := 0;
      textureDimensions := (0, 0);
      elementBuffer, uploadedVertices, attributes := [], [], [];
    }

    /**
     * `Renderer::Initialize`: builds the static index buffer, empties every
     * vertex, uploads both, and records the vertex layout.
     */
    method Initialize()
      requires Valid()
      modifies this, vertexBuffer
      ensures Valid()
      ensures elementBuffer == IndexBuffer(MaxQuads)
      ensures forall i :: 0 <= i < MaxVertices ==> vertexBuffer[i] == ZeroVertex
      ensures uploadedVertices == vertexBuffer[..]
      ensures attributes == VertexLayout
      ensures quadsToRender == old(quadsToRender) && textureDimensions == old(textureDimensions)
    {
      var indices := new nat[MaxIndices];
      Fill(indices, MaxQuads);
      elementBuffer := indices[..];
      for i := 0 to MaxVertices
        invariant Valid()
        invariant elementBuffer == IndexBuffer(MaxQuads)
        invariant quadsToRender == old(quadsToRender) && textureDimensions == old(textureDimensions)
        invariant forall j :: 0 <= j < i ==> vertexBuffer[j] == ZeroVertex
      {
        vertexBuffer[i] := Empty(vertexBuffer[i]);
      }
      uploadedVertices := vertexBuffer[..];
      attributes := VertexLayout;
    }

    /** `Renderer::LoadTexture`: records the texture's dimensions (the pixel upload is not modelled). */
    method LoadTexture(w: int, h: int)
      modifies this`textureDimensions
      ensures textureDimensions == (w, h)
    {
      textureDimensions := (w, h);
    }

    /**
     * The main loop's per-frame submission: overwrites vertices 0 to 3 with
     * the frame quad and counts one more quad. The source does not check the
     * capacity; it is required here.
     */
    method SubmitFrameQuad(textureWidth: int, textureHeight: int)
      requires Valid() && quadsToRender < MaxQuads
      modifies this`quadsToRender, vertexBuffer
      ensures Valid()
      ensures vertexBuffer[..4] == FrameQuad(textureWidth, textureHeight).Vertices()
      ensures vertexBuffer[4..] == old(vertexBuffer[4..])
      ensures quadsToRender == old(quadsToRender) + 1
    {
      var W, H := textureWidth as real, textureHeight as real;
      vertexBuffer[0] := vertexBuffer[0].(color := White(), x := 0.0, y := H, u := 0.0, v := H);
      vertexBuffer[1] := vertexBuffer[1].(color := White(), x := W, y := H, u := W, v := H);
      vertexBuffer[2] := vertexBuffer[2].(color := White(), x := W, y := 0.0, u := W, v := 0.0);
      vertexBuffer[3] := vertexBuffer[3].(color := White(), x := 0.0, y := 0.0, u := 0.0, v := 0.0);
      quadsToRender := quadsToRender + 1;
    }

    /**
     * `Renderer::Render`: uploads the first `4 * quadsToRender` vertices,
     * passes the column-major projection and the texture dimensions, draws
     * `6 * quadsToRender` indices and resets the counter. The vertex array,
     * the element buffer and the layout are left as they were.
     */
    method Render(clientWidth: nat, clientHeight: nat, clearColor: Color) returns (call: DrawCall)
      requires Valid() && clientWidth > 0 && clientHeight > 0
      modifies this`quadsToRender, this`uploadedVertices
      ensures Valid()
      ensures call.viewport == (clientWidth, clientHeight) && call.clearColor == clearColor
      ensures call.mvp == ToColumnMajor(ProjectionRowMajor(clientWidth, clientHeight))
      ensures call.vertexBytes == VertexBytes * (4 * old(quadsToRender))
      ensures call.indexCount == 6 * old(quadsToRender)
      ensures call.textureDimensions == textureDimensions
      ensures uploadedVertices == vertexBuffer[..4 * old(quadsToRender)]
      ensures |uploadedVertices| * VertexBytes == call.vertexBytes
      ensures quadsToRender == 0
    {
      var mvp := ToColumnMajor(ProjectionRowMajor(clientWidth, clientHeight));
      uploadedVertices := vertexBuffer[..4 * quadsToRender];
      call := DrawCall((clientWidth, clientHeight), clearColor, mvp,
                       VertexBytes * 4 * quadsToRender, quadsToRender * 6, textureDimensions);
      quadsToRender := 0;
    }

    /**
     * One pass of the main loop: submit the frame quad, then render. With no
     * quad pending at the start of the frame (as after every previous
     * render) exactly six indices are drawn over the four frame-quad
     * vertices, and the counter is back at zero.
     */
    method Frame(textureWidth: int, textureHeight: int, clientWidth: nat, clientHeight: nat)
      returns (call: DrawCall)
      requires Valid() && quadsToRender == 0 && clientWidth > 0 && clientHeight > 0
      modifies this`quadsToRender, this`uploadedVertices, vertexBuffer
      ensures Valid() && quadsToRender == 0
      ensures vertexBuffer[..4] == FrameQuad(textureWidth, textureHeight).Vertices()
      ensures vertexBuffer[4..] == old(vertexBuffer[4..])
      ensures call.viewport == (clientWidth, clientHeight) && call.clearColor == White()
      ensures call.mvp == ToColumnMajor(ProjectionRowMajor(clientWidth, clientHeight))
      ensures call.indexCount == 6 && call.vertexBytes == 4 * VertexBytes
      ensures call.textureDimensions == textureDimensions
      ensures uploadedVertices == FrameQuad(textureWidth, textureHeight).Vertices()
    {
      SubmitFrameQuad(textureWidth, textureHeight);
      call := Render(clientWidth, clientHeight, White());
    }
  }
}
