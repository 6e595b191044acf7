/**
 * The vertex, colour and quad records of the quad batch renderer, the flat
 * eight-float view of a vertex that is uploaded to the GPU, and the vertex
 * attribute layout that tells the pipeline how to read that view.
 *
 * Floats are idealised as `real`.
 */
module VertexData {

  /** Size in bytes of one `float` (and of `GLfloat`). */
  const FloatBytes: nat := 4

  /** An RGBA colour; the source keeps each channel in [0, 1]. */
  datatype Color = Color(r: real, g: real, b: real, a: real)

  predicate InUnitRange(c: Color) {
    0.0 <= c.r <= 1.0 && 0.0 <= c.g <= 1.0 && 0.0 <= c.b <= 1.0 && 0.0 <= c.a <= 1.0
  }

  /** A colour whose every channel is 0 or 1 and that is fully opaque. */
  predicate IsOpaquePrimary(c: Color) {
    && (c.r == 0.0 || c.r == 1.0)
    && (c.g == 0.0 || c.g == 1.0)
    && (c.b == 0.0 || c.b == 1.0)
    && c.a == 1.0
  }

  function Red(): (c: Color)
    ensures IsOpaquePrimary(c) && InUnitRange(c) && c.r == 1.0 && c.g == 0.0 && c.b == 0.0
  { Color(1.0, 0.0, 0.0, 1.0) }

  function Green(): (c: Color)
    ensures IsOpaquePrimary(c) && InUnitRange(c) && c.r == 0.0 && c.g == 1.0 && c.b == 0.0
  { Color(0.0, 1.0, 0.0, 1.0) }

  function Blue(): (c: Color)
    ensures IsOpaquePrimary(c) && InUnitRange(c) && c.r == 0.0 && c.g == 0.0 && c.b == 1.0
  { Color(0.0, 0.0, 1.0, 1.0) }

  function Cyan(): (c: Color)
    ensures IsOpaquePrimary(c) && InUnitRange(c) && c.r == 0.0 && c.g == 1.0 && c.b == 1.0
  { Color(0.0, 1.0, 1.0, 1.0) }

  function Yellow(): (c: Color)
    ensures IsOpaquePrimary(c) && InUnitRange(c) && c.r == 1.0 && c.g == 1.0 && c.b == 0.0
  { Color(1.0, 1.0, 0.0, 1.0) }

  function White(): (c: Color)
    ensures IsOpaquePrimary(c) && InUnitRange(c) && c.r == 1.0 && c.g == 1.0 && c.b == 1.0
  { Color(1.0, 1.0, 1.0, 1.0) }

  /** Number of floats in one vertex: 2 position, 2 texture coordinate, 4 colour. */
  const ComponentsNumber: nat := 8

  /** Size in bytes of one vertex record (`sizeof(Vertex)`). */
  const VertexBytes: nat := ComponentsNumber * FloatBytes

  /**
   * One vertex: position (x, y) in pixels, texture coordinate (u, v) in texels
   * and a colour. The colour is a record of its own (the source's nested
   * union is only ever written as a whole colour).
   */
  datatype Vertex = Vertex(x: real, y: real, u: real, v: real, color: Color) {

    /** The flat `data[]` view of the vertex, in memory order. */
    function Components(): (s: seq<real>)
      ensures |s| == ComponentsNumber
    {
      [x, y, u, v, color.r, color.g, color.b, color.a]
    }

    /** The vertex with one component of its flat view replaced. */
    function WithComponent(i: nat, value: real): (w: Vertex)
      requires i < ComponentsNumber
      ensures w.Components() == Components()[i := value]
    {
      FromComponents(Components()[i := value])
    }

    /** Position corner (0, 0); nothing but x and y changes. */
    function TopLeft(): (w: Vertex)
      ensures w.Components() == [0.0, 0.0] + Components()[2..]
    { this.(x := 0.0, y := 0.0) }

    /** Position corner (1, 0); nothing but x and y changes. */
    function TopRight(): (w: Vertex)
      ensures w.Components() == [1.0, 0.0] + Components()[2..]
    { this.(x := 1.0, y := 0.0) }

    /** Position corner (0, 1); nothing but x and y changes. */
    function BottomLeft(): (w: Vertex)
      ensures w.Components() == [0.0, 1.0] + Components()[2..]
    { this.(x := 0.0, y := 1.0) }

    /** Position corner (1, 1); nothing but x and y changes. */
    function BottomRight(): (w: Vertex)
      ensures w.Components() == [1.0, 1.0] + Components()[2..]
    { this.(x := 1.0, y := 1.0) }

    /** Texture corner (0, 0); nothing but u and v changes. */
    function TextTopLeft(): (w: Vertex)
      ensures w.Components() == Components()[..2] + [0.0, 0.0] + Components()[4..]
    { this.(u := 0.0, v := 0.0) }

    /** Texture corner (1, 0); nothing but u and v changes. */
    function TextTopRight(): (w: Vertex)
      ensures w.Components() == Components()[..2] + [1.0, 0.0] + Components()[4..]
    { this.(u := 1.0, v := 0.0) }

    /** Texture corner (0, 1); nothing but u and v changes. */
    function TextBottomLeft(): (w: Vertex)
      ensures w.Components() == Components()[..2] + [0.0, 1.0] + Components()[4..]
    { this.(u := 0.0, v := 1.0) }

    /** Texture corner (1, 1); nothing but u and v changes. */
    function TextBottomRight(): (w: Vertex)
      ensures w.Components() == Components()[..2] + [1.0, 1.0] + Components()[4..]
    { this.(u := 1.0, v := 1.0) }
  }

  /** Reads a vertex back from its flat view. */
  function FromComponents(s: seq<real>): (w: Vertex)
    requires |s| == ComponentsNumber
    ensures w.Components() == s
  {
    Vertex(s[0], s[1], s[2], s[3], Color(s[4], s[5], s[6], s[7]))
  }

  /** The flat view loses nothing: reading it back gives the same vertex. */
  lemma ComponentsRoundTrip(w: Vertex)
    ensures FromComponents(w.Components()) == w
  {
  }

  /** The vertex whose eight components are all zero. */
  const ZeroVertex: Vertex := Vertex(0.0, 0.0, 0.0, 0.0, Color(0.0, 0.0, 0.0, 0.0))

  /**
   * `Vertex::Empty`: clears the vertex one component of its flat view at a
   * time. Whatever the vertex held before, every component ends up zero.
   */
  method Empty(w: Vertex) returns (e: Vertex)
    ensures e.Components() == seq(ComponentsNumber, _ => 0.0)
    ensures e == ZeroVertex
  {
    e := w;
    var i := 0;
    while i < ComponentsNumber
      invariant 0 <= i <= ComponentsNumber
      invariant forall j :: 0 <= j < i ==> e.Components()[j] == 0.0
    {
      e := e.WithComponent(i, 0.0);
      i := i + 1;
    }
    assert e.Components() == seq(ComponentsNumber, _ => 0.0);
    ComponentsRoundTrip(e);
  }

  /**
   * One quad: four vertices in index order 0 = bottom-left (a),
   * 1 = bottom-right (b), 2 = top-right (c), 3 = top-left (d).
   */
  datatype Quad = Quad(a: Vertex, b: Vertex, c: Vertex, d: Vertex) {
    function Vertices(): (s: seq<Vertex>)
      ensures |s| == 4
    { [a, b, c, d] }

    /**
     * The shape the quad diagram draws, in pixel space (y grows downward):
     * an axis-aligned rectangle of positive size with a at the bottom left,
     * b at the bottom right, c at the top right and d at the top left.
     */
    predicate IsUpright() {
      && a.y == b.y && d.y == c.y && a.x == d.x && b.x == c.x
      && a.x < b.x && d.y < a.y
    }
  }

  /**
   * Twice the signed area of the triangle p, q, r in pixel space. Since y
   * grows downward, a negative value means the triangle is wound
   * counter-clockwise as seen on the screen.
   */
  function ScreenCross(p: Vertex, q: Vertex, r: Vertex): real {
    (q.x - p.x) * (r.y - p.y) - (q.y - p.y) * (r.x - p.x)
  }

  predicate CounterClockwiseOnScreen(p: Vertex, q: Vertex, r: Vertex) {
    ScreenCross(p, q, r) < 0.0
  }

  /**
   * The arguments of one `glVertexAttribPointer` call: attribute location,
   * number of floats, stride in bytes and byte offset into the vertex.
   */
  datatype Attribute = Attribute(location: nat, size: nat, strideBytes: nat, byteOffset: nat)

  /**
   * Position (2 floats at 0), texture coordinate (2 at 2), colour (4 at 4),
   * each with the stride of one whole vertex.
   */
  const VertexLayout: seq<Attribute> := [
    Attribute(0, 2, VertexBytes, 0),
    Attribute(1, 2, VertexBytes, 2 * FloatBytes),
    Attribute(2, 4, VertexBytes, 4 * FloatBytes)
  ]

  /** The first float of the vertex that an attribute reads. */
  function FirstFloat(att: Attribute): nat { att.byteOffset / FloatBytes }

  /** Whether float number `c` of a vertex is read by the attribute. */
  predicate Covers(att: Attribute, c: nat) {
    FirstFloat(att) <= c < FirstFloat(att) + att.size
  }

  /** The vertex field that the pipeline expects at each attribute location. */
  function AttributeValue(w: Vertex, location: nat): seq<real> {
    if location == 0 then [w.x, w.y]
    else if location == 1 then [w.u, w.v]
    else [w.color.r, w.color.g, w.color.b, w.color.a]
  }

  /** The attribute location that owns float number `c` of a vertex. */
  function OwnerOf(c: nat): nat {
    if c < 2 then 0 else if c < 4 then 1 else 2
  }

  /**
   * The three attributes share the vertex stride, are float-aligned and lie
   * inside one vertex; every float of the vertex is read by exactly one of
   * them, the one at location `OwnerOf(c)`.
   */
  lemma LayoutPartitionsVertex()
    ensures forall k :: 0 <= k < |VertexLayout| ==>
      VertexLayout[k].location == k &&
      VertexLayout[k].strideBytes == VertexBytes &&
      VertexLayout[k].byteOffset % FloatBytes == 0 &&
      FirstFloat(VertexLayout[k]) + VertexLayout[k].size <= ComponentsNumber
    ensures forall c: nat, k :: c < ComponentsNumber && 0 <= k < |VertexLayout| ==>
      (Covers(VertexLayout[k], c) <==> k == OwnerOf(c))
  {
  }

  /**
   * Reading the flat view of a vertex through each attribute yields exactly
   * the field the pipeline expects at that location.
   */
  lemma LayoutReadsFields(w: Vertex)
    ensures forall k :: 0 <= k < |VertexLayout| ==>
      var att := VertexLayout[k];
      w.Components()[FirstFloat(att)..FirstFloat(att) + att.size] == AttributeValue(w, att.location)
  {
    var s := w.Components();
    assert s[0..2] == [w.x, w.y];
    assert s[2..4] == [w.u, w.v];
    assert s[4..8] == [w.color.r, w.color.g, w.color.b, w.color.a];
  }
}
