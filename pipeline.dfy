/**
 * The values a frame hands to the graphics pipeline: the pixel-space
 * projection matrix, its column-major marshaling, and the record of one
 * frame's draw submission.
 *
 * Floats are idealised as `real`.
 */
module Pipeline {
  import opened VertexData

  /**
   * The `ToColumnMajor` / `TO_COLUMN_MAJOR` macro: the sixteen entries of a
   * row-major 4x4 matrix, reordered column by column.
   */
  function ToColumnMajor<T>(m: seq<T>): (r: seq<T>)
    requires |m| == 16
    ensures |r| == 16
  {
    [m[0], m[4], m[8], m[12],
     m[1], m[5], m[9], m[13],
     m[2], m[6], m[10], m[14],
     m[3], m[7], m[11], m[15]]
  }

  /** The reordering is a transpose: entry (row, col) moves from 4 row + col to 4 col + row. */
  lemma ToColumnMajorTransposes<T>(m: seq<T>, row: nat, col: nat)
    requires |m| == 16 && row < 4 && col < 4
    ensures ToColumnMajor(m)[4 * col + row] == m[4 * row + col]
  {
    var r := ToColumnMajor(m);
    if row == 0 {
      assert r[4 * col] == m[col] by {
        if col == 0 {} else if col == 1 {} else if col == 2 {} else {}
      }
    } else if row == 1 {
      assert r[4 * col + 1] == m[4 + col] by {
        if col == 0 {} else if col == 1 {} else if col == 2 {} else {}
      }
    } else if row == 2 {
      assert r[4 * col + 2] == m[8 + col] by {
        if col == 0 {} else if col == 1 {} else if col == 2 {} else {}
      }
    } else {
      assert r[4 * col + 3] == m[12 + col] by {
        if col == 0 {} else if col == 1 {} else if col == 2 {} else {}
      }
    }
  }

  /** Transposing twice gives the matrix back. */
  lemma ToColumnMajorInvolution<T>(m: seq<T>)
    requires |m| == 16
    ensures ToColumnMajor(ToColumnMajor(m)) == m
  {
    var r := ToColumnMajor(ToColumnMajor(m));
    forall p | 0 <= p < 16 ensures r[p] == m[p] {
      var row, col := p / 4, p % 4;
      ToColumnMajorTransposes(ToColumnMajor(m), col, row);
      ToColumnMajorTransposes(m, row, col);
    }
  }

  /** A homogeneous point (x, y, z, w). */
  datatype Point = Point(x: real, y: real, z: real, w: real)

  /** Matrix times point, the matrix stored row-major. */
  function ApplyRowMajor(m: seq<real>, p: Point): Point
    requires |m| == 16
  {
    Point(
      m[0] * p.x + m[1] * p.y + m[2] * p.z + m[3] * p.w,
      m[4] * p.x + m[5] * p.y + m[6] * p.z + m[7] * p.w,
      m[8] * p.x + m[9] * p.y + m[10] * p.z + m[11] * p.w,
      m[12] * p.x + m[13] * p.y + m[14] * p.z + m[15] * p.w)
  }

  /** Matrix times point, the matrix stored column-major (how the `mvp` uniform is read). */
  function ApplyColumnMajor(m: seq<real>, p: Point): Point
    requires |m| == 16
  {
    Point(
      m[0] * p.x + m[4] * p.y + m[8] * p.z + m[12] * p.w,
      m[1] * p.x + m[5] * p.y + m[9] * p.z + m[13] * p.w,
      m[2] * p.x + m[6] * p.y + m[10] * p.z + m[14] * p.w,
      m[3] * p.x + m[7] * p.y + m[11] * p.z + m[15] * p.w)
  }

  /** Marshaling with `ToColumnMajor` makes the pipeline apply exactly the row-major matrix written in the source. */
  lemma ColumnMajorUploadPreservesMatrix(m: seq<real>, p: Point)
    requires |m| == 16
    ensures ApplyColumnMajor(ToColumnMajor(m), p) == ApplyRowMajor(m, p)
  {
  }

  /** Horizontal scale w = 2 / clientWidth. */
  function ScaleX(clientWidth: nat): real
    requires clientWidth > 0
  { 2.0 / clientWidth as real }

  /** Vertical scale h = 2 / clientHeight. */
  function ScaleY(clientHeight: nat): real
    requires clientHeight > 0
  { 2.0 / clientHeight as real }

  /** The projection matrix as written in the source, row-major, before marshaling. */
  function ProjectionRowMajor(clientWidth: nat, clientHeight: nat): (m: seq<real>)
    requires clientWidth > 0 && clientHeight > 0
    ensures |m| == 16
  {
    var w := ScaleX(clientWidth);
    var h := ScaleY(clientHeight);
    [w,    0.0, 0.0, -1.0,
     0.0, -h,   0.0,  1.0,
     0.0,  0.0, 1.0,  0.0,
     0.0,  0.0, 0.0,  1.0]
  }

  /** A pixel-space point (x, y, z) as the homogeneous point the vertex stage sees. */
  function PixelPoint(x: real, y: real, z: real): Point { Point(x, y, z, 1.0) }

  /**
   * The projection maps pixel space (origin top-left, y down) into clip
   * space: x' = w x - 1, y' = -h y + 1, z' = z, and w stays 1.
   */
  lemma ProjectionMapsPixelsToClip(clientWidth: nat, clientHeight: nat, x: real, y: real, z: real)
    requires clientWidth > 0 && clientHeight > 0
    ensures ApplyRowMajor(ProjectionRowMajor(clientWidth, clientHeight), PixelPoint(x, y, z))
         == Point(ScaleX(clientWidth) * x - 1.0, -ScaleY(clientHeight) * y + 1.0, z, 1.0)
  {
  }

  /** The clip-space image of a pixel point under the uploaded (column-major) matrix. */
  function ToClip(clientWidth: nat, clientHeight: nat, x: real, y: real): Point
    requires clientWidth > 0 && clientHeight > 0
  {
    ApplyColumnMajor(ToColumnMajor(ProjectionRowMajor(clientWidth, clientHeight)), PixelPoint(x, y, 0.0))
  }

  /**
   * The pixel corners and centre of the client area land on the clip-space
   * corners and centre: top-left (0, 0) on (-1, 1), bottom-right
   * (W, H) on (1, -1), top-right (W, 0) on (1, 1), bottom-left (0, H) on
   * (-1, -1), and the centre on (0, 0).
   */
  lemma ProjectionCorners(clientWidth: nat, clientHeight: nat)
    requires clientWidth > 0 && clientHeight > 0
    ensures var W, H := clientWidth as real, clientHeight as real;
      && ToClip(clientWidth, clientHeight, 0.0, 0.0) == Point(-1.0, 1.0, 0.0, 1.0)
      && ToClip(clientWidth, clientHeight, W, H) == Point(1.0, -1.0, 0.0, 1.0)
      && ToClip(clientWidth, clientHeight, W, 0.0) == Point(1.0, 1.0, 0.0, 1.0)
      && ToClip(clientWidth, clientHeight, 0.0, H) == Point(-1.0, -1.0, 0.0, 1.0)
      && ToClip(clientWidth, clientHeight, W / 2.0, H / 2.0) == Point(0.0, 0.0, 0.0, 1.0)
  {
    var W, H := clientWidth as real, clientHeight as real;
    var m := ProjectionRowMajor(clientWidth, clientHeight);
    ColumnMajorUploadPreservesMatrix(m, PixelPoint(0.0, 0.0, 0.0));
    ColumnMajorUploadPreservesMatrix(m, PixelPoint(W, H, 0.0));
    ColumnMajorUploadPreservesMatrix(m, PixelPoint(W, 0.0, 0.0));
    ColumnMajorUploadPreservesMatrix(m, PixelPoint(0.0, H, 0.0));
    ColumnMajorUploadPreservesMatrix(m, PixelPoint(W / 2.0, H / 2.0, 0.0));
    assert ScaleX(clientWidth) * W == 2.0;
    assert ScaleY(clientHeight) * H == 2.0;
    assert ScaleX(clientWidth) * (W / 2.0) == 1.0;
    assert ScaleY(clientHeight) * (H / 2.0) == 1.0;
  }

  /**
   * What one frame hands to the pipeline: the viewport, the clear colour,
   * the `mvp` uniform, the number of vertex bytes uploaded, the index count
   * passed to the draw (a signed `GLsizei`) and the `texture_dimensions`
   * uniform.
   */
  datatype DrawCall = DrawCall(
    viewport: (nat, nat),
    clearColor: Color,
    mvp: seq<real>,
    vertexBytes: nat,
    indexCount: int,
    textureDimensions: (int, int))
}
