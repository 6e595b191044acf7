/**
 * `renderer_initialize` of main.c: sizes a vertex buffer of 8 floats per
 * vertex, 4 vertices per quad, for 10000 quads, and fills an index buffer of
 * 6 entries per quad slot by slot.
 *
 * As written, the index buffer is requested with `malloc` and a size
 * argument of 1, so the block holds one byte while the loop writes 60000
 * ints; `AsWrittenIndexBlockOverrun` exhibits this. The model of the
 * operation, `RendererInitialize`, allocates the intended 6 * 10000 ints.
 */
module MainC {
  import opened VertexData
  import opened QuadIndices

  const MaxQuadCount: nat := 10000
  /** Floats per vertex: 2 position, 4 colour, 2 texture coordinate. */
  const VertexElementCount: nat := 8
  /** Size in bytes of `int`. */
  const IntBytes: nat := 4

  /** Bytes requested for the index buffer as the code is written: its size argument is 1. */
  function AsWrittenIndexBlockBytes(): nat { 1 }

  /** Bytes the index buffer needs: 6 ints per quad slot. */
  function IntendedIndexBlockBytes(): (n: nat)
    ensures n == IntBytes * |IndexBuffer(MaxQuadCount)|
  { IntBytes * 6 * MaxQuadCount }

  /** The byte offset just past int element `p` of the index buffer. */
  function ElementEnd(p: nat): nat { IntBytes * (p + 1) }

  /**
   * With the block as written, every one of the loop's 6 * 10000 int writes
   * ends past the end of the block (the first already needs 4 bytes).
   */
  lemma AsWrittenIndexBlockOverrun()
    ensures forall p :: 0 <= p < 6 * MaxQuadCount ==> ElementEnd(p) > AsWrittenIndexBlockBytes()
    ensures AsWrittenIndexBlockBytes() < IntendedIndexBlockBytes()
  {
  }

  /**
   * `renderer_initialize` with the intended index block: returns the number
   * of floats of the vertex block (its bytes are 10000 quads of the 32-byte
   * vertex the renderers share) and the index buffer's contents, slot i
   * holding 4i, 4i+1, 4i+2, 4i, 4i+2, 4i+3 at positions 6i .. 6i+5.
   */
  method RendererInitialize() returns (vertexFloats: nat, indexBuffer: seq<nat>)
    ensures vertexFloats == VertexElementCount * 4 * MaxQuadCount
    ensures FloatBytes * vertexFloats == VertexBytes * (4 * MaxQuadCount)
    ensures indexBuffer == IndexBuffer(MaxQuadCount)
    ensures IntBytes * |indexBuffer| == IntendedIndexBlockBytes()
  {
    vertexFloats := VertexElementCount * 4 * MaxQuadCount;
    var block := new nat[6 * MaxQuadCount];
    Fill(block, MaxQuadCount);
    indexBuffer := block[..];
  }
}
