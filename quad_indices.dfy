/**
 * The static element (index) buffer of the quad batch renderer. Quad slot i
 * owns vertices 4i .. 4i+3 and is drawn as the two triangles (0, 1, 2) and
 * (0, 2, 3) of those vertices, so its six indices are
 * 4i, 4i+1, 4i+2, 4i, 4i+2, 4i+3, stored at positions 6i .. 6i+5.
 */
module QuadIndices {

  /** The vertex corners, within one quad, of its two triangles. */
  const TriangleCorners: seq<nat> := [0, 1, 2, 0, 2, 3]

  /** The six indices of quad slot `slot`. */
  function SlotIndices(slot: nat): seq<nat> {
    [4 * slot + 0, 4 * slot + 1, 4 * slot + 2, 4 * slot + 0, 4 * slot + 2, 4 * slot + 3]
  }

  /**
   * The index buffer for `quadCount` slots, slot after slot. It has six
   * entries per slot and never refers past the last of the slots' vertices.
   */
  function IndexBuffer(quadCount: nat): (r: seq<nat>)
    ensures |r| == 6 * quadCount
    ensures forall p :: 0 <= p < |r| ==> r[p] < 4 * quadCount
  {
    if quadCount == 0 then [] else IndexBuffer(quadCount - 1) + SlotIndices(quadCount - 1)
  }

  /** A shorter buffer is a prefix of a longer one: slot i does not depend on the capacity. */
  lemma {:induction false} IndexBufferPrefix(m: nat, n: nat)
    requires m <= n
    ensures IndexBuffer(n)[..6 * m] == IndexBuffer(m)
  {
    if m < n {
      IndexBufferPrefix(m, n - 1);
      assert IndexBuffer(n)[..6 * (n - 1)] == IndexBuffer(n - 1);
      assert IndexBuffer(n)[..6 * m] == IndexBuffer(n)[..6 * (n - 1)][..6 * m];
    }
  }

  /** Entries 6i .. 6i+5 of the buffer are exactly the indices of slot i. */
  lemma IndexBufferSlot(quadCount: nat, slot: nat)
    requires slot < quadCount
    ensures IndexBuffer(quadCount)[6 * slot .. 6 * slot + 6] == SlotIndices(slot)
  {
    IndexBufferPrefix(slot + 1, quadCount);
    var r := IndexBuffer(quadCount);
    assert r[..6 * (slot + 1)] == IndexBuffer(slot) + SlotIndices(slot);
    assert r[6 * slot .. 6 * slot + 6] == r[..6 * (slot + 1)][6 * slot ..];
  }

  /**
   * Closed form of every entry: position p belongs to slot p / 6 and names
   * corner TriangleCorners[p % 6] of that slot's quad, so each index refers
   * to a vertex of its own slot.
   */
  lemma IndexBufferAt(quadCount: nat, p: nat)
    requires p < 6 * quadCount
    ensures IndexBuffer(quadCount)[p] == 4 * (p / 6) + TriangleCorners[p % 6]
    ensures IndexBuffer(quadCount)[p] / 4 == p / 6
  {
    var slot, k := p / 6, p % 6;
    assert p == 6 * slot + k;
    IndexBufferSlot(quadCount, slot);
    assert IndexBuffer(quadCount)[p] == SlotIndices(slot)[k];
  }

  /** The buffer position that slot `slot` writes at offset `k`. */
  function SlotPosition(slot: nat, k: nat): nat { 6 * slot + k }

  /**
   * The slot-by-slot writes partition the buffer: each (slot, offset) pair
   * below (quadCount, 6) names a position of the buffer holding that slot's
   * index; every position is named by such a pair; and no two pairs name the
   * same position. So each entry is written exactly once.
   */
  lemma SlotWritesPartitionBuffer(quadCount: nat)
    ensures forall slot: nat, k: nat :: slot < quadCount && k < 6 ==>
      SlotPosition(slot, k) < |IndexBuffer(quadCount)| &&
      IndexBuffer(quadCount)[SlotPosition(slot, k)] == SlotIndices(slot)[k]
    ensures forall p :: 0 <= p < |IndexBuffer(quadCount)| ==>
      p / 6 < quadCount && p % 6 < 6 && SlotPosition(p / 6, p % 6) == p
    ensures forall i: nat, k: nat, j: nat, l: nat :: k < 6 && l < 6 && SlotPosition(i, k) == SlotPosition(j, l) ==>
      i == j && k == l
  {
    forall slot: nat, k: nat | slot < quadCount && k < 6
      ensures IndexBuffer(quadCount)[SlotPosition(slot, k)] == SlotIndices(slot)[k]
    {
      IndexBufferSlot(quadCount, slot);
      assert IndexBuffer(quadCount)[6 * slot + k] == IndexBuffer(quadCount)[6 * slot .. 6 * slot + 6][k];
    }
  }

  /**
   * The index-buffer loop: for each slot i below `quadCount` it writes the
   * slot's six indices at positions 6i .. 6i+5 and nothing else.
   */
  method Fill(indices: array<nat>, quadCount: nat)
    requires 6 * quadCount <= indices.Length
    modifies indices
    ensures indices[..6 * quadCount] == IndexBuffer(quadCount)
    ensures indices[6 * quadCount..] == old(indices[6 * quadCount..])
  {
    for i := 0 to quadCount
      invariant indices[..6 * i] == IndexBuffer(i)
      invariant indices[6 * i..] == old(indices[6 * i..])
    {
      var vertex := i * 4;  // 4 vertices per quad
      var index := i * 6;   // 6 indices per quad
      indices[index + 0] := vertex + 0;
      indices[index + 1] := vertex + 1;
      indices[index + 2] := vertex + 2;
      indices[index + 3] := vertex + 0;
      indices[index + 4] := vertex + 2;
      indices[index + 5] := vertex + 3;
      assert indices[..6 * (i + 1)] == indices[..6 * i] + SlotIndices(i);
    }
  }
}
