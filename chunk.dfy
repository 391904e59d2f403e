/** Voxel storage of one chunk (`Chunk.inl`): linear index arithmetic, the
    block array, the collision bitset, the per-type histogram and the reset
    protocol. */
module Chunks {
  import opened Voxel

  /** `Chunk::GetBlockLocalIndex`: x varies fastest, then y, then z. */
  function LocalIndex(size: UVec3, c: UVec3): (i: nat)
    requires InBounds(size, c)
  {
    size.x * (size.y * c.z + c.y) + c.x
  }

  /** `Chunk::GetBlockLocalIndices`. */
  function LocalIndices(size: UVec3, i: nat): (c: UVec3)
    requires size.x > 0 && size.y > 0
  {
    UVec3(i % size.x, (i / size.x) % size.y, i / (size.x * size.y))
  }

  lemma {:induction false} MulLeMono(a: nat, b: nat, c: nat)
    requires a <= b
    ensures c * a <= c * b
    decreases c
  {
    if c > 0 {
      MulLeMono(a, b, c - 1);
      assert c * a == (c - 1) * a + a;
      assert c * b == (c - 1) * b + b;
    }
  }

  lemma DivModUnique(a: nat, b: nat, q: nat, r: nat)
    requires r < b && a == q * b + r
    ensures a / b == q && a % b == r
  {
    var q', r' := a / b, a % b;
    assert a == q' * b + r';
    if q' > q {
      MulLeMono(q + 1, q', b);
      assert false;
    }
    if q' < q {
      MulLeMono(q' + 1, q, b);
      assert false;
    }
  }

  lemma MulSplit(q: nat, c: nat, r: nat, b: nat)
    ensures (q * c + r) * b == q * (b * c) + r * b
  {
  }

  lemma MulPred(b: nat, c: nat)
    requires c > 0
    ensures b * (c - 1) == b * c - b
  {
  }

  lemma DivOfDiv(a: nat, b: nat, c: nat)
    requires b > 0 && c > 0
    ensures a / b / c == a / (b * c)
  {
    var d := a / b;
    var q := d / c;
    var r1 := a % b;
    var r2 := d % c;
    assert a == d * b + r1;
    assert d == q * c + r2;
    MulSplit(q, c, r2, b);
    assert a == q * (b * c) + (r2 * b + r1);
    MulLeMono(r2, c - 1, b);
    MulPred(b, c);
    DivModUnique(a, b * c, q, r2 * b + r1);
  }

  /** In-bounds coordinates map below the voxel count. */
  lemma LocalIndexBound(size: UVec3, c: UVec3)
    requires InBounds(size, c)
    ensures LocalIndex(size, c) < Volume(size)
  {
    var row := size.y * c.z + c.y;
    MulLeMono(c.z, size.z - 1, size.y);
    assert size.y * (size.z - 1) == size.y * size.z - size.y;
    assert row <= size.y * size.z - 1;
    MulLeMono(row, size.y * size.z - 1, size.x);
    assert size.x * (size.y * size.z - 1) == size.x * (size.y * size.z) - size.x;
    assert Volume(size) == size.x * (size.y * size.z);
  }

  /** `GetBlockLocalIndices(GetBlockLocalIndex(c)) == c`. */
  lemma LocalIndicesOfLocalIndex(size: UVec3, c: UVec3)
    requires InBounds(size, c)
    ensures LocalIndices(size, LocalIndex(size, c)) == c
  {
    var i := LocalIndex(size, c);
    var row := size.y * c.z + c.y;
    DivModUnique(i, size.x, row, c.x);
    DivModUnique(row, size.y, c.z, c.y);
    DivOfDiv(i, size.x, size.y);
  }

  /** `GetBlockLocalIndex(GetBlockLocalIndices(i)) == i` below the voxel count. */
  lemma LocalIndexOfLocalIndices(size: UVec3, i: nat)
    requires i < Volume(size)
    ensures size.x > 0 && size.y > 0
    ensures InBounds(size, LocalIndices(size, i))
    ensures LocalIndex(size, LocalIndices(size, i)) == i
  {
    assert size.x > 0 && size.y > 0 && size.z > 0;
    var c := LocalIndices(size, i);
    var row := i / size.x;
    DivOfDiv(i, size.x, size.y);
    assert i == row * size.x + c.x;
    assert row == (row / size.y) * size.y + c.y;
    assert c.z == row / size.y;
    assert c.z < size.z by {
      if c.z >= size.z {
        MulLeMono(size.z, c.z, size.x * size.y);
        assert false;
      }
    }
  }

  /** The entry of an allocated block array at the voxel's linear index. */
  function BlockAt(size: UVec3, blocks: seq<BlockIndex>, c: UVec3): BlockIndex
    requires |blocks| == Volume(size) && InBounds(size, c)
  {
    LocalIndexBound(size, c);
    blocks[LocalIndex(size, c)]
  }

  /** Linear index reached by a z, y, x scan of the grid when it is at (x, y, z). */
  function ScanIndex(size: UVec3, x: nat, y: nat, z: nat): nat {
    size.x * (size.y * z + y) + x
  }

  /** At an in-bounds voxel the scan index is that voxel's linear index. */
  lemma ScanAt(size: UVec3, c: UVec3)
    requires InBounds(size, c)
    ensures ScanIndex(size, c.x, c.y, c.z) == LocalIndex(size, c) < Volume(size)
    ensures ScanIndex(size, c.x + 1, c.y, c.z) == LocalIndex(size, c) + 1
  {
    LocalIndexBound(size, c);
  }

  /** The end of a row of the scan is the start of the next row. */
  lemma RowEnd(size: UVec3, y: nat, z: nat)
    requires y < size.y && z < size.z
    ensures ScanIndex(size, size.x, y, z) == ScanIndex(size, 0, y + 1, z) <= Volume(size)
  {
    assert size.x * (size.y * z + y) + size.x == size.x * (size.y * z + y + 1);
    MulLeMono(z + 1, size.z, size.y);
    assert size.y * (z + 1) == size.y * z + size.y;
    MulLeMono(size.y * z + y + 1, size.y * size.z, size.x);
    assert size.x * (size.y * size.z) == Volume(size);
  }

  /** The end of a layer of the scan is the start of the next layer. */
  lemma LayerEnd(size: UVec3, z: nat)
    requires z < size.z
    ensures ScanIndex(size, 0, size.y, z) == ScanIndex(size, 0, 0, z + 1) <= Volume(size)
  {
    assert size.y * z + size.y == size.y * (z + 1);
    MulLeMono(z + 1, size.z, size.y);
    MulLeMono(size.y * (z + 1), size.y * size.z, size.x);
    assert size.x * (size.y * size.z) == Volume(size);
  }

  /** After the last layer the scan has covered every voxel. */
  lemma ScanDone(size: UVec3)
    ensures ScanIndex(size, 0, 0, size.z) == Volume(size)
  {
  }

  /** The two geometry variants of a chunk, chosen once at creation. */
  datatype ChunkKind = Flat | Deformed

  /** `std::vector::resize(n, fill)`. */
  function Resize<T>(s: seq<T>, n: nat, fill: T): (r: seq<T>)
    ensures |r| == n
    ensures forall i :: 0 <= i < n ==> r[i] == if i < |s| then s[i] else fill
  {
    if |s| >= n then s[..n] else s + seq(n - |s|, _ => fill)
  }

  /** A slot of the `std::vector<Nz::UInt16>` histogram keeps its value modulo 2^16. */
  function ToUInt16(v: nat): (r: nat)
    ensures r < 0x1_0000
    ensures v < 0x1_0000 ==> r == v
  {
    v % 0x1_0000
  }

  class Chunk {
    const size: UVec3
    const indices: IVec3
    const kind: ChunkKind

    /** `m_blocks`: empty until the first reset, then one entry per voxel. */
    var blocks: seq<BlockIndex>
    /** `m_blockTypeCount`: occupancy count per block type. */
    var blockTypeCount: seq<nat>
    /** `m_collisionCellMask`: one bit per voxel. */
    var collisionCellMask: seq<bool>
    var hasPerFaceCollision: bool
    /** Number of `OnChunkReset` notifications raised so far. */
    var resetSignals: nat
    /** The `OnBlockUpdated` notifications raised so far, oldest first. */
    var blockUpdates: seq<(UVec3, BlockIndex)>

    ghost predicate Valid()
      reads this
    {
      && (|blocks| == 0 || |blocks| == Volume(size))
      && |collisionCellMask| == |blocks|
      && (|blocks| > 0 ==> |blockTypeCount| > EmptyBlockIndex)
    }

    constructor (size: UVec3, indices: IVec3, kind: ChunkKind)
      ensures Valid()
      ensures this.size == size && this.indices == indices && this.kind == kind
      ensures blocks == [] && blockTypeCount == [] && collisionCellMask == []
      ensures !hasPerFaceCollision && resetSignals == 0 && blockUpdates == []
    {
      this.size := size;
      this.indices := indices;
      this.kind := kind;
      blocks := [];
      blockTypeCount := [];
      collisionCellMask := [];
      hasPerFaceCollision := false;
      resetSignals := 0;
      blockUpdates := [];
    }

    /** `Chunk::HasContent`. */
    predicate HasContent()
      reads this
    {
      |blocks| > 0
    }

    /** `Chunk::GetBlockCount`: the whole grid once content exists. */
    function GetBlockCount(): (n: nat)
      reads this
      requires Valid() && HasContent()
      ensures n == Volume(size) && n > 0
    {
      |blocks|
    }

    /** `Chunk::GetBlockContent(unsigned int)`. */
    function GetBlockContentAt(i: nat): BlockIndex
      reads this
      requires HasContent() && i < |blocks|
    {
      blocks[i]
    }

    /** `Chunk::GetBlockContent(const Vector3ui&)`: the entry at the voxel's linear index. */
    function GetBlockContent(c: UVec3): (b: BlockIndex)
      reads this
      requires Valid() && HasContent() && InBounds(size, c)
      ensures LocalIndex(size, c) < |blocks|
    {
      LocalIndexBound(size, c);
      GetBlockContentAt(LocalIndex(size, c))
    }

    /** `Chunk::GetCollisionCellMask`: one bit per voxel. */
    function GetCollisionCellMask(): (mask: seq<bool>)
      reads this
      requires Valid() && HasContent()
      ensures |mask| == GetBlockCount()
    {
      collisionCellMask
    }

    /** `Chunk::Reset()`: every voxel empty, every collision bit clear, the
        histogram truncated to `EmptyBlockIndex + 1` slots with the empty slot
        counting every voxel. Raises no reset notification. */
    method Reset()
      requires Valid()
      modifies this
      ensures Valid() && HasContent() == (Volume(size) > 0)
      ensures |blocks| == Volume(size)
      ensures forall i :: 0 <= i < |blocks| ==> blocks[i] == EmptyBlockIndex
      ensures |collisionCellMask| == |blocks|
      ensures forall i :: 0 <= i < |collisionCellMask| ==> !collisionCellMask[i]
      ensures |blockTypeCount| == EmptyBlockIndex + 1
      ensures blockTypeCount[EmptyBlockIndex] == ToUInt16(|blocks|)
      ensures hasPerFaceCollision == old(hasPerFaceCollision)
      ensures resetSignals == old(resetSignals) && blockUpdates == old(blockUpdates)
    {
      var n := Volume(size);
      blocks := seq(n, _ => EmptyBlockIndex);
      collisionCellMask := seq(n, _ => false);
      blockTypeCount := Resize(blockTypeCount, EmptyBlockIndex + 1, 0);
      blockTypeCount := blockTypeCount[EmptyBlockIndex := ToUInt16(n)];
    }

    /** First half of `Chunk::Reset(func)`: a chunk without content gets an
        all-empty grid and its bookkeeping; a chunk with content is left as is. */
    method PrepareContent()
      requires Valid()
      modifies this
      ensures Valid()
      ensures |blocks| == Volume(size)
      ensures old(HasContent()) ==> blocks == old(blocks) && collisionCellMask == old(collisionCellMask) && blockTypeCount == old(blockTypeCount)
      ensures !old(HasContent()) ==> (forall i :: 0 <= i < |blocks| ==> blocks[i] == EmptyBlockIndex)
      ensures !old(HasContent()) ==> (forall i :: 0 <= i < |collisionCellMask| ==> !collisionCellMask[i])
      ensures !old(HasContent()) ==> |blockTypeCount| == EmptyBlockIndex + 1 && blockTypeCount[EmptyBlockIndex] == ToUInt16(|blocks|)
      ensures hasPerFaceCollision == old(hasPerFaceCollision)
      ensures resetSignals == old(resetSignals) && blockUpdates == old(blockUpdates)
    {
      if !HasContent() {
        var n := Volume(size);
        blocks := seq(n, _ => EmptyBlockIndex);
        collisionCellMask := seq(n, _ => false);
        blockTypeCount := Resize(blockTypeCount, EmptyBlockIndex + 1, 0);
        blockTypeCount := blockTypeCount[EmptyBlockIndex := ToUInt16(n)];
      }
    }

    /** Second half of `Chunk::Reset(func)`: the content the callback wrote
        through `blockIndexPtr`, then `OnChunkReset`. */
    method FinishReset(content: seq<BlockIndex>)
      requires Valid() && |content| == |blocks| == Volume(size)
      modifies this
      ensures Valid()
      ensures blocks == content
      ensures collisionCellMask == old(collisionCellMask) && blockTypeCount == old(blockTypeCount)
      ensures hasPerFaceCollision == old(hasPerFaceCollision)
      ensures resetSignals == old(resetSignals) + 1 && blockUpdates == old(blockUpdates)
    {
      blocks := content;
      resetSignals := resetSignals + 1;
    }

    /** `Chunk::Reset(func)`: `func` sees the existing content, or an all-empty
        grid when there was none, and its output becomes the content. */
    method ResetWith(fill: seq<BlockIndex> -> seq<BlockIndex>)
      requires Valid()
      requires forall s: seq<BlockIndex> :: |s| == Volume(size) ==> |fill(s)| == |s|
      modifies this
      ensures Valid() && |blocks| == Volume(size)
      ensures old(HasContent()) ==> blocks == fill(old(blocks))
      ensures !old(HasContent()) ==> blocks == fill(seq(Volume(size), _ => EmptyBlockIndex))
      ensures old(HasContent()) ==> collisionCellMask == old(collisionCellMask) && blockTypeCount == old(blockTypeCount)
      ensures !old(HasContent()) ==> (forall i :: 0 <= i < |collisionCellMask| ==> !collisionCellMask[i])
      ensures !old(HasContent()) ==> |blockTypeCount| == EmptyBlockIndex + 1 && blockTypeCount[EmptyBlockIndex] == ToUInt16(Volume(size))
      ensures hasPerFaceCollision == old(hasPerFaceCollision)
      ensures resetSignals == old(resetSignals) + 1 && blockUpdates == old(blockUpdates)
    {
      PrepareContent();
      assert !old(HasContent()) ==> blocks == seq(Volume(size), _ => EmptyBlockIndex);
      FinishReset(fill(blocks));
    }

    /** `Chunk::SetPerFaceCollision`: the flag can only be raised. */
    method SetPerFaceCollision()
      modifies this`hasPerFaceCollision
      ensures hasPerFaceCollision
    {
      hasPerFaceCollision := true;
    }

    /** The visible part of `Chunk::UpdateBlock`: one voxel takes the new type
        and `OnBlockUpdated` is raised with its coordinates. What the
        implementation does to the histogram and the collision mask is not
        stated; they keep their lengths, as `Valid` demands. */
    method UpdateBlock(c: UVec3, b: BlockIndex)
      requires Valid() && HasContent() && InBounds(size, c)
      modifies this
      ensures Valid() && LocalIndex(size, c) < |blocks|
      ensures blocks == old(blocks)[LocalIndex(size, c) := b]
      ensures hasPerFaceCollision == old(hasPerFaceCollision) && resetSignals == old(resetSignals)
      ensures blockUpdates == old(blockUpdates) + [(c, b)]
    {
      LocalIndexBound(size, c);
      blocks := blocks[LocalIndex(size, c) := b];
      blockUpdates := blockUpdates + [(c, b)];
    }
  }

  /** For the 32-wide chunks of planets and ships the empty-slot count after a
      reset is exact: 32768 fits in the 16-bit histogram slot. */
  lemma ChunkSizeCountFits()
    ensures ToUInt16(Volume(Cube(ChunkSize))) == Volume(Cube(ChunkSize)) == 32768
  {
  }

  /** The notifications a chunk container (`ChunkContainer`) raises about its
      chunks: `OnChunkAdded`, `OnChunkUpdated` with the directions whose
      neighbours must refresh, and `OnChunkRemove`. */
  datatype ContainerEvent =
    | ChunkAdded(key: IVec3)
    | ChunkUpdated(key: IVec3, mask: DirectionMask)
    | ChunkRemove(key: IVec3)
}
