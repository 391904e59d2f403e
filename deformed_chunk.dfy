/** The deformed chunk's collider (`DeformedChunk.cpp`): the mesh collider
    built through the face callback, the decoding of a triangle's tag back
    into the voxel face that was hit, and the position deformation loop. */
module DeformedChunks {
  import opened Voxel
  import opened Chunks
  import opened Mesh

  /** `Chunk::HitBlock`: the voxel that was hit and on which face. */
  datatype HitBlock = HitBlock(blockIndices: UVec3, direction: Direction)

  /** The parts of `Nz::MeshCollider3D::Settings` the collider is built from. */
  datatype MeshCollider = MeshCollider(indices: seq<nat>, vertices: seq<VertexPos>, triangleUserdata: seq<nat>)

  /** Decoding of a triangle tag: the face is the remainder by six and the
      voxel is `GetBlockLocalIndices` of the quotient. */
  function DecodeTag(size: UVec3, tag: nat): (h: HitBlock)
    requires size.x > 0 && size.y > 0
    ensures DirectionIndex(h.direction) == tag % 6
    ensures LocalIndices(size, tag / 6) == h.blockIndices
  {
    HitBlock(LocalIndices(size, tag / 6), DirectionFromIndex(tag % 6))
  }

  /** Decoding the tag of an in-bounds face gives that face back. */
  lemma DecodeTriangleTag(size: UVec3, f: Face)
    requires InBounds(size, f.voxel)
    ensures DecodeTag(size, TriangleTag(size, f)) == HitBlock(f.voxel, f.direction)
  {
    var tag := TriangleTag(size, f);
    DivModUnique(tag, 6, LocalIndex(size, f.voxel), DirectionIndex(f.direction));
    LocalIndicesOfLocalIndex(size, f.voxel);
    DirectionIndexInjective(f.direction);
  }

  /** Two faces with the same tag are the same face. */
  lemma TriangleTagInjective(size: UVec3, f: Face, g: Face)
    requires InBounds(size, f.voxel) && InBounds(size, g.voxel)
    requires TriangleTag(size, f) == TriangleTag(size, g)
    ensures f == g
  {
    DecodeTriangleTag(size, f);
    DecodeTriangleTag(size, g);
  }

  /** `DeformedChunk::ComputeHitCoordinates`. `GetSubCollider` belongs to
      the physics library: `subCollider` is its answer, the triangle
      userdata of the mesh collider it found, if any. */
  function ComputeHitCoordinates(size: UVec3, subCollider: Option<seq<nat>>, remainder: nat): (r: Option<HitBlock>)
    requires size.x > 0 && size.y > 0
    requires subCollider.Some? ==> remainder < |subCollider.value|
    ensures subCollider.None? <==> r.None?
    ensures r.Some? ==> r.value == DecodeTag(size, subCollider.value[remainder])
  {
    if subCollider.None? then None
    else Some(DecodeTag(size, subCollider.value[remainder]))
  }

  /** The tag of triangle `t` belongs to face `t / 2`. */
  lemma {:induction false} MeshTagsAt(size: UVec3, faces: seq<Face>, t: nat)
    requires AllInBounds(size, faces) && t < 2 * |faces|
    ensures MeshTags(size, faces)[t] == TriangleTag(size, faces[t / 2])
    decreases |faces|
  {
    var n := |faces| - 1;
    if t < 2 * n {
      assert AllInBounds(size, faces[..n]) by {
        forall i | 0 <= i < n ensures InBounds(size, faces[..n][i].voxel) {
          assert faces[..n][i] == faces[i];
        }
      }
      MeshTagsAt(size, faces[..n], t);
      assert faces[..n][t / 2] == faces[t / 2];
    } else {
      DivModUnique(t, 2, n, t - 2 * n);
    }
  }

  /** The six indices of the two triangles of face `j / 6` point into that
      face's four vertices. */
  lemma {:induction false} MeshIndicesAt(base: nat, faces: seq<Face>, j: nat)
    requires j < 6 * |faces|
    ensures base + 4 * (j / 6) <= MeshIndices(base, faces)[j] < base + 4 * (j / 6) + 4
    decreases |faces|
  {
    var n := |faces| - 1;
    if j < 6 * n {
      MeshIndicesAt(base, faces[..n], j);
    } else {
      DivModUnique(j, 6, n, j - 6 * n);
      assert MeshIndices(base, faces)[j] == QuadIndices(base + 4 * n)[j - 6 * n];
    }
  }

  /** `DeformedChunk::BuildCollider`: the faces of the chunk tagged with
      their voxel and direction, or no collider when no face was drawn. */
  method BuildCollider(chunk: Chunk, neighbor: NeighborQuery) returns (r: Option<MeshCollider>)
    requires chunk.Valid() && chunk.HasContent()
    ensures r.None? <==> ExposedFaces(chunk.size, chunk.blocks, neighbor) == []
    ensures r.Some? ==>
      && AllInBounds(chunk.size, ExposedFaces(chunk.size, chunk.blocks, neighbor))
      && r.value.indices == MeshIndices(0, ExposedFaces(chunk.size, chunk.blocks, neighbor))
      && r.value.vertices == MeshPositions(ExposedFaces(chunk.size, chunk.blocks, neighbor))
      && r.value.triangleUserdata == MeshTags(chunk.size, ExposedFaces(chunk.size, chunk.blocks, neighbor))
      && 3 * |r.value.triangleUserdata| == |r.value.indices|
  {
    var sink := new FaceSink(chunk.size);
    var indices := BuildMesh(chunk, neighbor, [], sink);
    if |indices| == 0 {
      return None;
    }
    r := Some(MeshCollider(indices, sink.positions, sink.triangleUserdata));
  }

  /** What a ray hit on a collider built by `BuildCollider` reports for its
      triangle `t`: the face that triangle was drawn for. */
  lemma HitOnBuiltCollider(size: UVec3, faces: seq<Face>, t: nat)
    requires AllInBounds(size, faces) && t < |MeshTags(size, faces)|
    ensures size.x > 0 && size.y > 0
    ensures ComputeHitCoordinates(size, Some(MeshTags(size, faces)), t)
      == Some(HitBlock(faces[t / 2].voxel, faces[t / 2].direction))
  {
    MeshTagsAt(size, faces, t);
    assert InBounds(size, faces[t / 2].voxel);
    DecodeTriangleTag(size, faces[t / 2]);
  }

  /** `DeformedChunk::DeformPositions`: each of the first `positionCount`
      positions is replaced by its deformed value. `DeformPosition` is
      floating-point geometry and is a parameter here. */
  method DeformPositions<P>(positions: array<P>, positionCount: nat, deform: P -> P) returns (ok: bool)
    requires positionCount <= positions.Length
    modifies positions
    ensures ok
    ensures forall i :: 0 <= i < positionCount ==> positions[i] == deform(old(positions[i]))
    ensures forall i :: positionCount <= i < positions.Length ==> positions[i] == old(positions[i])
  {
    var i := 0;
    while i < positionCount
      invariant i <= positionCount
      invariant forall j :: 0 <= j < i ==> positions[j] == deform(old(positions[j]))
      invariant forall j :: i <= j < positions.Length ==> positions[j] == old(positions[j])
    {
      positions[i] := deform(positions[i]);
      i := i + 1;
    }
    return true;
  }
}
