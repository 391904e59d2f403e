/** Face culling mesh builder (`Chunk::BuildMesh`) and the face callback that
    `DeformedChunk::BuildCollider` hands to it. Corner positions are floats and
    stay symbolic: a vertex is "corner k of voxel c". */
module Mesh {
  import opened Voxel
  import opened Chunks

  /** The offset `GetNeighborBlock` is asked about for a face direction. */
  function DirectionOffset(d: Direction): (o: IVec3)
    ensures (if o.x < 0 then -o.x else o.x) + (if o.y < 0 then -o.y else o.y) + (if o.z < 0 then -o.z else o.z) == 1
  {
    match d
    case Up => IVec3(0, 0, 1)
    case Down => IVec3(0, 0, -1)
    case Front => IVec3(0, -1, 0)
    case Back => IVec3(0, 1, 0)
    case Left => IVec3(-1, 0, 0)
    case Right => IVec3(1, 0, 0)
  }

  /** Opposite faces look at opposite neighbours. */
  lemma OppositeOffsets()
    ensures DirectionOffset(Up) == IVec3(-DirectionOffset(Down).x, -DirectionOffset(Down).y, -DirectionOffset(Down).z)
    ensures DirectionOffset(Back) == IVec3(-DirectionOffset(Front).x, -DirectionOffset(Front).y, -DirectionOffset(Front).z)
    ensures DirectionOffset(Right) == IVec3(-DirectionOffset(Left).x, -DirectionOffset(Left).y, -DirectionOffset(Left).z)
  {
  }

  /** Order in which the six neighbour tests of one voxel run. */
  const FaceOrder: seq<Direction> := [Up, Down, Front, Back, Left, Right]

  /** `Nz::BoxCorner`. The box of a voxel is built with its y and z swapped,
      so Top/Bottom follow the voxel z axis and Far/Near the y axis. */
  datatype BoxCorner =
    | FarLeftBottom | FarLeftTop | FarRightBottom | FarRightTop
    | NearLeftBottom | NearLeftTop | NearRightBottom | NearRightTop

  predicate IsFar(k: BoxCorner) { k.FarLeftBottom? || k.FarLeftTop? || k.FarRightBottom? || k.FarRightTop? }
  predicate IsRight(k: BoxCorner) { k.FarRightBottom? || k.FarRightTop? || k.NearRightBottom? || k.NearRightTop? }
  predicate IsTop(k: BoxCorner) { k.FarLeftTop? || k.FarRightTop? || k.NearLeftTop? || k.NearRightTop? }

  /** The side of the voxel box that the face in direction `d` lies on. */
  predicate OnSide(k: BoxCorner, d: Direction) {
    match d
    case Up => IsTop(k)
    case Down => !IsTop(k)
    case Front => IsFar(k)
    case Back => !IsFar(k)
    case Left => !IsRight(k)
    case Right => IsRight(k)
  }

  /** Two corners of one side that differ in both of that side's other axes. */
  predicate Diagonal(a: BoxCorner, b: BoxCorner) {
    (if IsFar(a) == IsFar(b) then 0 else 1)
      + (if IsRight(a) == IsRight(b) then 0 else 1)
      + (if IsTop(a) == IsTop(b) then 0 else 1) == 2
  }

  /** Two corners joined by one edge of the box. */
  predicate Adjacent(a: BoxCorner, b: BoxCorner) {
    (if IsFar(a) == IsFar(b) then 0 else 1)
      + (if IsRight(a) == IsRight(b) then 0 else 1)
      + (if IsTop(a) == IsTop(b) then 0 else 1) == 1
  }

  /** The four corners `DrawFace` receives for a face: four distinct corners
      of that side, ordered so that corners 1 and 2 are the diagonal the two
      triangles share and every other consecutive pair of the quad is an edge. */
  function FaceCorners(d: Direction): (r: seq<BoxCorner>)
    ensures |r| == 4
    ensures forall i :: 0 <= i < 4 ==> OnSide(r[i], d)
    ensures forall i, j :: 0 <= i < j < 4 ==> r[i] != r[j]
  {
    match d
    case Up => [FarLeftTop, FarRightTop, NearLeftTop, NearRightTop]
    case Down => [FarRightBottom, FarLeftBottom, NearRightBottom, NearLeftBottom]
    case Front => [FarRightTop, FarLeftTop, FarRightBottom, FarLeftBottom]
    case Back => [NearLeftTop, NearRightTop, NearLeftBottom, NearRightBottom]
    case Left => [FarLeftTop, NearLeftTop, FarLeftBottom, NearLeftBottom]
    case Right => [NearRightTop, FarRightTop, NearRightBottom, FarRightBottom]
  }

  /** The six indices `DrawFace` appends for a face whose vertices start at `f`:
      two triangles over the four vertices, sharing the edge (f+1, f+2). */
  function QuadIndices(f: nat): (r: seq<nat>)
    ensures |r| == 6
    ensures forall i :: 0 <= i < 6 ==> f <= r[i] < f + 4
  {
    [f, f + 2, f + 1, f + 1, f + 2, f + 3]
  }

  /** The two triangles of a quad: (f, f+2, f+1) and (f+1, f+2, f+3), which
      share the diagonal f+1, f+2 and together cover the four vertices. */
  lemma QuadTriangles(f: nat)
    ensures {QuadIndices(f)[0], QuadIndices(f)[1], QuadIndices(f)[2]} == {f, f + 1, f + 2}
    ensures {QuadIndices(f)[3], QuadIndices(f)[4], QuadIndices(f)[5]} == {f + 1, f + 2, f + 3}
  {
  }

  /** A texture coordinate: a corner of the unit square and an array slice. */
  datatype UV = UV(u: nat, v: nat, slice: nat)

  /** The UVs `DrawFace` writes when the vertex stream has them: the four
      corners of the unit square, all on the block's slice for that face. */
  function FaceUvs(slice: nat): (r: seq<UV>)
    ensures |r| == 4
    ensures forall i :: 0 <= i < 4 ==> r[i].slice == slice && r[i].u <= 1 && r[i].v <= 1
    ensures forall i, j :: 0 <= i < j < 4 ==> r[i] != r[j]
  {
    [UV(0, 0, slice), UV(1, 0, slice), UV(0, 1, slice), UV(1, 1, slice)]
  }

  /** The two triangles of a face share the diagonal from corner 1 to
      corner 2; corners 0 and 3 are the other diagonal. */
  lemma FaceCornersDiagonals(d: Direction)
    ensures Diagonal(FaceCorners(d)[1], FaceCorners(d)[2]) && Diagonal(FaceCorners(d)[0], FaceCorners(d)[3])
  {
    match d
    case Up =>
    case Down =>
    case Front =>
    case Back =>
    case Left =>
    case Right =>
  }

  /** The other sides of the two triangles are edges of the box. */
  lemma FaceCornersEdges(d: Direction)
    ensures var r := FaceCorners(d);
      Adjacent(r[0], r[1]) && Adjacent(r[0], r[2]) && Adjacent(r[1], r[3]) && Adjacent(r[2], r[3])
  {
    match d
    case Up =>
    case Down =>
    case Front =>
    case Back =>
    case Left =>
    case Right =>
  }

  /** `GetNeighborBlock(c, offset)`: the neighbouring voxel's content, or
      nothing when no chunk holds it. Its body is not part of this model. */
  type NeighborQuery = (UVec3, IVec3) -> Option<BlockIndex>

  /** The rule of the six neighbour tests: a face is drawn when its
      neighbour is absent or empty. */
  predicate Exposed(neighbor: NeighborQuery, c: UVec3, d: Direction) {
    var n := neighbor(c, DirectionOffset(d));
    n.None? || n.value == EmptyBlockIndex
  }

  datatype Face = Face(voxel: UVec3, direction: Direction)

  function FaceIf(b: bool, c: UVec3, d: Direction): seq<Face> {
    if b then [Face(c, d)] else []
  }

  /** Faces produced by running the neighbour tests `ds` in order on voxel `c`. */
  function TestFaces(neighbor: NeighborQuery, c: UVec3, ds: seq<Direction>): seq<Face> {
    if |ds| == 0 then []
    else TestFaces(neighbor, c, ds[..|ds| - 1]) + FaceIf(Exposed(neighbor, c, ds[|ds| - 1]), c, ds[|ds| - 1])
  }

  /** Faces a voxel contributes, in the order of its six tests. */
  function VoxelFaces(content: BlockIndex, neighbor: NeighborQuery, c: UVec3): seq<Face> {
    if content == EmptyBlockIndex then [] else TestFaces(neighbor, c, FaceOrder)
  }

  /** The voxel coordinates in linear-index order. */
  function Cells(size: UVec3): (cells: seq<UVec3>)
    ensures |cells| == Volume(size)
    ensures forall i :: 0 <= i < |cells| ==> InBounds(size, cells[i])
  {
    seq(Volume(size), i requires 0 <= i < Volume(size) => CellAt(size, i))
  }

  /** The voxel at linear index `i`. */
  function CellAt(size: UVec3, i: nat): (c: UVec3)
    requires i < Volume(size)
    ensures InBounds(size, c) && LocalIndex(size, c) == i
  {
    LocalIndexOfLocalIndices(size, i);
    LocalIndices(size, i)
  }

  /** Every cell sits at its own linear index. */
  lemma CellsAt(size: UVec3, c: UVec3)
    requires InBounds(size, c)
    ensures LocalIndex(size, c) < Volume(size) && Cells(size)[LocalIndex(size, c)] == c
  {
    LocalIndexBound(size, c);
    LocalIndicesOfLocalIndex(size, c);
  }

  /** Faces of the first `k` cells, cell by cell. */
  function FacesOf(blocks: seq<BlockIndex>, cells: seq<UVec3>, neighbor: NeighborQuery, k: nat): seq<Face>
    requires |cells| == |blocks| && k <= |blocks|
  {
    if k == 0 then []
    else FacesOf(blocks, cells, neighbor, k - 1) + VoxelFaces(blocks[k - 1], neighbor, cells[k - 1])
  }

  /** All faces `BuildMesh` emits for a chunk: those of every voxel in the
      z, then y, then x scan order, which is linear-index order. */
  function ExposedFaces(size: UVec3, blocks: seq<BlockIndex>, neighbor: NeighborQuery): seq<Face>
    requires |blocks| == Volume(size)
  {
    FacesOf(blocks, Cells(size), neighbor, |blocks|)
  }

  /** Indices appended for `faces` when the first face's vertices start at `base`. */
  function MeshIndices(base: nat, faces: seq<Face>): (r: seq<nat>)
    ensures |r| == 6 * |faces|
  {
    if |faces| == 0 then []
    else MeshIndices(base, faces[..|faces| - 1]) + QuadIndices(base + 4 * (|faces| - 1))
  }

  datatype VertexPos = Unwritten | CornerOf(voxel: UVec3, corner: BoxCorner)

  function CornerPositions(c: UVec3, ks: seq<BoxCorner>): (r: seq<VertexPos>)
    ensures |r| == |ks|
    ensures forall i :: 0 <= i < |ks| ==> r[i] == CornerOf(c, ks[i])
  {
    if |ks| == 0 then [] else CornerPositions(c, ks[..|ks| - 1]) + [CornerOf(c, ks[|ks| - 1])]
  }

  /** Positions written for `faces`, four per face. */
  function MeshPositions(faces: seq<Face>): (r: seq<VertexPos>)
    ensures |r| == 4 * |faces|
  {
    if |faces| == 0 then []
    else
      var f := faces[|faces| - 1];
      MeshPositions(faces[..|faces| - 1]) + CornerPositions(f.voxel, FaceCorners(f.direction))
  }

  /** The collider's triangle tag (`DeformedChunk.cpp`, the face callback):
      the voxel's linear index times six plus the face direction. */
  function TriangleTag(size: UVec3, f: Face): nat
    requires InBounds(size, f.voxel)
  {
    LocalIndex(size, f.voxel) * 6 + DirectionIndex(f.direction)
  }

  predicate AllInBounds(size: UVec3, faces: seq<Face>) {
    forall i :: 0 <= i < |faces| ==> InBounds(size, faces[i].voxel)
  }

  /** Userdata appended for `faces`: the tag twice per face, one per triangle. */
  function MeshTags(size: UVec3, faces: seq<Face>): (r: seq<nat>)
    requires AllInBounds(size, faces)
    ensures |r| == 2 * |faces|
  {
    if |faces| == 0 then []
    else
      var f := faces[|faces| - 1];
      MeshTags(size, faces[..|faces| - 1]) + [TriangleTag(size, f), TriangleTag(size, f)]
  }

  // ----- properties of the specification -----

  lemma {:induction false} MeshIndicesAppend(base: nat, a: seq<Face>, b: seq<Face>)
    ensures MeshIndices(base, a + b) == MeshIndices(base, a) + MeshIndices(base + 4 * |a|, b)
    decreases |b|
  {
    if |b| > 0 {
      var b' := b[..|b| - 1];
      assert (a + b)[..|a + b| - 1] == a + b';
      MeshIndicesAppend(base, a, b');
      var q := QuadIndices(base + 4 * |a| + 4 * |b'|);
      assert base + 4 * (|a + b| - 1) == base + 4 * |a| + 4 * |b'|;
      calc {
        MeshIndices(base, a + b);
        MeshIndices(base, a + b') + q;
        MeshIndices(base, a) + MeshIndices(base + 4 * |a|, b') + q;
        MeshIndices(base, a) + (MeshIndices(base + 4 * |a|, b') + q);
        MeshIndices(base, a) + MeshIndices(base + 4 * |a|, b);
      }
    } else {
      assert a + b == a;
    }
  }

  lemma {:induction false} MeshPositionsAppend(a: seq<Face>, b: seq<Face>)
    ensures MeshPositions(a + b) == MeshPositions(a) + MeshPositions(b)
    decreases |b|
  {
    if |b| > 0 {
      var b', f := b[..|b| - 1], b[|b| - 1];
      assert (a + b)[..|a + b| - 1] == a + b' && (a + b)[|a + b| - 1] == f;
      MeshPositionsAppend(a, b');
      AppendAssoc(MeshPositions(a), MeshPositions(b'), CornerPositions(f.voxel, FaceCorners(f.direction)));
    } else {
      assert a + b == a;
    }
  }

  lemma {:induction false} MeshTagsAppend(size: UVec3, a: seq<Face>, b: seq<Face>)
    requires AllInBounds(size, a) && AllInBounds(size, b)
    ensures AllInBounds(size, a + b)
    ensures MeshTags(size, a + b) == MeshTags(size, a) + MeshTags(size, b)
    decreases |b|
  {
    assert AllInBounds(size, a + b) by {
      forall i | 0 <= i < |a + b| ensures InBounds(size, (a + b)[i].voxel) {
        if i >= |a| { assert (a + b)[i] == b[i - |a|]; }
      }
    }
    if |b| > 0 {
      assert (a + b)[..|a + b| - 1] == a + b[..|b| - 1];
      MeshTagsAppend(size, a, b[..|b| - 1]);
    } else {
      assert a + b == a;
    }
  }

  /** Every index refers to a vertex allocated for one of the faces. */
  lemma {:induction false} MeshIndicesInRange(base: nat, faces: seq<Face>)
    ensures forall i :: 0 <= i < |MeshIndices(base, faces)| ==>
      base <= MeshIndices(base, faces)[i] < base + 4 * |faces|
    decreases |faces|
  {
    if |faces| > 0 {
      MeshIndicesInRange(base, faces[..|faces| - 1]);
    }
  }

  lemma {:induction false} TestFacesSpec(neighbor: NeighborQuery, c: UVec3, ds: seq<Direction>, f: Face)
    ensures f in TestFaces(neighbor, c, ds) <==> f.voxel == c && f.direction in ds && Exposed(neighbor, c, f.direction)
    decreases |ds|
  {
    if |ds| > 0 {
      TestFacesSpec(neighbor, c, ds[..|ds| - 1], f);
      assert ds == ds[..|ds| - 1] + [ds[|ds| - 1]];
    }
  }

  /** The faces of one voxel: none for an empty voxel, otherwise exactly its
      exposed directions. */
  lemma VoxelFacesSpec(content: BlockIndex, neighbor: NeighborQuery, c: UVec3, f: Face)
    ensures f in VoxelFaces(content, neighbor, c) <==>
      content != EmptyBlockIndex && f.voxel == c && Exposed(neighbor, c, f.direction)
  {
    TestFacesSpec(neighbor, c, FaceOrder, f);
    assert f.direction in FaceOrder by {
      match f.direction
      case Up => assert FaceOrder[0] == Up;
      case Down => assert FaceOrder[1] == Down;
      case Front => assert FaceOrder[2] == Front;
      case Back => assert FaceOrder[3] == Back;
      case Left => assert FaceOrder[4] == Left;
      case Right => assert FaceOrder[5] == Right;
    }
  }

  /** A face is among those of the first `k` cells exactly when one of those
      cells is its voxel, is not empty, and has that face exposed. */
  lemma {:induction false} FacesOfSpec(blocks: seq<BlockIndex>, cells: seq<UVec3>, neighbor: NeighborQuery, k: nat, f: Face)
    requires |cells| == |blocks| && k <= |blocks|
    ensures f in FacesOf(blocks, cells, neighbor, k) <==>
      exists i :: 0 <= i < k && cells[i] == f.voxel && blocks[i] != EmptyBlockIndex
        && Exposed(neighbor, f.voxel, f.direction)
    decreases k
  {
    if k > 0 {
      FacesOfSpec(blocks, cells, neighbor, k - 1, f);
      VoxelFacesSpec(blocks[k - 1], neighbor, cells[k - 1], f);
    }
  }

  lemma {:induction false} FacesOfInBounds(size: UVec3, blocks: seq<BlockIndex>, cells: seq<UVec3>, neighbor: NeighborQuery, k: nat)
    requires |cells| == |blocks| && k <= |blocks|
    requires forall i :: 0 <= i < |cells| ==> InBounds(size, cells[i])
    ensures AllInBounds(size, FacesOf(blocks, cells, neighbor, k))
    decreases k
  {
    if k > 0 {
      FacesOfInBounds(size, blocks, cells, neighbor, k - 1);
      var v := VoxelFaces(blocks[k - 1], neighbor, cells[k - 1]);
      forall i | 0 <= i < |v| ensures InBounds(size, v[i].voxel) {
        VoxelFacesSpec(blocks[k - 1], neighbor, cells[k - 1], v[i]);
      }
      MeshTagsAppend(size, FacesOf(blocks, cells, neighbor, k - 1), v);
    }
  }

  /** The faces `BuildMesh` emits are exactly the exposed faces of the
      non-empty voxels of the chunk. */
  lemma ExposedFacesSpec(size: UVec3, blocks: seq<BlockIndex>, neighbor: NeighborQuery, f: Face)
    requires |blocks| == Volume(size)
    ensures f in ExposedFaces(size, blocks, neighbor) <==>
      InBounds(size, f.voxel) && BlockAt(size, blocks, f.voxel) != EmptyBlockIndex
      && Exposed(neighbor, f.voxel, f.direction)
  {
    var cells := Cells(size);
    FacesOfSpec(blocks, cells, neighbor, |blocks|, f);
    if f in ExposedFaces(size, blocks, neighbor) {
      var i :| 0 <= i < |blocks| && cells[i] == f.voxel && blocks[i] != EmptyBlockIndex
        && Exposed(neighbor, f.voxel, f.direction);
      LocalIndexOfLocalIndices(size, i);
      assert cells[i] == LocalIndices(size, i);
    }
    if InBounds(size, f.voxel) {
      CellsAt(size, f.voxel);
      var li := LocalIndex(size, f.voxel);
      if blocks[li] != EmptyBlockIndex && Exposed(neighbor, f.voxel, f.direction) {
        assert 0 <= li < |blocks| && cells[li] == f.voxel;
      }
    }
  }

  // ----- the face callback -----

  /** The state behind the `addFace` callback of `DeformedChunk::BuildCollider`:
      the vertex positions and one userdata entry per triangle. */
  class FaceSink {
    const size: UVec3
    var positions: seq<VertexPos>
    var triangleUserdata: seq<nat>

    constructor (size: UVec3)
      ensures this.size == size && positions == [] && triangleUserdata == []
    {
      this.size := size;
      positions := [];
      triangleUserdata := [];
    }

    /** The callback: four fresh vertex slots starting at the previous vertex
        count, and the face's tag pushed twice. */
    method AddFace(c: UVec3, d: Direction) returns (firstIndex: nat)
      requires InBounds(size, c)
      modifies this
      ensures firstIndex == old(|positions|)
      ensures positions == old(positions) + [Unwritten, Unwritten, Unwritten, Unwritten]
      ensures triangleUserdata == old(triangleUserdata) + [TriangleTag(size, Face(c, d)), TriangleTag(size, Face(c, d))]
    {
      firstIndex := |positions|;
      positions := positions + [Unwritten, Unwritten, Unwritten, Unwritten];
      var tag := LocalIndex(size, c) * 6 + DirectionIndex(d);
      triangleUserdata := triangleUserdata + [tag, tag];
    }

    /** `vertexAttributes.position[i] = pos[i]` for the four vertices of a face. */
    method WritePositions(first: nat, pos: seq<VertexPos>)
      requires |pos| == 4 && first + 4 <= |positions|
      modifies this`positions
      ensures positions == old(positions[..first]) + pos + old(positions[first + 4..])
    {
      positions := positions[..first] + pos + positions[first + 4..];
    }
  }

  // ----- the builder -----

  lemma AppendAssoc<T>(a: seq<T>, b: seq<T>, c: seq<T>)
    ensures a + b + c == a + (b + c)
  {
  }

  /** `DrawFace`: ask the callback for four vertices, write the face's corners
      into them and append the two triangles. */
  method DrawFace(sink: FaceSink, c: UVec3, d: Direction, indices: seq<nat>) returns (indices': seq<nat>)
    requires InBounds(sink.size, c)
    modifies sink
    ensures sink.positions == old(sink.positions) + CornerPositions(c, FaceCorners(d))
    ensures sink.triangleUserdata == old(sink.triangleUserdata) + [TriangleTag(sink.size, Face(c, d)), TriangleTag(sink.size, Face(c, d))]
    ensures indices' == indices + QuadIndices(old(|sink.positions|))
  {
    var first := sink.AddFace(c, d);
    sink.WritePositions(first, CornerPositions(c, FaceCorners(d)));
    indices' := indices + QuadIndices(first);
  }

  /** One more face extends the running position specification by its corners. */
  lemma PositionsStep(p0: seq<VertexPos>, done: seq<Face>, face: Face, P: seq<VertexPos>)
    requires P == p0 + MeshPositions(done)
    ensures P + CornerPositions(face.voxel, FaceCorners(face.direction)) == p0 + MeshPositions(done + [face])
  {
    assert (done + [face])[..|done|] == done;
    AppendAssoc(p0, MeshPositions(done), CornerPositions(face.voxel, FaceCorners(face.direction)));
  }

  /** One more face extends the running tag specification by its two tags. */
  lemma TagsStep(size: UVec3, t0: seq<nat>, done: seq<Face>, face: Face, T: seq<nat>)
    requires AllInBounds(size, done) && InBounds(size, face.voxel)
    requires T == t0 + MeshTags(size, done)
    ensures AllInBounds(size, done + [face])
    ensures T + [TriangleTag(size, face), TriangleTag(size, face)] == t0 + MeshTags(size, done + [face])
  {
    assert (done + [face])[..|done|] == done;
    assert AllInBounds(size, done + [face]) by {
      forall i | 0 <= i < |done| + 1 ensures InBounds(size, (done + [face])[i].voxel) {
        if i < |done| { assert (done + [face])[i] == done[i]; }
      }
    }
    AppendAssoc(t0, MeshTags(size, done), [TriangleTag(size, face), TriangleTag(size, face)]);
  }

  /** One more face extends the running index specification by its quad. */
  lemma IndicesStep(i0: seq<nat>, base: nat, done: seq<Face>, face: Face, I: seq<nat>, n: nat)
    requires I == i0 + MeshIndices(base, done) && n == base + 4 * |done|
    ensures I + QuadIndices(n) == i0 + MeshIndices(base, done + [face])
  {
    assert (done + [face])[..|done|] == done;
    AppendAssoc(i0, MeshIndices(base, done), QuadIndices(n));
  }

  /** The six tests of a non-empty voxel, one after the other. */
  lemma VoxelFacesInOrder(content: BlockIndex, neighbor: NeighborQuery, c: UVec3)
    requires content != EmptyBlockIndex
    ensures VoxelFaces(content, neighbor, c) ==
      [] + FaceIf(Exposed(neighbor, c, Up), c, Up) + FaceIf(Exposed(neighbor, c, Down), c, Down)
      + FaceIf(Exposed(neighbor, c, Front), c, Front) + FaceIf(Exposed(neighbor, c, Back), c, Back)
      + FaceIf(Exposed(neighbor, c, Left), c, Left) + FaceIf(Exposed(neighbor, c, Right), c, Right)
  {
    var d1 := [Up];
    var d2 := d1 + [Down];
    var d3 := d2 + [Front];
    var d4 := d3 + [Back];
    var d5 := d4 + [Left];
    var d6 := d5 + [Right];
    assert d1 == [] + [Up];
    TestFacesSnoc(neighbor, c, [], Up);
    TestFacesSnoc(neighbor, c, d1, Down);
    TestFacesSnoc(neighbor, c, d2, Front);
    TestFacesSnoc(neighbor, c, d3, Back);
    TestFacesSnoc(neighbor, c, d4, Left);
    TestFacesSnoc(neighbor, c, d5, Right);
    assert d6 == FaceOrder;
  }

  lemma TestFacesSnoc(neighbor: NeighborQuery, c: UVec3, ds: seq<Direction>, d: Direction)
    ensures TestFaces(neighbor, c, ds + [d]) == TestFaces(neighbor, c, ds) + FaceIf(Exposed(neighbor, c, d), c, d)
  {
    assert (ds + [d])[..|ds|] == ds;
  }

  /** The sink and the index list hold what was there before (`p0`, `t0`,
      `i0`) followed by the share of the faces `done`. */
  ghost predicate Tracks(sink: FaceSink, p0: seq<VertexPos>, t0: seq<nat>, i0: seq<nat>, indices: seq<nat>, done: seq<Face>)
    reads sink
  {
    && AllInBounds(sink.size, done)
    && sink.positions == p0 + MeshPositions(done)
    && sink.triangleUserdata == t0 + MeshTags(sink.size, done)
    && indices == i0 + MeshIndices(|p0|, done)
  }

  /** Neighbour test `d` of voxel `c`: `DrawFace` when the face is exposed.
      The ghost parameters carry what the voxel's earlier tests appended. */
  method DrawIfExposed(sink: FaceSink, exposed: bool, c: UVec3, d: Direction, indices: seq<nat>,
                       ghost p0: seq<VertexPos>, ghost t0: seq<nat>, ghost i0: seq<nat>, ghost done: seq<Face>)
    returns (indices': seq<nat>, ghost done': seq<Face>)
    requires InBounds(sink.size, c)
    requires Tracks(sink, p0, t0, i0, indices, done)
    modifies sink
    ensures done' == done + FaceIf(exposed, c, d)
    ensures Tracks(sink, p0, t0, i0, indices', done')
  {
    indices', done' := indices, done + FaceIf(exposed, c, d);
    if exposed {
      var face := Face(c, d);
      PositionsStep(p0, done, face, sink.positions);
      TagsStep(sink.size, t0, done, face, sink.triangleUserdata);
      IndicesStep(i0, |p0|, done, face, indices, |sink.positions|);
      indices' := DrawFace(sink, c, d, indices);
    } else {
      assert done' == done;
    }
  }

  /** Three consecutive neighbour tests of voxel `c`. */
  method DrawThree(sink: FaceSink, neighbor: NeighborQuery, c: UVec3, d1: Direction, d2: Direction, d3: Direction,
                   indices: seq<nat>, ghost p0: seq<VertexPos>, ghost t0: seq<nat>, ghost i0: seq<nat>, ghost done: seq<Face>)
    returns (indices': seq<nat>, ghost done': seq<Face>)
    requires InBounds(sink.size, c)
    requires Tracks(sink, p0, t0, i0, indices, done)
    modifies sink
    ensures done' == done + FaceIf(Exposed(neighbor, c, d1), c, d1) + FaceIf(Exposed(neighbor, c, d2), c, d2)
                          + FaceIf(Exposed(neighbor, c, d3), c, d3)
    ensures Tracks(sink, p0, t0, i0, indices', done')
  {
    indices', done' := DrawIfExposed(sink, Exposed(neighbor, c, d1), c, d1, indices, p0, t0, i0, done);
    indices', done' := DrawIfExposed(sink, Exposed(neighbor, c, d2), c, d2, indices', p0, t0, i0, done');
    indices', done' := DrawIfExposed(sink, Exposed(neighbor, c, d3), c, d3, indices', p0, t0, i0, done');
  }

  /** The six neighbour tests of one non-empty voxel, in source order. */
  method DrawVoxel(sink: FaceSink, neighbor: NeighborQuery, c: UVec3, content: BlockIndex, indices: seq<nat>)
    returns (indices': seq<nat>)
    requires InBounds(sink.size, c) && content != EmptyBlockIndex
    modifies sink
    ensures AllInBounds(sink.size, VoxelFaces(content, neighbor, c))
    ensures sink.positions == old(sink.positions) + MeshPositions(VoxelFaces(content, neighbor, c))
    ensures sink.triangleUserdata == old(sink.triangleUserdata) + MeshTags(sink.size, VoxelFaces(content, neighbor, c))
    ensures indices' == indices + MeshIndices(old(|sink.positions|), VoxelFaces(content, neighbor, c))
  {
    ghost var p0, t0 := sink.positions, sink.triangleUserdata;
    ghost var done: seq<Face> := [];
    TracksStart(sink, indices);
    indices', done := DrawThree(sink, neighbor, c, Up, Down, Front, indices, p0, t0, indices, done);
    indices', done := DrawThree(sink, neighbor, c, Back, Left, Right, indices', p0, t0, indices, done);
    VoxelFacesInOrder(content, neighbor, c);
  }

  /** `Chunk::BuildMesh`: a z, y, x scan that draws the exposed faces of
      every non-empty voxel. The callback's vertices and tags and the index
      list grow by exactly the share of `ExposedFaces`, in scan order. */
  method BuildMesh(chunk: Chunk, neighbor: NeighborQuery, indices: seq<nat>, sink: FaceSink) returns (indices': seq<nat>)
    requires chunk.Valid() && |chunk.blocks| == Volume(chunk.size) && sink.size == chunk.size
    modifies sink
    ensures AllInBounds(chunk.size, ExposedFaces(chunk.size, chunk.blocks, neighbor))
    ensures sink.positions == old(sink.positions) + MeshPositions(ExposedFaces(chunk.size, chunk.blocks, neighbor))
    ensures sink.triangleUserdata == old(sink.triangleUserdata) + MeshTags(chunk.size, ExposedFaces(chunk.size, chunk.blocks, neighbor))
    ensures indices' == indices + MeshIndices(old(|sink.positions|), ExposedFaces(chunk.size, chunk.blocks, neighbor))
  {
    ghost var p0, t0 := sink.positions, sink.triangleUserdata;
    ghost var done: seq<Face> := [];
    indices' := indices;
    TracksStart(sink, indices);
    var z := 0;
    while z < chunk.size.z
      invariant z <= chunk.size.z && ScanIndex(chunk.size, 0, 0, z) <= Volume(chunk.size)
      invariant ScanPoint(chunk, neighbor, sink, p0, t0, indices, indices', done, ScanIndex(chunk.size, 0, 0, z))
    {
      indices', done := ScanLayer(chunk, neighbor, sink, z, indices', p0, t0, indices, done);
      LayerEnd(chunk.size, z);
      z := z + 1;
    }
    ScanDone(chunk.size);
    FacesOfInBounds(chunk.size, chunk.blocks, Cells(chunk.size), neighbor, |chunk.blocks|);
  }

  /** The scan has covered the first `k` voxels: `done` holds their faces
      and the sink and index list hold exactly their share. */
  ghost predicate ScanPoint(chunk: Chunk, neighbor: NeighborQuery, sink: FaceSink, p0: seq<VertexPos>, t0: seq<nat>,
                            i0: seq<nat>, indices: seq<nat>, done: seq<Face>, k: nat)
    reads chunk, sink
  {
    && chunk.Valid() && |chunk.blocks| == Volume(chunk.size) && sink.size == chunk.size
    && k <= |chunk.blocks|
    && done == FacesOf(chunk.blocks, Cells(chunk.size), neighbor, k)
    && Tracks(sink, p0, t0, i0, indices, done)
  }

  /** One pass of the y loop of the scan. */
  method ScanLayer(chunk: Chunk, neighbor: NeighborQuery, sink: FaceSink, z: nat, indices: seq<nat>,
                   ghost p0: seq<VertexPos>, ghost t0: seq<nat>, ghost i0: seq<nat>, ghost done: seq<Face>)
    returns (indices': seq<nat>, ghost done': seq<Face>)
    requires z < chunk.size.z
    requires ScanPoint(chunk, neighbor, sink, p0, t0, i0, indices, done, ScanIndex(chunk.size, 0, 0, z))
    modifies sink
    ensures ScanPoint(chunk, neighbor, sink, p0, t0, i0, indices', done', ScanIndex(chunk.size, 0, chunk.size.y, z))
  {
    indices', done' := indices, done;
    var y := 0;
    while y < chunk.size.y
      invariant y <= chunk.size.y
      invariant ScanPoint(chunk, neighbor, sink, p0, t0, i0, indices', done', ScanIndex(chunk.size, 0, y, z))
    {
      indices', done' := ScanRow(chunk, neighbor, sink, y, z, indices', p0, t0, i0, done');
      RowEnd(chunk.size, y, z);
      y := y + 1;
    }
  }

  /** One pass of the x loop of the scan. */
  method ScanRow(chunk: Chunk, neighbor: NeighborQuery, sink: FaceSink, y: nat, z: nat, indices: seq<nat>,
                 ghost p0: seq<VertexPos>, ghost t0: seq<nat>, ghost i0: seq<nat>, ghost done: seq<Face>)
    returns (indices': seq<nat>, ghost done': seq<Face>)
    requires y < chunk.size.y && z < chunk.size.z
    requires ScanPoint(chunk, neighbor, sink, p0, t0, i0, indices, done, ScanIndex(chunk.size, 0, y, z))
    modifies sink
    ensures ScanPoint(chunk, neighbor, sink, p0, t0, i0, indices', done', ScanIndex(chunk.size, chunk.size.x, y, z))
  {
    indices', done' := indices, done;
    var x := 0;
    while x < chunk.size.x
      invariant x <= chunk.size.x
      invariant ScanPoint(chunk, neighbor, sink, p0, t0, i0, indices', done', ScanIndex(chunk.size, x, y, z))
    {
      indices', done' := ScanStep(chunk, neighbor, sink, x, y, z, indices', p0, t0, i0, done');
      x := x + 1;
    }
  }

  /** The voxel at (x, y, z) of the scan. */
  method ScanStep(chunk: Chunk, neighbor: NeighborQuery, sink: FaceSink, x: nat, y: nat, z: nat, indices: seq<nat>,
                  ghost p0: seq<VertexPos>, ghost t0: seq<nat>, ghost i0: seq<nat>, ghost done: seq<Face>)
    returns (indices': seq<nat>, ghost done': seq<Face>)
    requires x < chunk.size.x && y < chunk.size.y && z < chunk.size.z
    requires ScanPoint(chunk, neighbor, sink, p0, t0, i0, indices, done, ScanIndex(chunk.size, x, y, z))
    modifies sink
    ensures ScanPoint(chunk, neighbor, sink, p0, t0, i0, indices', done', ScanIndex(chunk.size, x + 1, y, z))
  {
    ScanAt(chunk.size, UVec3(x, y, z));
    indices', done' := ScanVoxel(chunk, neighbor, sink, UVec3(x, y, z), indices, p0, t0, i0, done);
  }

  lemma TracksStart(sink: FaceSink, indices: seq<nat>)
    ensures Tracks(sink, sink.positions, sink.triangleUserdata, indices, indices, [])
  {
    assert sink.positions == sink.positions + MeshPositions([]);
    assert sink.triangleUserdata == sink.triangleUserdata + MeshTags(sink.size, []);
    assert indices == indices + MeshIndices(|sink.positions|, []);
  }

  /** The loop body of the scan: read the voxel, skip it when empty,
      otherwise run its six neighbour tests. */
  method ScanVoxel(chunk: Chunk, neighbor: NeighborQuery, sink: FaceSink, c: UVec3, indices: seq<nat>,
                   ghost p0: seq<VertexPos>, ghost t0: seq<nat>, ghost i0: seq<nat>, ghost done: seq<Face>)
    returns (indices': seq<nat>, ghost done': seq<Face>)
    requires InBounds(chunk.size, c) && LocalIndex(chunk.size, c) < Volume(chunk.size)
    requires ScanPoint(chunk, neighbor, sink, p0, t0, i0, indices, done, LocalIndex(chunk.size, c))
    modifies sink
    ensures ScanPoint(chunk, neighbor, sink, p0, t0, i0, indices', done', LocalIndex(chunk.size, c) + 1)
  {
    CellsAt(chunk.size, c);
    var content := chunk.GetBlockContent(c);
    indices', done' := indices, done;
    if content != EmptyBlockIndex {
      ghost var v := VoxelFaces(content, neighbor, c);
      ghost var q0, s0, j0 := sink.positions, sink.triangleUserdata, indices;
      indices' := DrawVoxel(sink, neighbor, c, content, indices);
      done' := done + v;
      PositionsAppend(p0, done, v, q0);
      TagsAppend(sink.size, t0, done, v, s0);
      IndicesAppend(i0, |p0|, done, v, j0, |q0|);
    } else {
      assert done' == done + VoxelFaces(content, neighbor, c);
    }
  }

  lemma PositionsAppend(p0: seq<VertexPos>, done: seq<Face>, v: seq<Face>, P: seq<VertexPos>)
    requires P == p0 + MeshPositions(done)
    ensures P + MeshPositions(v) == p0 + MeshPositions(done + v)
  {
    MeshPositionsAppend(done, v);
    AppendAssoc(p0, MeshPositions(done), MeshPositions(v));
  }

  lemma TagsAppend(size: UVec3, t0: seq<nat>, done: seq<Face>, v: seq<Face>, T: seq<nat>)
    requires AllInBounds(size, done) && AllInBounds(size, v)
    requires T == t0 + MeshTags(size, done)
    ensures AllInBounds(size, done + v)
    ensures T + MeshTags(size, v) == t0 + MeshTags(size, done + v)
  {
    MeshTagsAppend(size, done, v);
    AppendAssoc(t0, MeshTags(size, done), MeshTags(size, v));
  }

  lemma IndicesAppend(i0: seq<nat>, base: nat, done: seq<Face>, v: seq<Face>, I: seq<nat>, n: nat)
    requires I == i0 + MeshIndices(base, done) && n == base + 4 * |done|
    ensures I + MeshIndices(n, v) == i0 + MeshIndices(base, done + v)
  {
    MeshIndicesAppend(base, done, v);
    AppendAssoc(i0, MeshIndices(base, done), MeshIndices(n, v));
  }
}
