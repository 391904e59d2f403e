/** The ship chunk container (`Ship.cpp`): flat chunks by their indices with
    the notifications the ship raises, its neighbour mask, the hull collider
    built from the chunk colliders, its gravity and the procedural hull. */
module Ships {
  import opened Voxel
  import opened Chunks
  import opened Planets

  /** Every ship chunk is a cube of `ChunkSize` voxels. */
  const ShipChunkSize: UVec3 := Cube(ChunkSize)

  /** The key of the one chunk `Ship::Generate` creates. */
  const ShipOrigin: IVec3 := IVec3(0, 0, 0)

  // ----- neighbour mask -----

  /** The directions `Ship`'s `OnBlockUpdated` slot reports for a block
      update at `c`: like the planet's on x and y, but the low z face is
      reported as `Up` and the high one as `Down`. */
  function ShipNeighborMask(size: UVec3, c: UVec3): DirectionMask {
    (if c.x == 0 then {Left} else if c.x == size.x - 1 then {Right} else {})
    + (if c.y == 0 then {Front} else if c.y == size.y - 1 then {Back} else {})
    + (if c.z == 0 then {Up} else if c.z == size.z - 1 then {Down} else {})
  }

  /** Each direction is in the mask exactly when the voxel lies on the face
      the ship associates with it. */
  lemma ShipNeighborMaskSpec(size: UVec3, c: UVec3)
    ensures var m := ShipNeighborMask(size, c);
      && (Left in m <==> c.x == 0) && (Right in m <==> c.x != 0 && c.x == size.x - 1)
      && (Front in m <==> c.y == 0) && (Back in m <==> c.y != 0 && c.y == size.y - 1)
      && (Up in m <==> c.z == 0) && (Down in m <==> c.z != 0 && c.z == size.z - 1)
  {
  }

  /** `Up` and `Down` exchanged, every other direction kept. */
  function FlipVertical(m: DirectionMask): (r: DirectionMask)
    ensures forall d :: d in r <==> (if d == Up then Down in m else if d == Down then Up in m else d in m)
  {
    (m - {Up, Down}) + (if Up in m then {Down} else {}) + (if Down in m then {Up} else {})
  }

  /** The ship reports the z faces the other way round from the planet: its
      mask is the planet's with `Up` and `Down` exchanged. */
  lemma {:induction false} ShipMaskIsFlippedPlanetMask(size: UVec3, c: UVec3)
    ensures ShipNeighborMask(size, c) == FlipVertical(PlanetNeighborMask(size, c))
  {
    PlanetNeighborMaskSpec(size, c);
    ShipNeighborMaskSpec(size, c);
    var s, f := ShipNeighborMask(size, c), FlipVertical(PlanetNeighborMask(size, c));
    forall d
      ensures d in s <==> d in f
    {
    }
  }

  /** So the two agree only off the z faces: a voxel on the bottom face of a
      chunk taller than one voxel is `Up` for the ship and `Down` for the planet. */
  lemma ShipPlanetBottomFace(size: UVec3, c: UVec3)
    requires c.z == 0 && size.z > 1
    ensures Up in ShipNeighborMask(size, c) && Up !in PlanetNeighborMask(size, c)
    ensures Down in PlanetNeighborMask(size, c) && Down !in ShipNeighborMask(size, c)
  {
  }

  /** An update strictly inside the chunk concerns no neighbour. */
  lemma ShipInteriorMask(size: UVec3, c: UVec3)
    requires 0 < c.x < size.x - 1 && 0 < c.y < size.y - 1 && 0 < c.z < size.z - 1
    ensures ShipNeighborMask(size, c) == {}
  {
  }

  // ----- block writes as a trace -----

  /** One `UpdateBlock`: the voxel and its new block type. */
  type Write = (UVec3, BlockIndex)

  /** Every written voxel lies in a grid of `size`. */
  predicate Fits(size: UVec3, ws: seq<Write>) {
    forall i :: 0 <= i < |ws| ==> InBounds(size, ws[i].0)
  }

  /** The block array after the writes `ws`, in order, on `s`. */
  function Apply(size: UVec3, s: seq<BlockIndex>, ws: seq<Write>): (r: seq<BlockIndex>)
    requires |s| == Volume(size) && Fits(size, ws)
    ensures |r| == |s|
    decreases |ws|
  {
    if ws == [] then s
    else
      var last := ws[|ws| - 1];
      LocalIndexBound(size, last.0);
      Apply(size, s, ws[..|ws| - 1])[LocalIndex(size, last.0) := last.1]
  }

  /** The type the last write to `c` in `ws` gives it, `d` when there is none. */
  function LastWrite(ws: seq<Write>, c: UVec3, d: BlockIndex): BlockIndex
    decreases |ws|
  {
    if ws == [] then d
    else if ws[|ws| - 1].0 == c then ws[|ws| - 1].1
    else LastWrite(ws[..|ws| - 1], c, d)
  }

  /** Writes applied in two batches are the writes of both, in order. */
  lemma {:induction false} ApplyAppend(size: UVec3, s: seq<BlockIndex>, a: seq<Write>, b: seq<Write>)
    requires |s| == Volume(size) && Fits(size, a) && Fits(size, b)
    ensures Fits(size, a + b)
    ensures Apply(size, s, a + b) == Apply(size, Apply(size, s, a), b)
    decreases |b|
  {
    if b != [] {
      var b' := b[..|b| - 1];
      assert (a + b)[..|a + b| - 1] == a + b';
      ApplyAppend(size, s, a, b');
    } else {
      assert a + b == a;
    }
  }

  /** Each voxel holds the type of its last write, or what it held before. */
  lemma {:induction false} ApplyAt(size: UVec3, s: seq<BlockIndex>, ws: seq<Write>, c: UVec3)
    requires |s| == Volume(size) && Fits(size, ws) && InBounds(size, c)
    ensures LocalIndex(size, c) < |s|
    ensures Apply(size, s, ws)[LocalIndex(size, c)] == LastWrite(ws, c, s[LocalIndex(size, c)])
    decreases |ws|
  {
    LocalIndexBound(size, c);
    if ws != [] {
      var last := ws[|ws| - 1];
      ApplyAt(size, s, ws[..|ws| - 1], c);
      if last.0 != c {
        LocalIndicesOfLocalIndex(size, c);
        LocalIndicesOfLocalIndex(size, last.0);
      }
    }
  }

  /** The last write in two batches is the second batch's, if any. */
  lemma {:induction false} LastWriteAppend(a: seq<Write>, b: seq<Write>, c: UVec3, d: BlockIndex)
    ensures LastWrite(a + b, c, d) == LastWrite(b, c, LastWrite(a, c, d))
    decreases |b|
  {
    if b != [] {
      assert (a + b)[..|a + b| - 1] == a + b[..|b| - 1];
      LastWriteAppend(a, b[..|b| - 1], c, d);
    } else {
      assert a + b == a;
    }
  }

  /** The `OnChunkUpdated` notifications the ship raises for writes to its
      chunk `key`, one per write. */
  function Notify(key: IVec3, size: UVec3, ws: seq<Write>): (r: seq<ContainerEvent>)
    ensures |r| == |ws|
    decreases |ws|
  {
    if ws == [] then [] else Notify(key, size, ws[..|ws| - 1]) + [ChunkUpdated(key, ShipNeighborMask(size, ws[|ws| - 1].0))]
  }

  /** The `i`-th notification reports the neighbour mask of the `i`-th write. */
  lemma {:induction false} NotifyAt(key: IVec3, size: UVec3, ws: seq<Write>, i: nat)
    requires i < |ws|
    ensures Notify(key, size, ws)[i] == ChunkUpdated(key, ShipNeighborMask(size, ws[i].0))
    decreases |ws|
  {
    if i < |ws| - 1 {
      NotifyAt(key, size, ws[..|ws| - 1], i);
    }
  }

  /** Notifications for two batches of writes are those of each batch. */
  lemma NotifyAppend(key: IVec3, size: UVec3, a: seq<Write>, b: seq<Write>)
    ensures Notify(key, size, a + b) == Notify(key, size, a) + Notify(key, size, b)
  {
    var l, r := Notify(key, size, a + b), Notify(key, size, a) + Notify(key, size, b);
    assert |l| == |r|;
    forall i | 0 <= i < |l|
      ensures l[i] == r[i]
    {
      NotifyAt(key, size, a + b, i);
      if i >= |a| {
        assert (a + b)[i] == b[i - |a|];
        NotifyAt(key, size, b, i - |a|);
      } else {
        NotifyAt(key, size, a, i);
      }
    }
  }

  /** `blocks`, `updates` and `events` are what the writes `ws` to ship chunk
      `key` make of the block array `b0`, the update log `u0` and the ship's
      notifications `e0`. */
  predicate Traced(blocks: seq<BlockIndex>, updates: seq<Write>, events: seq<ContainerEvent>, key: IVec3,
                   b0: seq<BlockIndex>, u0: seq<Write>, e0: seq<ContainerEvent>, ws: seq<Write>)
  {
    && |b0| == Volume(ShipChunkSize) && Fits(ShipChunkSize, ws)
    && blocks == Apply(ShipChunkSize, b0, ws)
    && updates == u0 + ws
    && events == e0 + Notify(key, ShipChunkSize, ws)
  }

  /** No write leaves everything as it was. */
  lemma TracedNothing(blocks: seq<BlockIndex>, updates: seq<Write>, events: seq<ContainerEvent>, key: IVec3)
    requires |blocks| == Volume(ShipChunkSize)
    ensures Traced(blocks, updates, events, key, blocks, updates, events, [])
  {
    assert updates + [] == updates && events + [] == events;
  }

  /** One more write: the voxel takes the type and one update and one
      notification are logged. */
  lemma TracedStep(blocks: seq<BlockIndex>, updates: seq<Write>, events: seq<ContainerEvent>, key: IVec3,
                   b0: seq<BlockIndex>, u0: seq<Write>, e0: seq<ContainerEvent>, ws: seq<Write>, w: Write)
    requires Traced(blocks, updates, events, key, b0, u0, e0, ws) && InBounds(ShipChunkSize, w.0)
    ensures LocalIndex(ShipChunkSize, w.0) < |blocks|
    ensures Traced(blocks[LocalIndex(ShipChunkSize, w.0) := w.1], updates + [w],
                   events + [ChunkUpdated(key, ShipNeighborMask(ShipChunkSize, w.0))], key, b0, u0, e0, ws + [w])
  {
    LocalIndexBound(ShipChunkSize, w.0);
    assert (ws + [w])[..|ws|] == ws;
  }

  /** Two batches of writes, one after the other. */
  lemma TracedCompose(b1: seq<BlockIndex>, u1: seq<Write>, e1: seq<ContainerEvent>,
                      b2: seq<BlockIndex>, u2: seq<Write>, e2: seq<ContainerEvent>, key: IVec3,
                      b0: seq<BlockIndex>, u0: seq<Write>, e0: seq<ContainerEvent>, a: seq<Write>, b: seq<Write>)
    requires Traced(b1, u1, e1, key, b0, u0, e0, a) && Traced(b2, u2, e2, key, b1, u1, e1, b)
    ensures Traced(b2, u2, e2, key, b0, u0, e0, a + b)
  {
    ApplyAppend(ShipChunkSize, b0, a, b);
    NotifyAppend(key, ShipChunkSize, a, b);
    AppendAssoc(u0, a, b);
    AppendAssoc(e0, Notify(key, ShipChunkSize, a), Notify(key, ShipChunkSize, b));
  }

  lemma AppendAssoc<T>(x: seq<T>, y: seq<T>, z: seq<T>)
    ensures (x + y) + z == x + (y + z)
  {
  }

  // ----- the procedural hull -----

  /** The box `Ship::Generate` builds: its first voxel in the chunk, its
      side and height, and the hull and forcefield block types. */
  datatype Hull = Hull(start: UVec3, box: nat, height: nat, hull: BlockIndex, forcefield: BlockIndex)

  /** A 6x6x4 box for a small ship, 12x12x6 otherwise, centred in the
      chunk: `chunk.GetSize() / 2 - (boxSize / 2, boxSize / 2, height / 2)`. */
  function HullOf(small: bool, hull: BlockIndex, forcefield: BlockIndex): (h: Hull)
    ensures h.box == (if small then 6 else 12) && h.height == (if small then 4 else 6)
    ensures h.start.x + h.box <= ShipChunkSize.x - 10 && h.start.x >= 10
    ensures h.start.y == h.start.x && h.start.z + h.height <= ShipChunkSize.z - 10 && h.start.z >= 13
  {
    var box := if small then 6 else 12;
    var height := if small then 4 else 6;
    Hull(UVec3(ShipChunkSize.x / 2 - box / 2, ShipChunkSize.y / 2 - box / 2, ShipChunkSize.z / 2 - height / 2),
         box, height, hull, forcefield)
  }

  /** The box lies strictly inside a chunk of `size`, away from its faces. */
  predicate InsideChunk(h: Hull, size: UVec3) {
    && 0 < h.start.x && h.start.x + h.box < size.x
    && 0 < h.start.y && h.start.y + h.box < size.y
    && 0 < h.start.z && h.start.z + h.height < size.z
  }

  /** Cell `(x, y, z)` of the box is on its shell: some coordinate is at an
      end of its range. */
  predicate OnShell(h: Hull, x: nat, y: nat, z: nat) {
    !(x != 0 && x != h.box - 1 && y != 0 && y != h.box - 1 && z != 0 && z != h.height - 1)
  }

  /** The door: the middle of the `x == 0` wall, over the inner height. */
  predicate IsDoor(h: Hull, x: nat, y: nat, z: nat) {
    x == 0 && y == h.box / 2 && z > 0 && z < h.height - 1
  }

  /** The type a shell cell gets: forcefield in the door, hull elsewhere. */
  function ShellBlock(h: Hull, x: nat, y: nat, z: nat): BlockIndex {
    if IsDoor(h, x, y, z) then h.forcefield else h.hull
  }

  /** The writes of the innermost loop body at cell `(x, y, z)`. */
  function CellWrites(h: Hull, x: nat, y: nat, z: nat): seq<Write> {
    if OnShell(h, x, y, z) then [(UVec3(h.start.x + x, h.start.y + y, h.start.z + z), ShellBlock(h, x, y, z))] else []
  }

  /** The writes of the first `n` cells of row `y` of layer `z`. */
  function RowWrites(h: Hull, y: nat, z: nat, n: nat): seq<Write>
    decreases n
  {
    if n == 0 then [] else RowWrites(h, y, z, n - 1) + CellWrites(h, n - 1, y, z)
  }

  /** The writes of the first `m` rows of layer `z`. */
  function LayerWrites(h: Hull, z: nat, m: nat): seq<Write>
    decreases m
  {
    if m == 0 then [] else LayerWrites(h, z, m - 1) + RowWrites(h, m - 1, z, h.box)
  }

  /** The writes of the first `n` layers of the box. */
  function HullWrites(h: Hull, n: nat): seq<Write>
    decreases n
  {
    if n == 0 then [] else HullWrites(h, n - 1) + LayerWrites(h, n - 1, h.box)
  }

  /** The type the generated ship has at voxel `c` of its chunk: the shell
      block on the shell of the box, empty everywhere else. */
  function HullBlockAt(h: Hull, c: UVec3): BlockIndex {
    if h.start.x <= c.x < h.start.x + h.box && h.start.y <= c.y < h.start.y + h.box
       && h.start.z <= c.z < h.start.z + h.height
       && OnShell(h, c.x - h.start.x, c.y - h.start.y, c.z - h.start.z)
    then ShellBlock(h, c.x - h.start.x, c.y - h.start.y, c.z - h.start.z)
    else EmptyBlockIndex
  }

  /** Every voxel a row writes is on that row of the box, inside the chunk. */
  lemma {:induction false} RowWritesInside(h: Hull, size: UVec3, y: nat, z: nat, n: nat)
    requires InsideChunk(h, size) && y < h.box && z < h.height && n <= h.box
    ensures forall i :: 0 <= i < |RowWrites(h, y, z, n)| ==>
      var c := RowWrites(h, y, z, n)[i].0;
      && h.start.x <= c.x < h.start.x + n && c.y == h.start.y + y && c.z == h.start.z + z
      && 0 < c.x < size.x - 1 && 0 < c.y < size.y - 1 && 0 < c.z < size.z - 1
    decreases n
  {
    if n > 0 {
      RowWritesInside(h, size, y, z, n - 1);
    }
  }

  /** Every voxel a layer writes is inside the chunk, away from its faces. */
  lemma {:induction false} LayerWritesInside(h: Hull, size: UVec3, z: nat, m: nat)
    requires InsideChunk(h, size) && z < h.height && m <= h.box
    ensures forall i :: 0 <= i < |LayerWrites(h, z, m)| ==>
      var c := LayerWrites(h, z, m)[i].0;
      && c.z == h.start.z + z && 0 < c.x < size.x - 1 && 0 < c.y < size.y - 1 && 0 < c.z < size.z - 1
    decreases m
  {
    if m > 0 {
      LayerWritesInside(h, size, z, m - 1);
      RowWritesInside(h, size, m - 1, z, h.box);
    }
  }

  /** Every voxel the box writes is inside the chunk, away from its faces. */
  lemma {:induction false} HullWritesInside(h: Hull, size: UVec3, n: nat)
    requires InsideChunk(h, size) && n <= h.height
    ensures forall i :: 0 <= i < |HullWrites(h, n)| ==>
      var c := HullWrites(h, n)[i].0;
      0 < c.x < size.x - 1 && 0 < c.y < size.y - 1 && 0 < c.z < size.z - 1
    decreases n
  {
    if n > 0 {
      HullWritesInside(h, size, n - 1);
      LayerWritesInside(h, size, n - 1, h.box);
    }
  }

  /** The last write of row `y` of layer `z` to `c`. */
  lemma {:induction false} RowLastWrite(h: Hull, y: nat, z: nat, n: nat, c: UVec3, d: BlockIndex)
    requires n <= h.box
    ensures LastWrite(RowWrites(h, y, z, n), c, d) ==
      if c.y == h.start.y + y && c.z == h.start.z + z && h.start.x <= c.x < h.start.x + n && OnShell(h, c.x - h.start.x, y, z)
      then ShellBlock(h, c.x - h.start.x, y, z) else d
    decreases n
  {
    if n > 0 {
      var w := RowWrites(h, y, z, n - 1);
      LastWriteAppend(w, CellWrites(h, n - 1, y, z), c, d);
      RowLastWrite(h, y, z, n - 1, c, d);
      if OnShell(h, n - 1, y, z) {
        assert CellWrites(h, n - 1, y, z)[..0] == [];
      }
    }
  }

  /** The last write of layer `z` to `c`. */
  lemma {:induction false} LayerLastWrite(h: Hull, z: nat, m: nat, c: UVec3, d: BlockIndex)
    requires m <= h.box
    ensures LastWrite(LayerWrites(h, z, m), c, d) ==
      if c.z == h.start.z + z && h.start.y <= c.y < h.start.y + m && h.start.x <= c.x < h.start.x + h.box
         && OnShell(h, c.x - h.start.x, c.y - h.start.y, z)
      then ShellBlock(h, c.x - h.start.x, c.y - h.start.y, z) else d
    decreases m
  {
    if m > 0 {
      var last := m - 1;
      LastWriteAppend(LayerWrites(h, z, last), RowWrites(h, last, z, h.box), c, d);
      LayerLastWrite(h, z, last, c, d);
      RowLastWrite(h, last, z, h.box, c, LastWrite(LayerWrites(h, z, last), c, d));
    }
  }

  /** The last write of the first `n` layers of the box to `c`. */
  lemma {:induction false} HullLastWrite(h: Hull, n: nat, c: UVec3, d: BlockIndex)
    requires n <= h.height
    ensures LastWrite(HullWrites(h, n), c, d) ==
      if h.start.z <= c.z < h.start.z + n && h.start.y <= c.y < h.start.y + h.box && h.start.x <= c.x < h.start.x + h.box
         && OnShell(h, c.x - h.start.x, c.y - h.start.y, c.z - h.start.z)
      then ShellBlock(h, c.x - h.start.x, c.y - h.start.y, c.z - h.start.z) else d
    decreases n
  {
    if n > 0 {
      var last := n - 1;
      LastWriteAppend(HullWrites(h, last), LayerWrites(h, last, h.box), c, d);
      HullLastWrite(h, last, c, d);
      LayerLastWrite(h, last, h.box, c, LastWrite(HullWrites(h, last), c, d));
    }
  }

  /** The grid the box writes over an all-empty chunk holds the shell block
      on the shell of the box and is empty everywhere else. */
  lemma HullContent(h: Hull, c: UVec3)
    requires InsideChunk(h, ShipChunkSize) && InBounds(ShipChunkSize, c)
    ensures Fits(ShipChunkSize, HullWrites(h, h.height))
    ensures LocalIndex(ShipChunkSize, c) < Volume(ShipChunkSize)
    ensures Apply(ShipChunkSize, seq(Volume(ShipChunkSize), _ => EmptyBlockIndex), HullWrites(h, h.height))[LocalIndex(ShipChunkSize, c)]
            == HullBlockAt(h, c)
  {
    HullWritesInside(h, ShipChunkSize, h.height);
    ApplyAt(ShipChunkSize, seq(Volume(ShipChunkSize), _ => EmptyBlockIndex), HullWrites(h, h.height), c);
    HullLastWrite(h, h.height, c, EmptyBlockIndex);
  }

  /** Only the shell is written: no interior cell of the box is. */
  lemma InteriorUntouched(h: Hull, c: UVec3)
    requires h.start.x < c.x < h.start.x + h.box - 1 && h.start.y < c.y < h.start.y + h.box - 1
    requires h.start.z < c.z < h.start.z + h.height - 1
    ensures HullBlockAt(h, c) == EmptyBlockIndex
  {
  }

  /** Both sizes of box fit strictly inside a ship chunk. */
  lemma HullOfInside(small: bool, hull: BlockIndex, forcefield: BlockIndex)
    ensures InsideChunk(HullOf(small, hull, forcefield), ShipChunkSize)
  {
  }

  // ----- hull collider -----

  /** A collider a chunk builds, known by an identifier: its shape is
      floating-point geometry. */
  type ShapeId = nat

  /** A child of the compound hull collider: a chunk's collider and the
      chunk it is offset to (`GetChunkOffset` of the chunk's indices). */
  datatype ChildCollider = ChildCollider(shape: ShapeId, chunk: IVec3)

  /** What `Ship::BuildHullCollider` returns when not null. */
  datatype HullCollider = ChunkCollider(shape: ShapeId) | CompoundCollider(children: seq<ChildCollider>)

  /** The child colliders of the chunks in `order` that build one, in order. */
  function ChildColliders(order: seq<IVec3>, build: IVec3 -> Option<ShapeId>): (r: seq<ChildCollider>)
    ensures |r| <= |order|
    ensures r == [] <==> forall i :: 0 <= i < |order| ==> build(order[i]).None?
    ensures forall j :: 0 <= j < |r| ==> build(r[j].chunk) == Some(r[j].shape) && r[j].chunk in order
    ensures forall i :: 0 <= i < |order| && build(order[i]).Some? ==> ChildCollider(build(order[i]).value, order[i]) in r
    decreases |order|
  {
    if order == [] then []
    else
      var last := order[|order| - 1];
      var r := ChildColliders(order[..|order| - 1], build);
      if build(last).Some? then r + [ChildCollider(build(last).value, last)] else r
  }

  /** `Ship::BuildHullCollider` over chunks visited in `order`: null without
      chunks, the chunk's own collider for a single chunk, otherwise the
      compound of the chunk colliders, or null when no chunk builds one. */
  function HullColliderOf(order: seq<IVec3>, build: IVec3 -> Option<ShapeId>): (r: Option<HullCollider>)
    ensures |order| == 0 ==> r.None?
    ensures |order| == 1 ==> (r.None? <==> build(order[0]).None?)
    ensures |order| == 1 && build(order[0]).Some? ==> r == Some(ChunkCollider(build(order[0]).value))
    ensures |order| > 1 ==> (r.None? <==> forall i :: 0 <= i < |order| ==> build(order[i]).None?)
    ensures |order| > 1 && r.Some? ==> r.value.CompoundCollider? && r.value.children == ChildColliders(order, build)
  {
    if |order| > 1 then
      var children := ChildColliders(order, build);
      if children == [] then None else Some(CompoundCollider(children))
    else if |order| == 0 then None
    else match build(order[0])
      case None => None
      case Some(s) => Some(ChunkCollider(s))
  }

  /** `order` lists every key of a map exactly once: an iteration order. */
  predicate Enumerates<V>(order: seq<IVec3>, m: map<IVec3, V>) {
    && |order| == |m|
    && (forall i :: 0 <= i < |order| ==> order[i] in m)
    && (forall i, j :: 0 <= i < j < |order| ==> order[i] != order[j])
  }

  // ----- gravity -----

  /** A floating-point vector, here only ever holding axis directions. */
  datatype FVec3 = FVec3(x: real, y: real, z: real)

  function Dot(a: FVec3, b: FVec3): real {
    a.x * b.x + a.y * b.y + a.z * b.z
  }

  /** `Nz::Vector3f::Up()`. */
  const UpVector: FVec3 := FVec3(0.0, 1.0, 0.0)

  /** `GravityForce`: a direction, an acceleration and a factor. */
  datatype GravityForce = GravityForce(direction: FVec3, acceleration: real, factor: real)

  /** `Ship`: flat chunks by their indices, its up direction and the container
      notifications raised so far. */
  class Ship {
    var chunks: map<IVec3, Chunk>
    var events: seq<ContainerEvent>
    /** `m_upDirection`, up at construction. */
    const upDirection: FVec3

    /** Every chunk is a flat ship chunk stored under its own indices. */
    ghost predicate Valid()
      reads this, chunks.Values
    {
      forall key :: key in chunks ==>
        && chunks[key].Valid() && chunks[key].indices == key
        && chunks[key].size == ShipChunkSize && chunks[key].kind == Flat
    }

    /** `Ship::Ship`: no chunks, up is `Vector3f::Up()`. The tile size is
        floating-point geometry and is left out. */
    constructor ()
      ensures Valid() && chunks == map[] && events == [] && upDirection == UpVector
    {
      chunks := map[];
      events := [];
      upDirection := UpVector;
    }

    /** `Ship::AddChunk`. The key must be new and the chunk is always flat and
        `ChunkSize` wide. The initial fill, when given, runs before the
        chunk's slots are connected, so it raises no `OnChunkUpdated`; only
        `OnChunkAdded` is raised. */
    method AddChunk(key: IVec3, init: Option<seq<BlockIndex> -> seq<BlockIndex>>) returns (chunk: Chunk)
      requires Valid() && key !in chunks
      requires init.Some? ==> forall s: seq<BlockIndex> :: |s| == Volume(ShipChunkSize) ==> |init.value(s)| == |s|
      modifies this
      ensures Valid() && fresh(chunk)
      ensures chunks == old(chunks)[key := chunk]
      ensures chunk.indices == key && chunk.size == ShipChunkSize && chunk.kind == Flat
      ensures chunk.blockUpdates == [] && !chunk.hasPerFaceCollision
      ensures init.None? ==> !chunk.HasContent()
      ensures init.Some? ==> chunk.blocks == init.value(seq(Volume(ShipChunkSize), _ => EmptyBlockIndex))
      ensures events == old(events) + [ChunkAdded(key)]
    {
      chunk := new Chunk(ShipChunkSize, key, Flat);
      if init.Some? {
        chunk.ResetWith(init.value);
      }
      chunks := chunks[key := chunk];
      events := events + [ChunkAdded(key)];
    }

    /** `Ship::RemoveChunk`: the key must be present; its removal is
        announced and only that entry is erased. */
    method RemoveChunk(key: IVec3)
      requires Valid() && key in chunks
      modifies this
      ensures Valid()
      ensures chunks == old(chunks) - {key}
      ensures events == old(events) + [ChunkRemove(key)]
    {
      events := events + [ChunkRemove(key)];
      chunks := chunks - {key};
    }

    /** `Chunk::UpdateBlock` on a ship chunk, with the `OnChunkUpdated`
        notification the ship's slot on that chunk raises. */
    method UpdateChunkBlock(chunk: Chunk, c: UVec3, b: BlockIndex)
      requires chunk.Valid() && chunk.size == ShipChunkSize && chunk.HasContent() && InBounds(ShipChunkSize, c)
      modifies this`events, chunk
      ensures chunk.Valid() && chunk.HasContent() && LocalIndex(ShipChunkSize, c) < |chunk.blocks|
      ensures chunk.blocks == old(chunk.blocks)[LocalIndex(ShipChunkSize, c) := b]
      ensures chunk.blockUpdates == old(chunk.blockUpdates) + [(c, b)]
      ensures events == old(events) + [ChunkUpdated(chunk.indices, ShipNeighborMask(ShipChunkSize, c))]
    {
      chunk.UpdateBlock(c, b);
      events := events + [ChunkUpdated(chunk.indices, ShipNeighborMask(ShipChunkSize, c))];
    }

    /** `Ship::ComputeGravity`: the same everywhere, straight down the ship's
        up direction at full factor. `acceleration` is
        `Constants::ShipGravityAcceleration`, whose value is not part of this
        model. */
    function ComputeGravity(position: FVec3, acceleration: real): (g: GravityForce)
      requires upDirection == UpVector
      ensures Dot(g.direction, upDirection) == -1.0 && Dot(g.direction, g.direction) == 1.0
      ensures g.acceleration == acceleration && g.factor == 1.0
    {
      GravityForce(FVec3(-upDirection.x, -upDirection.y, -upDirection.z), acceleration, 1.0)
    }

    /** `Ship::BuildHullCollider`, visiting the chunks in `order`, where
        `build` is what `BuildCollider` gives for the chunk under a key. */
    method BuildHullCollider(order: seq<IVec3>, build: IVec3 -> Option<ShapeId>) returns (r: Option<HullCollider>)
      requires Enumerates(order, chunks)
      ensures r == HullColliderOf(order, build)
    {
      if |chunks| > 1 {
        var children: seq<ChildCollider> := [];
        var i := 0;
        while i < |order|
          invariant i <= |order| && children == ChildColliders(order[..i], build)
        {
          assert order[..i + 1][..i] == order[..i];
          var collider := build(order[i]);
          if collider.Some? {
            children := children + [ChildCollider(build(order[i]).value, order[i])];
          }
          i := i + 1;
        }
        assert order[..|order|] == order;
        if children == [] {
          return None;
        }
        return Some(CompoundCollider(children));
      } else {
        if |chunks| == 0 {
          return None;
        }
        var collider := build(order[0]);
        if collider.None? {
          return None;
        }
        return Some(ChunkCollider(collider.value));
      }
    }

    /** `chunk` is a ship chunk with content, and it and the ship's
        notifications are what the writes `ws` made of `b0`, `u0` and `e0`. */
    ghost predicate Built(chunk: Chunk, b0: seq<BlockIndex>, u0: seq<Write>, e0: seq<ContainerEvent>, ws: seq<Write>)
      reads this, chunk
    {
      && chunk.Valid() && chunk.size == ShipChunkSize && chunk.HasContent()
      && Traced(chunk.blocks, chunk.blockUpdates, events, chunk.indices, b0, u0, e0, ws)
    }

    /** The innermost loop body of `Ship::Generate` at cell `(x, y, z)`:
        nothing off the shell, otherwise forcefield in the door and hull
        elsewhere. */
    method GenerateCell(chunk: Chunk, h: Hull, x: nat, y: nat, z: nat,
                        ghost b0: seq<BlockIndex>, ghost u0: seq<Write>, ghost e0: seq<ContainerEvent>, ghost ws: seq<Write>)
      requires InsideChunk(h, ShipChunkSize) && x < h.box && y < h.box && z < h.height
      requires Built(chunk, b0, u0, e0, ws)
      modifies this`events, chunk
      ensures Built(chunk, b0, u0, e0, ws + CellWrites(h, x, y, z))
    {
      if x != 0 && x != h.box - 1 && y != 0 && y != h.box - 1 && z != 0 && z != h.height - 1 {
        assert ws + [] == ws;
        return;
      }
      var c := UVec3(h.start.x + x, h.start.y + y, h.start.z + z);
      var b;
      if x == 0 && y == h.box / 2 && z > 0 && z < h.height - 1 {
        b := h.forcefield;
      } else {
        b := h.hull;
      }
      assert CellWrites(h, x, y, z) == [(c, b)];
      WriteCell(chunk, c, b, b0, u0, e0, ws);
    }

    /** `chunk.UpdateBlock(c, b)` in the hull loops, one more write. */
    method WriteCell(chunk: Chunk, c: UVec3, b: BlockIndex,
                     ghost b0: seq<BlockIndex>, ghost u0: seq<Write>, ghost e0: seq<ContainerEvent>, ghost ws: seq<Write>)
      requires InBounds(ShipChunkSize, c) && Built(chunk, b0, u0, e0, ws)
      modifies this`events, chunk
      ensures Built(chunk, b0, u0, e0, ws + [(c, b)])
    {
      TracedStep(chunk.blocks, chunk.blockUpdates, events, chunk.indices, b0, u0, e0, ws, (c, b));
      UpdateChunkBlock(chunk, c, b);
    }

    /** Row `y` of layer `z` of the box. */
    method GenerateRow(chunk: Chunk, h: Hull, y: nat, z: nat)
      requires InsideChunk(h, ShipChunkSize) && y < h.box && z < h.height
      requires chunk.Valid() && chunk.size == ShipChunkSize && chunk.HasContent()
      modifies this`events, chunk
      ensures Built(chunk, old(chunk.blocks), old(chunk.blockUpdates), old(events), RowWrites(h, y, z, h.box))
    {
      ghost var b0, u0, e0 := chunk.blocks, chunk.blockUpdates, events;
      TracedNothing(b0, u0, e0, chunk.indices);
      var x := 0;
      while x < h.box
        invariant x <= h.box && Built(chunk, b0, u0, e0, RowWrites(h, y, z, x))
      {
        GenerateCell(chunk, h, x, y, z, b0, u0, e0, RowWrites(h, y, z, x));
        x := x + 1;
      }
    }

    /** Layer `z` of the box. */
    method GenerateLayer(chunk: Chunk, h: Hull, z: nat)
      requires InsideChunk(h, ShipChunkSize) && z < h.height
      requires chunk.Valid() && chunk.size == ShipChunkSize && chunk.HasContent()
      modifies this`events, chunk
      ensures Built(chunk, old(chunk.blocks), old(chunk.blockUpdates), old(events), LayerWrites(h, z, h.box))
    {
      ghost var b0, u0, e0 := chunk.blocks, chunk.blockUpdates, events;
      TracedNothing(b0, u0, e0, chunk.indices);
      var y := 0;
      while y < h.box
        invariant y <= h.box && Built(chunk, b0, u0, e0, LayerWrites(h, z, y))
      {
        ghost var b1, u1, e1 := chunk.blocks, chunk.blockUpdates, events;
        GenerateRow(chunk, h, y, z);
        TracedCompose(b1, u1, e1, chunk.blocks, chunk.blockUpdates, events, chunk.indices,
                      b0, u0, e0, LayerWrites(h, z, y), RowWrites(h, y, z, h.box));
        y := y + 1;
      }
    }

    /** The three loops of `Ship::Generate` over the box. */
    method GenerateBox(chunk: Chunk, h: Hull)
      requires InsideChunk(h, ShipChunkSize)
      requires chunk.Valid() && chunk.size == ShipChunkSize && chunk.HasContent()
      modifies this`events, chunk
      ensures Built(chunk, old(chunk.blocks), old(chunk.blockUpdates), old(events), HullWrites(h, h.height))
    {
      ghost var b0, u0, e0 := chunk.blocks, chunk.blockUpdates, events;
      TracedNothing(b0, u0, e0, chunk.indices);
      var z := 0;
      while z < h.height
        invariant z <= h.height && Built(chunk, b0, u0, e0, HullWrites(h, z))
      {
        ghost var b1, u1, e1 := chunk.blocks, chunk.blockUpdates, events;
        GenerateLayer(chunk, h, z);
        TracedCompose(b1, u1, e1, chunk.blocks, chunk.blockUpdates, events, chunk.indices,
                      b0, u0, e0, HullWrites(h, z), LayerWrites(h, z, h.box));
        z := z + 1;
      }
    }

    /** `Ship::Generate`: chunk (0, 0, 0) is added without content; when the
        library knows "hull", the chunk is reset to empty and the shell of a
        small or large box in its middle is built, forcefield in the door.
        Every write stays clear of the chunk's faces, so every notification
        has an empty mask. */
    method Generate(library: map<string, BlockIndex>, small: bool)
      requires Valid() && ShipOrigin !in chunks
      modifies this, chunks.Values
      ensures Valid() && ShipOrigin in chunks && ShipOrigin !in old(chunks)
      ensures chunks == old(chunks)[ShipOrigin := chunks[ShipOrigin]] && fresh(chunks[ShipOrigin])
      ensures GetBlockIndex(library, "hull") == InvalidBlockIndex ==>
        !chunks[ShipOrigin].HasContent() && events == old(events) + [ChunkAdded(ShipOrigin)]
      ensures GetBlockIndex(library, "hull") != InvalidBlockIndex ==>
        var h := HullOf(small, GetBlockIndex(library, "hull"), GetBlockIndex(library, "forcefield"));
        && chunks[ShipOrigin].HasContent()
        && (forall c :: InBounds(ShipChunkSize, c) ==> BlockAt(ShipChunkSize, chunks[ShipOrigin].blocks, c) == HullBlockAt(h, c))
        && chunks[ShipOrigin].blockUpdates == HullWrites(h, h.height)
        && |events| == |old(events)| + 1 + |HullWrites(h, h.height)|
        && events[..|old(events)| + 1] == old(events) + [ChunkAdded(ShipOrigin)]
        && forall i :: |old(events)| < i < |events| ==> events[i] == ChunkUpdated(ShipOrigin, {})
    {
      var chunk := AddChunk(ShipOrigin, None);
      var hullIndex := GetBlockIndex(library, "hull");
      if hullIndex == InvalidBlockIndex {
        return;
      }
      var forcefieldIndex := GetBlockIndex(library, "forcefield");
      var boxSize := if small then 6 else 12;
      var height := if small then 4 else 6;
      var startPos := UVec3(chunk.size.x / 2 - boxSize / 2, chunk.size.y / 2 - boxSize / 2, chunk.size.z / 2 - height / 2);
      var h := Hull(startPos, boxSize, height, hullIndex, forcefieldIndex);
      assert h == HullOf(small, hullIndex, forcefieldIndex);
      HullOfInside(small, hullIndex, forcefieldIndex);
      assert chunks[ShipOrigin] == chunk;
      BuildHull(chunk, h);
    }

    /** The part of `Ship::Generate` under the write lock: the chunk is reset
        to empty and the box is built in it. */
    method BuildHull(chunk: Chunk, h: Hull)
      requires chunk.Valid() && chunk.size == ShipChunkSize && chunk.indices == ShipOrigin && chunk.blockUpdates == []
      requires InsideChunk(h, ShipChunkSize)
      modifies this`events, chunk
      ensures chunk.Valid() && chunk.HasContent()
      ensures forall c :: InBounds(ShipChunkSize, c) ==> BlockAt(ShipChunkSize, chunk.blocks, c) == HullBlockAt(h, c)
      ensures chunk.blockUpdates == HullWrites(h, h.height)
      ensures |events| == |old(events)| + |HullWrites(h, h.height)| && events[..|old(events)|] == old(events)
      ensures forall i :: |old(events)| <= i < |events| ==> events[i] == ChunkUpdated(ShipOrigin, {})
    {
      chunk.Reset();
      assert chunk.blocks == seq(Volume(ShipChunkSize), _ => EmptyBlockIndex);
      GenerateBox(chunk, h);
      assert chunk.blockUpdates == [] + HullWrites(h, h.height);
      GeneratedHull(h, chunk.blocks, old(events), events);
    }
  }

  /** What `Ship::Generate` leaves after building the box `h` over an empty
      chunk: the shell of the box, and one empty-mask notification per write. */
  lemma GeneratedHull(h: Hull, blocks: seq<BlockIndex>, e0: seq<ContainerEvent>, events: seq<ContainerEvent>)
    requires InsideChunk(h, ShipChunkSize) && Fits(ShipChunkSize, HullWrites(h, h.height))
    requires blocks == Apply(ShipChunkSize, seq(Volume(ShipChunkSize), _ => EmptyBlockIndex), HullWrites(h, h.height))
    requires events == e0 + Notify(ShipOrigin, ShipChunkSize, HullWrites(h, h.height))
    ensures |blocks| == Volume(ShipChunkSize)
    ensures forall c :: InBounds(ShipChunkSize, c) ==> BlockAt(ShipChunkSize, blocks, c) == HullBlockAt(h, c)
    ensures |events| == |e0| + |HullWrites(h, h.height)| && events[..|e0|] == e0
    ensures forall i :: |e0| <= i < |events| ==> events[i] == ChunkUpdated(ShipOrigin, {})
  {
    forall c | InBounds(ShipChunkSize, c)
      ensures BlockAt(ShipChunkSize, blocks, c) == HullBlockAt(h, c)
    {
      HullContent(h, c);
    }
    HullWritesInside(h, ShipChunkSize, h.height);
    var ws := HullWrites(h, h.height);
    forall i | |e0| <= i < |events|
      ensures events[i] == ChunkUpdated(ShipOrigin, {})
    {
      NotifyAt(ShipOrigin, ShipChunkSize, ws, i - |e0|);
      ShipInteriorMask(ShipChunkSize, ws[i - |e0|].0);
    }
  }
}
