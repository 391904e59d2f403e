/** The planet chunk container (`Planet.cpp`): the map from chunk indices to
    chunks with the notifications it raises, the neighbour mask of a block
    update, the generation of every chunk of the planet and the spawn
    platform. */
module Planets {
  import opened Voxel
  import opened Chunks
  import opened Terrain
  import opened Platforms

  /** Every planet chunk is a cube of `Planet::ChunkSize` voxels. */
  const PlanetChunkSize: UVec3 := Cube(ChunkSize)

  /** The directions `Planet`'s `OnBlockUpdated` slot reports for a block
      update at `c`: the faces of the chunk the voxel touches, the low side
      winning when a dimension is a single voxel wide. */
  function PlanetNeighborMask(size: UVec3, c: UVec3): DirectionMask {
    (if c.x == 0 then {Left} else if c.x == size.x - 1 then {Right} else {})
    + (if c.y == 0 then {Front} else if c.y == size.y - 1 then {Back} else {})
    + (if c.z == 0 then {Down} else if c.z == size.z - 1 then {Up} else {})
  }

  /** Each direction is in the mask exactly when the voxel lies on that face. */
  lemma PlanetNeighborMaskSpec(size: UVec3, c: UVec3)
    ensures var m := PlanetNeighborMask(size, c);
      && (Left in m <==> c.x == 0) && (Right in m <==> c.x != 0 && c.x == size.x - 1)
      && (Front in m <==> c.y == 0) && (Back in m <==> c.y != 0 && c.y == size.y - 1)
      && (Down in m <==> c.z == 0) && (Up in m <==> c.z != 0 && c.z == size.z - 1)
  {
  }

  /** An update strictly inside the chunk concerns no neighbour. */
  lemma PlanetInteriorMask(size: UVec3, c: UVec3)
    requires 0 < c.x < size.x - 1 && 0 < c.y < size.y - 1 && 0 < c.z < size.z - 1
    ensures PlanetNeighborMask(size, c) == {}
  {
  }

  /** What planet generation takes from code outside this model:
      `GetBlockIndices` of a chunk and a local voxel, the `bernoulli(0.9)`
      draws of a `minstd_rand` seeded with a given value (draw `n`), and the
      rounded terrain depth the seeded Perlin noise of one direction gives a
      surface position for a planet of a given maximum height, and whether
      the chunk under some indices is deformed by the planet's rounded
      corners. */
  datatype WorldGen = WorldGen(
    deformedAt: IVec3 -> bool,
    blockIndices: (IVec3, UVec3) -> IVec3,
    stoneDraw: (nat, nat) -> bool,
    terrainDepth: (nat, IVec3, Direction, IVec3) -> int)

  /** The inputs of the fill of chunk `key` in `Planet::GenerateChunk`: the
      palette looked up by name, the maximum height from the chunk count,
      the random stream seeded with the chunk seed, and the noise seeded
      with `seed` plus the direction. */
  function ChunkContext(library: map<string, BlockIndex>, world: WorldGen, seed: nat, key: IVec3, count: UVec3): (ctx: GenContext)
    requires seed <= UInt32Max
    ensures ctx.palette == PaletteOf(library) && ctx.maxHeight == MaxHeight(count)
    ensures ctx.chunk == key && ctx.chunkSeed == ChunkSeed(seed, key) && ctx.seed == seed
  {
    GenContext(PaletteOf(library), MaxHeight(count), key, ChunkSeed(seed, key), seed,
               world.blockIndices, world.stoneDraw, world.terrainDepth)
  }

  /** The content of a chunk that has never been reset, as `Reset` allocates it. */
  function EmptyGrid(): (s: seq<BlockIndex>)
    ensures |s| == GenVolume && forall i :: 0 <= i < |s| ==> s[i] == EmptyBlockIndex
  {
    seq(GenVolume, _ => EmptyBlockIndex)
  }

  /** `GenerateChunks` places chunk `c` of the `count` grid at `c - count / 2`. */
  function ChunkGridKey(count: UVec3, c: UVec3): IVec3 {
    IVec3(c.x - count.x / 2, c.y - count.y / 2, c.z - count.z / 2)
  }

  /** The key of the `i`-th chunk `GenerateChunks` adds (z outermost, x innermost). */
  function GridKeyAt(count: UVec3, i: nat): IVec3
    requires i < Volume(count)
  {
    LocalIndexOfLocalIndices(count, i);
    ChunkGridKey(count, LocalIndices(count, i))
  }

  /** The keys of the first `n` chunks `GenerateChunks` adds. */
  function GridKeys(count: UVec3, n: nat): set<IVec3>
    requires n <= Volume(count)
  {
    set i | 0 <= i < n :: GridKeyAt(count, i)
  }

  /** The keys of one more chunk. */
  lemma GridKeysNext(count: UVec3, n: nat)
    requires n < Volume(count)
    ensures GridKeys(count, n + 1) == GridKeys(count, n) + {GridKeyAt(count, n)}
  {
    forall key | key in GridKeys(count, n + 1)
      ensures key in GridKeys(count, n) + {GridKeyAt(count, n)}
    {
      var i :| 0 <= i < n + 1 && GridKeyAt(count, i) == key;
      if i < n {
        assert key in GridKeys(count, n);
      }
    }
  }

  /** Distinct positions of the grid give distinct keys. */
  lemma GridKeyAtInjective(count: UVec3, i: nat, j: nat)
    requires i < Volume(count) && j < Volume(count)
    requires GridKeyAt(count, i) == GridKeyAt(count, j)
    ensures i == j
  {
    LocalIndexOfLocalIndices(count, i);
    LocalIndexOfLocalIndices(count, j);
    assert LocalIndices(count, i) == LocalIndices(count, j);
  }

  /** Grid cell `c` is the one added at step `LocalIndex(count, c)`. */
  lemma GridKeyAtCell(count: UVec3, c: UVec3)
    requires InBounds(count, c)
    ensures LocalIndex(count, c) < Volume(count)
    ensures GridKeyAt(count, LocalIndex(count, c)) == ChunkGridKey(count, c)
  {
    LocalIndexBound(count, c);
    LocalIndicesOfLocalIndex(count, c);
  }

  /** `GenerateChunks` adds exactly `count.x * count.y * count.z` chunks. */
  lemma {:induction false} GridKeysCount(count: UVec3, n: nat)
    requires n <= Volume(count)
    ensures |GridKeys(count, n)| == n
    decreases n
  {
    if n > 0 {
      GridKeysCount(count, n - 1);
      GridKeysNext(count, n - 1);
      if GridKeyAt(count, n - 1) in GridKeys(count, n - 1) {
        var i :| 0 <= i < n - 1 && GridKeyAt(count, i) == GridKeyAt(count, n - 1);
        GridKeyAtInjective(count, i, n - 1);
        assert false;
      }
    }
  }

  /** A key belongs to the planet grid exactly when it is `ChunkGridKey` of a
      cell of the grid. */
  lemma GridKeysMembers(count: UVec3, key: IVec3)
    ensures key in GridKeys(count, Volume(count)) <==> exists c :: InBounds(count, c) && ChunkGridKey(count, c) == key
  {
    if key in GridKeys(count, Volume(count)) {
      var i :| 0 <= i < Volume(count) && GridKeyAt(count, i) == key;
      LocalIndexOfLocalIndices(count, i);
    }
    if c :| InBounds(count, c) && ChunkGridKey(count, c) == key {
      GridKeyAtCell(count, c);
    }
  }

  /** The notifications `GenerateChunks` raises for its first `n` chunks: each
      is added, then its generated content is reported on every side. */
  function GenEvents(count: UVec3, n: nat): (e: seq<ContainerEvent>)
    requires n <= Volume(count)
    ensures |e| == 2 * n
  {
    if n == 0 then []
    else GenEvents(count, n - 1) + [ChunkAdded(GridKeyAt(count, n - 1)), ChunkUpdated(GridKeyAt(count, n - 1), DirectionMaskAll)]
  }

  /** Chunk `i` is announced at position `2 * i`, its generated content right after. */
  lemma {:induction false} GenEventsAt(count: UVec3, n: nat, i: nat)
    requires i < n <= Volume(count)
    ensures GenEvents(count, n)[2 * i] == ChunkAdded(GridKeyAt(count, i))
    ensures GenEvents(count, n)[2 * i + 1] == ChunkUpdated(GridKeyAt(count, i), DirectionMaskAll)
    decreases n
  {
    if i < n - 1 {
      GenEventsAt(count, n - 1, i);
    }
  }

  /** A chunk's content and kind. */
  datatype ChunkContent = ChunkContent(blocks: seq<BlockIndex>, kind: ChunkKind)

  /** The chunk contents after the first `k` chunks of `GenerateChunks`,
      starting from `m0`, each grid chunk with its `ExpectedAt` content. */
  ghost function ContentsAfter(m0: map<IVec3, ChunkContent>, count: UVec3, k: nat, library: map<string, BlockIndex>, world: WorldGen, seed: nat): map<IVec3, ChunkContent>
    requires k <= Volume(count)
  {
    if k == 0 then m0
    else ContentsAfter(m0, count, k - 1, library, world, seed)[GridKeyAt(count, k - 1) := ExpectedAt(library, world, seed, count, GridKeyAt(count, k - 1))]
  }

  /** The first `k` chunks are added to the keys already there. */
  lemma {:induction false} ContentsAfterKeys(m0: map<IVec3, ChunkContent>, count: UVec3, k: nat, library: map<string, BlockIndex>, world: WorldGen, seed: nat)
    requires k <= Volume(count)
    ensures ContentsAfter(m0, count, k, library, world, seed).Keys == m0.Keys + GridKeys(count, k)
    decreases k
  {
    if k == 0 {
      assert GridKeys(count, 0) == {};
    } else {
      ContentsAfterKeys(m0, count, k - 1, library, world, seed);
      GridKeysNext(count, k - 1);
    }
  }

  /** Each of the first `k` grid chunks holds its expected content. */
  lemma {:induction false} ContentsAfterAt(m0: map<IVec3, ChunkContent>, count: UVec3, k: nat, library: map<string, BlockIndex>, world: WorldGen, seed: nat, i: nat)
    requires i < k <= Volume(count)
    ensures GridKeyAt(count, i) in ContentsAfter(m0, count, k, library, world, seed)
    ensures ContentsAfter(m0, count, k, library, world, seed)[GridKeyAt(count, i)] == ExpectedAt(library, world, seed, count, GridKeyAt(count, i))
    decreases k
  {
    if i < k - 1 {
      ContentsAfterAt(m0, count, k - 1, library, world, seed, i);
      if GridKeyAt(count, i) == GridKeyAt(count, k - 1) {
        GridKeyAtInjective(count, i, k - 1);
        assert false;
      }
    }
  }

  /** What `GenerateChunks` has done after its first `k` chunks, starting
      from the chunks `c0` with contents `m0` and the notifications `e0`:
      the planet's map `cs`, the chunks' contents and the notifications
      raised. */
  ghost predicate GenSpec(c0: map<IVec3, Chunk>, m0: map<IVec3, ChunkContent>, e0: seq<ContainerEvent>, count: UVec3, k: nat,
                          cs: map<IVec3, Chunk>, contents: map<IVec3, ChunkContent>, events: seq<ContainerEvent>,
                          library: map<string, BlockIndex>, world: WorldGen, seed: nat)
  {
    && k <= Volume(count)
    && m0.Keys == c0.Keys && cs.Keys == contents.Keys
    && (forall key :: key in c0 ==> key in cs && cs[key] == c0[key])
    && contents == ContentsAfter(m0, count, k, library, world, seed)
    && events == e0 + GenEvents(count, k)
  }

  /** The next grid key is not in the planet yet. */
  lemma GenKeyFresh(c0: map<IVec3, Chunk>, m0: map<IVec3, ChunkContent>, e0: seq<ContainerEvent>, count: UVec3, k: nat,
                    cs: map<IVec3, Chunk>, contents: map<IVec3, ChunkContent>, events: seq<ContainerEvent>,
                    library: map<string, BlockIndex>, world: WorldGen, seed: nat)
    requires GenSpec(c0, m0, e0, count, k, cs, contents, events, library, world, seed)
    requires k < Volume(count) && GridKeyAt(count, k) !in c0
    ensures GridKeyAt(count, k) !in cs
  {
    ContentsAfterKeys(m0, count, k, library, world, seed);
    if GridKeyAt(count, k) in GridKeys(count, k) {
      var i :| 0 <= i < k && GridKeyAt(count, i) == GridKeyAt(count, k);
      GridKeyAtInjective(count, i, k);
      assert false;
    }
  }

  /** The notifications of the first `k + 1` grid chunks. */
  lemma GenStepEvents(count: UVec3, k: nat, e0: seq<ContainerEvent>)
    requires k < Volume(count)
    ensures var key := GridKeyAt(count, k);
      (e0 + GenEvents(count, k)) + [ChunkAdded(key), ChunkUpdated(key, DirectionMaskAll)] == e0 + GenEvents(count, k + 1)
  {
    var key := GridKeyAt(count, k);
    assert GenEvents(count, k + 1) == GenEvents(count, k) + [ChunkAdded(key), ChunkUpdated(key, DirectionMaskAll)];
    assert (e0 + GenEvents(count, k)) + [ChunkAdded(key), ChunkUpdated(key, DirectionMaskAll)]
      == e0 + (GenEvents(count, k) + [ChunkAdded(key), ChunkUpdated(key, DirectionMaskAll)]);
  }

  /** Adding the next grid chunk with its expected content extends what has
      been done by one chunk. */
  lemma GenStep(c0: map<IVec3, Chunk>, m0: map<IVec3, ChunkContent>, e0: seq<ContainerEvent>, count: UVec3, k: nat, k': nat,
                cs: map<IVec3, Chunk>, contents: map<IVec3, ChunkContent>, events: seq<ContainerEvent>,
                library: map<string, BlockIndex>, world: WorldGen, seed: nat,
                cs': map<IVec3, Chunk>, contents': map<IVec3, ChunkContent>, events': seq<ContainerEvent>)
    requires GenSpec(c0, m0, e0, count, k, cs, contents, events, library, world, seed)
    requires k < Volume(count) && k' == k + 1 && GridKeyAt(count, k) !in c0
    requires GridKeyAt(count, k) in cs' && cs' == cs[GridKeyAt(count, k) := cs'[GridKeyAt(count, k)]]
    requires contents' == contents[GridKeyAt(count, k) := ExpectedAt(library, world, seed, count, GridKeyAt(count, k))]
    requires events' == events + [ChunkAdded(GridKeyAt(count, k)), ChunkUpdated(GridKeyAt(count, k), DirectionMaskAll)]
    ensures GenSpec(c0, m0, e0, count, k', cs', contents', events', library, world, seed)
  {
    GenStepEvents(count, k, e0);
  }

  /** Once the whole grid is done, every cell's chunk has its expected
      content and the new keys are exactly the grid's. */
  lemma GenSpecDone(c0: map<IVec3, Chunk>, m0: map<IVec3, ChunkContent>, e0: seq<ContainerEvent>, count: UVec3,
                    cs: map<IVec3, Chunk>, contents: map<IVec3, ChunkContent>, events: seq<ContainerEvent>,
                    library: map<string, BlockIndex>, world: WorldGen, seed: nat)
    requires GenSpec(c0, m0, e0, count, Volume(count), cs, contents, events, library, world, seed)
    ensures cs.Keys == c0.Keys + GridKeys(count, Volume(count))
    ensures |GridKeys(count, Volume(count))| == Volume(count)
    ensures forall c :: InBounds(count, c) ==>
      ChunkGridKey(count, c) in contents && contents[ChunkGridKey(count, c)] == ExpectedAt(library, world, seed, count, ChunkGridKey(count, c))
  {
    ContentsAfterKeys(m0, count, Volume(count), library, world, seed);
    GridKeysCount(count, Volume(count));
    forall c | InBounds(count, c)
      ensures ChunkGridKey(count, c) in contents && contents[ChunkGridKey(count, c)] == ExpectedAt(library, world, seed, count, ChunkGridKey(count, c))
    {
      GridKeyAtCell(count, c);
      ContentsAfterAt(m0, count, Volume(count), library, world, seed, LocalIndex(count, c));
    }
  }

  /** `GridChunkContent` for every key where it is defined. */
  ghost function ExpectedAt(library: map<string, BlockIndex>, world: WorldGen, seed: nat, count: UVec3, key: IVec3): ChunkContent {
    if seed <= UInt32Max && DepthDefined(ChunkContext(library, world, seed, key, count))
    then GridChunkContent(library, world, seed, count, key)
    else ChunkContent([], Flat)
  }

  /** The content `GenerateChunks` gives the chunk under `key`. */
  function GridChunkContent(library: map<string, BlockIndex>, world: WorldGen, seed: nat, count: UVec3, key: IVec3): (c: ChunkContent)
    requires seed <= UInt32Max && DepthDefined(ChunkContext(library, world, seed, key, count))
    ensures |c.blocks| == GenVolume
  {
    ChunkContent(GeneratedContent(ChunkContext(library, world, seed, key, count), EmptyGrid()),
                 if world.deformedAt(key) then Deformed else Flat)
  }

  /** The fields of a chunk that the planet's operations state: its blocks,
      its per-face collision flag and the notifications it raised. The
      histogram and the collision mask are left out, because what
      `UpdateBlock` does to them is not part of this model. */
  datatype ChunkState = ChunkState(blocks: seq<BlockIndex>, hasPerFaceCollision: bool, resetSignals: nat,
                                   blockUpdates: seq<(UVec3, BlockIndex)>)

  ghost function StateOf(c: Chunk): ChunkState
    reads c
  {
    ChunkState(c.blocks, c.hasPerFaceCollision, c.resetSignals, c.blockUpdates)
  }

  /** The state of a planet's chunks and the notifications raised so far. */
  datatype PlanetView = PlanetView(chunks: map<IVec3, ChunkState>, events: seq<ContainerEvent>)

  /** The chunk under `key`, if there is one, has content. */
  predicate ContentAt(v: PlanetView, key: IVec3) {
    key in v.chunks ==> |v.chunks[key].blocks| == Volume(PlanetChunkSize)
  }

  /** `GetChunkIndicesByBlockIndices` (not part of this model) gives the
      chunk holding some block indices and the block's coordinates inside
      that chunk, which are always in range. */
  ghost predicate LocatesInside(locate: IVec3 -> (IVec3, UVec3)) {
    forall p :: InBounds(PlanetChunkSize, locate(p).1)
  }

  /** Distinct block indices lie in distinct (chunk, voxel) places. */
  ghost predicate LocatesApart(locate: IVec3 -> (IVec3, UVec3)) {
    forall p, q :: p != q ==> locate(p) != locate(q)
  }

  /** One platform voxel: `GetChunk` of the block's chunk and, when there is
      one, `UpdateBlock` with the notification the planet raises for it. */
  function ApplyWrite(v: PlanetView, locate: IVec3 -> (IVec3, UVec3), p: IVec3, b: BlockIndex): (w: PlanetView)
    requires InBounds(PlanetChunkSize, locate(p).1) && ContentAt(v, locate(p).0)
    ensures w.chunks.Keys == v.chunks.Keys
    ensures forall key :: key in v.chunks ==> |w.chunks[key].blocks| == |v.chunks[key].blocks|
    ensures locate(p).0 !in v.chunks ==> w == v
  {
    var key := locate(p).0;
    var inner := locate(p).1;
    if key in v.chunks then
      LocalIndexBound(PlanetChunkSize, inner);
      var s := v.chunks[key];
      PlanetView(v.chunks[key := s.(blocks := s.blocks[LocalIndex(PlanetChunkSize, inner) := b],
                                    blockUpdates := s.blockUpdates + [(inner, b)])],
                 v.events + [ChunkUpdated(key, PlanetNeighborMask(PlanetChunkSize, inner))])
    else v
  }

  /** The top pass of `GeneratePlatform` for a platform centred on `center`
      whose up direction has the axes `a`. */
  function PlatformTop(library: map<string, BlockIndex>, center: IVec3, a: DirAxis): (g: TopPass)
    requires ValidDirAxis(a)
    ensures g.axis == a && g.size == PlatformSize && g.layers == TopLayers(center, a) == TopLayers(g.corner, a)
  {
    TopPass(PlatformCorner(center, a), a, GetBlockIndex(library, "copper_block"), GetBlockIndex(library, "stone_bricks"),
            TopLayers(center, a), PlatformSize)
  }

  /** The bottom pass that `GeneratePlatform` runs after the top pass `g`:
      from the same corner and axes, with planks. */
  function PlatformBottom(library: map<string, BlockIndex>, g: TopPass): (b: BottomPass)
    ensures b.corner == g.corner && b.axis == g.axis && b.size == PlatformSize
  {
    BottomPass(g.corner, g.axis, GetBlockIndex(library, "planks"), PlatformSize)
  }

  /** Two in-range voxels of a chunk with the same linear index are the same voxel. */
  lemma LocalIndexInjective(c: UVec3, d: UVec3)
    requires InBounds(PlanetChunkSize, c) && InBounds(PlanetChunkSize, d)
    requires LocalIndex(PlanetChunkSize, c) == LocalIndex(PlanetChunkSize, d)
    ensures c == d
  {
    LocalIndicesOfLocalIndex(PlanetChunkSize, c);
    LocalIndicesOfLocalIndex(PlanetChunkSize, d);
  }

  /** One write changes the voxel it is aimed at, when its chunk exists,
      and no other. */
  lemma ApplyWriteBlock(v: PlanetView, locate: IVec3 -> (IVec3, UVec3), p: IVec3, b: BlockIndex, key: IVec3, inner: UVec3)
    requires InBounds(PlanetChunkSize, locate(p).1) && ContentAt(v, locate(p).0)
    requires key in v.chunks && InBounds(PlanetChunkSize, inner) && LocalIndex(PlanetChunkSize, inner) < |v.chunks[key].blocks|
    ensures ApplyWrite(v, locate, p, b).chunks[key].blocks[LocalIndex(PlanetChunkSize, inner)]
            == if locate(p) == (key, inner) then b else v.chunks[key].blocks[LocalIndex(PlanetChunkSize, inner)]
  {
    if locate(p).0 == key && locate(p).1 != inner {
      if LocalIndex(PlanetChunkSize, locate(p).1) == LocalIndex(PlanetChunkSize, inner) {
        LocalIndexInjective(locate(p).1, inner);
        assert false;
      }
    }
  }

  /** One voxel of the top pass: cell `(x, z)` of layer `y` gets the block
      `TopBlock` chooses for it, when its chunk exists and has content. */
  function TopVisit(v: PlanetView, locate: IVec3 -> (IVec3, UVec3), g: TopPass, y: nat, x: nat, z: nat): PlanetView
    requires ValidDirAxis(g.axis) && LocatesInside(locate)
  {
    var p := PlatformPos(g.corner, g.axis, x, z, y);
    if Readable(v, locate, p) then ApplyWrite(v, locate, p, TopBlock(g.border, g.interior, x, z, y)) else v
  }

  /** The first `n` voxels of row `z` of top layer `y`. */
  function TopRowAfter(v: PlanetView, locate: IVec3 -> (IVec3, UVec3), g: TopPass, y: nat, z: nat, n: nat): PlanetView
    requires ValidDirAxis(g.axis) && LocatesInside(locate)
    decreases n
  {
    if n == 0 then v
    else TopVisit(TopRowAfter(v, locate, g, y, z, n - 1), locate, g, y, n - 1, z)
  }

  /** The first `m` rows of top layer `y`. */
  function TopLayerAfter(v: PlanetView, locate: IVec3 -> (IVec3, UVec3), g: TopPass, y: nat, m: nat): PlanetView
    requires ValidDirAxis(g.axis) && LocatesInside(locate)
    decreases m
  {
    if m == 0 then v
    else TopRowAfter(TopLayerAfter(v, locate, g, y, m - 1), locate, g, y, m - 1, g.size)
  }

  /** The first `n` layers of the top pass. */
  function TopAfter(v: PlanetView, locate: IVec3 -> (IVec3, UVec3), g: TopPass, n: nat): PlanetView
    requires ValidDirAxis(g.axis) && LocatesInside(locate)
    decreases n
  {
    if n == 0 then v
    else TopLayerAfter(TopAfter(v, locate, g, n - 1), locate, g, n - 1, g.size)
  }

  /** Distinct cells of the platform's box lie in distinct places once
      located. */
  lemma PlatformPosApart(corner: IVec3, a: DirAxis, locate: IVec3 -> (IVec3, UVec3), x: int, z: int, y: int, x': int, z': int, y': int)
    requires ValidDirAxis(a) && LocatesApart(locate) && (x, z, y) != (x', z', y')
    ensures locate(PlatformPos(corner, a, x, z, y)) != locate(PlatformPos(corner, a, x', z', y'))
  {
    if PlatformPos(corner, a, x, z, y) == PlatformPos(corner, a, x', z', y') {
      PlatformPosInjective(corner, a, x, z, y, x', z', y');
      assert false;
    }
  }

  /** A voxel the first `n` writes of row `z` leave alone keeps its block. */
  lemma {:induction false} TopRowElsewhere(v: PlanetView, locate: IVec3 -> (IVec3, UVec3), g: TopPass, y: nat, z: nat, n: nat, q: IVec3)
    requires ValidDirAxis(g.axis) && LocatesInside(locate) && Readable(v, locate, q)
    requires forall x: nat :: x < n ==> locate(PlatformPos(g.corner, g.axis, x, z, y)) != locate(q)
    ensures var w := TopRowAfter(v, locate, g, y, z, n);
      Readable(w, locate, q) && ContentOf(w, locate, q) == ContentOf(v, locate, q)
    decreases n
  {
    if n > 0 {
      TopRowElsewhere(v, locate, g, y, z, n - 1, q);
      var r := TopRowAfter(v, locate, g, y, z, n - 1);
      var p := PlatformPos(g.corner, g.axis, n - 1, z, y);
      if Readable(r, locate, p) {
        ApplyWriteContent(r, locate, p, TopBlock(g.border, g.interior, n - 1, z, y), q);
      }
    }
  }

  /** A voxel the first `m` rows of layer `y` leave alone keeps its block. */
  lemma {:induction false} TopLayerElsewhere(v: PlanetView, locate: IVec3 -> (IVec3, UVec3), g: TopPass, y: nat, m: nat, q: IVec3)
    requires ValidDirAxis(g.axis) && LocatesInside(locate) && Readable(v, locate, q)
    requires forall x: nat, z: nat :: x < g.size && z < m ==> locate(PlatformPos(g.corner, g.axis, x, z, y)) != locate(q)
    ensures var w := TopLayerAfter(v, locate, g, y, m);
      Readable(w, locate, q) && ContentOf(w, locate, q) == ContentOf(v, locate, q)
    decreases m
  {
    if m > 0 {
      TopLayerElsewhere(v, locate, g, y, m - 1, q);
      TopRowElsewhere(TopLayerAfter(v, locate, g, y, m - 1), locate, g, y, m - 1, g.size, q);
    }
  }

  /** A voxel the first `n` layers of the top pass leave alone keeps its block. */
  lemma {:induction false} TopAfterElsewhere(v: PlanetView, locate: IVec3 -> (IVec3, UVec3), g: TopPass, n: nat, q: IVec3)
    requires ValidDirAxis(g.axis) && LocatesInside(locate) && Readable(v, locate, q)
    requires forall x: nat, z: nat, y: nat :: x < g.size && z < g.size && y < n ==>
      locate(PlatformPos(g.corner, g.axis, x, z, y)) != locate(q)
    ensures var w := TopAfter(v, locate, g, n);
      Readable(w, locate, q) && ContentOf(w, locate, q) == ContentOf(v, locate, q)
    decreases n
  {
    if n > 0 {
      TopAfterElsewhere(v, locate, g, n - 1, q);
      TopLayerElsewhere(TopAfter(v, locate, g, n - 1), locate, g, n - 1, g.size, q);
    }
  }

  /** After the first `n` writes of row `z`, each readable voxel they reach
      holds the block `TopBlock` chooses for it. */
  lemma {:induction false} TopRowAt(v: PlanetView, locate: IVec3 -> (IVec3, UVec3), g: TopPass, y: nat, z: nat, n: nat, x: nat)
    requires ValidDirAxis(g.axis) && LocatesInside(locate) && LocatesApart(locate)
    requires x < n && Readable(v, locate, PlatformPos(g.corner, g.axis, x, z, y))
    ensures var p := PlatformPos(g.corner, g.axis, x, z, y);
      var w := TopRowAfter(v, locate, g, y, z, n);
      Readable(w, locate, p) && ContentOf(w, locate, p) == TopBlock(g.border, g.interior, x, z, y)
    decreases n
  {
    var p := PlatformPos(g.corner, g.axis, x, z, y);
    var r := TopRowAfter(v, locate, g, y, z, n - 1);
    var q := PlatformPos(g.corner, g.axis, n - 1, z, y);
    if x < n - 1 {
      TopRowAt(v, locate, g, y, z, n - 1, x);
      if Readable(r, locate, q) {
        PlatformPosApart(g.corner, g.axis, locate, x, z, y, n - 1, z, y);
        ApplyWriteContent(r, locate, q, TopBlock(g.border, g.interior, n - 1, z, y), p);
      }
    } else {
      forall x': nat | x' < n - 1
        ensures locate(PlatformPos(g.corner, g.axis, x', z, y)) != locate(p)
      {
        PlatformPosApart(g.corner, g.axis, locate, x', z, y, x, z, y);
      }
      TopRowElsewhere(v, locate, g, y, z, n - 1, p);
      ApplyWriteContent(r, locate, q, TopBlock(g.border, g.interior, x, z, y), p);
    }
  }

  /** After the first `m` rows of layer `y`, each readable voxel they reach
      holds the block `TopBlock` chooses for it. */
  lemma {:induction false} TopLayerAt(v: PlanetView, locate: IVec3 -> (IVec3, UVec3), g: TopPass, y: nat, m: nat, x: nat, z: nat)
    requires ValidDirAxis(g.axis) && LocatesInside(locate) && LocatesApart(locate)
    requires x < g.size && z < m && Readable(v, locate, PlatformPos(g.corner, g.axis, x, z, y))
    ensures var p := PlatformPos(g.corner, g.axis, x, z, y);
      var w := TopLayerAfter(v, locate, g, y, m);
      Readable(w, locate, p) && ContentOf(w, locate, p) == TopBlock(g.border, g.interior, x, z, y)
    decreases m
  {
    var p := PlatformPos(g.corner, g.axis, x, z, y);
    var r := TopLayerAfter(v, locate, g, y, m - 1);
    if z < m - 1 {
      TopLayerAt(v, locate, g, y, m - 1, x, z);
      var last := m - 1;
      forall x': nat | x' < g.size
        ensures locate(PlatformPos(g.corner, g.axis, x', last, y)) != locate(p)
      {
        PlatformPosApart(g.corner, g.axis, locate, x', last, y, x, z, y);
      }
      TopRowElsewhere(r, locate, g, y, m - 1, g.size, p);
    } else {
      forall x': nat, z': nat | x' < g.size && z' < m - 1
        ensures locate(PlatformPos(g.corner, g.axis, x', z', y)) != locate(p)
      {
        PlatformPosApart(g.corner, g.axis, locate, x', z', y, x, z, y);
      }
      TopLayerElsewhere(v, locate, g, y, m - 1, p);
      TopRowAt(r, locate, g, y, m - 1, g.size, x);
    }
  }

  /** After the first `n` layers of the top pass, each readable voxel of
      those layers holds the block `TopBlock` chooses for it: copper on the
      platform's rim, stone bricks inside it, nothing above. */
  lemma {:induction false} TopAfterAt(v: PlanetView, locate: IVec3 -> (IVec3, UVec3), g: TopPass, n: nat, x: nat, z: nat, y: nat)
    requires ValidDirAxis(g.axis) && LocatesInside(locate) && LocatesApart(locate)
    requires x < g.size && z < g.size && y < n && Readable(v, locate, PlatformPos(g.corner, g.axis, x, z, y))
    ensures var p := PlatformPos(g.corner, g.axis, x, z, y);
      var w := TopAfter(v, locate, g, n);
      Readable(w, locate, p) && ContentOf(w, locate, p) == TopBlock(g.border, g.interior, x, z, y)
    decreases n
  {
    var p := PlatformPos(g.corner, g.axis, x, z, y);
    var r := TopAfter(v, locate, g, n - 1);
    if y < n - 1 {
      TopAfterAt(v, locate, g, n - 1, x, z, y);
      var last := n - 1;
      forall x': nat, z': nat | x' < g.size && z' < g.size
        ensures locate(PlatformPos(g.corner, g.axis, x', z', last)) != locate(p)
      {
        PlatformPosApart(g.corner, g.axis, locate, x', z', last, x, z, y);
      }
      TopLayerElsewhere(r, locate, g, n - 1, g.size, p);
    } else {
      forall x': nat, z': nat, y': nat | x' < g.size && z' < g.size && y' < n - 1
        ensures locate(PlatformPos(g.corner, g.axis, x', z', y')) != locate(p)
      {
        PlatformPosApart(g.corner, g.axis, locate, x', z', y', x, z, y);
      }
      TopAfterElsewhere(v, locate, g, n - 1, p);
      TopLayerAt(r, locate, g, n - 1, g.size, x, z);
    }
  }

  /** Every chunk of the planet has content. */
  ghost predicate AllContent(v: PlanetView) {
    forall key :: key in v.chunks ==> |v.chunks[key].blocks| == Volume(PlanetChunkSize)
  }

  /** What the bottom pass needs to know of a platform: its corner and axes,
      the planks block and the side of its square. */
  datatype BottomPass = BottomPass(corner: IVec3, axis: DirAxis, planks: BlockIndex, size: nat)

  /** The voxel of cell `(x, z)` in bottom layer `y`, `y` steps below the platform. */
  function BottomPos(g: BottomPass, x: nat, z: nat, y: nat): IVec3
    requires ValidDirAxis(g.axis)
  {
    PlatformPos(g.corner, g.axis, x, z, -(y as int))
  }

  /** The voxel at `p` can be read: its chunk exists and has content. */
  predicate Readable(v: PlanetView, locate: IVec3 -> (IVec3, UVec3), p: IVec3) {
    locate(p).0 in v.chunks && |v.chunks[locate(p).0].blocks| == Volume(PlanetChunkSize)
  }

  /** The block a bottom-layer visit reads: the content of the voxel at `p`. */
  function ContentOf(v: PlanetView, locate: IVec3 -> (IVec3, UVec3), p: IVec3): BlockIndex
    requires InBounds(PlanetChunkSize, locate(p).1) && Readable(v, locate, p)
  {
    LocalIndexBound(PlanetChunkSize, locate(p).1);
    v.chunks[locate(p).0].blocks[LocalIndex(PlanetChunkSize, locate(p).1)]
  }

  /** One visit of the bottom pass at cell `(x, z)` of layer `y`: when the
      voxel can be read and `BottomFills` holds of its content, planks go
      there and the layer counts as having written something. */
  function BottomVisit(v: PlanetView, locate: IVec3 -> (IVec3, UVec3), g: BottomPass, y: nat, x: nat, z: nat, wrote: bool)
    : (PlanetView, bool)
    requires ValidDirAxis(g.axis) && LocatesInside(locate)
  {
    var p := BottomPos(g, x, z, y);
    if Readable(v, locate, p) && BottomFills(y, x, z, ContentOf(v, locate, p))
    then (ApplyWrite(v, locate, p, g.planks), true)
    else (v, wrote)
  }

  /** The first `n` visits of row `z` of bottom layer `y`; `wrote` says
      whether the layer has written before the row. */
  function BottomRowAfter(v: PlanetView, locate: IVec3 -> (IVec3, UVec3), g: BottomPass, y: nat, z: nat, n: nat, wrote: bool)
    : (PlanetView, bool)
    requires ValidDirAxis(g.axis) && LocatesInside(locate)
    decreases n
  {
    if n == 0 then (v, wrote)
    else
      var r := BottomRowAfter(v, locate, g, y, z, n - 1, wrote);
      BottomVisit(r.0, locate, g, y, n - 1, z, r.1)
  }

  /** How far row `z` of bottom layer `y` gets, from cell `x` on, on a planet
      whose chunks are `keys`: to the first cell whose voxel lies in no chunk,
      or to the end of the row. At that cell the `continue` comes before the
      step to the right, so every later turn of the row looks at the same
      voxel and does nothing. */
  function RowReach(keys: set<IVec3>, locate: IVec3 -> (IVec3, UVec3), g: BottomPass, y: nat, z: nat, x: nat): (k: nat)
    requires ValidDirAxis(g.axis) && x <= g.size
    ensures x <= k <= g.size
    decreases g.size - x
  {
    if x == g.size || locate(BottomPos(g, x, z, y)).0 !in keys then x
    else RowReach(keys, locate, g, y, z, x + 1)
  }

  /** The row reaches exactly the cells before the first voxel in no chunk. */
  lemma {:induction false} RowReachFirstMissing(keys: set<IVec3>, locate: IVec3 -> (IVec3, UVec3), g: BottomPass, y: nat, z: nat, x: nat)
    requires ValidDirAxis(g.axis) && x <= g.size
    ensures var k := RowReach(keys, locate, g, y, z, x);
            && (forall i :: x <= i < k ==> locate(BottomPos(g, i, z, y)).0 in keys)
            && (k < g.size ==> locate(BottomPos(g, k, z, y)).0 !in keys)
    decreases g.size - x
  {
    if x < g.size && locate(BottomPos(g, x, z, y)).0 in keys {
      RowReachFirstMissing(keys, locate, g, y, z, x + 1);
    }
  }

  /** One turn of a row at counter `x`, standing at cell `at` (`x` until the
      row stops at `k`): a voxel in a chunk means the row has not stopped,
      a voxel in none means it stops there. */
  lemma RowReachTurn(keys: set<IVec3>, locate: IVec3 -> (IVec3, UVec3), g: BottomPass, y: nat, z: nat, x: nat, at: nat)
    requires ValidDirAxis(g.axis) && x < g.size
    requires var k := RowReach(keys, locate, g, y, z, 0); at <= x && at <= k && (at == x || at == k)
    ensures var k := RowReach(keys, locate, g, y, z, 0);
            if locate(BottomPos(g, at, z, y)).0 in keys then at == x < k else at == k
  {
    RowReachFirstMissing(keys, locate, g, y, z, 0);
  }

  /** When every voxel of the row lies in a chunk, the row gets to its end. */
  lemma RowReachAllPresent(keys: set<IVec3>, locate: IVec3 -> (IVec3, UVec3), g: BottomPass, y: nat, z: nat)
    requires ValidDirAxis(g.axis)
    requires forall x :: 0 <= x < g.size ==> locate(BottomPos(g, x, z, y)).0 in keys
    ensures RowReach(keys, locate, g, y, z, 0) == g.size
  {
    RowReachFirstMissing(keys, locate, g, y, z, 0);
  }

  /** The first `m` rows of bottom layer `y`, and whether they wrote: each row
      visits its cells up to its `RowReach`. */
  function BottomLayerAfter(v: PlanetView, locate: IVec3 -> (IVec3, UVec3), g: BottomPass, y: nat, m: nat): (PlanetView, bool)
    requires ValidDirAxis(g.axis) && LocatesInside(locate)
    decreases m
  {
    if m == 0 then (v, false)
    else
      var r := BottomLayerAfter(v, locate, g, y, m - 1);
      BottomRowAfter(r.0, locate, g, y, m - 1, RowReach(v.chunks.Keys, locate, g, y, m - 1, 0), r.1)
  }

  /** The bottom pass from layer `y` on, for at most `fuel` layers: it stops
      after the first layer that writes nothing. */
  function BottomAfter(v: PlanetView, locate: IVec3 -> (IVec3, UVec3), g: BottomPass, y: nat, fuel: nat): PlanetView
    requires ValidDirAxis(g.axis) && LocatesInside(locate)
    decreases fuel
  {
    if fuel == 0 then v
    else
      var r := BottomLayerAfter(v, locate, g, y, g.size);
      if !r.1 then r.0 else BottomAfter(r.0, locate, g, y + 1, fuel - 1)
  }

  /** `ApplyWriteBlock` read through `ContentOf`. */
  lemma ApplyWriteContent(v: PlanetView, locate: IVec3 -> (IVec3, UVec3), p: IVec3, b: BlockIndex, q: IVec3)
    requires LocatesInside(locate) && Readable(v, locate, p) && Readable(v, locate, q)
    ensures Readable(ApplyWrite(v, locate, p, b), locate, q)
    ensures ContentOf(ApplyWrite(v, locate, p, b), locate, q) == if locate(p) == locate(q) then b else ContentOf(v, locate, q)
  {
    LocalIndexBound(PlanetChunkSize, locate(q).1);
    ApplyWriteBlock(v, locate, p, b, locate(q).0, locate(q).1);
  }

  /** A write keeps every chunk's content in place. */
  lemma ApplyWriteFilled(v: PlanetView, locate: IVec3 -> (IVec3, UVec3), p: IVec3, b: BlockIndex)
    requires InBounds(PlanetChunkSize, locate(p).1) && AllContent(v)
    ensures AllContent(ApplyWrite(v, locate, p, b))
  {
    var w := ApplyWrite(v, locate, p, b);
    forall key | key in w.chunks
      ensures |w.chunks[key].blocks| == Volume(PlanetChunkSize)
    {
      assert key in v.chunks;
    }
  }

  /** Rows that write nothing leave the planet as it was. */
  lemma {:induction false} BottomRowQuiet(v: PlanetView, locate: IVec3 -> (IVec3, UVec3), g: BottomPass, y: nat, z: nat, n: nat, wrote: bool)
    requires ValidDirAxis(g.axis) && LocatesInside(locate)
    ensures wrote ==> BottomRowAfter(v, locate, g, y, z, n, wrote).1
    ensures !BottomRowAfter(v, locate, g, y, z, n, wrote).1 ==> BottomRowAfter(v, locate, g, y, z, n, wrote).0 == v
    decreases n
  {
    if n > 0 {
      BottomRowQuiet(v, locate, g, y, z, n - 1, wrote);
    }
  }

  /** A layer that writes nothing leaves the planet as it was. */
  lemma {:induction false} BottomLayerQuiet(v: PlanetView, locate: IVec3 -> (IVec3, UVec3), g: BottomPass, y: nat, m: nat)
    requires ValidDirAxis(g.axis) && LocatesInside(locate)
    ensures !BottomLayerAfter(v, locate, g, y, m).1 ==> BottomLayerAfter(v, locate, g, y, m).0 == v
    decreases m
  {
    if m > 0 {
      var r := BottomLayerAfter(v, locate, g, y, m - 1);
      var k := RowReach(v.chunks.Keys, locate, g, y, m - 1, 0);
      var w := BottomRowAfter(r.0, locate, g, y, m - 1, k, r.1);
      assert BottomLayerAfter(v, locate, g, y, m) == w;
      BottomRowQuiet(r.0, locate, g, y, m - 1, k, r.1);
      if !w.1 {
        assert !r.1;
        BottomLayerQuiet(v, locate, g, y, m - 1);
      }
    }
  }

  /** Distinct cells of a bottom layer lie in distinct voxels. */
  lemma BottomPosDistinct(g: BottomPass, y: nat, x: nat, z: nat, x': nat, z': nat)
    requires ValidDirAxis(g.axis) && (x, z) != (x', z')
    ensures BottomPos(g, x, z, y) != BottomPos(g, x', z', y)
  {
    if BottomPos(g, x, z, y) == BottomPos(g, x', z', y) {
      PlatformPosInjective(g.corner, g.axis, x, z, -(y as int), x', z', -(y as int));
      assert false;
    }
  }

  /** The cell `(qx, qz)` of layer `y` keeps its block through the first `n`
      visits of row `z` when they do not reach it. */
  lemma {:induction false} BottomRowElsewhere(v: PlanetView, locate: IVec3 -> (IVec3, UVec3), g: BottomPass, y: nat, z: nat, n: nat,
                                              wrote: bool, qx: nat, qz: nat)
    requires ValidDirAxis(g.axis) && LocatesInside(locate) && LocatesApart(locate)
    requires Readable(v, locate, BottomPos(g, qx, qz, y)) && (qz != z || n <= qx)
    ensures var q := BottomPos(g, qx, qz, y);
      var w := BottomRowAfter(v, locate, g, y, z, n, wrote).0;
      Readable(w, locate, q) && ContentOf(w, locate, q) == ContentOf(v, locate, q)
    decreases n
  {
    if n > 0 {
      BottomRowElsewhere(v, locate, g, y, z, n - 1, wrote, qx, qz);
      var r := BottomRowAfter(v, locate, g, y, z, n - 1, wrote);
      var p := BottomPos(g, n - 1, z, y);
      if Readable(r.0, locate, p) {
        BottomPosDistinct(g, y, n - 1, z, qx, qz);
        ApplyWriteContent(r.0, locate, p, g.planks, BottomPos(g, qx, qz, y));
      }
    }
  }

  /** The cell `(qx, qz)` of layer `y` keeps its block through the first `m`
      rows when it lies in none of them. */
  lemma {:induction false} BottomLayerElsewhere(v: PlanetView, locate: IVec3 -> (IVec3, UVec3), g: BottomPass, y: nat, m: nat,
                                                qx: nat, qz: nat)
    requires ValidDirAxis(g.axis) && LocatesInside(locate) && LocatesApart(locate)
    requires Readable(v, locate, BottomPos(g, qx, qz, y)) && m <= qz
    ensures var q := BottomPos(g, qx, qz, y);
      var w := BottomLayerAfter(v, locate, g, y, m).0;
      Readable(w, locate, q) && ContentOf(w, locate, q) == ContentOf(v, locate, q)
    decreases m
  {
    if m > 0 {
      BottomLayerElsewhere(v, locate, g, y, m - 1, qx, qz);
      var r := BottomLayerAfter(v, locate, g, y, m - 1);
      BottomRowElsewhere(r.0, locate, g, y, m - 1, RowReach(v.chunks.Keys, locate, g, y, m - 1, 0), r.1, qx, qz);
    }
  }

  /** After the first `n` visits of row `z`, the readable voxel of a visited
      cell `(x, z)` holds planks exactly when `BottomFills` held of its block
      before the row, and that block otherwise. */
  lemma {:induction false} BottomRowAt(v: PlanetView, locate: IVec3 -> (IVec3, UVec3), g: BottomPass, y: nat, z: nat, n: nat,
                                       wrote: bool, x: nat)
    requires ValidDirAxis(g.axis) && LocatesInside(locate) && LocatesApart(locate)
    requires x < n && Readable(v, locate, BottomPos(g, x, z, y))
    ensures var p := BottomPos(g, x, z, y);
      var was := ContentOf(v, locate, p);
      var w := BottomRowAfter(v, locate, g, y, z, n, wrote).0;
      Readable(w, locate, p) && ContentOf(w, locate, p) == if BottomFills(y, x, z, was) then g.planks else was
    decreases n
  {
    var p := BottomPos(g, x, z, y);
    var r := BottomRowAfter(v, locate, g, y, z, n - 1, wrote);
    var q := BottomPos(g, n - 1, z, y);
    if x < n - 1 {
      BottomRowAt(v, locate, g, y, z, n - 1, wrote, x);
      if Readable(r.0, locate, q) {
        BottomPosDistinct(g, y, x, z, n - 1, z);
        ApplyWriteContent(r.0, locate, q, g.planks, p);
      }
    } else {
      BottomRowElsewhere(v, locate, g, y, z, n - 1, wrote, x, z);
      ApplyWriteContent(r.0, locate, q, g.planks, p);
    }
  }

  /** After the first `m` rows of layer `y`, the readable voxel of a cell
      `(x, z)` its row reaches holds planks exactly when `BottomFills` held of
      its block before the layer, and that block otherwise: on every third
      layer the rim, elsewhere the empty corners. */
  lemma {:induction false} BottomLayerAt(v: PlanetView, locate: IVec3 -> (IVec3, UVec3), g: BottomPass, y: nat, m: nat, x: nat, z: nat)
    requires ValidDirAxis(g.axis) && LocatesInside(locate) && LocatesApart(locate)
    requires z < m && x < RowReach(v.chunks.Keys, locate, g, y, z, 0)
    requires Readable(v, locate, BottomPos(g, x, z, y))
    ensures var p := BottomPos(g, x, z, y);
      var was := ContentOf(v, locate, p);
      var w := BottomLayerAfter(v, locate, g, y, m).0;
      Readable(w, locate, p) && ContentOf(w, locate, p) == if BottomFills(y, x, z, was) then g.planks else was
    decreases m
  {
    var r := BottomLayerAfter(v, locate, g, y, m - 1);
    var k := RowReach(v.chunks.Keys, locate, g, y, m - 1, 0);
    if z < m - 1 {
      BottomLayerAt(v, locate, g, y, m - 1, x, z);
      BottomRowElsewhere(r.0, locate, g, y, m - 1, k, r.1, x, z);
    } else {
      BottomLayerElsewhere(v, locate, g, y, m - 1, x, z);
      BottomRowAt(r.0, locate, g, y, m - 1, k, r.1, x);
    }
  }

  /** A cell of the first `m` rows that its row does not reach, because an
      earlier voxel of the row lies in no chunk, keeps its block, even where
      `BottomFills` holds of it. */
  lemma {:induction false} BottomLayerUnreached(v: PlanetView, locate: IVec3 -> (IVec3, UVec3), g: BottomPass, y: nat, m: nat, x: nat, z: nat)
    requires ValidDirAxis(g.axis) && LocatesInside(locate) && LocatesApart(locate)
    requires z < m && RowReach(v.chunks.Keys, locate, g, y, z, 0) <= x
    requires Readable(v, locate, BottomPos(g, x, z, y))
    ensures var p := BottomPos(g, x, z, y);
      var w := BottomLayerAfter(v, locate, g, y, m).0;
      Readable(w, locate, p) && ContentOf(w, locate, p) == ContentOf(v, locate, p)
    decreases m
  {
    var r := BottomLayerAfter(v, locate, g, y, m - 1);
    var k := RowReach(v.chunks.Keys, locate, g, y, m - 1, 0);
    if z < m - 1 {
      BottomLayerUnreached(v, locate, g, y, m - 1, x, z);
      BottomRowElsewhere(r.0, locate, g, y, m - 1, k, r.1, x, z);
    } else {
      BottomLayerElsewhere(v, locate, g, y, m - 1, x, z);
      BottomRowElsewhere(r.0, locate, g, y, m - 1, k, r.1, x, z);
    }
  }

  /** The bottom pass from layer `y` stops, by itself, within `fuel` layers. */
  ghost predicate BottomStops(v: PlanetView, locate: IVec3 -> (IVec3, UVec3), g: BottomPass, y: nat, fuel: nat)
    requires ValidDirAxis(g.axis) && LocatesInside(locate)
    decreases fuel
  {
    && fuel > 0
    && var r := BottomLayerAfter(v, locate, g, y, g.size);
       !r.1 || BottomStops(r.0, locate, g, y + 1, fuel - 1)
  }

  /** Once the pass stops by itself within `fuel` layers, more fuel changes
      nothing: the bound only cuts short a pass that would go on. */
  lemma {:induction false} BottomAfterEnough(v: PlanetView, locate: IVec3 -> (IVec3, UVec3), g: BottomPass, y: nat, fuel: nat, more: nat)
    requires ValidDirAxis(g.axis) && LocatesInside(locate)
    requires BottomStops(v, locate, g, y, fuel) && fuel <= more
    ensures BottomAfter(v, locate, g, y, more) == BottomAfter(v, locate, g, y, fuel)
    decreases fuel
  {
    var r := BottomLayerAfter(v, locate, g, y, g.size);
    if r.1 {
      BottomAfterEnough(r.0, locate, g, y + 1, fuel - 1, more - 1);
    }
  }

  /** `Planet`: the chunks by their indices and the container notifications
      raised so far. */
  class Planet {
    var chunks: map<IVec3, Chunk>
    var events: seq<ContainerEvent>

    /** Every chunk is a well-formed planet chunk stored under its own indices. */
    ghost predicate Valid()
      reads this, chunks.Values
    {
      forall key :: key in chunks ==>
        chunks[key].Valid() && chunks[key].indices == key && chunks[key].size == PlanetChunkSize
    }

    constructor ()
      ensures Valid() && chunks == map[] && events == []
    {
      chunks := map[];
      events := [];
    }

    /** `Planet::AddChunk`. The key must be new. The chunk is announced, then,
        when an initial fill is given, reset with it; the reset is reported
        on every side because the reset slot is connected first. Whether the
        chunk is deformed is floating-point geometry and is a parameter. */
    method AddChunk(key: IVec3, deformed: bool, init: Option<seq<BlockIndex> -> seq<BlockIndex>>) returns (chunk: Chunk)
      requires Valid() && key !in chunks
      requires init.Some? ==> forall s: seq<BlockIndex> :: |s| == GenVolume ==> |init.value(s)| == |s|
      modifies this
      ensures Valid() && fresh(chunk)
      ensures chunks == old(chunks)[key := chunk]
      ensures chunk.indices == key && chunk.size == PlanetChunkSize
      ensures chunk.kind == (if deformed then Deformed else Flat)
      ensures chunk.blockUpdates == [] && !chunk.hasPerFaceCollision
      ensures init.None? ==> !chunk.HasContent() && events == old(events) + [ChunkAdded(key)]
      ensures init.Some? ==> chunk.blocks == init.value(EmptyGrid())
      ensures init.Some? ==> events == old(events) + [ChunkAdded(key), ChunkUpdated(key, DirectionMaskAll)]
    {
      chunk := new Chunk(PlanetChunkSize, key, if deformed then Deformed else Flat);
      chunks := chunks[key := chunk];
      events := events + [ChunkAdded(key)];
      if init.Some? {
        chunk.ResetWith(init.value);
        assert seq(Volume(PlanetChunkSize), _ => EmptyBlockIndex) == EmptyGrid();
        events := events + [ChunkUpdated(key, DirectionMaskAll)];
      }
    }

    /** `Planet::RemoveChunk`: the key must be present; its removal is
        announced and only that entry is erased. */
    method RemoveChunk(key: IVec3)
      requires Valid() && key in chunks
      modifies this
      ensures Valid()
      ensures chunks == old(chunks) - {key}
      ensures events == old(events) + [ChunkRemove(key)]
    {
      events := events + [ChunkRemove(key)];
      chunks := chunks - {key};
    }

    /** `Chunk::UpdateBlock` on a chunk of the planet, with the
        `OnChunkUpdated` notification the planet's block-update slot raises. */
    method UpdateChunkBlock(key: IVec3, c: UVec3, b: BlockIndex)
      requires Valid() && key in chunks && chunks[key].HasContent() && InBounds(PlanetChunkSize, c)
      modifies this`events, chunks[key]
      ensures Valid() && LocalIndex(PlanetChunkSize, c) < |chunks[key].blocks|
      ensures chunks[key].blocks == old(chunks[key].blocks)[LocalIndex(PlanetChunkSize, c) := b]
      ensures chunks[key].blockUpdates == old(chunks[key].blockUpdates) + [(c, b)]
      ensures chunks[key].hasPerFaceCollision == old(chunks[key].hasPerFaceCollision)
      ensures chunks[key].resetSignals == old(chunks[key].resetSignals)
      ensures events == old(events) + [ChunkUpdated(key, PlanetNeighborMask(PlanetChunkSize, c))]
    {
      chunks[key].UpdateBlock(c, b);
      events := events + [ChunkUpdated(key, PlanetNeighborMask(PlanetChunkSize, c))];
    }

    /** `Planet::GenerateChunk`: the chunk is reset with the terrain fill
        (all-empty content when it had none), which the planet reports on
        every side. The fill's `blockIndexPtr` is modelled as an array holding the
        chunk's content. */
    method GenerateChunk(library: map<string, BlockIndex>, world: WorldGen, key: IVec3, seed: nat, count: UVec3)
      requires Valid() && key in chunks && seed <= UInt32Max
      requires DepthDefined(ChunkContext(library, world, seed, key, count))
      modifies this`events, chunks[key]
      ensures Valid()
      ensures chunks[key].blocks == GeneratedContent(ChunkContext(library, world, seed, key, count),
        if old(chunks[key].HasContent()) then old(chunks[key].blocks) else EmptyGrid())
      ensures chunks[key].blockUpdates == old(chunks[key].blockUpdates)
      ensures events == old(events) + [ChunkUpdated(key, DirectionMaskAll)]
    {
      var chunk := chunks[key];
      var ctx := ChunkContext(library, world, seed, key, count);
      chunk.PrepareContent();
      var content := chunk.blocks;
      assert |content| == GenVolume;
      assert !old(chunk.HasContent()) ==> content == EmptyGrid();
      var buf := new BlockIndex[GenVolume](i requires 0 <= i < GenVolume => content[i]);
      assert buf[..] == content;
      Fill(buf, ctx);
      chunk.FinishReset(buf[..]);
      events := events + [ChunkUpdated(key, DirectionMaskAll)];
    }

    /** `m` holds the content and kind of every chunk. */
    ghost predicate Mirrors(m: map<IVec3, ChunkContent>)
      reads this, chunks.Values
    {
      && m.Keys == chunks.Keys
      && forall key :: key in chunks ==> m[key] == ChunkContent(chunks[key].blocks, chunks[key].kind)
    }

    /** What `GenerateChunks` has done so far, with the contents of the chunks. */
    ghost predicate Generating(library: map<string, BlockIndex>, world: WorldGen, seed: nat, count: UVec3, k: nat,
                               c0: map<IVec3, Chunk>, m0: map<IVec3, ChunkContent>, e0: seq<ContainerEvent>, contents: map<IVec3, ChunkContent>)
      reads this, chunks.Values
    {
      Valid() && Mirrors(contents) && GenSpec(c0, m0, e0, count, k, chunks, contents, events, library, world, seed)
    }

    /** `Planet::GenerateChunks`: one chunk per cell of the `count` grid,
        centred on the origin, each generated from the shared seed. The
        generation tasks the source schedules run here right after their
        chunk is added. */
    method GenerateChunks(library: map<string, BlockIndex>, world: WorldGen, seed: nat, count: UVec3)
      requires Valid() && seed <= UInt32Max
      requires forall c :: InBounds(count, c) ==> ChunkGridKey(count, c) !in chunks
      requires forall c :: InBounds(count, c) ==> DepthDefined(ChunkContext(library, world, seed, ChunkGridKey(count, c), count))
      modifies this
      ensures Valid()
      ensures chunks.Keys == old(chunks).Keys + GridKeys(count, Volume(count))
      ensures |GridKeys(count, Volume(count))| == Volume(count)
      ensures forall key :: key in old(chunks) ==> chunks[key] == old(chunks)[key]
      ensures forall c :: InBounds(count, c) ==>
        var key := ChunkGridKey(count, c);
        key in chunks && chunks[key].blocks == GeneratedContent(ChunkContext(library, world, seed, key, count), EmptyGrid())
        && chunks[key].kind == (if world.deformedAt(key) then Deformed else Flat)
      ensures events == old(events) + GenEvents(count, Volume(count))
    {
      ghost var c0, e0 := chunks, events;
      ghost var m0 := map key | key in chunks :: ChunkContent(chunks[key].blocks, chunks[key].kind);
      ghost var contents := m0;
      ghost var k := 0;
      var z := 0;
      while z < count.z
        invariant z <= count.z && k == ScanIndex(count, 0, 0, z)
        invariant Generating(library, world, seed, count, k, c0, m0, e0, contents)
      {
        LayerEnd(count, z);
        k, contents := GenerateLayer(library, world, seed, count, z, k, c0, m0, e0, contents);
        z := z + 1;
      }
      ScanDone(count);
      GenSpecDone(c0, m0, e0, count, chunks, contents, events, library, world, seed);
      forall c | InBounds(count, c)
        ensures var key := ChunkGridKey(count, c);
          key in chunks && chunks[key].blocks == GeneratedContent(ChunkContext(library, world, seed, key, count), EmptyGrid())
          && chunks[key].kind == (if world.deformedAt(key) then Deformed else Flat)
      {
        var key := ChunkGridKey(count, c);
        assert ExpectedAt(library, world, seed, count, key) == GridChunkContent(library, world, seed, count, key);
      }
    }

    /** One z layer of `GenerateChunks`, from the `k`-th chunk on. */
    method GenerateLayer(library: map<string, BlockIndex>, world: WorldGen, seed: nat, count: UVec3, z: nat, ghost k: nat,
                         ghost c0: map<IVec3, Chunk>, ghost m0: map<IVec3, ChunkContent>, ghost e0: seq<ContainerEvent>, ghost contents: map<IVec3, ChunkContent>)
      returns (ghost k': nat, ghost contents': map<IVec3, ChunkContent>)
      requires z < count.z && k == ScanIndex(count, 0, 0, z) && seed <= UInt32Max
      requires Generating(library, world, seed, count, k, c0, m0, e0, contents)
      requires forall c :: InBounds(count, c) ==> ChunkGridKey(count, c) !in c0
      requires forall c :: InBounds(count, c) ==> DepthDefined(ChunkContext(library, world, seed, ChunkGridKey(count, c), count))
      modifies this
      ensures k' == ScanIndex(count, 0, count.y, z)
      ensures Generating(library, world, seed, count, k', c0, m0, e0, contents')
    {
      k', contents' := k, contents;
      var y := 0;
      while y < count.y
        invariant y <= count.y && k' == ScanIndex(count, 0, y, z)
        invariant Generating(library, world, seed, count, k', c0, m0, e0, contents')
      {
        RowEnd(count, y, z);
        k', contents' := GenerateRow(library, world, seed, count, y, z, k', c0, m0, e0, contents');
        y := y + 1;
      }
    }

    /** One x row of `GenerateChunks`, from the `k`-th chunk on. */
    method GenerateRow(library: map<string, BlockIndex>, world: WorldGen, seed: nat, count: UVec3, y: nat, z: nat, ghost k: nat,
                       ghost c0: map<IVec3, Chunk>, ghost m0: map<IVec3, ChunkContent>, ghost e0: seq<ContainerEvent>, ghost contents: map<IVec3, ChunkContent>)
      returns (ghost k': nat, ghost contents': map<IVec3, ChunkContent>)
      requires y < count.y && z < count.z && k == ScanIndex(count, 0, y, z) && seed <= UInt32Max
      requires Generating(library, world, seed, count, k, c0, m0, e0, contents)
      requires forall c :: InBounds(count, c) ==> ChunkGridKey(count, c) !in c0
      requires forall c :: InBounds(count, c) ==> DepthDefined(ChunkContext(library, world, seed, ChunkGridKey(count, c), count))
      modifies this
      ensures k' == k + count.x
      ensures Generating(library, world, seed, count, k', c0, m0, e0, contents')
    {
      k', contents' := k, contents;
      var x := 0;
      while x < count.x
        invariant x <= count.x && k' == k + x
        invariant Generating(library, world, seed, count, k', c0, m0, e0, contents')
      {
        var c := UVec3(x, y, z);
        k', contents' := GenerateCell(library, world, seed, count, c, k, k', c0, m0, e0, contents');
        x := x + 1;
      }
    }

    /** One iteration of `GenerateChunks`, for cell `c` of the grid, the
        `k`-th chunk of the scan; `row` is where the scan of its row starts. */
    method GenerateCell(library: map<string, BlockIndex>, world: WorldGen, seed: nat, count: UVec3, c: UVec3, ghost row: nat, ghost k: nat,
                        ghost c0: map<IVec3, Chunk>, ghost m0: map<IVec3, ChunkContent>, ghost e0: seq<ContainerEvent>, ghost contents: map<IVec3, ChunkContent>)
      returns (ghost k': nat, ghost contents': map<IVec3, ChunkContent>)
      requires InBounds(count, c) && seed <= UInt32Max
      requires row == ScanIndex(count, 0, c.y, c.z) && k == row + c.x
      requires Generating(library, world, seed, count, k, c0, m0, e0, contents)
      requires forall c :: InBounds(count, c) ==> ChunkGridKey(count, c) !in c0
      requires forall c :: InBounds(count, c) ==> DepthDefined(ChunkContext(library, world, seed, ChunkGridKey(count, c), count))
      modifies this
      ensures k' == k + 1
      ensures Generating(library, world, seed, count, k', c0, m0, e0, contents')
    {
      k' := k + 1;
      ScanAt(count, c);
      GridKeyAtCell(count, c);
      assert k == LocalIndex(count, c);
      var key := ChunkGridKey(count, c);
      assert key == GridKeyAt(count, k) && key !in c0;
      GenKeyFresh(c0, m0, e0, count, k, chunks, contents, events, library, world, seed);
      ghost var cs, ev := chunks, events;
      AddAndGenerate(library, world, seed, count, key);
      assert ExpectedAt(library, world, seed, count, key) == GridChunkContent(library, world, seed, count, key);
      contents' := contents[key := ExpectedAt(library, world, seed, count, key)];
      GenStep(c0, m0, e0, count, k, k', cs, contents, ev, library, world, seed, chunks, contents', events);
    }

    /** Add the chunk under `key`, then generate it. */
    method AddAndGenerate(library: map<string, BlockIndex>, world: WorldGen, seed: nat, count: UVec3, key: IVec3)
      requires Valid() && key !in chunks && seed <= UInt32Max
      requires DepthDefined(ChunkContext(library, world, seed, key, count))
      modifies this
      ensures Valid() && key in chunks && key !in old(chunks)
      ensures chunks == old(chunks)[key := chunks[key]]
      ensures ChunkContent(chunks[key].blocks, chunks[key].kind) == GridChunkContent(library, world, seed, count, key)
      ensures events == old(events) + [ChunkAdded(key), ChunkUpdated(key, DirectionMaskAll)]
    {
      var chunk := AddChunk(key, world.deformedAt(key), None);
      GenerateChunk(library, world, key, seed, count);
    }

    /** The chunks and notifications of the planet as a value. */
    ghost function View(): (v: PlanetView)
      reads this, chunks.Values
      ensures v.chunks.Keys == chunks.Keys && v.events == events
    {
      PlanetView(map key | key in chunks :: StateOf(chunks[key]), events)
    }

    /** `v` is the state of the planet's chunks and its notifications. */
    ghost predicate Shows(v: PlanetView)
      reads this, chunks.Values
    {
      && Valid() && v.chunks.Keys == chunks.Keys && v.events == events
      && forall key :: key in chunks ==> v.chunks[key] == StateOf(chunks[key])
    }

    /** `v` is the state of the planet, and every chunk has content. */
    ghost predicate Loaded(v: PlanetView)
      reads this, chunks.Values
    {
      Shows(v) && AllContent(v)
    }

    /** The write of one platform voxel: `GetChunk` of the chunk holding the
        block indices `p`, then, when there is one, `UpdateBlock` on it. */
    method PlaceBlock(locate: IVec3 -> (IVec3, UVec3), p: IVec3, b: BlockIndex, ghost v: PlanetView)
      requires Shows(v) && InBounds(PlanetChunkSize, locate(p).1) && ContentAt(v, locate(p).0)
      modifies this`events, chunks.Values
      ensures Shows(ApplyWrite(v, locate, p, b))
    {
      var (key, inner) := locate(p);
      if key in chunks {
        WriteVoxel(locate, p, b, v);
      }
    }

    /** `UpdateBlock` on the chunk holding the block indices `p`, which exists. */
    method WriteVoxel(locate: IVec3 -> (IVec3, UVec3), p: IVec3, b: BlockIndex, ghost v: PlanetView)
      requires Shows(v) && InBounds(PlanetChunkSize, locate(p).1) && Readable(v, locate, p)
      modifies this`events, chunks.Values
      ensures Shows(ApplyWrite(v, locate, p, b))
    {
      var (key, inner) := locate(p);
      UpdateChunkBlock(key, inner, b);
    }

    /** The body of the top pass's innermost loop at cell `(x, z)` of layer
        `y`: the block the cell gets, then its write. */
    method PlatformTopCell(locate: IVec3 -> (IVec3, UVec3), g: TopPass, y: nat, x: nat, z: nat, coords: IVec3, ghost v: PlanetView)
      returns (ghost v': PlanetView)
      requires ValidDirAxis(g.axis) && LocatesInside(locate)
      requires coords == PlatformPos(g.corner, g.axis, x, z, y)
      requires Loaded(v)
      modifies this`events, chunks.Values
      ensures v' == TopVisit(v, locate, g, y, x, z)
      ensures Loaded(v')
    {
      var blockIndex;
      if y != 0 {
        blockIndex := EmptyBlockIndex;
      } else if x == 0 || x == PlatformSize - 1 || z == 0 || z == PlatformSize - 1 {
        blockIndex := g.border;
      } else {
        blockIndex := g.interior;
      }
      assert blockIndex == TopBlock(g.border, g.interior, x, z, y);
      PlaceBlock(locate, coords, blockIndex, v);
      ApplyWriteFilled(v, locate, coords, blockIndex);
      v' := ApplyWrite(v, locate, coords, blockIndex);
    }

    /** One iteration of the top pass's innermost loop: the cell, then
        `xPos += dirAxis.rightDir`. */
    method PlatformTopVoxel(locate: IVec3 -> (IVec3, UVec3), g: TopPass, y: nat, x: nat, z: nat, coords: IVec3, ghost v: PlanetView)
      returns (coords': IVec3, ghost v': PlanetView)
      requires ValidDirAxis(g.axis) && LocatesInside(locate)
      requires coords == PlatformPos(g.corner, g.axis, x, z, y)
      requires Loaded(v)
      modifies this`events, chunks.Values
      ensures coords' == PlatformPos(g.corner, g.axis, x + 1, z, y)
      ensures v' == TopVisit(v, locate, g, y, x, z)
      ensures Loaded(v')
    {
      v' := PlatformTopCell(locate, g, y, x, z, coords, v);
      coords' := NextVoxel(g.corner, g.axis, x, z, y, coords);
    }

    /** The fifteen voxels of row `z` of top layer `y`, from left to right. */
    method PlatformTopVoxels(locate: IVec3 -> (IVec3, UVec3), g: TopPass, y: nat, z: nat, coords: IVec3, ghost v: PlanetView)
      returns (coords': IVec3, ghost v': PlanetView)
      requires ValidDirAxis(g.axis) && LocatesInside(locate)
      requires coords == PlatformPos(g.corner, g.axis, 0, z, y)
      requires Loaded(v)
      modifies this`events, chunks.Values
      ensures coords' == PlatformPos(g.corner, g.axis, g.size, z, y)
      ensures v' == TopRowAfter(v, locate, g, y, z, g.size)
      ensures Loaded(v')
    {
      coords', v' := coords, v;
      var x := 0;
      while x < g.size
        invariant x <= g.size && coords' == PlatformPos(g.corner, g.axis, x, z, y)
        invariant v' == TopRowAfter(v, locate, g, y, z, x)
        invariant chunks == old(chunks)
        invariant Loaded(v')
      {
        coords', v' := PlatformTopVoxel(locate, g, y, x, z, coords', v');
        x := x + 1;
      }
    }

    /** Row `z` of top layer `y`: its voxels, then back to the row's start
        and one step forward. */
    method PlatformTopRow(locate: IVec3 -> (IVec3, UVec3), g: TopPass, y: nat, z: nat, coords: IVec3,
                          ghost v0: PlanetView, ghost v: PlanetView)
      returns (coords': IVec3, ghost v': PlanetView)
      requires ValidDirAxis(g.axis) && LocatesInside(locate)
      requires coords == PlatformPos(g.corner, g.axis, 0, z, y)
      requires v == TopLayerAfter(v0, locate, g, y, z)
      requires Loaded(v)
      modifies this`events, chunks.Values
      ensures coords' == PlatformPos(g.corner, g.axis, 0, z + 1, y)
      ensures v' == TopLayerAfter(v0, locate, g, y, z + 1)
      ensures Loaded(v')
    {
      var startingX := Coord(coords, g.axis.rightAxis);
      coords', v' := PlatformTopVoxels(locate, g, y, z, coords, v);
      coords' := NextRow(g.corner, g.axis, g.size, z, y, coords', startingX);
    }

    /** One top layer: fifteen rows forward from `coords`. */
    method PlatformTopLayer(locate: IVec3 -> (IVec3, UVec3), g: TopPass, y: nat, coords: IVec3, ghost v: PlanetView)
      returns (coords': IVec3, ghost v': PlanetView)
      requires ValidDirAxis(g.axis) && LocatesInside(locate)
      requires coords == PlatformPos(g.corner, g.axis, 0, 0, y)
      requires Loaded(v)
      modifies this`events, chunks.Values
      ensures coords' == PlatformPos(g.corner, g.axis, 0, g.size, y)
      ensures v' == TopLayerAfter(v, locate, g, y, g.size)
      ensures Loaded(v')
    {
      coords', v' := coords, v;
      var z := 0;
      while z < g.size
        invariant z <= g.size && coords' == PlatformPos(g.corner, g.axis, 0, z, y)
        invariant v' == TopLayerAfter(v, locate, g, y, z)
        invariant Loaded(v')
      {
        coords', v' := PlatformTopRow(locate, g, y, z, coords', v, v');
        z := z + 1;
      }
    }

    /** One iteration of the top pass's layer loop: layer `y`, then the
        `break` test, then the move to the next layer's first row. */
    method PlatformTopStep(locate: IVec3 -> (IVec3, UVec3), g: TopPass, y: nat, coords: IVec3,
                           ghost v0: PlanetView, ghost v: PlanetView)
      returns (coords': IVec3, stop: bool, ghost v': PlanetView)
      requires ValidDirAxis(g.axis) && g.layers == TopLayers(g.corner, g.axis) && LocatesInside(locate)
      requires y < g.layers && coords == PlatformPos(g.corner, g.axis, 0, 0, y)
      requires v == TopAfter(v0, locate, g, y)
      requires Loaded(v)
      modifies this`events, chunks.Values
      ensures v' == TopAfter(v0, locate, g, y + 1)
      ensures Loaded(v')
      ensures stop ==> y + 1 == g.layers
      ensures !stop ==> (y + 1 < g.layers || y + 1 == FreeHeight) && coords' == PlatformPos(g.corner, g.axis, 0, 0, y + 1)
    {
      var startingZ := Coord(coords, g.axis.forwardAxis);
      coords', v' := PlatformTopLayer(locate, g, y, coords, v);
      coords', stop := NextTopLayer(g.corner, g.axis, g.size, y, coords', startingZ);
    }

    /** The top pass of `GeneratePlatform`, from the platform's corner: layer
        after layer up to `freeHeight`, stopping after the layer at up
        coordinate zero when up points toward negative coordinates. */
    method PlatformTopPass(locate: IVec3 -> (IVec3, UVec3), g: TopPass, ghost v0: PlanetView)
      requires ValidDirAxis(g.axis) && g.layers == TopLayers(g.corner, g.axis) && LocatesInside(locate)
      requires Shows(v0) && AllContent(v0)
      modifies this`events, chunks.Values
      ensures Shows(TopAfter(v0, locate, g, g.layers)) && AllContent(TopAfter(v0, locate, g, g.layers))
    {
      var coordinates := g.corner;
      PlatformPosFromCoords(g.corner, g.axis, 0, 0, 0, coordinates);
      ghost var v := v0;
      ghost var done := 0;
      var y := 0;
      while y < FreeHeight
        invariant y <= g.layers && (y < FreeHeight ==> y < g.layers) && done == y
        invariant coordinates == PlatformPos(g.corner, g.axis, 0, 0, y)
        invariant v == TopAfter(v0, locate, g, y) && Loaded(v)
      {
        var stop;
        coordinates, stop, v := PlatformTopStep(locate, g, y, coordinates, v0, v);
        done := y + 1;
        if stop {
          break;
        }
        y := y + 1;
      }
      assert done == g.layers && v == TopAfter(v0, locate, g, done);
    }

    /** The body of the bottom pass's innermost loop at cell `(x, z)` of
        layer `y` once the voxel's chunk is found: the step to the right,
        then the fill. */
    method PlatformBottomCell(locate: IVec3 -> (IVec3, UVec3), g: BottomPass, y: nat, x: nat, z: nat, coords: IVec3,
                              hasEmpty: bool, ghost v: PlanetView)
      returns (coords': IVec3, hasEmpty': bool, ghost v': PlanetView)
      requires ValidDirAxis(g.axis) && LocatesInside(locate)
      requires coords == PlatformPos(g.corner, g.axis, x, z, -(y as int)) && locate(coords).0 in chunks
      requires Loaded(v)
      modifies this`events, chunks.Values
      ensures coords' == PlatformPos(g.corner, g.axis, x + 1, z, -(y as int))
      ensures (v', hasEmpty') == BottomVisit(v, locate, g, y, x, z, hasEmpty)
      ensures Loaded(v') && v'.chunks.Keys == v.chunks.Keys
    {
      coords' := NextVoxel(g.corner, g.axis, x, z, -(y as int), coords);
      hasEmpty', v' := PlatformBottomFill(locate, g, y, x, z, coords, hasEmpty, v);
    }

    /** The fill of a bottom-pass voxel whose chunk exists: on every third
        layer planks on the rim whatever is there, on the other layers the
        content is read and planks go into empty corners. */
    method PlatformBottomFill(locate: IVec3 -> (IVec3, UVec3), g: BottomPass, y: nat, x: nat, z: nat, coords: IVec3,
                              hasEmpty: bool, ghost v: PlanetView)
      returns (hasEmpty': bool, ghost v': PlanetView)
      requires ValidDirAxis(g.axis) && LocatesInside(locate)
      requires coords == PlatformPos(g.corner, g.axis, x, z, -(y as int)) && locate(coords).0 in chunks
      requires Loaded(v)
      modifies this`events, chunks.Values
      ensures (v', hasEmpty') == BottomVisit(v, locate, g, y, x, z, hasEmpty)
      ensures Loaded(v') && v'.chunks.Keys == v.chunks.Keys
    {
      hasEmpty', v' := hasEmpty, v;
      var (key, inner) := locate(coords);
      assert Readable(v, locate, coords);
      var skip;
      if y % 3 == 0 {
        skip := x != 0 && x != PlatformSize - 1 && z != 0 && z != PlatformSize - 1;
      } else {
        var content := chunks[key].GetBlockContent(inner);
        assert content == ContentOf(v, locate, coords);
        skip := content != EmptyBlockIndex || (x != 0 && x != PlatformSize - 1) || (z != 0 && z != PlatformSize - 1);
      }
      assert skip == !BottomFills(y, x, z, ContentOf(v, locate, coords));
      if !skip {
        hasEmpty' := true;
        WriteVoxel(locate, coords, g.planks, v);
        ApplyWriteFilled(v, locate, coords, g.planks);
        v' := ApplyWrite(v, locate, coords, g.planks);
      }
    }

    /** One turn of row `z` of bottom layer `y` at counter `x`, standing at
        cell `at` of the row that started from `v0`: a voxel in no chunk is
        skipped before the step to the right, so the turn stays where it is;
        otherwise the cell is visited and the row moves on. */
    method PlatformBottomTurn(locate: IVec3 -> (IVec3, UVec3), g: BottomPass, y: nat, z: nat, x: nat, coords: IVec3,
                              hasEmpty: bool, ghost k: nat, ghost at: nat, ghost v0: PlanetView, ghost wrote: bool, ghost v: PlanetView)
      returns (coords': IVec3, hasEmpty': bool, ghost at': nat, ghost v': PlanetView)
      requires ValidDirAxis(g.axis) && LocatesInside(locate) && x < g.size
      requires at <= x && at <= k && (at == x || at == k)
      requires if locate(coords).0 in v0.chunks.Keys then at == x < k else at == k
      requires coords == PlatformPos(g.corner, g.axis, at, z, -(y as int))
      requires (v, hasEmpty) == BottomRowAfter(v0, locate, g, y, z, at, wrote)
      requires Loaded(v) && v.chunks.Keys == v0.chunks.Keys
      modifies this`events, chunks.Values
      ensures at' <= x + 1 && at' <= k && (at' == x + 1 || at' == k)
      ensures coords' == PlatformPos(g.corner, g.axis, at', z, -(y as int))
      ensures (v', hasEmpty') == BottomRowAfter(v0, locate, g, y, z, at', wrote)
      ensures Loaded(v') && v'.chunks.Keys == v0.chunks.Keys
    {
      coords', hasEmpty', at', v' := coords, hasEmpty, at, v;
      if locate(coords).0 in chunks {
        coords', hasEmpty', v' := PlatformBottomCell(locate, g, y, x, z, coords, hasEmpty, v);
        at' := x + 1;
      }
    }

    /** The fifteen turns of row `z` of bottom layer `y`. A voxel in no chunk
        is skipped before the step to the right, so the row visits its cells
        up to its `RowReach` and then stays on that voxel. */
    method PlatformBottomVoxels(locate: IVec3 -> (IVec3, UVec3), g: BottomPass, y: nat, z: nat, coords: IVec3,
                                hasEmpty: bool, ghost v: PlanetView)
      returns (coords': IVec3, hasEmpty': bool, ghost v': PlanetView)
      requires ValidDirAxis(g.axis) && LocatesInside(locate)
      requires coords == PlatformPos(g.corner, g.axis, 0, z, -(y as int))
      requires Loaded(v)
      modifies this`events, chunks.Values
      ensures var k := RowReach(v.chunks.Keys, locate, g, y, z, 0);
              && coords' == PlatformPos(g.corner, g.axis, k, z, -(y as int))
              && (v', hasEmpty') == BottomRowAfter(v, locate, g, y, z, k, hasEmpty)
      ensures Loaded(v') && v'.chunks.Keys == v.chunks.Keys
    {
      ghost var k := RowReach(v.chunks.Keys, locate, g, y, z, 0);
      coords', hasEmpty', v' := coords, hasEmpty, v;
      ghost var at := 0;
      for x := 0 to g.size
        invariant at <= x && at <= k && (at == x || at == k)
        invariant coords' == PlatformPos(g.corner, g.axis, at, z, -(y as int))
        invariant (v', hasEmpty') == BottomRowAfter(v, locate, g, y, z, at, hasEmpty)
        invariant Loaded(v') && v'.chunks.Keys == v.chunks.Keys
      {
        RowReachTurn(v.chunks.Keys, locate, g, y, z, x, at);
        coords', hasEmpty', at, v' := PlatformBottomTurn(locate, g, y, z, x, coords', hasEmpty', k, at, v, hasEmpty, v');
      }
    }

    /** Row `z` of bottom layer `y`: its turns, then back to the row's
        start and one step forward. */
    method PlatformBottomRow(locate: IVec3 -> (IVec3, UVec3), g: BottomPass, y: nat, z: nat, coords: IVec3,
                             hasEmpty: bool, ghost v0: PlanetView, ghost v: PlanetView)
      returns (coords': IVec3, hasEmpty': bool, ghost v': PlanetView)
      requires ValidDirAxis(g.axis) && LocatesInside(locate)
      requires coords == PlatformPos(g.corner, g.axis, 0, z, -(y as int))
      requires (v, hasEmpty) == BottomLayerAfter(v0, locate, g, y, z) && v.chunks.Keys == v0.chunks.Keys
      requires Loaded(v)
      modifies this`events, chunks.Values
      ensures coords' == PlatformPos(g.corner, g.axis, 0, z + 1, -(y as int))
      ensures (v', hasEmpty') == BottomLayerAfter(v0, locate, g, y, z + 1) && v'.chunks.Keys == v0.chunks.Keys
      ensures Loaded(v')
    {
      ghost var k := RowReach(v0.chunks.Keys, locate, g, y, z, 0);
      assert BottomLayerAfter(v0, locate, g, y, z + 1) == BottomRowAfter(v, locate, g, y, z, k, hasEmpty);
      var startingX := Coord(coords, g.axis.rightAxis);
      coords', hasEmpty', v' := PlatformBottomVoxels(locate, g, y, z, coords, hasEmpty, v);
      coords' := NextRow(g.corner, g.axis, k, z, -(y as int), coords', startingX);
    }

    /** One bottom layer: fifteen rows forward from `coords`, and whether
        any voxel got planks. */
    method PlatformBottomLayer(locate: IVec3 -> (IVec3, UVec3), g: BottomPass, y: nat, coords: IVec3, ghost v: PlanetView)
      returns (coords': IVec3, hasEmpty: bool, ghost v': PlanetView)
      requires ValidDirAxis(g.axis) && LocatesInside(locate)
      requires coords == PlatformPos(g.corner, g.axis, 0, 0, -(y as int))
      requires Loaded(v)
      modifies this`events, chunks.Values
      ensures coords' == PlatformPos(g.corner, g.axis, 0, g.size, -(y as int))
      ensures (v', hasEmpty) == BottomLayerAfter(v, locate, g, y, g.size)
      ensures Loaded(v')
    {
      hasEmpty, v' := false, v;
      coords' := coords;
      var z := 0;
      while z < g.size
        invariant z <= g.size && coords' == PlatformPos(g.corner, g.axis, 0, z, -(y as int))
        invariant (v', hasEmpty) == BottomLayerAfter(v, locate, g, y, z) && v'.chunks.Keys == v.chunks.Keys
        invariant Loaded(v')
      {
        coords', hasEmpty, v' := PlatformBottomRow(locate, g, y, z, coords', hasEmpty, v, v');
        z := z + 1;
      }
    }

    /** The start of an iteration of the bottom pass's layer loop, up to its
        `break` test: the move down to layer `y`, then the layer. */
    method PlatformBottomStep(locate: IVec3 -> (IVec3, UVec3), g: BottomPass, y: nat, coords: IVec3, ghost v: PlanetView)
      returns (coords': IVec3, startingZ: int, hasEmpty: bool, ghost v': PlanetView)
      requires ValidDirAxis(g.axis) && LocatesInside(locate)
      requires coords == PlatformPos(g.corner, g.axis, 0, 0, 1 - y)
      requires Loaded(v)
      modifies this`events, chunks.Values
      ensures coords' == PlatformPos(g.corner, g.axis, 0, g.size, -(y as int)) && startingZ == Coord(g.corner, g.axis.forwardAxis)
      ensures (v', hasEmpty) == BottomLayerAfter(v, locate, g, y, g.size)
      ensures Loaded(v')
    {
      coords' := NextBottomLayer(g.corner, g.axis, 1 - y, coords);
      startingZ := Coord(coords', g.axis.forwardAxis);
      coords', hasEmpty, v' := PlatformBottomLayer(locate, g, y, coords', v);
    }

    /** One turn of the bottom pass's layer loop at layer `y`, with `rest`
        layers of fuel left: the layer, then either the stop, when it wrote
        nothing, or the move to the start of the next layer. */
    method PlatformBottomNext(locate: IVec3 -> (IVec3, UVec3), g: BottomPass, y: nat, coords: IVec3,
                              ghost rest: nat, ghost v: PlanetView)
      returns (coords': IVec3, stop: bool, ghost v': PlanetView)
      requires ValidDirAxis(g.axis) && LocatesInside(locate) && 1 <= y && 1 <= rest
      requires coords == PlatformPos(g.corner, g.axis, 0, 0, 1 - y)
      requires Loaded(v)
      modifies this`events, chunks.Values
      ensures Loaded(v')
      ensures stop ==> v' == BottomAfter(v, locate, g, y, rest)
      ensures !stop ==> BottomAfter(v', locate, g, y + 1, rest - 1) == BottomAfter(v, locate, g, y, rest)
      ensures !stop ==> coords' == PlatformPos(g.corner, g.axis, 0, 0, -(y as int))
    {
      var startingZ, hasEmpty;
      coords', startingZ, hasEmpty, v' := PlatformBottomStep(locate, g, y, coords, v);
      assert BottomAfter(v, locate, g, y, rest) == if hasEmpty then BottomAfter(v', locate, g, y + 1, rest - 1) else v';
      stop := !hasEmpty;
      if hasEmpty {
        coords' := RestartLayer(g.corner, g.axis, g.size, -(y as int), coords', startingZ);
      }
    }

    /** The bottom pass of `GeneratePlatform`: layer after layer below the
        platform until one gets no planks, for at most `fuel` layers. */
    method PlatformBottomPass(locate: IVec3 -> (IVec3, UVec3), g: BottomPass, fuel: nat, ghost v0: PlanetView)
      requires ValidDirAxis(g.axis) && LocatesInside(locate)
      requires Shows(v0) && AllContent(v0)
      modifies this`events, chunks.Values
      ensures Shows(BottomAfter(v0, locate, g, 1, fuel))
    {
      var coordinates := g.corner;
      PlatformPosFromCoords(g.corner, g.axis, 0, 0, 0, coordinates);
      ghost var v := v0;
      ghost var rest := fuel;
      var y := 1;
      while y <= fuel
        invariant 1 <= y && y + rest == fuel + 1
        invariant coordinates == PlatformPos(g.corner, g.axis, 0, 0, 1 - y)
        invariant BottomAfter(v, locate, g, y, rest) == BottomAfter(v0, locate, g, 1, fuel)
        invariant Loaded(v)
      {
        var stop;
        ghost var v';
        coordinates, stop, v' := PlatformBottomNext(locate, g, y, coordinates, rest, v);
        if stop {
          v := v';
          break;
        }
        v := v';
        y := y + 1;
        rest := rest - 1;
      }
    }

    /** `Planet::GeneratePlatform`: a platform of copper on its rim and
        stone bricks inside at `center`, facing `a`, cleared above up to the
        free height, then held up by plank columns under its corners and
        rims down to the first layer that needs none. */
    method GeneratePlatform(library: map<string, BlockIndex>, a: DirAxis, center: IVec3,
                            locate: IVec3 -> (IVec3, UVec3), fuel: nat)
      requires Valid() && ValidDirAxis(a) && LocatesInside(locate) && AllContent(View())
      modifies this`events, chunks.Values
      ensures var g := PlatformTop(library, center, a);
              Shows(BottomAfter(TopAfter(old(View()), locate, g, g.layers), locate, PlatformBottom(library, g), 1, fuel))
    {
      var coordinates := center;
      coordinates := WithCoord(coordinates, a.rightAxis, Coord(coordinates, a.rightAxis) + TruncDiv(-a.rightDir * PlatformSize, 2));
      coordinates := WithCoord(coordinates, a.forwardAxis, Coord(coordinates, a.forwardAxis) + TruncDiv(-a.forwardDir * PlatformSize, 2));
      var border := GetBlockIndex(library, "copper_block");
      var interior := GetBlockIndex(library, "stone_bricks");
      var g := TopPass(coordinates, a, border, interior, TopLayers(center, a), PlatformSize);
      assert g == PlatformTop(library, center, a);
      var planks := GetBlockIndex(library, "planks");
      BuildPlatform(locate, g, BottomPass(coordinates, a, planks, PlatformSize), fuel);
    }

    /** The two passes of `GeneratePlatform` from its corner: the top pass,
        then the bottom pass from the same corner. */
    method BuildPlatform(locate: IVec3 -> (IVec3, UVec3), g: TopPass, b: BottomPass, fuel: nat)
      requires Valid() && ValidDirAxis(g.axis) && ValidDirAxis(b.axis) && LocatesInside(locate)
      requires g.layers == TopLayers(g.corner, g.axis) && AllContent(View())
      modifies this`events, chunks.Values
      ensures Shows(BottomAfter(TopAfter(old(View()), locate, g, g.layers), locate, b, 1, fuel))
    {
      ghost var v0 := View();
      PlatformTopPass(locate, g, v0);
      PlatformBottomPass(locate, b, fuel, TopAfter(v0, locate, g, g.layers));
    }
  }
}
