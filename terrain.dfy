/** The block fill `Planet::GenerateChunk` hands to `Chunk::Reset`: a depth
    pass that classifies every voxel by its distance below the planet
    surface, then six carve passes, one per face of the planet cube, that cut
    the terrain height into each column. The fill writes through the raw
    `blockIndexPtr`, modelled as an array. */
module Terrain {
  import opened Voxel
  import opened Chunks

  /** `freeSpace`: voxels this close to the planet's bounding box stay empty. */
  const FreeSpace: nat := 30

  /** Every planet chunk is a cube of `Planet::ChunkSize` voxels. */
  const GenSize: UVec3 := Cube(ChunkSize)
  const GenVolume: nat := 32768

  lemma GenVolumeIsVolume()
    ensures Volume(GenSize) == GenVolume
  {
  }

  /** The five block types the generator looks up by name. */
  datatype Palette = Palette(dirt: BlockIndex, grass: BlockIndex, stone: BlockIndex, stoneMossy: BlockIndex, snow: BlockIndex)

  function PaletteOf(library: map<string, BlockIndex>): (p: Palette)
    ensures p.dirt == GetBlockIndex(library, "dirt") && p.grass == GetBlockIndex(library, "grass")
    ensures p.stone == GetBlockIndex(library, "stone") && p.stoneMossy == GetBlockIndex(library, "stone_mossy")
    ensures p.snow == GetBlockIndex(library, "snow")
  {
    Palette(GetBlockIndex(library, "dirt"), GetBlockIndex(library, "grass"), GetBlockIndex(library, "stone"),
            GetBlockIndex(library, "stone_mossy"), GetBlockIndex(library, "snow"))
  }

  /** Every lookup found its block. */
  predicate PaletteValid(p: Palette) {
    p.dirt != InvalidBlockIndex && p.grass != InvalidBlockIndex && p.stone != InvalidBlockIndex
    && p.stoneMossy != InvalidBlockIndex && p.snow != InvalidBlockIndex
  }

  /** A library in which the five names are registered gives a valid palette. */
  lemma PaletteOfValid(library: map<string, BlockIndex>)
    requires ValidLibrary(library)
    requires "dirt" in library && "grass" in library && "stone" in library && "stone_mossy" in library && "snow" in library
    ensures PaletteValid(PaletteOf(library))
  {
  }

  /** The inputs of one chunk's fill: the palette, the planet's maximum
      height, the chunk's indices, the chunk seed and the planet seed. Three
      inputs are computed by code this model does not contain:
      - `blockIndices(chunk, c)` is `GetBlockIndices(chunk, c)`, the planet
        block coordinates of local voxel `c`;
      - `stoneDraw(s, n)` is the n-th draw of the 90 % Bernoulli distribution
        over `std::minstd_rand` seeded with `s`;
      - `terrainDepth(seed, maxHeight, d, p)` is the rounded, clamped Perlin
        height of the column at planet block `p` on the planet face that the
        noise of direction `d`, seeded from `seed`, drives. */
  datatype GenContext = GenContext(
    palette: Palette,
    maxHeight: IVec3,
    chunk: IVec3,
    chunkSeed: nat,
    seed: nat,
    blockIndices: (IVec3, UVec3) -> IVec3,
    stoneDraw: (nat, nat) -> bool,
    terrainDepth: (nat, IVec3, Direction, IVec3) -> int)

  /** `maxHeight`: half the chunk count, rounded up, in voxels, per axis. */
  function MaxHeight(chunkCount: UVec3): (h: IVec3)
    ensures h.x >= 0 && h.y >= 0 && h.z >= 0
    ensures h.x % 32 == 0 && h.y % 32 == 0 && h.z % 32 == 0
  {
    IVec3((chunkCount.x + 1) / 2 * 32, (chunkCount.y + 1) / 2 * 32, (chunkCount.z + 1) / 2 * 32)
  }

  /** `chunkSeed`: the seed plus the three chunk indices, all as 32-bit
      unsigned values, wrapping around. */
  function ChunkSeed(seed: nat, key: IVec3): (s: nat)
    requires seed <= UInt32Max
    ensures s <= UInt32Max
  {
    (seed + ToUInt32(key.x) + ToUInt32(key.y) + ToUInt32(key.z)) % 0x1_0000_0000
  }

  function Abs(v: int): nat { if v < 0 then -v else v }

  function Min3(a: int, b: int, c: int): (m: int)
    ensures m <= a && m <= b && m <= c && (m == a || m == b || m == c)
  {
    if a <= b && a <= c then a else if b <= c then b else c
  }

  /** Distance of a voxel below the planet's bounding box; the planet's y and
      z axes are swapped with respect to the height table. */
  function DepthOf(ctx: GenContext, c: UVec3): int {
    var p := ctx.blockIndices(ctx.chunk, c);
    Min3(ctx.maxHeight.x - Abs(p.x), ctx.maxHeight.y - Abs(p.z), ctx.maxHeight.z - Abs(p.y))
  }

  /** `Nz::SafeCaster` to `unsigned int` asserts that every depth is not negative. */
  ghost predicate DepthDefined(ctx: GenContext) {
    forall c :: InBounds(GenSize, c) ==> DepthOf(ctx, c) >= 0
  }

  /** What the depth pass does for one voxel, given how many stone draws were
      made before it: the block, `InvalidBlockIndex` when the looked-up type
      is missing (nothing is then written), and whether it drew. */
  datatype DepthStep = DepthStep(block: BlockIndex, drew: bool)

  function DepthBlock(ctx: GenContext, c: UVec3, drawIndex: nat): DepthStep {
    var depth := DepthOf(ctx, c);
    if depth < FreeSpace then DepthStep(EmptyBlockIndex, false)
    else
      var d := depth - FreeSpace;
      var step :=
        if d <= 6 then DepthStep(ctx.palette.snow, false)
        else if d <= 18 then DepthStep(ctx.palette.dirt, false)
        else DepthStep(if ctx.stoneDraw(ctx.chunkSeed, drawIndex) then ctx.palette.stone else ctx.palette.stoneMossy, true);
      var p := ctx.blockIndices(ctx.chunk, c);
      if Abs(p.x) <= 2 && Abs(p.z) <= 2 then DepthStep(EmptyBlockIndex, step.drew) else step
  }

  /** The classification of the depth pass. */
  lemma DepthBlockSpec(ctx: GenContext, c: UVec3, n: nat)
    ensures var r := DepthBlock(ctx, c, n);
      var depth := DepthOf(ctx, c);
      var p := ctx.blockIndices(ctx.chunk, c);
      && (r.drew <==> depth >= FreeSpace + 19)
      && (depth < FreeSpace || (Abs(p.x) <= 2 && Abs(p.z) <= 2) ==> r.block == EmptyBlockIndex)
      && (FreeSpace <= depth <= FreeSpace + 6 && !(Abs(p.x) <= 2 && Abs(p.z) <= 2) ==> r.block == ctx.palette.snow)
      && (FreeSpace + 6 < depth <= FreeSpace + 18 && !(Abs(p.x) <= 2 && Abs(p.z) <= 2) ==> r.block == ctx.palette.dirt)
      && (depth > FreeSpace + 18 && !(Abs(p.x) <= 2 && Abs(p.z) <= 2) ==>
            r.block == (if ctx.stoneDraw(ctx.chunkSeed, n) then ctx.palette.stone else ctx.palette.stoneMossy))
  {
  }

  /** With a valid palette the depth pass never skips a voxel, and every
      voxel gets empty or one of the five generated types. */
  lemma DepthBlockValid(ctx: GenContext, c: UVec3, n: nat)
    requires PaletteValid(ctx.palette)
    ensures var b := DepthBlock(ctx, c, n).block;
      b != InvalidBlockIndex
      && (b == EmptyBlockIndex || b == ctx.palette.snow || b == ctx.palette.dirt
          || b == ctx.palette.stone || b == ctx.palette.stoneMossy)
  {
  }

  /** What the depth pass has written, and how many draws it made, after the
      first `k` voxels in linear order. */
  datatype DepthState = DepthState(writes: seq<BlockIndex>, draws: nat)

  function DepthRun(ctx: GenContext, k: nat): (r: DepthState)
    requires DepthDefined(ctx) && k <= GenVolume
    ensures |r.writes| <= k && r.draws <= k
  {
    if k == 0 then DepthState([], 0)
    else
      var prev := DepthRun(ctx, k - 1);
      LocalIndexOfLocalIndices(GenSize, k - 1);
      var step := DepthBlock(ctx, LocalIndices(GenSize, k - 1), prev.draws);
      DepthState(prev.writes + (if step.block != InvalidBlockIndex then [step.block] else []),
                 prev.draws + (if step.drew then 1 else 0))
  }

  /** The buffer after the depth pass: the written values packed from the
      start (`blockIndexPtr` only advances on a write), then what was there. */
  function DepthFill(ctx: GenContext, initial: seq<BlockIndex>): (r: seq<BlockIndex>)
    requires DepthDefined(ctx) && |initial| == GenVolume
    ensures |r| == GenVolume
  {
    var w := DepthRun(ctx, GenVolume).writes;
    w + initial[|w|..]
  }

  /** One more voxel of the depth pass adds that voxel's write and draw. */
  lemma DepthRunNext(ctx: GenContext, k: nat, k': nat, c: UVec3)
    requires DepthDefined(ctx) && k' == k + 1 <= GenVolume && LocalIndices(GenSize, k) == c
    ensures var prev := DepthRun(ctx, k);
      var step := DepthBlock(ctx, c, prev.draws);
      DepthRun(ctx, k') == DepthState(prev.writes + (if step.block != InvalidBlockIndex then [step.block] else []),
                                      prev.draws + (if step.drew then 1 else 0))
  {
  }

  /** With a valid palette the depth pass writes once per voxel. */
  lemma {:induction false} DepthRunLength(ctx: GenContext, k: nat)
    requires DepthDefined(ctx) && k <= GenVolume && PaletteValid(ctx.palette)
    ensures |DepthRun(ctx, k).writes| == k
    decreases k
  {
    if k > 0 {
      DepthRunLength(ctx, k - 1);
      DepthBlockValid(ctx, LocalIndices(GenSize, k - 1), DepthRun(ctx, k - 1).draws);
    }
  }

  /** With a valid palette voxel `i` receives exactly its own classification,
      made with the draws of the voxels before it. */
  lemma {:induction false} DepthRunAt(ctx: GenContext, k: nat, i: nat)
    requires DepthDefined(ctx) && i < k <= GenVolume && PaletteValid(ctx.palette)
    ensures |DepthRun(ctx, k).writes| == k
    ensures DepthRun(ctx, k).writes[i] == DepthBlock(ctx, LocalIndices(GenSize, i), DepthRun(ctx, i).draws).block
    decreases k
  {
    DepthRunLength(ctx, k);
    DepthRunLength(ctx, k - 1);
    if i < k - 1 {
      DepthRunAt(ctx, k - 1, i);
    } else {
      DepthBlockValid(ctx, LocalIndices(GenSize, i), DepthRun(ctx, i).draws);
    }
  }

  /** Whatever the buffer held before, with a valid palette voxel `i` ends
      the depth pass holding its classification. */
  lemma DepthFillComplete(ctx: GenContext, initial: seq<BlockIndex>, i: nat)
    requires DepthDefined(ctx) && |initial| == GenVolume && PaletteValid(ctx.palette) && i < GenVolume
    ensures DepthFill(ctx, initial)[i] == DepthBlock(ctx, LocalIndices(GenSize, i), DepthRun(ctx, i).draws).block
  {
    DepthRunAt(ctx, GenVolume, i);
  }

  // ----- the depth pass -----

  /** The scan has handled the first `k` voxels: the buffer holds their
      writes from the start and its original content from `ptr` on. */
  ghost predicate DepthAt(buf: array<BlockIndex>, ctx: GenContext, initial: seq<BlockIndex>, k: nat, ptr: nat, draws: nat)
    reads buf
  {
    && DepthDefined(ctx) && buf.Length == GenVolume && |initial| == GenVolume
    && k <= GenVolume && ptr <= k
    && DepthRun(ctx, k) == DepthState(buf[..ptr], draws)
    && buf[ptr..] == initial[ptr..]
  }

  ghost predicate DepthAtSeq(s: seq<BlockIndex>, ctx: GenContext, initial: seq<BlockIndex>, k: nat, ptr: nat, draws: nat) {
    && DepthDefined(ctx) && |s| == GenVolume && |initial| == GenVolume
    && k <= GenVolume && ptr <= k
    && DepthRun(ctx, k) == DepthState(s[..ptr], draws)
    && s[ptr..] == initial[ptr..]
  }

  /** The depth pass's handling of voxel `k`: its block, when not missing, is
      written at `ptr`, which then advances. */
  lemma DepthAtNext(s: seq<BlockIndex>, ctx: GenContext, initial: seq<BlockIndex>, k: nat, k': nat, ptr: nat, draws: nat,
                    c: UVec3, b: BlockIndex, drew: bool)
    requires DepthAtSeq(s, ctx, initial, k, ptr, draws) && k' == k + 1 <= GenVolume && LocalIndices(GenSize, k) == c
    requires DepthStep(b, drew) == DepthBlock(ctx, c, draws)
    ensures b != InvalidBlockIndex ==> ptr < |s| && DepthAtSeq(s[ptr := b], ctx, initial, k', ptr + 1, if drew then draws + 1 else draws)
    ensures b == InvalidBlockIndex ==> DepthAtSeq(s, ctx, initial, k', ptr, if drew then draws + 1 else draws)
  {
    DepthRunNext(ctx, k, k', c);
    if b != InvalidBlockIndex {
      var t := s[ptr := b];
      assert t[..ptr + 1] == s[..ptr] + [b];
      assert t[ptr + 1..] == s[ptr + 1..];
    }
  }

  /** The first loop of the fill: every voxel in z, y, x order, written
      through `blockIndexPtr`. */
  method DepthPass(buf: array<BlockIndex>, ctx: GenContext) returns (ptr: nat, draws: nat)
    requires DepthDefined(ctx) && buf.Length == GenVolume
    modifies buf
    ensures buf[..] == DepthFill(ctx, old(buf[..]))
    ensures draws == DepthRun(ctx, GenVolume).draws
  {
    ghost var initial := buf[..];
    ptr, draws := 0, 0;
    var z := 0;
    while z < ChunkSize
      invariant z <= ChunkSize && ScanIndex(GenSize, 0, 0, z) <= GenVolume
      invariant DepthAt(buf, ctx, initial, ScanIndex(GenSize, 0, 0, z), ptr, draws)
    {
      ptr, draws := DepthLayer(buf, ctx, z, ptr, draws, initial);
      LayerEnd(GenSize, z);
      z := z + 1;
    }
    ScanDone(GenSize);
    assert buf[..] == buf[..ptr] + buf[ptr..];
  }

  method DepthLayer(buf: array<BlockIndex>, ctx: GenContext, z: nat, ptr: nat, draws: nat, ghost initial: seq<BlockIndex>)
    returns (ptr': nat, draws': nat)
    requires z < ChunkSize && DepthAt(buf, ctx, initial, ScanIndex(GenSize, 0, 0, z), ptr, draws)
    modifies buf
    ensures DepthAt(buf, ctx, initial, ScanIndex(GenSize, 0, ChunkSize, z), ptr', draws')
  {
    ptr', draws' := ptr, draws;
    var y := 0;
    while y < ChunkSize
      invariant y <= ChunkSize
      invariant DepthAt(buf, ctx, initial, ScanIndex(GenSize, 0, y, z), ptr', draws')
    {
      ptr', draws' := DepthRow(buf, ctx, y, z, ptr', draws', initial);
      RowEnd(GenSize, y, z);
      y := y + 1;
    }
  }

  method DepthRow(buf: array<BlockIndex>, ctx: GenContext, y: nat, z: nat, ptr: nat, draws: nat, ghost initial: seq<BlockIndex>)
    returns (ptr': nat, draws': nat)
    requires y < ChunkSize && z < ChunkSize && DepthAt(buf, ctx, initial, ScanIndex(GenSize, 0, y, z), ptr, draws)
    modifies buf
    ensures DepthAt(buf, ctx, initial, ScanIndex(GenSize, ChunkSize, y, z), ptr', draws')
  {
    ptr', draws' := ptr, draws;
    var x := 0;
    while x < ChunkSize
      invariant x <= ChunkSize
      invariant DepthAt(buf, ctx, initial, ScanIndex(GenSize, x, y, z), ptr', draws')
    {
      ScanAt(GenSize, UVec3(x, y, z));
      ptr', draws' := DepthVoxel(buf, ctx, UVec3(x, y, z), ptr', draws', initial,
                                 ScanIndex(GenSize, x, y, z), ScanIndex(GenSize, x + 1, y, z));
      x := x + 1;
    }
  }

  /** The loop body of the depth pass for voxel `c`: its block goes through
      `blockIndexPtr` unless the looked-up type is missing. */
  method DepthVoxel(buf: array<BlockIndex>, ctx: GenContext, c: UVec3, ptr: nat, draws: nat, ghost initial: seq<BlockIndex>,
                    ghost k: nat, ghost k': nat)
    returns (ptr': nat, draws': nat)
    requires InBounds(GenSize, c) && k == LocalIndex(GenSize, c) < GenVolume && k' == k + 1
    requires DepthAt(buf, ctx, initial, k, ptr, draws)
    modifies buf
    ensures DepthAt(buf, ctx, initial, k', ptr', draws')
  {
    LocalIndicesOfLocalIndex(GenSize, c);
    var blockIndex, drew := DepthClassify(ctx, c, draws);
    assert buf[..][..ptr] == buf[..ptr] && buf[..][ptr..] == buf[ptr..];
    DepthAtNext(buf[..], ctx, initial, k, k', ptr, draws, c, blockIndex, drew);
    ptr', draws' := ptr, if drew then draws + 1 else draws;
    if blockIndex != InvalidBlockIndex {
      buf[ptr'] := blockIndex;
      ptr' := ptr' + 1;
    }
    assert buf[..][..ptr'] == buf[..ptr'] && buf[..][ptr'..] == buf[ptr'..];
  }

  /** The classification of one voxel by the depth pass, from its depth below
      the generated surface: empty above it, then snow, dirt, and stone or
      mossy stone by a draw of the chunk's generator; the shaft around the
      vertical axis is kept empty. */
  method DepthClassify(ctx: GenContext, c: UVec3, draws: nat) returns (blockIndex: BlockIndex, drew: bool)
    ensures DepthStep(blockIndex, drew) == DepthBlock(ctx, c, draws)
  {
    var blockPos := ctx.blockIndices(ctx.chunk, c);
    var depth := Min3(ctx.maxHeight.x - Abs(blockPos.x), ctx.maxHeight.y - Abs(blockPos.z), ctx.maxHeight.z - Abs(blockPos.y));
    drew := false;
    if depth < FreeSpace {
      return EmptyBlockIndex, false;
    }
    var d := depth - FreeSpace;
    if d <= 6 {
      blockIndex := ctx.palette.snow;
    } else if d <= 18 {
      blockIndex := ctx.palette.dirt;
    } else {
      blockIndex := if ctx.stoneDraw(ctx.chunkSeed, draws) then ctx.palette.stone else ctx.palette.stoneMossy;
      drew := true;
    }
    if Abs(blockPos.x) <= 2 && Abs(blockPos.z) <= 2 {
      blockIndex := EmptyBlockIndex;
    }
  }

  // ----- the carve passes -----

  /** The six carve passes, named after the noise that drives them: +X, -X,
      +Y, -Y, +Z, -Z in source order. */
  const CarveOrder: seq<Direction> := [Right, Left, Up, Down, Back, Front]

  /** The voxel of column (i, o) of pass `d` at height `h` above the chunk
      face the pass starts from: `i` is the inner loop variable, `o` the
      outer one. */
  function CarveVoxel(d: Direction, i: nat, o: nat, h: nat): (c: UVec3)
    requires i < ChunkSize && o < ChunkSize && h < ChunkSize
    ensures InBounds(GenSize, c)
  {
    match d
    case Right => UVec3(h, i, o)
    case Left => UVec3(ChunkSize - h - 1, i, o)
    case Up => UVec3(i, o, h)
    case Down => UVec3(i, o, ChunkSize - h - 1)
    case Back => UVec3(i, h, o)
    case Front => UVec3(i, ChunkSize - h - 1, o)
  }

  datatype ColumnPos = ColumnPos(i: nat, o: nat, h: nat)

  /** Which column of pass `d` a voxel belongs to, and at which height. */
  function ColumnOf(d: Direction, c: UVec3): (p: ColumnPos)
    requires InBounds(GenSize, c)
    ensures p.i < ChunkSize && p.o < ChunkSize && p.h < ChunkSize
    ensures CarveVoxel(d, p.i, p.o, p.h) == c
  {
    match d
    case Right => ColumnPos(c.y, c.z, c.x)
    case Left => ColumnPos(c.y, c.z, ChunkSize - c.x - 1)
    case Up => ColumnPos(c.x, c.y, c.z)
    case Down => ColumnPos(c.x, c.y, ChunkSize - c.z - 1)
    case Back => ColumnPos(c.x, c.z, c.y)
    case Front => ColumnPos(c.x, c.z, ChunkSize - c.y - 1)
  }

  /** Each voxel of a column lies in that column, at its own height. */
  lemma ColumnOfCarveVoxel(d: Direction, i: nat, o: nat, h: nat)
    requires i < ChunkSize && o < ChunkSize && h < ChunkSize
    ensures ColumnOf(d, CarveVoxel(d, i, o, h)) == ColumnPos(i, o, h)
  {
  }

  /** The same-sign planet axis a pass measures the depth along, and whether
      the pass works from the positive side. */
  function AxisOf(p: IVec3, d: Direction): int {
    match d
    case Right => p.x
    case Left => p.x
    case Up => p.y
    case Down => p.y
    case Back => p.z
    case Front => p.z
  }

  predicate Positive(d: Direction) { d == Right || d == Up || d == Back }

  /** Height in the column at which the terrain surface starts, or nothing
      when the column lies wholly under the surface or wholly above the chunk. */
  function ColumnStart(ctx: GenContext, d: Direction, i: nat, o: nat): (s: Option<nat>)
    requires i < ChunkSize && o < ChunkSize
    ensures s.Some? ==> s.value < ChunkSize
  {
    var mapPos := ctx.blockIndices(ctx.chunk, CarveVoxel(d, i, o, 0));
    var terrainDepth := ctx.terrainDepth(ctx.seed, ctx.maxHeight, d, mapPos);
    var blockDepth := if Positive(d) then AxisOf(ctx.maxHeight, d) - AxisOf(mapPos, d) + 1
                      else AxisOf(ctx.maxHeight, d) + AxisOf(mapPos, d) + 1;
    if blockDepth < terrainDepth then None
    else if blockDepth - terrainDepth >= ChunkSize then None
    else Some(blockDepth - terrainDepth)
  }

  /** The value a voxel at height `h` of a column takes: below the start it
      keeps its value, at the start dirt turns into grass, above it is emptied. */
  function Carved(v: BlockIndex, h: nat, start: Option<nat>, palette: Palette): BlockIndex {
    if start.None? || h < start.value then v
    else if h == start.value then (if v == palette.dirt then palette.grass else v)
    else EmptyBlockIndex
  }

  /** The buffer after carve pass `d`. */
  function CarveFill(ctx: GenContext, d: Direction, s: seq<BlockIndex>): (r: seq<BlockIndex>)
    requires |s| == GenVolume
    ensures |r| == GenVolume
  {
    seq(GenVolume, j requires 0 <= j < GenVolume =>
      LocalIndexOfLocalIndices(GenSize, j);
      var p := ColumnOf(d, LocalIndices(GenSize, j));
      Carved(s[j], p.h, ColumnStart(ctx, d, p.i, p.o), ctx.palette))
  }

  /** The effect of one carve pass column by column: at the surface start
      grass replaces dirt and nothing else, above it every voxel is empty, and
      below it and in columns without a start nothing changes. */
  lemma CarveFillColumn(ctx: GenContext, d: Direction, s: seq<BlockIndex>, i: nat, o: nat, h: nat)
    requires |s| == GenVolume && i < ChunkSize && o < ChunkSize && h < ChunkSize
    ensures LocalIndex(GenSize, CarveVoxel(d, i, o, h)) < GenVolume
    ensures var j := LocalIndex(GenSize, CarveVoxel(d, i, o, h));
      var start := ColumnStart(ctx, d, i, o);
      && (start.None? || h < start.value ==> CarveFill(ctx, d, s)[j] == s[j])
      && (start == Some(h) ==> CarveFill(ctx, d, s)[j] == if s[j] == ctx.palette.dirt then ctx.palette.grass else s[j])
      && (start.Some? && h > start.value ==> CarveFill(ctx, d, s)[j] == EmptyBlockIndex)
  {
    var c := CarveVoxel(d, i, o, h);
    LocalIndexBound(GenSize, c);
    LocalIndicesOfLocalIndex(GenSize, c);
    ColumnOfCarveVoxel(d, i, o, h);
  }

  /** Whether column `p` comes before column (i, o) in pass order. */
  predicate ColumnBefore(p: ColumnPos, i: nat, o: nat) {
    p.o < o || (p.o == o && p.i < i)
  }

  /** Value of entry `j` while pass `d` is at column (i, o), height `h`: the
      columns before (i, o) and this column below `h` are carved, the rest
      is as it was in `s`. */
  function Stage(ctx: GenContext, d: Direction, s: seq<BlockIndex>, j: nat, i: nat, o: nat, h: nat): BlockIndex
    requires |s| == GenVolume && j < GenVolume
  {
    LocalIndexOfLocalIndices(GenSize, j);
    var p := ColumnOf(d, LocalIndices(GenSize, j));
    if ColumnBefore(p, i, o) || (p.i == i && p.o == o && p.h < h)
    then Carved(s[j], p.h, ColumnStart(ctx, d, p.i, p.o), ctx.palette)
    else s[j]
  }

  ghost predicate StageAt(b: seq<BlockIndex>, ctx: GenContext, d: Direction, s: seq<BlockIndex>, i: nat, o: nat, h: nat) {
    && |b| == GenVolume && |s| == GenVolume
    && forall j :: 0 <= j < GenVolume ==> b[j] == Stage(ctx, d, s, j, i, o, h)
  }

  lemma StageStart(ctx: GenContext, d: Direction, s: seq<BlockIndex>)
    requires |s| == GenVolume
    ensures StageAt(s, ctx, d, s, 0, 0, 0)
  {
  }

  lemma StageEnd(b: seq<BlockIndex>, ctx: GenContext, d: Direction, s: seq<BlockIndex>)
    requires StageAt(b, ctx, d, s, 0, ChunkSize, 0)
    ensures b == CarveFill(ctx, d, s)
  {
  }

  lemma StageNextRow(b: seq<BlockIndex>, ctx: GenContext, d: Direction, s: seq<BlockIndex>, o: nat)
    requires StageAt(b, ctx, d, s, ChunkSize, o, 0)
    ensures StageAt(b, ctx, d, s, 0, o + 1, 0)
  {
  }

  /** A column without a surface start is left as it is. */
  lemma StageSkip(b: seq<BlockIndex>, ctx: GenContext, d: Direction, s: seq<BlockIndex>, i: nat, o: nat)
    requires i < ChunkSize && o < ChunkSize && ColumnStart(ctx, d, i, o).None?
    requires StageAt(b, ctx, d, s, i, o, 0)
    ensures StageAt(b, ctx, d, s, i + 1, o, 0)
  {
  }

  /** Only the voxel at `LocalIndex(c)` is voxel `c`. */
  lemma CellIndexUnique(j: nat, c: UVec3)
    requires j < GenVolume && InBounds(GenSize, c) && LocalIndices(GenSize, j) == c
    ensures j == LocalIndex(GenSize, c)
  {
    LocalIndexOfLocalIndices(GenSize, j);
  }

  lemma StageTopAt(ctx: GenContext, d: Direction, s: seq<BlockIndex>, i: nat, o: nat, start: nat, j: nat, v: BlockIndex)
    requires |s| == GenVolume && j < GenVolume && i < ChunkSize && o < ChunkSize
    requires ColumnStart(ctx, d, i, o) == Some(start) && v == Stage(ctx, d, s, j, i, o, 0)
    ensures var jt := LocalIndex(GenSize, CarveVoxel(d, i, o, start));
      (if j == jt then (if v == ctx.palette.dirt then ctx.palette.grass else v) else v) == Stage(ctx, d, s, j, i, o, start + 1)
  {
    LocalIndexOfLocalIndices(GenSize, j);
    var p := ColumnOf(d, LocalIndices(GenSize, j));
    var c := CarveVoxel(d, i, o, start);
    if p == ColumnPos(i, o, start) {
      CellIndexUnique(j, c);
    } else if j == LocalIndex(GenSize, c) {
      LocalIndicesOfLocalIndex(GenSize, c);
      ColumnOfCarveVoxel(d, i, o, start);
      assert false;
    }
  }

  /** The surface voxel of a column: dirt becomes grass. */
  lemma StageTop(b: seq<BlockIndex>, ctx: GenContext, d: Direction, s: seq<BlockIndex>, i: nat, o: nat, start: nat)
    requires i < ChunkSize && o < ChunkSize && ColumnStart(ctx, d, i, o) == Some(start)
    requires StageAt(b, ctx, d, s, i, o, 0)
    ensures LocalIndex(GenSize, CarveVoxel(d, i, o, start)) < GenVolume
    ensures var j := LocalIndex(GenSize, CarveVoxel(d, i, o, start));
      StageAt(b[j := if b[j] == ctx.palette.dirt then ctx.palette.grass else b[j]], ctx, d, s, i, o, start + 1)
  {
    var c := CarveVoxel(d, i, o, start);
    LocalIndexBound(GenSize, c);
    var jt := LocalIndex(GenSize, c);
    var b' := b[jt := if b[jt] == ctx.palette.dirt then ctx.palette.grass else b[jt]];
    forall j | 0 <= j < GenVolume ensures b'[j] == Stage(ctx, d, s, j, i, o, start + 1) {
      StageTopAt(ctx, d, s, i, o, start, j, b[j]);
    }
  }

  lemma StageClearAt(ctx: GenContext, d: Direction, s: seq<BlockIndex>, i: nat, o: nat, start: nat, h: nat, j: nat, v: BlockIndex)
    requires |s| == GenVolume && j < GenVolume && i < ChunkSize && o < ChunkSize && start < h < ChunkSize
    requires ColumnStart(ctx, d, i, o) == Some(start) && v == Stage(ctx, d, s, j, i, o, h)
    ensures var jh := LocalIndex(GenSize, CarveVoxel(d, i, o, h));
      (if j == jh then EmptyBlockIndex else v) == Stage(ctx, d, s, j, i, o, h + 1)
  {
    LocalIndexOfLocalIndices(GenSize, j);
    var p := ColumnOf(d, LocalIndices(GenSize, j));
    var c := CarveVoxel(d, i, o, h);
    if p == ColumnPos(i, o, h) {
      CellIndexUnique(j, c);
    } else if j == LocalIndex(GenSize, c) {
      LocalIndicesOfLocalIndex(GenSize, c);
      ColumnOfCarveVoxel(d, i, o, h);
      assert false;
    }
  }

  /** A voxel above the surface start is emptied. */
  lemma StageClear(b: seq<BlockIndex>, ctx: GenContext, d: Direction, s: seq<BlockIndex>, i: nat, o: nat, start: nat, h: nat)
    requires i < ChunkSize && o < ChunkSize && start < h < ChunkSize && ColumnStart(ctx, d, i, o) == Some(start)
    requires StageAt(b, ctx, d, s, i, o, h)
    ensures LocalIndex(GenSize, CarveVoxel(d, i, o, h)) < GenVolume
    ensures StageAt(b[LocalIndex(GenSize, CarveVoxel(d, i, o, h)) := EmptyBlockIndex], ctx, d, s, i, o, h + 1)
  {
    var c := CarveVoxel(d, i, o, h);
    LocalIndexBound(GenSize, c);
    var jh := LocalIndex(GenSize, c);
    var b' := b[jh := EmptyBlockIndex];
    forall j | 0 <= j < GenVolume ensures b'[j] == Stage(ctx, d, s, j, i, o, h + 1) {
      StageClearAt(ctx, d, s, i, o, start, h, j, b[j]);
    }
  }

  lemma StageColumnDone(b: seq<BlockIndex>, ctx: GenContext, d: Direction, s: seq<BlockIndex>, i: nat, o: nat)
    requires StageAt(b, ctx, d, s, i, o, ChunkSize)
    ensures StageAt(b, ctx, d, s, i + 1, o, 0)
  {
  }

  /** Carve pass `d`: for every column, outer loop first, find where the
      terrain starts and carve above it. */
  method CarvePass(buf: array<BlockIndex>, ctx: GenContext, d: Direction)
    requires buf.Length == GenVolume
    modifies buf
    ensures buf[..] == CarveFill(ctx, d, old(buf[..]))
  {
    ghost var s := buf[..];
    StageStart(ctx, d, s);
    var o := 0;
    while o < ChunkSize
      invariant o <= ChunkSize && StageAt(buf[..], ctx, d, s, 0, o, 0)
    {
      var i := 0;
      while i < ChunkSize
        invariant i <= ChunkSize && StageAt(buf[..], ctx, d, s, i, o, 0)
      {
        CarveColumn(buf, ctx, d, i, o, s);
        i := i + 1;
      }
      StageNextRow(buf[..], ctx, d, s, o);
      o := o + 1;
    }
    StageEnd(buf[..], ctx, d, s);
  }

  /** One column of a carve pass. */
  method CarveColumn(buf: array<BlockIndex>, ctx: GenContext, d: Direction, i: nat, o: nat, ghost s: seq<BlockIndex>)
    requires i < ChunkSize && o < ChunkSize && StageAt(buf[..], ctx, d, s, i, o, 0)
    modifies buf
    ensures StageAt(buf[..], ctx, d, s, i + 1, o, 0)
  {
    var mapPos := ctx.blockIndices(ctx.chunk, CarveVoxel(d, i, o, 0));
    var terrainDepth := ctx.terrainDepth(ctx.seed, ctx.maxHeight, d, mapPos);
    var blockDepth := if Positive(d) then AxisOf(ctx.maxHeight, d) - AxisOf(mapPos, d) + 1
                      else AxisOf(ctx.maxHeight, d) + AxisOf(mapPos, d) + 1;
    if blockDepth < terrainDepth {
      StageSkip(buf[..], ctx, d, s, i, o);
      return;
    }
    var startHeight := blockDepth - terrainDepth;
    if startHeight >= ChunkSize {
      StageSkip(buf[..], ctx, d, s, i, o);
      return;
    }
    CarveAbove(buf, ctx, d, i, o, startHeight, s);
  }

  /** The rest of the column body once its surface start is known: grass
      over dirt at the start, then every voxel above it emptied. */
  method CarveAbove(buf: array<BlockIndex>, ctx: GenContext, d: Direction, i: nat, o: nat, startHeight: nat, ghost s: seq<BlockIndex>)
    requires i < ChunkSize && o < ChunkSize && ColumnStart(ctx, d, i, o) == Some(startHeight)
    requires StageAt(buf[..], ctx, d, s, i, o, 0)
    modifies buf
    ensures StageAt(buf[..], ctx, d, s, i + 1, o, 0)
  {
    StageTop(buf[..], ctx, d, s, i, o, startHeight);
    var j := LocalIndex(GenSize, CarveVoxel(d, i, o, startHeight));
    ghost var b0 := buf[..];
    if buf[j] == ctx.palette.dirt {
      buf[j] := ctx.palette.grass;
    }
    assert buf[..] == b0[j := if b0[j] == ctx.palette.dirt then ctx.palette.grass else b0[j]];
    CarveClear(buf, ctx, d, i, o, startHeight, s);
    StageColumnDone(buf[..], ctx, d, s, i, o);
  }

  /** The loop of the column body that empties every voxel above the surface
      start. */
  method CarveClear(buf: array<BlockIndex>, ctx: GenContext, d: Direction, i: nat, o: nat, startHeight: nat, ghost s: seq<BlockIndex>)
    requires i < ChunkSize && o < ChunkSize && ColumnStart(ctx, d, i, o) == Some(startHeight)
    requires StageAt(buf[..], ctx, d, s, i, o, startHeight + 1)
    modifies buf
    ensures StageAt(buf[..], ctx, d, s, i, o, ChunkSize)
  {
    var height := startHeight + 1;
    while height < ChunkSize
      invariant startHeight < height <= ChunkSize
      invariant StageAt(buf[..], ctx, d, s, i, o, height)
    {
      ghost var b := buf[..];
      StageClear(b, ctx, d, s, i, o, startHeight, height);
      var k := LocalIndex(GenSize, CarveVoxel(d, i, o, height));
      buf[k] := EmptyBlockIndex;
      assert buf[..] == b[k := EmptyBlockIndex];
      height := height + 1;
    }
  }

  /** The whole fill: the depth pass, then the six carve passes in order. */
  function GeneratedContent(ctx: GenContext, initial: seq<BlockIndex>): (r: seq<BlockIndex>)
    requires DepthDefined(ctx) && |initial| == GenVolume
    ensures |r| == GenVolume
  {
    var s := DepthFill(ctx, initial);
    CarveFill(ctx, Front, CarveFill(ctx, Back, CarveFill(ctx, Down, CarveFill(ctx, Up,
      CarveFill(ctx, Left, CarveFill(ctx, Right, s))))))
  }

  /** The lambda `GenerateChunk` passes to `Chunk::Reset`. */
  method Fill(buf: array<BlockIndex>, ctx: GenContext)
    requires DepthDefined(ctx) && buf.Length == GenVolume
    modifies buf
    ensures buf[..] == GeneratedContent(ctx, old(buf[..]))
  {
    var _, _ := DepthPass(buf, ctx);
    CarvePass(buf, ctx, Right);
    CarvePass(buf, ctx, Left);
    CarvePass(buf, ctx, Up);
    CarvePass(buf, ctx, Down);
    CarvePass(buf, ctx, Back);
    CarvePass(buf, ctx, Front);
  }
}
