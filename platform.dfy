/** The geometry of the spawn platform `Planet::GeneratePlatform` builds:
    where each of its voxels lies, which block the top pass gives it, how
    many layers the top pass handles, which voxels the bottom pass fills,
    and how the bottom pass steps along a row. */
module Platforms {
  import opened Voxel
  import opened Chunks

  /** `platformSize`: the platform is 15 voxels wide and deep. */
  const PlatformSize: nat := 15
  /** `freeHeight`: the top pass handles ten layers, the platform's own included. */
  const FreeHeight: nat := 10

  /** An entry of `s_dirAxis` (the table is not part of this model): the
      coordinate axis and the sign of the platform's right, up and forward
      directions. */
  datatype DirAxis = DirAxis(rightAxis: nat, rightDir: int, upAxis: nat, upDir: int, forwardAxis: nat, forwardDir: int)

  predicate UnitStep(d: int) { d == 1 || d == -1 }

  /** Three distinct coordinate axes, each stepped by one. */
  predicate ValidDirAxis(a: DirAxis) {
    && a.rightAxis < 3 && a.upAxis < 3 && a.forwardAxis < 3
    && a.rightAxis != a.upAxis && a.rightAxis != a.forwardAxis && a.upAxis != a.forwardAxis
    && UnitStep(a.rightDir) && UnitStep(a.upDir) && UnitStep(a.forwardDir)
  }

  /** `coordinates[axis]`. */
  function Coord(v: IVec3, axis: nat): int
    requires axis < 3
  {
    if axis == 0 then v.x else if axis == 1 then v.y else v.z
  }

  /** Assigning `coordinates[axis]`: that component changes and no other. */
  function WithCoord(v: IVec3, axis: nat, value: int): (r: IVec3)
    requires axis < 3
    ensures Coord(r, axis) == value
    ensures axis != 0 ==> r.x == v.x
    ensures axis != 1 ==> r.y == v.y
    ensures axis != 2 ==> r.z == v.z
  {
    if axis == 0 then v.(x := value) else if axis == 1 then v.(y := value) else v.(z := value)
  }

  /** Vectors with the same three components are equal. */
  lemma CoordsEqual(u: IVec3, v: IVec3)
    requires Coord(u, 0) == Coord(v, 0) && Coord(u, 1) == Coord(v, 1) && Coord(u, 2) == Coord(v, 2)
    ensures u == v
  {
  }

  /** C++'s `/` on `int`, which truncates toward zero. */
  function TruncDiv(a: int, b: nat): (q: int)
    requires b > 0
    ensures a >= 0 ==> q == a / b
    ensures a < 0 ==> q == -((-a) / b)
  {
    if a >= 0 then a / b else -((-a) / b)
  }

  /** The start of the scan: `platformCenter` moved back by
      `-dir * platformSize / 2` along the right and forward axes. */
  function PlatformCorner(center: IVec3, a: DirAxis): (r: IVec3)
    requires ValidDirAxis(a)
    ensures Coord(r, a.rightAxis) == Coord(center, a.rightAxis) - 7 * a.rightDir
    ensures Coord(r, a.forwardAxis) == Coord(center, a.forwardAxis) - 7 * a.forwardDir
    ensures Coord(r, a.upAxis) == Coord(center, a.upAxis)
  {
    var right := WithCoord(center, a.rightAxis, Coord(center, a.rightAxis) + TruncDiv(-a.rightDir * PlatformSize, 2));
    WithCoord(right, a.forwardAxis, Coord(right, a.forwardAxis) + TruncDiv(-a.forwardDir * PlatformSize, 2))
  }

  /** The block indices of the platform voxel `x` steps right, `z` steps
      forward and `layer` steps up from `corner`. */
  function PlatformPos(corner: IVec3, a: DirAxis, x: int, z: int, layer: int): (r: IVec3)
    requires ValidDirAxis(a)
    ensures Coord(r, a.rightAxis) == Coord(corner, a.rightAxis) + x * a.rightDir
    ensures Coord(r, a.forwardAxis) == Coord(corner, a.forwardAxis) + z * a.forwardDir
    ensures Coord(r, a.upAxis) == Coord(corner, a.upAxis) + layer * a.upDir
  {
    var right := WithCoord(corner, a.rightAxis, Coord(corner, a.rightAxis) + x * a.rightDir);
    var forward := WithCoord(right, a.forwardAxis, Coord(corner, a.forwardAxis) + z * a.forwardDir);
    WithCoord(forward, a.upAxis, Coord(corner, a.upAxis) + layer * a.upDir)
  }

  /** The three components of `p` are those of `PlatformPos` for these steps. */
  lemma PlatformPosFromCoords(corner: IVec3, a: DirAxis, x: int, z: int, layer: int, p: IVec3)
    requires ValidDirAxis(a)
    requires Coord(p, a.rightAxis) == Coord(corner, a.rightAxis) + x * a.rightDir
    requires Coord(p, a.forwardAxis) == Coord(corner, a.forwardAxis) + z * a.forwardDir
    requires Coord(p, a.upAxis) == Coord(corner, a.upAxis) + layer * a.upDir
    ensures p == PlatformPos(corner, a, x, z, layer)
  {
    var q := PlatformPos(corner, a, x, z, layer);
    forall i | 0 <= i < 3
      ensures Coord(p, i) == Coord(q, i)
    {
      assert i == a.rightAxis || i == a.forwardAxis || i == a.upAxis;
    }
    CoordsEqual(p, q);
  }

  /** `xPos += dirAxis.rightDir`. */
  lemma StepRight(corner: IVec3, a: DirAxis, x: int, z: int, layer: int)
    requires ValidDirAxis(a)
    ensures var p := PlatformPos(corner, a, x, z, layer);
      WithCoord(p, a.rightAxis, Coord(p, a.rightAxis) + a.rightDir) == PlatformPos(corner, a, x + 1, z, layer)
  {
    var p := PlatformPos(corner, a, x, z, layer);
    PlatformPosFromCoords(corner, a, x + 1, z, layer, WithCoord(p, a.rightAxis, Coord(p, a.rightAxis) + a.rightDir));
  }

  /** `xPos = startingX; zPos += dirAxis.forwardDir`, from the end of row `z`. */
  lemma StepForward(corner: IVec3, a: DirAxis, w: nat, z: int, layer: int, p: IVec3, startingX: int)
    requires ValidDirAxis(a)
    requires p == PlatformPos(corner, a, w, z, layer) && startingX == Coord(corner, a.rightAxis)
    ensures var q := WithCoord(p, a.rightAxis, startingX);
      WithCoord(q, a.forwardAxis, Coord(q, a.forwardAxis) + a.forwardDir) == PlatformPos(corner, a, 0, z + 1, layer)
  {
    var q := WithCoord(p, a.rightAxis, startingX);
    PlatformPosFromCoords(corner, a, 0, z + 1, layer, WithCoord(q, a.forwardAxis, Coord(q, a.forwardAxis) + a.forwardDir));
  }

  /** `yPos += step; zPos = startingZ`, from the end of a layer's last row. */
  lemma StepLayer(corner: IVec3, a: DirAxis, x: int, z: int, layer: int, step: int)
    requires ValidDirAxis(a) && (step == 1 || step == -1)
    ensures var p := PlatformPos(corner, a, x, z, layer);
      var q := WithCoord(p, a.upAxis, Coord(p, a.upAxis) + step * a.upDir);
      WithCoord(q, a.forwardAxis, Coord(corner, a.forwardAxis)) == PlatformPos(corner, a, x, 0, layer + step)
  {
    var p := PlatformPos(corner, a, x, z, layer);
    var q := WithCoord(p, a.upAxis, Coord(p, a.upAxis) + step * a.upDir);
    PlatformPosFromCoords(corner, a, x, 0, layer + step, WithCoord(q, a.forwardAxis, Coord(corner, a.forwardAxis)));
  }

  /** Distinct steps reach distinct voxels. */
  lemma PlatformPosInjective(corner: IVec3, a: DirAxis, x: int, z: int, layer: int, x': int, z': int, layer': int)
    requires ValidDirAxis(a)
    requires PlatformPos(corner, a, x, z, layer) == PlatformPos(corner, a, x', z', layer')
    ensures x == x' && z == z' && layer == layer'
  {
    var p := PlatformPos(corner, a, x, z, layer);
    assert x * a.rightDir == x' * a.rightDir;
    assert z * a.forwardDir == z' * a.forwardDir;
    assert layer * a.upDir == layer' * a.upDir;
  }

  /** Whether a voxel lies on the platform's rim. */
  predicate OnBorder(x: nat, z: nat) {
    x == 0 || x == PlatformSize - 1 || z == 0 || z == PlatformSize - 1
  }

  /** The block the top pass writes at cell `(x, z)` of layer `layer`:
      copper on the rim of the platform's own layer, stone bricks inside
      it, nothing above. */
  function TopBlock(border: BlockIndex, interior: BlockIndex, x: nat, z: nat, layer: nat): BlockIndex {
    if layer != 0 then EmptyBlockIndex
    else if OnBorder(x, z) then border
    else interior
  }

  /** How many layers the top pass handles from a platform whose centre
      (or corner) is `origin`: it stops after the layer whose up coordinate
      is zero when the platform's up direction is negative. */
  function TopLayers(origin: IVec3, a: DirAxis): (n: nat)
    requires ValidDirAxis(a)
    ensures 1 <= n <= FreeHeight
  {
    if a.upDir < 0 && 0 <= Coord(origin, a.upAxis) < FreeHeight then Coord(origin, a.upAxis) + 1 else FreeHeight
  }

  /** The layer count is where the source's `break` fires first: no earlier
      layer meets its condition, and the last one does unless all ten are
      done. */
  lemma TopLayersFirstStop(origin: IVec3, a: DirAxis)
    requires ValidDirAxis(a)
    ensures var n := TopLayers(origin, a);
      && (forall y :: 0 <= y < n - 1 ==> !(Coord(origin, a.upAxis) + y * a.upDir == 0 && a.upDir < 0))
      && (n < FreeHeight ==> Coord(origin, a.upAxis) + (n - 1) * a.upDir == 0 && a.upDir < 0)
  {
  }

  /** The move from the end of layer `y`'s last row to the start of layer
      `y + 1`: `yPos += dirAxis.upDir; zPos = startingZ`, with the `break`
      test before it. The layer count of the corner is that of the centre,
      which has the same up coordinate. */
  lemma TopNextLayer(corner: IVec3, a: DirAxis, w: nat, y: nat, p: IVec3, startingZ: int)
    requires ValidDirAxis(a) && y < TopLayers(corner, a)
    requires p == PlatformPos(corner, a, 0, w, y)
    requires startingZ == Coord(corner, a.forwardAxis)
    ensures Coord(p, a.upAxis) == 0 && a.upDir < 0 ==> y + 1 == TopLayers(corner, a)
    ensures !(Coord(p, a.upAxis) == 0 && a.upDir < 0) ==> y + 1 < TopLayers(corner, a) || y + 1 == FreeHeight
    ensures WithCoord(WithCoord(p, a.upAxis, Coord(p, a.upAxis) + a.upDir), a.forwardAxis, startingZ)
            == PlatformPos(corner, a, 0, 0, y + 1)
  {
    TopLayersFirstStop(corner, a);
    StepLayer(corner, a, 0, w, y, 1);
  }

  /** The end of an iteration of the innermost loop: `xPos += dirAxis.rightDir`. */
  method NextVoxel(corner: IVec3, a: DirAxis, x: nat, z: nat, layer: int, coords: IVec3) returns (coords': IVec3)
    requires ValidDirAxis(a) && coords == PlatformPos(corner, a, x, z, layer)
    ensures coords' == PlatformPos(corner, a, x + 1, z, layer)
  {
    StepRight(corner, a, x, z, layer);
    coords' := WithCoord(coords, a.rightAxis, Coord(coords, a.rightAxis) + a.rightDir);
  }

  /** The end of a row: `xPos = startingX; zPos += dirAxis.forwardDir`. */
  method NextRow(corner: IVec3, a: DirAxis, ghost w: nat, z: nat, layer: int, coords: IVec3, startingX: int) returns (coords': IVec3)
    requires ValidDirAxis(a) && coords == PlatformPos(corner, a, w, z, layer)
    requires startingX == Coord(corner, a.rightAxis)
    ensures coords' == PlatformPos(corner, a, 0, z + 1, layer)
  {
    StepForward(corner, a, w, z, layer, coords, startingX);
    coords' := WithCoord(coords, a.rightAxis, startingX);
    coords' := WithCoord(coords', a.forwardAxis, Coord(coords', a.forwardAxis) + a.forwardDir);
  }

  /** The end of a layer of the top pass: the `break` test, which fires
      exactly after the last layer `TopLayers` counts short of ten, then
      `yPos += dirAxis.upDir; zPos = startingZ`. */
  method NextTopLayer(corner: IVec3, a: DirAxis, w: nat, y: nat, coords: IVec3, startingZ: int) returns (coords': IVec3, stop: bool)
    requires ValidDirAxis(a) && y < TopLayers(corner, a)
    requires coords == PlatformPos(corner, a, 0, w, y) && startingZ == Coord(corner, a.forwardAxis)
    ensures stop ==> y + 1 == TopLayers(corner, a)
    ensures !stop ==> (y + 1 < TopLayers(corner, a) || y + 1 == FreeHeight) && coords' == PlatformPos(corner, a, 0, 0, y + 1)
  {
    TopNextLayer(corner, a, w, y, coords, startingZ);
    coords' := coords;
    stop := Coord(coords, a.upAxis) == 0 && a.upDir < 0;
    if !stop {
      coords' := WithCoord(coords', a.upAxis, Coord(coords', a.upAxis) + a.upDir);
      coords' := WithCoord(coords', a.forwardAxis, startingZ);
    }
  }

  /** What the top pass needs to know of a platform: its corner and axes,
      the rim and inside blocks, how many layers it covers and the side of
      its square. */
  datatype TopPass = TopPass(corner: IVec3, axis: DirAxis, border: BlockIndex, interior: BlockIndex, layers: nat, size: nat)

  /** The start of a bottom layer: `yPos -= dirAxis.upDir`. */
  method NextBottomLayer(corner: IVec3, a: DirAxis, layer: int, coords: IVec3) returns (coords': IVec3)
    requires ValidDirAxis(a) && coords == PlatformPos(corner, a, 0, 0, layer)
    ensures coords' == PlatformPos(corner, a, 0, 0, layer - 1)
  {
    coords' := WithCoord(coords, a.upAxis, Coord(coords, a.upAxis) - a.upDir);
    PlatformPosFromCoords(corner, a, 0, 0, layer - 1, coords');
  }

  /** The end of a bottom layer that goes on: `zPos = startingZ`. */
  method RestartLayer(corner: IVec3, a: DirAxis, w: nat, layer: int, coords: IVec3, startingZ: int) returns (coords': IVec3)
    requires ValidDirAxis(a) && coords == PlatformPos(corner, a, 0, w, layer)
    requires startingZ == Coord(corner, a.forwardAxis)
    ensures coords' == PlatformPos(corner, a, 0, 0, layer)
  {
    coords' := WithCoord(coords, a.forwardAxis, startingZ);
    PlatformPosFromCoords(corner, a, 0, 0, layer, coords');
  }

  /** The bottom pass at layer `y` (counted down from the platform, from 1):
      every third layer rings the rim with planks whatever is there; the
      others only fill the four corners, and only where the voxel is still
      empty. */
  predicate BottomFills(y: nat, x: nat, z: nat, content: BlockIndex) {
    if y % 3 == 0 then OnBorder(x, z)
    else content == EmptyBlockIndex && (x == 0 || x == PlatformSize - 1) && (z == 0 || z == PlatformSize - 1)
  }

  /** The corner pillars go down to the first non-empty voxel and the rings
      cover the whole rim. */
  lemma BottomFillsSpec(y: nat, x: nat, z: nat, content: BlockIndex)
    requires x < PlatformSize && z < PlatformSize
    ensures y % 3 == 0 ==> (BottomFills(y, x, z, content) <==> OnBorder(x, z))
    ensures y % 3 != 0 && content != EmptyBlockIndex ==> !BottomFills(y, x, z, content)
    ensures y % 3 != 0 && content == EmptyBlockIndex ==>
      (BottomFills(y, x, z, content) <==> (x == 0 || x == 14) && (z == 0 || z == 14))
    ensures !OnBorder(x, z) ==> !BottomFills(y, x, z, content)
  {
  }

  /** The right-axis coordinates the bottom pass looks at along one row as
      the source is written: `present(p)` says whether the voxel at `p`
      lies in an existing chunk, and a missing chunk's `continue` skips the
      step to the right. */
  function BottomRowAsWritten(present: int -> bool, p: int, step: int, n: nat): (r: seq<int>)
    ensures |r| == n
    decreases n
  {
    if n == 0 then [] else [p] + BottomRowAsWritten(present, if present(p) then p + step else p, step, n - 1)
  }

  /** The coordinates the row evidently should look at: one step to the
      right per voxel, whether or not its chunk exists. */
  function BottomRow(p: int, step: int, n: nat): (r: seq<int>)
    ensures |r| == n
    decreases n
  {
    if n == 0 then [] else [p] + BottomRow(p + step, step, n - 1)
  }

  /** The intended row visits `p`, `p + step`, ... */
  lemma {:induction false} BottomRowAt(p: int, step: int, n: nat, i: nat)
    requires i < n
    ensures BottomRow(p, step, n)[i] == p + i * step
    decreases n
  {
    if i > 0 {
      BottomRowAt(p + step, step, n - 1, i - 1);
    }
  }

  /** With every chunk present, the row as written is the intended one. */
  lemma {:induction false} BottomRowAllPresent(present: int -> bool, p: int, step: int, n: nat)
    requires forall q :: present(q)
    ensures BottomRowAsWritten(present, p, step, n) == BottomRow(p, step, n)
    decreases n
  {
    if n > 0 {
      BottomRowAllPresent(present, p + step, step, n - 1);
    }
  }

  /** As written, once the row meets a missing chunk it stays on that voxel
      for the rest of the row. */
  lemma {:induction false} BottomRowAsWrittenStuck(present: int -> bool, p: int, step: int, n: nat)
    requires !present(p)
    ensures BottomRowAsWritten(present, p, step, n) == seq(n, _ => p)
    decreases n
  {
    if n > 0 {
      BottomRowAsWrittenStuck(present, p, step, n - 1);
    }
  }

  /** A row whose first voxel lies outside the planet's chunks but whose
      other voxels are inside: as written, the far corner (offset 14, in an
      existing chunk) is never looked at, while the intended row reaches
      it. */
  lemma BottomRowCounterexample()
    ensures var present := (q: int) => q != 0;
      && present(14)
      && BottomRowAsWritten(present, 0, 1, PlatformSize)[PlatformSize - 1] == 0
      && BottomRow(0, 1, PlatformSize)[PlatformSize - 1] == 14
  {
    var present := (q: int) => q != 0;
    BottomRowAsWrittenStuck(present, 0, 1, PlatformSize);
    BottomRowAt(0, 1, PlatformSize, PlatformSize - 1);
  }
}
