/** Shared vocabulary of the voxel core: block indices, directions, vectors,
    the block library lookup and small string helpers. */
module Voxel {

  datatype Option<+T> = None | Some(value: T)

  datatype Result<+T, +E> = Ok(value: T) | Err(error: E)

  /** A block type index. `EmptyBlockIndex` is "no block"; `InvalidBlockIndex`
      is what a failed library lookup returns. */
  type BlockIndex = nat

  const EmptyBlockIndex: BlockIndex := 0
  const InvalidBlockIndex: BlockIndex := 255

  /** Edge length, in voxels, of every planet and ship chunk. */
  const ChunkSize: nat := 32

  /** Unsigned vector (`Nz::Vector3ui`): local voxel coordinates and sizes. */
  datatype UVec3 = UVec3(x: nat, y: nat, z: nat)

  /** Signed vector (`Nz::Vector3i32`): chunk indices and global block indices. */
  datatype IVec3 = IVec3(x: int, y: int, z: int)

  function Cube(n: nat): UVec3 { UVec3(n, n, n) }

  function Volume(size: UVec3): nat { size.x * size.y * size.z }

  predicate InBounds(size: UVec3, c: UVec3) {
    c.x < size.x && c.y < size.y && c.z < size.z
  }

  /** The six axis directions of a voxel face. */
  datatype Direction = Back | Down | Front | Left | Right | Up

  /** Numeric value of a direction, as stored in collider tags. */
  function DirectionIndex(d: Direction): (r: nat)
    ensures r < 6
  {
    match d
    case Back => 0
    case Down => 1
    case Front => 2
    case Left => 3
    case Right => 4
    case Up => 5
  }

  /** Inverse of `DirectionIndex` (`static_cast<Direction>(n)` for n < 6). */
  function DirectionFromIndex(n: nat): (d: Direction)
    requires n < 6
    ensures DirectionIndex(d) == n
  {
    if n == 0 then Back
    else if n == 1 then Down
    else if n == 2 then Front
    else if n == 3 then Left
    else if n == 4 then Right
    else Up
  }

  lemma DirectionIndexInjective(d: Direction)
    ensures DirectionFromIndex(DirectionIndex(d)) == d
  {
  }

  /** `DirectionMask`: a set of directions. */
  type DirectionMask = set<Direction>

  const DirectionMaskAll: DirectionMask := {Back, Down, Front, Left, Right, Up}

  /** `BlockLibrary::GetBlockIndex`: the index registered under a name, or
      `InvalidBlockIndex` when the name is unknown. */
  function GetBlockIndex(library: map<string, BlockIndex>, name: string): (r: BlockIndex)
    ensures name in library ==> r == library[name]
    ensures name !in library ==> r == InvalidBlockIndex
  {
    if name in library then library[name] else InvalidBlockIndex
  }

  /** A library that never registers a name under the reserved indices. */
  predicate ValidLibrary(library: map<string, BlockIndex>) {
    forall name :: name in library ==>
      library[name] != EmptyBlockIndex && library[name] != InvalidBlockIndex
  }

  /** Smallest and largest values of the source's fixed-width integers. */
  const Int32Min: int := -0x8000_0000
  const Int32Max: int := 0x7FFF_FFFF
  const UInt32Max: int := 0xFFFF_FFFF
  const Int64Max: int := 0x7FFF_FFFF_FFFF_FFFF

  /** `static_cast<std::uint32_t>(v)` of a signed value. */
  function ToUInt32(v: int): (r: nat)
    ensures r <= UInt32Max
    ensures 0 <= v <= UInt32Max ==> r == v
  {
    v % 0x1_0000_0000
  }
}
