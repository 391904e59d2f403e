# ThisSpaceOfMine voxel core, modelled in Dafny

ThisSpaceOfMine is a multiplayer voxel space game. This project models the integer and structural core of its engine and its server:

- **Chunk storage** (`voxel.dfy`, `chunk.dfy`): a chunk is a box of block indices stored in x-fastest linear order, with a collision mask and a per-type block count. The model covers linear index arithmetic and its inverse, `Reset` and `Reset(func)`, and the content preconditions.
- **Meshing** (`mesh.dfy`): `Chunk::BuildMesh` scans a chunk in z, y, x order. It emits a face for each solid voxel side whose neighbour is absent or empty: four vertices per face and six indices in the fixed quad pattern. The face callback modelled is the collider's, which takes no texture coordinates; the coordinates a face gets on a textured mesh are stated on their own.
- **Deformed chunk colliders** (`deformed_chunk.dfy`): every triangle is tagged with `localIndex * 6 + direction`. A ray hit decodes the tag back into the voxel and face.
- **Planets** (`planet.dfy`, `terrain.dfy`, `platform.dfy`): the chunk map with its add and remove notifications and the block-update neighbour mask. Also covered:
  - the `GenerateChunks` grid around the origin;
  - the terrain fill of `GenerateChunk`, with its depth pass and column carve;
  - the spawn platform of `GeneratePlatform`, with its top pass and plank bottom pass.
- **Ships** (`ship.dfy`): the ship chunk map, its own neighbour mask (z reversed against planets), the hull collider composed from chunk colliders, position-independent gravity, and the procedural hull with its forcefield door.
- **Server environments** (`server_environment.dfy`): the directed connection table, the registered-player bitset, the migration of rooted players on connect and disconnect, and the destructor's teardown order.
- **Sessions** (`initial_session.dfy`, `player_session.dfy`, `decimal.dfy`): the decision chain of an authentication request and the permission flags. Also covered:
  - the reaction to a packet that fails to deserialize;
  - the mine and place checks and handlers;
  - the dispatch of chat commands, including `/spawnship` slot parsing.
- **Configuration** (`config_file.dfy`, `game_config.dfy`): dotted option names split into sections, registration, bounded and validated setters with change-only notification, and the Lua-like text `SaveSectionToFile` writes. Also covered are the game client's registrations with their defaults and validators.
- **Chat box** (`chatbox.dfy`): the bounded list of timed entries, the history text it shows, and the time of the next expiry.
- **Version strings** (`version.dfy`): development-branch detection and the version and build strings.

Operations that change state in the source are methods on classes (`Chunk`, `Planet`, `Ship`, `ServerEnvironment`, `ConfigFile`, `Chatbox`). The ones that compute a new state are proved against specification functions, and the properties are proved about those functions. The simplest, such as raising a flag, appending a message or clearing a list, state their new state directly. Pure rules are functions with lemmas.

## Model

| member | source | states |
|---|---|---|
| Voxel.DirectionFromIndex | src/CommonLib/DeformedChunk.cpp:67 | `static_cast<Direction>(n)` for n < 6 is the inverse of the numeric value of a direction |
| Voxel.DirectionIndexInjective | src/CommonLib/DeformedChunk.cpp:36-67 | a direction survives the round trip through its numeric value |
| Chunks.LocalIndexBound | include/CommonLib/Chunk.inl:25-32 | the linear index of an in-bounds voxel is below the voxel count |
| Chunks.LocalIndicesOfLocalIndex | include/CommonLib/Chunk.inl:25-42 | `GetBlockLocalIndices(GetBlockLocalIndex(c)) == c` for every in-bounds voxel |
| Chunks.LocalIndexOfLocalIndices | include/CommonLib/Chunk.inl:25-42 | below the voxel count, `GetBlockLocalIndices(i)` is in bounds and maps back to `i` |
| Chunks.ScanAt | src/CommonLib/Chunk.cpp:65-71 | at voxel (x, y, z) the z, y, x scan has visited exactly `LocalIndex` voxels, and one more after it |
| Chunks.RowEnd | src/CommonLib/Chunk.cpp:67-69 | the end of an x row of the scan is the start of the next row, within the grid |
| Chunks.LayerEnd | src/CommonLib/Chunk.cpp:65-67 | the end of a y layer of the scan is the start of the next layer, within the grid |
| Chunks.ToUInt16 | include/CommonLib/Chunk.hpp:121 | a histogram slot keeps its value modulo 2^16, unchanged below 2^16 |
| Chunks.ChunkSizeCountFits | include/CommonLib/Chunk.inl:111 | for 32-wide chunks the empty-slot count 32768 fits the 16-bit slot exactly |
| Chunks.Resize | include/CommonLib/Chunk.inl:110 | `vector::resize(n, fill)`: length n, old entries kept, new ones filled |
| Chunks.Chunk.constructor | include/CommonLib/Chunk.inl:9-17 | a new chunk has no content, no collision bits and per-face collision off |
| Chunks.Chunk.GetBlockCount | include/CommonLib/Chunk.inl:55-59 | once reset, the block count is the (non-zero) voxel count of the grid |
| Chunks.Chunk.GetBlockContent | include/CommonLib/Chunk.inl:44-53 | the content of an in-bounds voxel is read at its linear index, which is inside the block array |
| Chunks.Chunk.GetCollisionCellMask | include/CommonLib/Chunk.inl:19-23 | the collision mask has one bit per voxel |
| Chunks.Chunk.Reset | include/CommonLib/Chunk.inl:102-112 | every voxel empty, every collision bit clear, the histogram cut to one slot counting every voxel, no notification |
| Chunks.Chunk.PrepareContent | include/CommonLib/Chunk.inl:117-124 | a chunk without content gets an all-empty grid and bookkeeping; one with content is untouched |
| Chunks.Chunk.FinishReset | include/CommonLib/Chunk.inl:126-127 | the callback's output becomes the content and one `OnChunkReset` is raised |
| Chunks.Chunk.ResetWith | include/CommonLib/Chunk.inl:114-128 | the callback sees the existing content, or an all-empty grid when there was none; its output becomes the content; without earlier content the collision mask is all clear and the histogram has one slot, the empty one, counting every voxel; with it, both are kept |
| Chunks.Chunk.SetPerFaceCollision | include/CommonLib/Chunk.inl:150-153 | the per-face collision flag is raised |
| Chunks.Chunk.UpdateBlock | include/CommonLib/Chunk.hpp:91-96 | one voxel takes the new type, the other voxels, the per-face flag and the reset count stay, and `OnBlockUpdated` is raised with its coordinates |
| Mesh.DirectionOffset | src/CommonLib/Chunk.cpp:79-101 | each face asks about a neighbour at distance one along one axis |
| Mesh.OppositeOffsets | src/CommonLib/Chunk.cpp:79-101 | opposite faces ask about opposite neighbours |
| Mesh.FaceCorners | src/CommonLib/Chunk.cpp:80-101 | the four corners of each face are distinct and lie on that face's side of the box |
| Mesh.FaceCornersDiagonals | src/CommonLib/Chunk.cpp:56-101 | the two triangles of every face share a diagonal of the face (corners 1 and 2) |
| Mesh.FaceCornersEdges | src/CommonLib/Chunk.cpp:56-101 | the other sides of the two triangles are edges of the voxel box |
| Mesh.QuadIndices | src/CommonLib/Chunk.cpp:56-62 | six indices, all among the face's four vertices |
| Mesh.QuadTriangles | src/CommonLib/Chunk.cpp:56-62 | the two triangles are (f, f+2, f+1) and (f+1, f+2, f+3), covering all four vertices |
| Mesh.FaceUvs | src/CommonLib/Chunk.cpp:48-53 | the texture coordinates of a face on a mesh with UVs: four distinct unit-square corners, all on the face's texture slice |
| Mesh.Cells | include/CommonLib/Chunk.inl:34-42 | the voxels in linear-index order, one per voxel, all in bounds |
| Mesh.CellsAt | include/CommonLib/Chunk.inl:25-42 | each voxel sits at its own linear index in that order |
| Mesh.MeshIndices | src/CommonLib/Chunk.cpp:56-62 | six indices per face |
| Mesh.MeshPositions | src/CommonLib/Chunk.cpp:20-24 | four positions per face |
| Mesh.MeshTags | src/CommonLib/DeformedChunk.cpp:36-38 | two tags per face, one per triangle |
| Mesh.CornerPositions | src/CommonLib/Chunk.cpp:23-24 | the written positions are the given corners of the voxel, in order |
| Mesh.MeshIndicesAppend | src/CommonLib/Chunk.cpp:56-62 | the indices of two face lists concatenate, the second offset by four vertices per face of the first |
| Mesh.MeshPositionsAppend | src/CommonLib/Chunk.cpp:20-24 | the positions of two face lists concatenate |
| Mesh.MeshTagsAppend | src/CommonLib/DeformedChunk.cpp:36-38 | the tags of two face lists concatenate |
| Mesh.MeshIndicesInRange | src/CommonLib/Chunk.cpp:56-62 | every index refers to a vertex allocated for one of the faces |
| Mesh.TestFacesSpec | src/CommonLib/Chunk.cpp:79-101 | a voxel's tests produce exactly the faces whose neighbour is absent or empty |
| Mesh.VoxelFacesSpec | src/CommonLib/Chunk.cpp:71-101 | an empty voxel has no face; another has exactly its exposed faces |
| Mesh.FacesOfSpec | src/CommonLib/Chunk.cpp:65-104 | the faces of the first k voxels are those of a non-empty voxel among them with an exposed neighbour |
| Mesh.FacesOfInBounds | src/CommonLib/Chunk.cpp:65-104 | every emitted face belongs to an in-bounds voxel |
| Mesh.ExposedFacesSpec | src/CommonLib/Chunk.cpp:65-104 | a face is emitted iff its voxel is in bounds, not empty, and its neighbour on that side is absent or empty |
| Mesh.VoxelFacesInOrder | src/CommonLib/Chunk.cpp:79-101 | a non-empty voxel's faces come in the order Up, Down, Front, Back, Left, Right |
| Mesh.FaceSink.constructor | src/CommonLib/DeformedChunk.cpp:24-26 | the collider's vertex and userdata lists start empty |
| Mesh.FaceSink.AddFace | src/CommonLib/DeformedChunk.cpp:28-41 | four vertex slots after the current count (returned as the first index), and the face's tag pushed twice |
| Mesh.FaceSink.WritePositions | src/CommonLib/Chunk.cpp:23-24 | the four slots of a face take the given positions, the rest is unchanged |
| Mesh.DrawFace | src/CommonLib/Chunk.cpp:18-63 | the face's corners appended to the vertices, its tag twice to the userdata, its two triangles to the indices |
| Mesh.DrawIfExposed | src/CommonLib/Chunk.cpp:79-101 | one neighbour test: the face is drawn iff it is exposed |
| Mesh.DrawThree | src/CommonLib/Chunk.cpp:79-101 | three consecutive neighbour tests extend the output by their faces in order |
| Mesh.DrawVoxel | src/CommonLib/Chunk.cpp:71-101 | the six tests of a non-empty voxel extend vertices, tags and indices by exactly that voxel's faces |
| Mesh.BuildMesh | src/CommonLib/Chunk.cpp:16-105 | vertices, tags and indices grow by exactly the exposed faces of the chunk, in scan order |
| Mesh.ScanLayer | src/CommonLib/Chunk.cpp:67-103 | one y layer of the scan covers that layer's voxels |
| Mesh.ScanRow | src/CommonLib/Chunk.cpp:69-102 | one x row of the scan covers that row's voxels |
| Mesh.ScanStep | src/CommonLib/Chunk.cpp:69-102 | one voxel of the scan advances the covered prefix by one |
| Mesh.ScanVoxel | src/CommonLib/Chunk.cpp:71-101 | an empty voxel is skipped, another adds exactly its faces |
| DeformedChunks.DecodeTag | src/CommonLib/DeformedChunk.cpp:66-69 | the face is the tag modulo six, the voxel `GetBlockLocalIndices` of the quotient |
| DeformedChunks.DecodeTriangleTag | src/CommonLib/DeformedChunk.cpp:36-69 | decoding the tag of an in-bounds face gives back that face |
| DeformedChunks.TriangleTagInjective | src/CommonLib/DeformedChunk.cpp:36 | two faces with the same tag are the same face |
| DeformedChunks.ComputeHitCoordinates | src/CommonLib/DeformedChunk.cpp:57-70 | no hit without a sub-collider; otherwise the decoded tag of the hit triangle |
| DeformedChunks.MeshTagsAt | src/CommonLib/DeformedChunk.cpp:36-38 | the tag of triangle t is that of face t / 2 |
| DeformedChunks.MeshIndicesAt | src/CommonLib/Chunk.cpp:56-62 | the six indices of face j / 6 point into that face's four vertices |
| DeformedChunks.BuildCollider | src/CommonLib/DeformedChunk.cpp:22-55 | no collider iff no face is exposed; otherwise indices, vertices and userdata are those of the exposed faces, three indices per tag |
| DeformedChunks.HitOnBuiltCollider | src/CommonLib/DeformedChunk.cpp:22-70 | a hit on triangle t of the built collider reports the voxel and face that triangle was drawn for |
| DeformedChunks.DeformPositions | src/CommonLib/DeformedChunk.cpp:103-109 | the first `positionCount` positions are deformed, the others untouched, and the result is true |
| Platforms.WithCoord | src/CommonLib/Planet.cpp:432-437 | assigning `coordinates[axis]` changes that component and no other |
| Platforms.TruncDiv | src/CommonLib/Planet.cpp:433-438 | C++ integer division, truncating toward zero for negative operands |
| Platforms.PlatformCorner | src/CommonLib/Planet.cpp:430-438 | the scan starts 7 voxels back along the right and forward directions, at the centre's height |
| Platforms.PlatformPos | src/CommonLib/Planet.cpp:443-477 | the voxel x steps right, z steps forward and `layer` steps up from the corner |
| Platforms.PlatformPosFromCoords | src/CommonLib/Planet.cpp:443-477 | a vector with those three components is that platform voxel |
| Platforms.StepRight | src/CommonLib/Planet.cpp:465 | `xPos += rightDir` moves to the next voxel of the row |
| Platforms.StepForward | src/CommonLib/Planet.cpp:468-469 | `xPos = startingX; zPos += forwardDir` moves to the start of the next row |
| Platforms.StepLayer | src/CommonLib/Planet.cpp:475-476 | `yPos += step; zPos = startingZ` moves to the start of the next layer |
| Platforms.PlatformPosInjective | src/CommonLib/Planet.cpp:443-477 | distinct steps reach distinct voxels |
| Platforms.TopLayers | src/CommonLib/Planet.cpp:444-473 | the top pass handles between one and ten layers |
| Platforms.TopLayersFirstStop | src/CommonLib/Planet.cpp:472-473 | that count is where the `break` first fires, or ten when it never does |
| Platforms.TopNextLayer | src/CommonLib/Planet.cpp:472-476 | the `break` fires exactly after the last counted layer; otherwise the scan moves to the next layer's start |
| Platforms.NextVoxel | src/CommonLib/Planet.cpp:465 | the coordinates after one voxel of a row |
| Platforms.NextRow | src/CommonLib/Planet.cpp:468-469 | the coordinates after one row |
| Platforms.NextTopLayer | src/CommonLib/Planet.cpp:472-476 | stop iff the layer was the last one counted; otherwise the next layer's start |
| Platforms.NextBottomLayer | src/CommonLib/Planet.cpp:485 | `yPos -= upDir` moves one layer down |
| Platforms.RestartLayer | src/CommonLib/Planet.cpp:529 | `zPos = startingZ` goes back to the layer's first row |
| Platforms.BottomFillsSpec | src/CommonLib/Planet.cpp:503-516 | every third layer rings the whole rim; the others fill only the four corners, only where the voxel is empty, and nothing inside the rim |
| Platforms.BottomRowAsWritten | src/CommonLib/Planet.cpp:493-501 | as written: the row's right coordinate only advances when the voxel's chunk exists |
| Platforms.BottomRow | src/CommonLib/Planet.cpp:493-501 | as intended: one step right per voxel |
| Platforms.BottomRowAt | src/CommonLib/Planet.cpp:493-501 | the intended row visits p, p + step, p + 2 step, ... |
| Platforms.BottomRowAllPresent | src/CommonLib/Planet.cpp:493-501 | with every chunk present, the row as written is the intended one |
| Platforms.BottomRowAsWrittenStuck | src/CommonLib/Planet.cpp:497-501 | as written, after a missing chunk the row stays on that voxel |
| Platforms.BottomRowCounterexample | src/CommonLib/Planet.cpp:497-501 | a row whose first voxel has no chunk never reaches its far end as written, and does as intended |
| Planets.PlanetNeighborMaskSpec | src/CommonLib/Planet.cpp:56-77 | a block update reports Left/Right, Front/Back, Down/Up exactly when the voxel lies on that face of the chunk (Left before Right when the chunk is one voxel wide) |
| Planets.PlanetInteriorMask | src/CommonLib/Planet.cpp:56-77 | an update strictly inside the chunk reports no direction |
| Planets.ChunkContext | src/CommonLib/Planet.cpp:179-196 | a chunk's fill uses the library's palette, the height bound of the grid, the chunk's own seed and its indices |
| Planets.EmptyGrid | src/CommonLib/Planet.cpp:179-183 | a chunk that was never reset holds `ChunkSize`³ empty blocks |
| Planets.GridKeysNext | src/CommonLib/Planet.cpp:404-422 | each step of the grid loop adds exactly the next key |
| Planets.GridKeyAtInjective | src/CommonLib/Planet.cpp:412 | distinct steps of the grid loop add distinct keys |
| Planets.GridKeyAtCell | src/CommonLib/Planet.cpp:406-412 | cell `c` of the grid is added at step `x + y·cx + z·cx·cy` under key `c - count/2` |
| Planets.GridKeysCount | src/CommonLib/Planet.cpp:404-422 | the first `n` steps add `n` distinct chunks |
| Planets.GridKeysMembers | src/CommonLib/Planet.cpp:412 | a key is added exactly when it is `c - count/2` for a cell `c` of the grid |
| Planets.GenEvents | src/CommonLib/Planet.cpp:404-422 | two notifications per chunk |
| Planets.GenEventsAt | src/CommonLib/Planet.cpp:79-84 | chunk `i` is announced at position `2i` and reported updated on every side right after |
| Planets.ContentsAfterKeys | src/CommonLib/Planet.cpp:404-422 | after `k` steps the planet holds the earlier chunks plus the first `k` grid keys |
| Planets.ContentsAfterAt | src/CommonLib/Planet.cpp:404-422 | after `k` steps each of the first `k` grid chunks holds its generated content |
| Planets.GenKeyFresh | src/CommonLib/Planet.cpp:25 | the next grid key is not yet in the planet, as `AddChunk` asserts |
| Planets.GenStepEvents | src/CommonLib/Planet.cpp:412-417 | one more step appends its chunk's two notifications |
| Planets.GenStep | src/CommonLib/Planet.cpp:412-417 | adding and generating the next grid chunk extends the progress invariant by one step |
| Planets.GenSpecDone | src/CommonLib/Planet.cpp:404-422 | after the whole grid, the keys are the old keys plus exactly `cx·cy·cz` new ones, each holding its generated content |
| Planets.GridChunkContent | src/CommonLib/Planet.cpp:179-402 | a generated chunk holds `ChunkSize`³ blocks |
| Planets.ApplyWrite | src/CommonLib/Planet.cpp:519 | writing one platform voxel keeps the chunk keys and every chunk's size, and does nothing when the chunk is missing |
| Planets.PlatformTop | src/CommonLib/Planet.cpp:424-444 | the top pass works on a 15-wide square from the corner, with the layer count fixed by the centre |
| Planets.PlatformBottom | src/CommonLib/Planet.cpp:479-486 | the bottom pass starts from the same corner and axes, 15 voxels wide |
| Planets.LocalIndexInjective | include/CommonLib/Chunk.inl:102-112 | distinct voxels of a planet chunk have distinct linear indices |
| Planets.ApplyWriteBlock | src/CommonLib/Planet.cpp:519 | one write changes the aimed voxel and no other voxel of any chunk |
| Planets.PlatformPosApart | src/CommonLib/Planet.cpp:443-530 | distinct cells of the platform box are distinct voxels |
| Planets.TopRowElsewhere | src/CommonLib/Planet.cpp:450-466 | a voxel a top row does not reach keeps its block |
| Planets.TopLayerElsewhere | src/CommonLib/Planet.cpp:446-470 | a voxel a top layer does not reach keeps its block |
| Planets.TopAfterElsewhere | src/CommonLib/Planet.cpp:443-477 | a voxel the top pass does not reach keeps its block |
| Planets.TopRowAt | src/CommonLib/Planet.cpp:450-466 | after a top row, each voxel of it holds the block its cell calls for (copper border, stone interior on the first layer, empty above) |
| Planets.TopLayerAt | src/CommonLib/Planet.cpp:446-470 | after a top layer, each voxel of it holds the block its cell calls for |
| Planets.TopAfterAt | src/CommonLib/Planet.cpp:443-477 | after the top pass, each voxel of the box holds the block its cell and layer call for |
| Planets.ApplyWriteContent | src/CommonLib/Planet.cpp:494-520 | a read after a write sees the written block at that voxel and the old block elsewhere |
| Planets.ApplyWriteFilled | src/CommonLib/Planet.cpp:519 | a write keeps every chunk's content allocated |
| Planets.BottomRowQuiet | src/CommonLib/Planet.cpp:492-521 | a bottom row that writes nothing leaves the planet unchanged, and the written flag never drops |
| Planets.BottomLayerQuiet | src/CommonLib/Planet.cpp:485-525 | a bottom layer that writes nothing leaves the planet unchanged |
| Planets.BottomPosDistinct | src/CommonLib/Planet.cpp:481-525 | distinct cells of a bottom layer are distinct voxels |
| Planets.BottomRowElsewhere | src/CommonLib/Planet.cpp:492-521 | a cell of the layer the row has not visited keeps its block |
| Planets.BottomLayerElsewhere | src/CommonLib/Planet.cpp:485-525 | a cell in a later row of the layer keeps its block |
| Planets.RowReach | src/CommonLib/Planet.cpp:493-501 | how far a bottom row gets: never past its end |
| Planets.RowReachFirstMissing | src/CommonLib/Planet.cpp:493-501 | every voxel before the row's reach lies in a chunk, and the voxel at the reach, when inside the row, lies in none |
| Planets.RowReachTurn | src/CommonLib/Planet.cpp:496-501 | at each turn of the row, a voxel in a chunk means the row is still moving and a voxel in none means it has stopped at its reach |
| Planets.RowReachAllPresent | src/CommonLib/Planet.cpp:493-501 | when every voxel of the row lies in a chunk, the row reaches its end, as the intended row does |
| Planets.BottomRowAt | src/CommonLib/Planet.cpp:492-521 | after the first n visits of a bottom row, each visited voxel holds the block the fill rule gives its old content |
| Planets.BottomLayerAt | src/CommonLib/Planet.cpp:485-525 | after a bottom layer, each voxel its row reaches holds the block the fill rule gives its old content |
| Planets.BottomLayerUnreached | src/CommonLib/Planet.cpp:490-524 | after a bottom layer, each voxel at or beyond its row's reach keeps its old content, even where the fill rule would put planks |
| Planets.BottomAfterEnough | src/CommonLib/Planet.cpp:479-530 | once the bottom pass stops by itself, a larger layer bound gives the same result |
| Planets.Planet.constructor | src/CommonLib/Planet.cpp:16-21 | a new planet has no chunk and has raised no notification |
| Planets.Planet.AddChunk | src/CommonLib/Planet.cpp:23-87 | the new chunk goes under its key, flat or deformed, is announced, and when a fill is given is reset with it and reported on every side |
| Planets.Planet.RemoveChunk | src/CommonLib/Planet.cpp:533-540 | the removal is announced, then exactly that key is erased |
| Planets.Planet.UpdateChunkBlock | src/CommonLib/Planet.cpp:56-77 | one voxel of one chunk changes, the chunk's flag, reset count and earlier updates stay, and the update is reported with the voxel's face mask |
| Planets.Planet.GenerateChunk | src/CommonLib/Planet.cpp:179-402 | the chunk becomes the terrain fill of its previous (or empty) content and is reported on every side |
| Planets.Planet.GenerateChunks | src/CommonLib/Planet.cpp:404-422 | one new chunk per grid cell under `c - count/2`, of the right kind and with its generated content; the other chunks untouched; two notifications per chunk in scan order |
| Planets.Planet.GenerateLayer | src/CommonLib/Planet.cpp:406-420 | one z layer of the grid keeps the progress invariant |
| Planets.Planet.GenerateRow | src/CommonLib/Planet.cpp:408-419 | one y row of the grid keeps the progress invariant |
| Planets.Planet.GenerateCell | src/CommonLib/Planet.cpp:410-418 | one grid cell keeps the progress invariant |
| Planets.Planet.AddAndGenerate | src/CommonLib/Planet.cpp:412-416 | the grid chunk is added under a fresh key and holds its generated content |
| Planets.Planet.View | src/CommonLib/Planet.cpp:79 | the planet's chunks and notifications as a value |
| Planets.Planet.PlaceBlock | src/CommonLib/Planet.cpp:460-463 | a platform write goes to the chunk that holds the voxel, and is skipped when that chunk is missing |
| Planets.Planet.WriteVoxel | src/CommonLib/Planet.cpp:519 | `UpdateBlock` on the chunk holding the voxel |
| Planets.Planet.PlatformTopCell | src/CommonLib/Planet.cpp:452-463 | one cell of the top pass, as the top-cell rule says |
| Planets.Planet.PlatformTopVoxel | src/CommonLib/Planet.cpp:452-465 | one cell, then one step right |
| Planets.Planet.PlatformTopVoxels | src/CommonLib/Planet.cpp:450-466 | fifteen cells of a row, ending one platform width to the right |
| Planets.Planet.PlatformTopRow | src/CommonLib/Planet.cpp:449-469 | one row of the top pass, then back to the row start and one step forward |
| Planets.Planet.PlatformTopLayer | src/CommonLib/Planet.cpp:446-470 | fifteen rows of one top layer |
| Planets.Planet.PlatformTopStep | src/CommonLib/Planet.cpp:446-476 | one layer of the top pass, then a step up unless the layer count is reached |
| Planets.Planet.PlatformTopPass | src/CommonLib/Planet.cpp:443-477 | the whole top pass has the effect `TopAfter` describes |
| Planets.Planet.PlatformBottomCell | src/CommonLib/Planet.cpp:501-519 | a visit of a voxel whose chunk exists: the step right, then the fill rule applied and a written block noted |
| Planets.Planet.PlatformBottomFill | src/CommonLib/Planet.cpp:503-519 | the fill rule applied to a voxel whose chunk exists, and a written block noted |
| Planets.Planet.PlatformBottomTurn | src/CommonLib/Planet.cpp:494-520 | one turn of a bottom row: a voxel in no chunk is skipped without stepping right, otherwise the cell is visited and the row moves on |
| Planets.Planet.PlatformBottomVoxels | src/CommonLib/Planet.cpp:492-521 | the fifteen turns of a row visit its cells up to the row's reach and leave the coordinates there |
| Planets.Planet.PlatformBottomRow | src/CommonLib/Planet.cpp:491-524 | one bottom row as written, then back to the row start and one step forward |
| Planets.Planet.PlatformBottomLayer | src/CommonLib/Planet.cpp:485-525 | one bottom layer and whether it met an empty block |
| Planets.Planet.PlatformBottomStep | src/CommonLib/Planet.cpp:483-525 | one step down, then one bottom layer |
| Planets.Planet.PlatformBottomNext | src/CommonLib/Planet.cpp:483-530 | one turn of the layer loop: the layer, then the stop when nothing was written, or the move back to the next layer's start |
| Planets.Planet.PlatformBottomPass | src/CommonLib/Planet.cpp:479-530 | layers below the platform until one meets no empty block, with the effect `BottomAfter` describes |
| Planets.Planet.GeneratePlatform | src/CommonLib/Planet.cpp:424-531 | the top pass from the corner, then the bottom pass from the same corner |
| Planets.Planet.BuildPlatform | src/CommonLib/Planet.cpp:443-530 | the two passes run one after the other on the same planet |
| Terrain.GenVolumeIsVolume | src/CommonLib/Planet.cpp:205-247 | the fill buffer holds `ChunkSize`³ = 32768 blocks |
| Terrain.PaletteOf | src/CommonLib/Planet.cpp:189-193 | the generator looks up dirt, grass, stone, stone_mossy and snow by name |
| Terrain.PaletteOfValid | src/CommonLib/Planet.cpp:189-193 | with those five names registered, no lookup gives the invalid block |
| Terrain.MaxHeight | src/CommonLib/Planet.cpp:195-196 | the height bound is `(count + 1) / 2` chunks per axis, a non-negative multiple of 32 voxels |
| Terrain.ChunkSeed | src/CommonLib/Planet.cpp:184 | the chunk seed is the seed plus the three indices, wrapped to 32 bits |
| Terrain.Min3 | src/CommonLib/Planet.cpp:210-214 | `std::min` of three values is one of them and below all three |
| Terrain.DepthBlockSpec | src/CommonLib/Planet.cpp:210-243 | empty above `freeSpace` depth or near the axis, then snow to depth 6, dirt to 18, and a random stone draw below, which is the only case that consumes a draw |
| Terrain.DepthBlockValid | src/CommonLib/Planet.cpp:220-243 | with a valid palette the depth pass never yields the invalid block, so it never skips a voxel |
| Terrain.DepthRun | src/CommonLib/Planet.cpp:205-247 | after `k` voxels at most `k` writes and `k` draws |
| Terrain.DepthFill | src/CommonLib/Planet.cpp:205-247 | the buffer after the depth pass keeps its size |
| Terrain.DepthRunLength | src/CommonLib/Planet.cpp:220-243 | with a valid palette the write position advances once per voxel |
| Terrain.DepthRunAt | src/CommonLib/Planet.cpp:205-247 | with a valid palette write `i` is voxel `i`'s own classification |
| Terrain.DepthFillComplete | src/CommonLib/Planet.cpp:205-247 | whatever the buffer held, voxel `i` ends holding its own classification |
| Terrain.DepthPass | src/CommonLib/Planet.cpp:205-247 | the depth loop leaves the buffer equal to `DepthFill` of its old content, with the draws `DepthRun` counts |
| Terrain.DepthLayer | src/CommonLib/Planet.cpp:207-246 | one z layer of the depth loop keeps its invariant |
| Terrain.DepthRow | src/CommonLib/Planet.cpp:209-245 | one y row of the depth loop keeps its invariant |
| Terrain.DepthVoxel | src/CommonLib/Planet.cpp:211-244 | one voxel of the depth loop keeps its invariant |
| Terrain.DepthClassify | src/CommonLib/Planet.cpp:217-241 | the block and draw the loop body computes for a voxel are exactly `DepthBlock`'s classification |
| Terrain.CarveVoxel | src/CommonLib/Planet.cpp:252-400 | every (column, height) of a carve pass is a voxel of the chunk |
| Terrain.ColumnOf | src/CommonLib/Planet.cpp:252-400 | every voxel of the chunk belongs to one column of each pass, at one height |
| Terrain.ColumnOfCarveVoxel | src/CommonLib/Planet.cpp:252-400 | columns and heights of a pass are in one-to-one correspondence with voxels |
| Terrain.ColumnStart | src/CommonLib/Planet.cpp:259-268 | a column's surface start, when there is one, lies inside the chunk |
| Terrain.CarveFill | src/CommonLib/Planet.cpp:252-275 | a carve pass keeps the buffer's size |
| Terrain.CarveFillColumn | src/CommonLib/Planet.cpp:252-275 | below the surface start a voxel is kept, at the start dirt becomes grass, above it the voxel is emptied; a column without start is kept |
| Terrain.StageSkip | src/CommonLib/Planet.cpp:263-268 | a column without a surface start is left alone |
| Terrain.StageTop | src/CommonLib/Planet.cpp:270-271 | the surface voxel turns from dirt to grass |
| Terrain.StageClear | src/CommonLib/Planet.cpp:273-274 | a voxel above the surface start is emptied |
| Terrain.CellIndexUnique | include/CommonLib/Chunk.inl:102-112 | a linear index names exactly one voxel |
| Terrain.CarvePass | src/CommonLib/Planet.cpp:252-275 | the carve loops leave the buffer equal to `CarveFill` of its old content |
| Terrain.CarveColumn | src/CommonLib/Planet.cpp:256-274 | one column of a carve pass keeps the pass invariant |
| Terrain.CarveAbove | src/CommonLib/Planet.cpp:270-274 | the grass step and the emptying loop of one column carry the pass invariant to the next column |
| Terrain.CarveClear | src/CommonLib/Planet.cpp:273-274 | the emptying loop takes the column from just above its surface start to its top |
| Terrain.GeneratedContent | src/CommonLib/Planet.cpp:203-401 | the depth pass then six carve passes keep the buffer's size |
| Terrain.Fill | src/CommonLib/Planet.cpp:203-401 | the fill lambda leaves the buffer equal to `GeneratedContent` of its old content |
| Ships.ShipNeighborMaskSpec | src/CommonLib/Ship.cpp:33-52 | a block update reports Left/Right and Front/Back on the x and y faces, but Up on the z = 0 face and Down on the top face |
| Ships.FlipVertical | src/CommonLib/Ship.cpp:46-49 | Up and Down exchanged, every other direction kept |
| Ships.ShipMaskIsFlippedPlanetMask | src/CommonLib/Ship.cpp:33-52 | the ship's mask is the planet's mask with Up and Down exchanged |
| Ships.ShipPlanetBottomFace | src/CommonLib/Ship.cpp:46-47 | on the z = 0 face the ship reports Up where the planet reports Down |
| Ships.ShipInteriorMask | src/CommonLib/Ship.cpp:33-52 | an update strictly inside the chunk reports no direction |
| Ships.Apply | include/CommonLib/Chunk.hpp:91-96 | a sequence of `UpdateBlock` calls keeps the block array's size |
| Ships.ApplyAppend | include/CommonLib/Chunk.hpp:91-96 | two batches of writes are their concatenation |
| Ships.ApplyAt | include/CommonLib/Chunk.hpp:91-96 | each voxel holds the type of its last write, or its old type |
| Ships.LastWriteAppend | include/CommonLib/Chunk.hpp:91-96 | the last write over two batches is the second batch's when it has one |
| Ships.Notify | src/CommonLib/Ship.cpp:33-52 | one notification per block update |
| Ships.NotifyAt | src/CommonLib/Ship.cpp:33-52 | the `i`-th notification carries the ship mask of the `i`-th write's voxel |
| Ships.NotifyAppend | src/CommonLib/Ship.cpp:33-52 | the notifications of two batches are concatenated |
| Ships.TracedNothing | src/CommonLib/Ship.cpp:129-146 | no write leaves the chunk and the notifications as they were |
| Ships.TracedStep | src/CommonLib/Ship.cpp:141-143 | one more write sets one voxel, logs one update and raises one notification |
| Ships.TracedCompose | src/CommonLib/Ship.cpp:129-146 | two batches of writes compose |
| Ships.HullOf | src/CommonLib/Ship.cpp:122-124 | a 6×6×4 box for a small ship and 12×12×6 otherwise, centred in the chunk, at least 10 voxels from every face |
| Ships.RowWritesInside | src/CommonLib/Ship.cpp:133-144 | every voxel a row writes is in that row of the box, away from the chunk's faces |
| Ships.LayerWritesInside | src/CommonLib/Ship.cpp:131-145 | every voxel a layer writes is away from the chunk's faces |
| Ships.HullWritesInside | src/CommonLib/Ship.cpp:129-146 | every voxel the box writes is away from the chunk's faces |
| Ships.RowLastWrite | src/CommonLib/Ship.cpp:133-144 | the last write a row makes to a voxel is its shell block, when it is a shell voxel of that row |
| Ships.LayerLastWrite | src/CommonLib/Ship.cpp:131-145 | the same for a layer |
| Ships.HullLastWrite | src/CommonLib/Ship.cpp:129-146 | the same for the whole box |
| Ships.HullContent | src/CommonLib/Ship.cpp:127-146 | over an empty chunk the box leaves the shell block on its shell and empty everywhere else |
| Ships.InteriorUntouched | src/CommonLib/Ship.cpp:135-138 | no interior cell of the box is written |
| Ships.HullOfInside | src/CommonLib/Ship.cpp:122-124 | both box sizes fit strictly inside a ship chunk |
| Ships.ChildColliders | src/CommonLib/Ship.cpp:65-75 | one child per chunk that builds a collider, in visiting order, and only those |
| Ships.HullColliderOf | src/CommonLib/Ship.cpp:61-89 | null without chunks; the single chunk's own collider with one chunk; otherwise a compound of the children, null when no chunk builds one |
| Ships.Ship.constructor | src/CommonLib/Ship.cpp:13-17 | no chunks, up direction `Vector3f::Up()` |
| Ships.Ship.AddChunk | src/CommonLib/Ship.cpp:19-59 | a new flat chunk under its key, filled before the reset slot is connected so only its addition is announced |
| Ships.Ship.RemoveChunk | src/CommonLib/Ship.cpp:151-158 | the removal is announced, then exactly that key is erased |
| Ships.Ship.UpdateChunkBlock | src/CommonLib/Ship.cpp:33-52 | one voxel changes and the update is reported with the ship mask |
| Ships.Ship.ComputeGravity | src/CommonLib/Ship.cpp:91-98 | gravity is the unit vector opposite the up direction, at the ship acceleration, factor 1 |
| Ships.Ship.BuildHullCollider | src/CommonLib/Ship.cpp:61-89 | the loop builds exactly `HullColliderOf` |
| Ships.Ship.GenerateCell | src/CommonLib/Ship.cpp:135-143 | a shell cell gets forcefield in the door and hull elsewhere; an interior cell is skipped |
| Ships.Ship.WriteCell | src/CommonLib/Ship.cpp:141-143 | one `UpdateBlock` of the box |
| Ships.Ship.GenerateRow | src/CommonLib/Ship.cpp:133-144 | one row of the box makes the writes `RowWrites` lists |
| Ships.Ship.GenerateLayer | src/CommonLib/Ship.cpp:131-145 | one layer makes the writes `LayerWrites` lists |
| Ships.Ship.GenerateBox | src/CommonLib/Ship.cpp:129-146 | the three loops make the writes `HullWrites` lists |
| Ships.Ship.Generate | src/CommonLib/Ship.cpp:112-149 | chunk (0,0,0) is added; without a hull block it stays empty; otherwise it holds the box's shell and one empty-mask notification follows per write |
| Ships.Ship.BuildHull | src/CommonLib/Ship.cpp:126-148 | reset to empty, then the box's shell, with one empty-mask notification per write |
| Ships.GeneratedHull | src/CommonLib/Ship.cpp:127-146 | the box over an empty chunk gives the shell content and empty-mask notifications only |
| Environments.ServerPlayer.AddToEnvironment | src/ServerLib/ServerEnvironment.cpp:57-58 | the environment joins the player's set and nothing else changes |
| Environments.ServerPlayer.RemoveFromEnvironment | src/ServerLib/ServerEnvironment.cpp:40 | the environment leaves the player's set and nothing else changes |
| Environments.Joined | src/ServerLib/ServerEnvironment.cpp:55-59 | a player gains this environment exactly when its root is the other one, and nothing else |
| Environments.Left | src/ServerLib/ServerEnvironment.cpp:68-72 | a player loses this environment exactly when its root is the other one, and nothing else |
| Environments.LeftAfterJoined | src/ServerLib/ServerEnvironment.cpp:50-73 | for a player not already present, leaving undoes joining |
| Environments.Connected | src/ServerLib/ServerEnvironment.cpp:53 | the table gains the environment with its transform and keeps every other entry |
| Environments.Disconnected | src/ServerLib/ServerEnvironment.cpp:64-66 | the table loses exactly that environment |
| Environments.DisconnectedAfterConnected | src/ServerLib/ServerEnvironment.cpp:50-73 | disconnecting undoes connecting for an environment that was not connected |
| Environments.ServerEnvironment.constructor | src/ServerLib/ServerEnvironment.cpp:13-30 | a new environment has its type and instance, no connection and no registered player |
| Environments.ServerEnvironment.Connect | src/ServerLib/ServerEnvironment.cpp:50-60 | the table gains one entry (the environment must not be connected yet), and each player rooted in the other environment now sees this one |
| Environments.ServerEnvironment.JoinRootedPlayers | src/ServerLib/ServerEnvironment.cpp:55-59 | the player loop of `Connect` |
| Environments.ServerEnvironment.Disconnect | src/ServerLib/ServerEnvironment.cpp:62-73 | the entry is erased (it must exist), and each player rooted in the other environment stops seeing this one |
| Environments.ServerEnvironment.LeaveRootedPlayers | src/ServerLib/ServerEnvironment.cpp:68-72 | the player loop of `Disconnect` |
| Environments.ServerEnvironment.RegisterPlayer | src/ServerLib/ServerEnvironment.cpp:85-89 | the player's bit, clear before, is set |
| Environments.ServerEnvironment.UnregisterPlayer | src/ServerLib/ServerEnvironment.cpp:91-95 | the player's bit, set before, is cleared |
| Environments.ServerEnvironment.Teardown | src/ServerLib/ServerEnvironment.cpp:32-48 | every registered player leaves this environment, every connected environment drops its entry for this one, and the players rooted here stop seeing those |
| Environments.ServerEnvironment.LeaveAll | src/ServerLib/ServerEnvironment.cpp:38-41 | every registered player leaves this environment |
| Environments.ServerEnvironment.DisconnectAll | src/ServerLib/ServerEnvironment.cpp:43-44 | every connected environment drops this one, and the players rooted here stop seeing them |
| Environments.ServerEnvironment.DisconnectStep | src/ServerLib/ServerEnvironment.cpp:44 | one more connected environment drops this one |
| PlayerSession.PlaceRefusedBeforeQuery | src/ServerLib/Session/PlayerSessionHandler.cpp:492-500 | an out-of-bounds or occupied target is refused whatever the collision query would say |
| PlayerSession.MineThenPlace | src/ServerLib/Session/PlayerSessionHandler.cpp:479-500 | a mined voxel cannot be mined again and takes a block exactly when nothing collides |
| PlayerSession.PlaceThenMine | src/ServerLib/Session/PlayerSessionHandler.cpp:479-500 | a placed non-empty block can be mined and blocks a second placement |
| PlayerSession.HandleMineBlock | src/ServerLib/Session/PlayerSessionHandler.cpp:101-116 | an unknown chunk id is ignored; a minable voxel becomes empty through `UpdateBlock`; anything else changes nothing |
| PlayerSession.HandlePlaceBlock | src/ServerLib/Session/PlayerSessionHandler.cpp:118-137 | an unknown chunk id is ignored; an empty in-bounds voxel nothing collides with takes the requested block; anything else changes nothing |
| PlayerSession.ParseShipSlot | src/ServerLib/Session/PlayerSessionHandler.cpp:159-179 | slot 0 when nothing follows the command; otherwise the whole rest must be an integer in [0, 3), with a distinct message for each failure |
| PlayerSession.ShipSlotRoundTrip | src/ServerLib/Session/PlayerSessionHandler.cpp:161-179 | each slot written after "/spawnship " selects that slot |
| PlayerSession.ShipSlotExtraBlank | src/ServerLib/Session/PlayerSessionHandler.cpp:164-172 | a second blank before the number is a parse failure |
| PlayerSession.ChatCommandOf | src/ServerLib/Session/PlayerSessionHandler.cpp:139-454 | the commands are tried in source order, the admin-only ones only for an admin, and every other message is broadcast unchanged |
| PlayerSession.ToggleFlying | src/ServerLib/Session/PlayerSessionHandler.cpp:149-158 | `/fly` flips the flying state and reports the new one |
| PlayerSession.SpawnComputerRefusal | src/ServerLib/Session/PlayerSessionHandler.cpp:303-308 | a computer can be spawned only in a ship environment |
| PlayerSession.SpawnShipPlan | src/ServerLib/Session/PlayerSessionHandler.cpp:181-212 | nothing without a controlled entity or outside the root environment; a local ship when unauthenticated; otherwise a request for that slot |
| PlayerSession.ShipReplyOf | src/ServerLib/Session/PlayerSessionHandler.cpp:212-264 | a vanished player ends the request; 200 with valid data loads the ship and 404 generates one, each only from the root environment; anything else reports the load failure |
| InitialSession.TrimStart | src/ServerLib/Session/InitialSessionHandler.cpp:102 | the trimmed string is a suffix of the input that starts with no blank |
| InitialSession.TrimEnd | src/ServerLib/Session/InitialSessionHandler.cpp:102 | the trimmed string is a prefix of the input that ends with no blank |
| InitialSession.TrimmedIff | src/ServerLib/Session/InitialSessionHandler.cpp:102 | a string equals its trimmed form exactly when it is empty or starts and ends with a non-blank |
| InitialSession.PermissionsOfIff | src/ServerLib/Session/InitialSessionHandler.cpp:82-88 | a permission is granted exactly when one of the token's names parses to it; unknown names are skipped |
| InitialSession.AccumulatePermissions | src/ServerLib/Session/InitialSessionHandler.cpp:82-88 | the loop ORs together exactly the permissions `PermissionsOf` lists |
| InitialSession.Authenticate | src/ServerLib/Session/InitialSessionHandler.cpp:39-147 | getting past the checks needs a decrypted token, a non-empty trimmed login and a version between the required one and the server's own; the protocol version set then is the maximum on development builds; the outcome is a failed creation exactly when the checks pass and no player is created |
| InitialSession.FirstFailureDecides | src/ServerLib/Session/InitialSessionHandler.cpp:39-147 | the outcome is the first failed check in source order (invalid token, untrimmed login, too old, too new, no player), a failed creation keeps the protocol version already set, and acceptance means none failed |
| InitialSession.TooOldBeforeTooNew | src/ServerLib/Session/InitialSessionHandler.cpp:110-120 | a client older than required is told to upgrade whatever the server's own version |
| InitialSession.TokenRegistration | src/ServerLib/Session/InitialSessionHandler.cpp:90-92 | the token is registered exactly when it decrypts, before the login and version checks |
| InitialSession.AuthActions | src/ServerLib/Session/InitialSessionHandler.cpp:44-146 | a rejection by a check sends the error and disconnects once sent; past the checks the protocol version is set first, then a failed creation sends InternalError and disconnects later, while an acceptance never disconnects and ends by handing the session to a player handler; Ok is sent, and no disconnect happens, exactly on acceptance |
| InitialSession.OnDeserializationError | src/ServerLib/Session/InitialSessionHandler.cpp:149-168 | a malformed auth request is answered with a protocol error and a later disconnect; any other packet kicks at once |
| Version.BranchSuffix | src/CommonLib/Version.cpp:15-21 | the branch suffix is empty or starts with a blank |
| Version.GetVersionInfo | src/CommonLib/Version.cpp:15-21 | the version string starts with "TSOM " |
| Version.GetBuildInfo | src/CommonLib/Version.cpp:10-13 | "system - branch (commit) - date": its length, the system and separator at its head, the branch with the commit in parentheses in its middle, and the separator and date at its tail |
| Version.DevSuffix | src/CommonLib/Version.cpp:15-27 | the version string ends with ')' exactly on development builds |
| Version.VersionInfoDetermines | src/CommonLib/Version.cpp:15-27 | two builds with the same version string have the same three numbers, are both or neither development builds, and share the branch when they are |
| Decimal.DigitChar | src/CommonLib/Version.cpp:18 | a digit value is written as a decimal digit |
| Decimal.DigitValue | src/ServerLib/Session/PlayerSessionHandler.cpp:167 | a decimal digit has a value below ten that is written back as itself |
| Decimal.NatToString | src/CommonLib/Version.cpp:18 | a number is written as at least one digit, exactly one below ten |
| Decimal.IntToString | src/ServerLib/Session/PlayerSessionHandler.cpp:212 | an integer is written with a leading '-' exactly when negative |
| Decimal.DigitsValueOfNatToString | src/CommonLib/Version.cpp:18 | reading the written digits gives the number back |
| Decimal.NatToStringInjective | src/CommonLib/Version.cpp:18 | distinct numbers are written differently |
| Decimal.ParseWholeInt32 | src/ServerLib/Session/PlayerSessionHandler.cpp:166-172 | `from_chars` over the whole rest gives a 32-bit integer, and fails on a blank or any non-digit start other than '-' |
| Decimal.ParseIntToString | src/ServerLib/Session/PlayerSessionHandler.cpp:166-172 | a written 32-bit integer parses back to itself |
| Config.FindFrom | src/CommonLib/ConfigFile.cpp:24 | `find('.', from)` answers a position of a dot at or after `from` |
| Config.FindFromFirst | src/CommonLib/ConfigFile.cpp:24 | no dot lies between `from` and the answer; none at all when there is no answer |
| Config.SegmentsFrom | src/CommonLib/ConfigFile.cpp:19-33 | a name always has at least one segment |
| Config.JoinSegmentsFrom | src/CommonLib/ConfigFile.cpp:19-33 | the segments from `from` on hold no dot and join back into the rest of the name |
| Config.JoinSegments | src/CommonLib/ConfigFile.cpp:19-33 | a name's segments hold no dot and join back into the name |
| Config.SegmentsInjective | src/CommonLib/ConfigFile.cpp:19-33 | distinct names have distinct segments |
| Config.ForEachSection | src/CommonLib/ConfigFile.cpp:19-33 | the callbacks see a prefix of the segments in order; the first refusal by the section callback stops with false; otherwise the result is the variable callback's on the last segment |
| Config.WalkSections | src/CommonLib/ConfigFile.cpp:22-30 | the dot loop hands out the segments before the last one, stopping at the first refusal |
| Config.SegmentsStep | src/CommonLib/ConfigFile.cpp:24-29 | one turn of the loop: the segment up to the next dot, then the segments of the rest |
| Config.Advance | src/CommonLib/ConfigFile.cpp:26-29 | the loop invariant survives one more segment |
| Config.PassingExtends | src/CommonLib/ConfigFile.cpp:26-27 | an accepted segment extends the run of accepted segments |
| Config.FindEntry | src/CommonLib/ConfigFile.cpp:123 | a table lookup finds an entry with that key, or none exists |
| Config.Emplace | src/CommonLib/ConfigFile.cpp:269 | `emplace` adds a new key and leaves an existing one, and every other key, as it was |
| Config.Put | src/CommonLib/ConfigFile.cpp:250-261 | the subsection table maps the name to the updated subsection and keeps every other entry |
| Config.PutAt | src/CommonLib/ConfigFile.cpp:250-261 | replacing an entry in place keeps the keys and their positions |
| Config.LookupSameKeys | src/CommonLib/ConfigFile.cpp:250-261 | replacing an entry in place changes only that key's value |
| Config.SameKeysFind | src/CommonLib/ConfigFile.cpp:250-261 | tables with the same keys in the same positions find keys alike |
| Config.Registered | src/CommonLib/ConfigFile.cpp:244-271 | registering keeps the section's own name |
| Config.RegisteredSlots | src/CommonLib/ConfigFile.cpp:244-271 | registering fills the name's slot with the new index unless it was taken, and leaves every other slot of the tree as it was |
| Config.RegisteredLeaf | src/CommonLib/ConfigFile.cpp:264-270 | the last segment changes only the options of the innermost section |
| Config.RegisteredAside | src/CommonLib/ConfigFile.cpp:246-263 | a slot outside the subsection the name goes into is untouched |
| Config.RegisteredBelowHead | src/CommonLib/ConfigFile.cpp:246-263 | inside that subsection, the same holds one level down |
| Config.EmptySectionHasNothing | src/CommonLib/ConfigFile.cpp:255-256 | a newly created section holds no option |
| Config.RegisteredBelow | src/CommonLib/ConfigFile.cpp:236-271 | registering index `i` keeps every stored index below `n` when `i < n` |
| Config.SetInteger | src/CommonLib/ConfigFile.cpp:364-400 | values outside the bounds are refused, then the validator may refuse or rewrite; an accepted value is stored and announced exactly when it differs |
| Config.SetFloat | src/CommonLib/ConfigFile.cpp:326-362 | the same rules for floating-point options |
| Config.SetString | src/CommonLib/ConfigFile.cpp:402-427 | no bounds, only the validator, and the same announcement rule |
| Config.SetIntegerTwice | src/CommonLib/ConfigFile.cpp:393-399 | setting the same value again is accepted and announces nothing |
| Config.EscapeQuotes | src/CommonLib/ConfigFile.cpp:300 | escaping never shortens the text |
| Config.EscapeRoundTrip | src/CommonLib/ConfigFile.cpp:300 | unescaping gives the text back, and every quote of the escaped text follows a backslash |
| Config.OptionLine | src/CommonLib/ConfigFile.cpp:278-311 | an option line starts with the indent, ends with a newline and, in a named section, with a comma before it |
| Config.Tabs | src/CommonLib/ConfigFile.cpp:276 | the indent is `indentCount` tabs |
| Config.LoadAsWrittenCounterexamples | src/CommonLib/ConfigFile.cpp:63-64 | two clean files the corrected loader accepts are refused as written: one of global options only, and one whose global table holds a table holding a table |
| Config.AsWrittenNoLooser | src/CommonLib/ConfigFile.cpp:62-92 | an option leaves `missingOptions` only once it loads (line 207), so a failing option without a default stays missing; hence the loader as written accepts exactly what the corrected one accepts and `LoadSection` returns true for, so it never accepts a file with a failure |
| Config.LoadFromFileIff | src/CommonLib/ConfigFile.cpp:42-99 | the corrected loader accepts a file exactly when its script ran, no option without a default failed in any table, and none is missing |
| Config.HasErrorIsFailure | src/CommonLib/ConfigFile.cpp:115-230 | the corrected section result reports an error exactly when some table failed |
| Config.SubtablesHaveError | src/CommonLib/ConfigFile.cpp:131-132 | some subsection reports an error exactly when the subsections hold a failure |
| Config.ConfigFile.RegisterConfig | src/CommonLib/ConfigFile.cpp:232-272 | a new name gets the next index, the name table maps it there, and the tree gains the name at its segments |
| Config.ConfigFile.SetIntegerValue | src/CommonLib/ConfigFile.cpp:364-400 | the named option's outcome is `SetInteger`, and nothing else changes |
| Config.ConfigFile.SetFloatValue | src/CommonLib/ConfigFile.cpp:326-362 | the named option's outcome is `SetFloat`, and nothing else changes |
| Config.ConfigFile.SetStringValue | src/CommonLib/ConfigFile.cpp:402-427 | the named option's outcome is `SetString`, and nothing else changes |
| Config.ConfigFile.Store | src/CommonLib/ConfigFile.cpp:393-397 | an outcome is written back to its option and its announcement logged |
| Config.ConfigFile.SaveSectionToFile | src/CommonLib/ConfigFile.cpp:274-324 | the text written is `SectionText` of the section |
| Config.ConfigFile.SaveOptions | src/CommonLib/ConfigFile.cpp:278-311 | the option loop writes one `OptionLine` per entry, in order |
| Config.ConfigFile.SaveSubsections | src/CommonLib/ConfigFile.cpp:313-323 | the subsection loop writes each subsection in order |
| Config.ConfigFile.SaveSubsection | src/CommonLib/ConfigFile.cpp:316-322 | a subsection is its name, its body one tab deeper, and a closing brace with a comma below the global section |
| Config.RegisterValid | src/CommonLib/ConfigFile.cpp:232-272 | registering a new name keeps the store's invariant |
| Config.RegisterNumbered | src/CommonLib/ConfigFile.cpp:236-242 | options stay numbered by position and found by name |
| Config.BelowGrows | src/CommonLib/ConfigFile.cpp:236 | indices below `n` are below any larger bound |
| Config.RegisterKeepsTree | src/CommonLib/ConfigFile.cpp:244-271 | the tree holds exactly the registered names at their segments |
| GameConfig.LoginValidation | src/Game/GameConfigAppComponent.cpp:17-26 | a login is accepted unchanged exactly when it has 1 to 32 characters, with a distinct message for empty and too long |
| GameConfig.TokenValidation | src/Game/GameConfigAppComponent.cpp:32-38 | a token is accepted unchanged exactly when it has at most 64 characters |
| GameConfig.RegisteredOptions | src/Game/GameConfigAppComponent.cpp:14-41 | the first `k` registrations create options numbered 0 to `k - 1`, with their names and data |
| GameConfig.NamesDistinct | src/Game/GameConfigAppComponent.cpp:16-40 | the six option names are pairwise distinct, so every registration meets `RegisterConfig`'s requirement |
| GameConfig.NewGameConfig | src/Game/GameConfigAppComponent.cpp:14-41 | the constructor registers the six options in order, and the store holds exactly their names |
| GameConfig.RegisterSix | src/Game/GameConfigAppComponent.cpp:16-40 | six registrations on an empty store |
| GameConfig.RegisterThree | src/Game/GameConfigAppComponent.cpp:16-40 | three registrations in a row |
| GameConfig.Register | src/Game/GameConfigAppComponent.cpp:16-40 | one registration adds the next option and its name |
| GameConfig.DefaultsAccepted | src/Game/GameConfigAppComponent.cpp:14-41 | every default passes its own option's bounds and validator |
| GameConfig.ApiUrlRequired | src/Game/GameConfigAppComponent.cpp:16 | "Api.Url" has no default, so a file that leaves it out is refused |
| GameConfig.PortSetter | src/Game/GameConfigAppComponent.cpp:40 | the port setter accepts exactly 1 to 65535 and stores the value as given |
| GameConfig.LoginSetter | src/Game/GameConfigAppComponent.cpp:17-26 | the login setter accepts exactly 1 to 32 characters and stores the value as given |
| Chat.ItemOps | src/ClientLib/Chatbox.cpp:154-173 | the items of an entry yield at most one widget operation each, and never an empty text append |
| Chat.NextDisappearIsMinimum | src/ClientLib/Chatbox.cpp:141-152 | the next disappearance time is at most the largest timestamp, no later than any live entry's disappearance, and equal to one of them unless there is none |
| Chat.Live | src/ClientLib/Chatbox.cpp:146-150 | an entry is live exactly when it is in the list and has not expired; there are no more live entries than entries |
| Chat.LiveAppend | src/ClientLib/Chatbox.cpp:146-150 | the filter keeps the order: the live entries of two lists in a row are those of the first, then those of the second |
| Chat.LiveAllKept | src/ClientLib/Chatbox.cpp:146-150 | when nothing has expired every entry is kept, in order |
| Chat.ClosedShowsLive | src/ClientLib/Chatbox.cpp:144-177 | a closed chat box shows exactly what an open one would show of the live entries alone |
| Chat.RenderedSnoc | src/ClientLib/Chatbox.cpp:144-177 | the history of one more entry is the old history followed by that entry's text when it is shown |
| Chat.OpenShowsAll | src/ClientLib/Chatbox.cpp:146-150 | an open chat box shows every entry, whatever the time |
| Chat.Pushed | src/ClientLib/Chatbox.cpp:94-100 | the new entry is last, the list never grows past the line limit, and the retained entries are the newest old ones in order |
| Chat.Chatbox.constructor | src/ClientLib/Chatbox.cpp:16-48 | a new chat box is closed and empty, with nothing announced and no disappearance pending |
| Chat.Chatbox.Clear | src/ClientLib/Chatbox.cpp:50-54 | the entries and the history are emptied and nothing else changes |
| Chat.Chatbox.Open | src/ClientLib/Chatbox.cpp:66-87 | the box ends in the asked state; a change of state refreshes and closing drops the typed text; no change leaves the text and history alone |
| Chat.Chatbox.PrintMessage | src/ClientLib/Chatbox.cpp:94-104 | the entry disappearing at now plus its display time is pushed within the line limit, then the history and next disappearance are recomputed |
| Chat.Chatbox.PrintPlayerMessage | src/ClientLib/Chatbox.cpp:89-92 | a player message is printed for the player-message display time |
| Chat.Chatbox.SendMessage | src/ClientLib/Chatbox.cpp:106-111 | the typed text is announced exactly when it is not empty |
| Chat.Chatbox.Update | src/ClientLib/Chatbox.cpp:118-123 | a refresh happens exactly when the current time is past the next disappearance time |
| Chat.Chatbox.Refresh | src/ClientLib/Chatbox.cpp:137-183 | the history is the rendering of the entries at this time and the next disappearance time is the earliest live disappearance |
| Chat.Chatbox.RefreshUnfold | src/ClientLib/Chatbox.cpp:144-177 | one turn of the entry loop extends the history and the minimum exactly as the specification functions do |
| Chat.Chatbox.RenderItems | src/ClientLib/Chatbox.cpp:154-173 | the item loop emits the item operations of the specification |

## Left out

- Floating-point geometry and physics are not modelled: environment transforms, planet gravity and up direction, voxel corner positions, normals, tangents, UV rotation and collider scaling. Whether a planet chunk is deformed is a `deformed` parameter of `AddChunk`. The corner positions, a ray's sub-collider lookup and the ship's tile size are parameters or are omitted.
- Perlin noise and the pseudo-random stone draws are function parameters of the terrain generator. They take the chunk key and the draw number as explicit arguments, so that the specification is deterministic.
- Locks and tasks are not modelled:
  - `LockRead`, `LockWrite` and the unlock calls on the shared mutex and the signal mutex;
  - the `TaskScheduler` of `GenerateChunks`. The model generates each chunk right after adding it, one after another.
- `GetNeighborBlock`, `GetBlockIndices`, `GetChunkIndicesByBlockIndices` (`locate`), the `s_dirAxis` table, `BuildVersion`, `DecodeVersion`, the token decryption and `PlayerPermissionFromString` have no body in this model and are function parameters.
- Chunks.Chunk.UpdateBlock: modelled from its declaration in `include/CommonLib/Chunk.hpp`: it writes one voxel. Its body is not part of this model, so the contract says nothing of what it does to the per-type histogram or the collision mask beyond keeping their lengths.
- Planets.Planet.UpdateChunkBlock: for the same reason, it says nothing of the chunk's histogram or collision mask, and the planet's view of a chunk (`ChunkState`) leaves both out.
- Mesh.FaceUvs: texture coordinates are not emitted by `DrawFace`. The face callback modelled is the collider's, which has no UV stream, and a face's texture slice comes from a float rotation of its direction against gravity.
- Planets.Planet.GenerateChunk: requires `DepthDefined`, every depth of the chunk non-negative. In the source this is an assertion of `Nz::SafeCaster` (`src/CommonLib/Planet.cpp` line 218); what a build without assertions does with a negative depth is not modelled.
- Planets.Planet.GenerateChunks: requires `DepthDefined` for every chunk of the grid, for the same reason.
- Constants whose headers are not part of this model take these values: `EmptyBlockIndex` is 0, `InvalidBlockIndex` is 255, `ChunkSize` is 32, and the directions are numbered Back, Down, Front, Left, Right, Up. `ChatMaxLines`, the chat display times, `ShipGravityAcceleration` and the server's protocol versions are parameters.
- Planets.Planet.PlatformBottomPass: the pass runs for at most `fuel` layers, not unboundedly. `BottomAfterEnough` shows that more fuel changes nothing once the pass stops by itself.
- Planets.Planet.GeneratePlatform: requires every planet chunk to have content. In the source, a chunk without content would make the platform's read of a voxel fail.
- Planets.Planet.AddChunk: the chunk map is a Dafny `map`. Its iteration order matters only to `BuildHullCollider`, which takes the order as a parameter.
- Ships.Ship.BuildHullCollider: each chunk's collider comes from an oracle that names its shape by an identifier. The compound's child transforms are float geometry and are omitted.
- Environments.ServerEnvironment.Teardown: clearing the entity registry and the systems is not modelled. The player set `ForEachPlayer` visits is a set, so the loop order is left open.
- For a server player, only the root environment and the set of present environments are modelled. The player's other state and the effects of `AddToEnvironment` and `RemoveFromEnvironment` beyond that set are not.
- Environments.ServerEnvironment.RegisterPlayer: the bitset is the set of its set bits. Its growth (`UnboundedSet`) is not modelled.
- `CompareAndUpdateConnectedTransform` and the rest of `ServerEnvironment.inl` are not part of this model.
- InitialSession.Trim: `Nz::Trim` with `UnicodeAware` is not part of this model. Its whitespace set is taken to be the Unicode White_Space characters. The largest protocol version a development server announces is taken to be the largest 32-bit unsigned value.
- PlayerSession.CheckCanPlaceBlock: the physics collision query is a boolean parameter, asked only after the bounds and emptiness tests.
- The `/spawnship` web request and its JSON reply, entity creation, raycasts, respawning and the effects of `/regenchunk` and `/spawnplanet` are not modelled. The dispatch records which command ran and the reply it sends.
- Chat.Chatbox.PrintMessage: `now + displayTime` is unbounded. The source's 64-bit timestamp could overflow for a huge display time.
- The chat box's widget layout, colours other than white, the scroll area, focus and the entry box's length limit are not modelled. Clock reads are the `now` parameters.
- Config.LoadFromFile: the Lua script and `sol2` are abstracted to `LoadTable`, the tree of tables with a flag saying whether an option without a default failed in it. File I/O, paths and the game's config path logic are not modelled.
- Config.ConfigFile.SaveSectionToFile: the stream's formatting of floats is the `formatReal` parameter.
- The config store's option table by name is a `map`. The source's `unordered_map` iteration order is replaced by insertion order when a section is saved.
- `ConfigFile.hpp` and `ConfigFile.inl` are not part of this model. These are the `Register*Option` wrappers, `GetOptionIndex` and the constructor; registration goes straight through `RegisterConfig`.
- Config.ConfigFile.SetIntegerValue: the `OnValueUpdate` signal is an append to the `updates` log.
- Config.ConfigFile.RegisterConfig: computes the section path with `Segments` directly instead of through the `ForEachSection` callbacks. `ForEachSection` is modelled and proved on its own.
- `GetBoolValue`, the other value getters and `SetBoolValue` are not modelled.
- Version.GameVersion: `BuildVersion`'s packing is a parameter, and the build constants are the fields of `BuildData`.

## Findings

| source | as written | input that shows it | evidently intended | confidence | as-written member | corrected member |
|---|---|---|---|---|---|---|
| src/CommonLib/Planet.cpp:497-501 | in the bottom pass, a voxel whose chunk is missing hits `continue` before `xPos += dirAxis.rightDir`, so the row stays on that voxel for its remaining turns; the planet's pass (`RowReach`, `BottomLayerUnreached`) is modelled this way | a bottom row whose first voxel lies in a chunk that does not exist: every turn revisits that voxel and the row never reaches its far end, so an empty corner at the far end of the row in an existing chunk gets no planks | step one voxel right on every turn, whether or not the chunk exists; with every chunk present the two agree (`BottomRowAllPresent`, `RowReachAllPresent`) | not executed | Platforms.BottomRowCounterexample | Platforms.BottomRowAt |
| src/CommonLib/ConfigFile.cpp:63-64 | `LoadSection` returns `hasError` (line 229), but `LoadFromFile` and the nested call (lines 131-132) treat a false result as the error | a clean file with only global options is refused, and so is a clean file whose global table holds a table holding a table | a file loads exactly when no option without a default failed anywhere and the script ran | not executed | Config.LoadAsWrittenCounterexamples | Config.LoadFromFileIff |
