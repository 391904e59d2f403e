// The server's handler for a player in game: the checks before mining or placing a
// block, the two block handlers, and the dispatch of chat messages to commands,
// including the parsing of the `/spawnship` slot.

module PlayerSession {
  import opened Voxel
  import opened Chunks
  import opened Decimal
  import opened Environments

  // ---------------------------------------------------------------------------
  // Block checks

  /** Mining needs a voxel inside the chunk that is not empty. */
  predicate CanMine(size: UVec3, blocks: seq<BlockIndex>, c: UVec3)
    requires |blocks| == Volume(size)
  {
    InBounds(size, c) && BlockAt(size, blocks, c) != EmptyBlockIndex
  }

  /** Placing needs a voxel inside the chunk that is empty, and then a collision query
      that finds nothing in the way; `collides` is that query's answer, which is only
      consulted once the first two tests pass. */
  predicate CanPlace(size: UVec3, blocks: seq<BlockIndex>, c: UVec3, collides: bool)
    requires |blocks| == Volume(size)
  {
    InBounds(size, c) && BlockAt(size, blocks, c) == EmptyBlockIndex && !collides
  }

  /** `CheckCanMineBlock`. */
  predicate CheckCanMineBlock(chunk: Chunk, c: UVec3)
    reads chunk
    requires chunk.Valid() && chunk.HasContent()
  {
    CanMine(chunk.size, chunk.blocks, c)
  }

  /** `CheckCanPlaceBlock`. */
  predicate CheckCanPlaceBlock(chunk: Chunk, c: UVec3, collides: bool)
    reads chunk
    requires chunk.Valid() && chunk.HasContent()
  {
    CanPlace(chunk.size, chunk.blocks, c, collides)
  }

  /** Out-of-bounds and occupied targets are refused whatever the physics query would
      answer. */
  lemma PlaceRefusedBeforeQuery(size: UVec3, blocks: seq<BlockIndex>, c: UVec3)
    requires |blocks| == Volume(size)
    requires !InBounds(size, c) || BlockAt(size, blocks, c) != EmptyBlockIndex
    ensures !CanPlace(size, blocks, c, false) && !CanPlace(size, blocks, c, true)
  {
  }

  /** Mining leaves a voxel that cannot be mined again and where a block fits if
      nothing is in the way; placing the old block back restores the chunk. */
  lemma {:induction false} MineThenPlace(size: UVec3, blocks: seq<BlockIndex>, c: UVec3)
    requires |blocks| == Volume(size) && CanMine(size, blocks, c)
    ensures LocalIndex(size, c) < |blocks|
    ensures var mined := blocks[LocalIndex(size, c) := EmptyBlockIndex];
            && !CanMine(size, mined, c)
            && CanPlace(size, mined, c, false)
            && mined[LocalIndex(size, c) := BlockAt(size, blocks, c)] == blocks
  {
    LocalIndexBound(size, c);
  }

  /** A placed non-empty block can be mined, and blocks the voxel for another
      placement. */
  lemma {:induction false} PlaceThenMine(size: UVec3, blocks: seq<BlockIndex>, c: UVec3, b: BlockIndex)
    requires |blocks| == Volume(size) && CanPlace(size, blocks, c, false) && b != EmptyBlockIndex
    ensures LocalIndex(size, c) < |blocks|
    ensures var placed := blocks[LocalIndex(size, c) := b];
            CanMine(size, placed, c) && !CanPlace(size, placed, c, false)
  {
    LocalIndexBound(size, c);
  }

  /** `HandlePacket(MineBlock)`: `chunk` is the chunk the network id names, null when
      the player cannot see such a chunk. The voxel becomes empty under the write lock
      only when the check passes. */
  method HandleMineBlock(chunk: Chunk?, c: UVec3)
    requires chunk != null ==> chunk.Valid() && chunk.HasContent()
    modifies chunk
    ensures chunk != null ==> chunk.Valid() && chunk.HasContent()
    ensures chunk != null && old(CanMine(chunk.size, chunk.blocks, c)) ==>
              && LocalIndex(chunk.size, c) < |old(chunk.blocks)|
              && chunk.blocks == old(chunk.blocks)[LocalIndex(chunk.size, c) := EmptyBlockIndex]
              && chunk.blockUpdates == old(chunk.blockUpdates) + [(c, EmptyBlockIndex)]
    ensures chunk != null && !old(CanMine(chunk.size, chunk.blocks, c)) ==> unchanged(chunk)
  {
    if chunk == null {
      return;
    }
    if !CheckCanMineBlock(chunk, c) {
      return;
    }
    chunk.UpdateBlock(c, EmptyBlockIndex);
  }

  /** `HandlePacket(PlaceBlock)`: like mining, with the requested block and the place
      check; `collides` is the answer of the physics query. */
  method HandlePlaceBlock(chunk: Chunk?, c: UVec3, newContent: BlockIndex, collides: bool)
    requires chunk != null ==> chunk.Valid() && chunk.HasContent()
    modifies chunk
    ensures chunk != null ==> chunk.Valid() && chunk.HasContent()
    ensures chunk != null && old(CanPlace(chunk.size, chunk.blocks, c, collides)) ==>
              && LocalIndex(chunk.size, c) < |old(chunk.blocks)|
              && chunk.blocks == old(chunk.blocks)[LocalIndex(chunk.size, c) := newContent]
              && chunk.blockUpdates == old(chunk.blockUpdates) + [(c, newContent)]
    ensures chunk != null && !old(CanPlace(chunk.size, chunk.blocks, c, collides)) ==> unchanged(chunk)
  {
    if chunk == null {
      return;
    }
    if !CheckCanPlaceBlock(chunk, c, collides) {
      return;
    }
    chunk.UpdateBlock(c, newContent);
  }

  // ---------------------------------------------------------------------------
  // Chat commands

  const SpawnShipCommand: string := "/spawnship"
  /** "/spawnship " with its trailing blank. */
  const SpawnShipPrefix: string := "/spawnship "
  const ShipSlotCount: int := 3
  const RegenChunkSeed: nat := 42
  const RegenChunkCount: UVec3 := UVec3(5, 5, 5)

  datatype ChatCommand =
    | Respawn
    | ToggleFly
    | SpawnShip(slot: Result<int, string>)
    | RegenChunk(seed: nat, chunkCount: UVec3)
    | SpawnComputer
    | SpawnPlatform
    | SpawnPlanet
    | Broadcast(message: string)

  predicate StartsWith(s: string, prefix: string) {
    |prefix| <= |s| && s[..|prefix|] == prefix
  }

  predicate IsSpawnShipCommand(message: string) {
    message == SpawnShipCommand || StartsWith(message, SpawnShipPrefix)
  }

  /** The slot of a `/spawnship` command: 0 when nothing follows the command (with or
      without the blank), otherwise the whole rest must be a 32-bit integer in [0, 3). */
  function ParseShipSlot(message: string): (r: Result<int, string>)
    requires IsSpawnShipCommand(message)
    ensures r.Ok? ==> 0 <= r.value < ShipSlotCount
    ensures |message| <= |SpawnShipPrefix| ==> r == Ok(0)
  {
    if StartsWith(message, SpawnShipPrefix) && |message| > |SpawnShipPrefix| then
      var parsed := ParseWholeInt32(message[|SpawnShipPrefix|..]);
      if parsed.None? then Err("failed to parse ship slot")
      else if parsed.value < 0 || parsed.value >= ShipSlotCount then Err("slot must lie in [0;3[")
      else Ok(parsed.value)
    else Ok(0)
  }

  /** Each slot written out after the command selects that slot. */
  lemma ShipSlotRoundTrip(slot: nat)
    requires slot < ShipSlotCount
    ensures ParseShipSlot(SpawnShipPrefix + IntToString(slot)) == Ok(slot)
  {
    var message := SpawnShipPrefix + IntToString(slot);
    assert message[|SpawnShipPrefix|..] == IntToString(slot);
    assert message[..|SpawnShipPrefix|] == SpawnShipPrefix;
    ParseIntToString(slot);
  }

  /** A blank between the command and the number is not part of a number (a
      leading `-` is, and a negative slot is then refused by the range test). */
  lemma ShipSlotExtraBlank(rest: string)
    ensures ParseShipSlot(SpawnShipPrefix + " " + rest).Err?
  {
    var message := SpawnShipPrefix + " " + rest;
    assert message[..|SpawnShipPrefix|] == SpawnShipPrefix;
    assert message[|SpawnShipPrefix|..][0] == ' ';
  }

  /** The command chain of `HandlePacket(SendChatMessage)`: the commands are tried in
      order, the admin-only ones only for an admin, and whatever is not a command
      (an admin-only one sent by someone else included) is broadcast as chat. */
  function ChatCommandOf(message: string, isAdmin: bool): (cmd: ChatCommand)
    ensures cmd.SpawnShip? <==> IsSpawnShipCommand(message)
    ensures cmd.Broadcast? <==>
              && message !in {"/respawn", "/fly", "/spawncomputer", "/spawnplatform"}
              && !IsSpawnShipCommand(message)
              && !(isAdmin && message in {"/regenchunk", "/spawnplanet"})
    ensures cmd.Broadcast? ==> cmd.message == message
    ensures cmd.RegenChunk? || cmd == SpawnPlanet ==> isAdmin
  {
    if message == "/respawn" then Respawn
    else if message == "/fly" then ToggleFly
    else if IsSpawnShipCommand(message) then SpawnShip(ParseShipSlot(message))
    else if message == "/regenchunk" && isAdmin then RegenChunk(RegenChunkSeed, RegenChunkCount)
    else if message == "/spawncomputer" then SpawnComputer
    else if message == "/spawnplatform" then SpawnPlatform
    else if message == "/spawnplanet" && isAdmin then SpawnPlanet
    else Broadcast(message)
  }

  /** `/fly` flips the flying state and reports the new one. */
  function ToggleFlying(flying: bool): (r: (bool, string))
    ensures r.0 == !flying
    ensures r.1 == "fly enabled" <==> r.0
    ensures r.1 == "fly disabled" <==> !r.0
  {
    var now := !flying;
    (now, if now then "fly enabled" else "fly disabled")
  }

  /** `/spawncomputer` outside a ship is refused with a message. */
  function SpawnComputerRefusal(kind: ServerEnvironmentType): (r: Option<string>)
    ensures r.None? <==> kind == ShipEnvironment
  {
    if kind != ShipEnvironment then Some("computers can only be spawned in ships") else None
  }

  /** What `/spawnship` does once its slot is known. */
  datatype ShipSpawn =
    | NoShip
    | LocalShip(slot: int, warning: string)
    | RequestShip(slot: int, path: string)

  /** Nothing happens without a controlled entity or outside the root environment; an
      unauthenticated player gets a fresh ship that is not saved, an authenticated one
      a request for the saved ship of that slot. */
  function SpawnShipPlan(slot: int, hasEntity: bool, inRoot: bool, authenticated: bool): (r: ShipSpawn)
    ensures r.NoShip? <==> !hasEntity || !inRoot
    ensures r.LocalShip? <==> hasEntity && inRoot && !authenticated
    ensures !r.NoShip? ==> r.slot == slot
  {
    if !hasEntity || !inRoot then NoShip
    else if !authenticated then LocalShip(slot, "warning: your ship won't be saved as you're not authenticated")
    else RequestShip(slot, "/v1/player_ship/" + IntToString(slot))
  }

  datatype ShipReply = Ignored | LoadedShip | GeneratedShip | ShipFailure(message: string)

  const ShipLoadFailure: string := "failed to load ship (an internal error occurred)"

  /** The answer to the ship request: a vanished player or entity ends it; 200 loads
      the saved ship (`dataOk` says the body parsed and loaded), 404 generates a fresh
      one; any other code fails. A ship is only linked when the player is still in
      its root environment. */
  function ShipReplyOf(resultCode: nat, playerAlive: bool, dataOk: bool, inRoot: bool): (r: ShipReply)
    ensures r.ShipFailure? <==> playerAlive && (resultCode !in {200, 404} || (resultCode == 200 && !dataOk))
    ensures r.ShipFailure? ==> r.message == ShipLoadFailure
    ensures r == LoadedShip <==> playerAlive && resultCode == 200 && dataOk && inRoot
    ensures r == GeneratedShip <==> playerAlive && resultCode == 404 && inRoot
  {
    if !playerAlive then Ignored
    else if resultCode == 200 || resultCode == 404 then
      if resultCode == 200 && !dataOk then ShipFailure(ShipLoadFailure)
      else if !inRoot then Ignored
      else if resultCode == 200 then LoadedShip
      else GeneratedShip
    else ShipFailure(ShipLoadFailure)
  }
}
