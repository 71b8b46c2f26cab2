/**
 * The per-frame movement rule: a freshly pressed arrow key moves the player by
 * one tile, but only onto a tile that exists and is not water; each attempt
 * shows a message chosen by the tile index.
 */
module Movement {
  import opened Wrappers
  import opened Terrain

  /** Which arrow keys went down this frame. */
  datatype Keys = Keys(left: bool, right: bool, up: bool, down: bool)

  /** Horizontal step: right overrides left. */
  function StepX(k: Keys): (dx: int)
    ensures dx == 1 <==> k.right
    ensures dx == -1 <==> k.left && !k.right
    ensures dx == 0 <==> !k.left && !k.right
  {
    if k.right then 1 else if k.left then -1 else 0
  }

  /** Vertical step (screen coordinates grow downwards): down overrides up. */
  function StepY(k: Keys): (dy: int)
    ensures dy == 1 <==> k.down
    ensures dy == -1 <==> k.up && !k.down
    ensures dy == 0 <==> !k.up && !k.down
  {
    if k.down then 1 else if k.up then -1 else 0
  }

  /** Some arrow key asks for a move. */
  predicate Pressed(k: Keys)
  {
    StepX(k) != 0 || StepY(k) != 0
  }

  /** `Math.floor((px + dx * TILE_SIZE) / TILE_SIZE)`: the column the player would enter. */
  function TargetColumn(px: int, k: Keys): (c: int)
    ensures c == px / TileSize + StepX(k)
  {
    (px + StepX(k) * TileSize) / TileSize
  }

  /** `Math.floor((py + dy * TILE_SIZE) / TILE_SIZE)`: the row the player would enter. */
  function TargetRow(py: int, k: Keys): (r: int)
    ensures r == py / TileSize + StepY(k)
  {
    (py + StepY(k) * TileSize) / TileSize
  }

  /** What the tile message switch is given: a tile index or the string 'WATER'. */
  datatype MessageKey = TileIndex(index: int) | WaterSentinel

  const GrassMessage: string := "Walking through grasslands."
  const SandMessage: string := "Crunchy sand under your feet."
  const ForestMessage: string := "Treading through thick forest\U{2026}"
  const WaterMessage: string := "Can\U{2019}t swim here!"
  const UnknownMessage: string := "Wandering the unknown."

  /** The switch of the tile message, cases in the source's order. */
  function TileMessage(key: MessageKey): (m: string)
    ensures m == WaterMessage <==> key == WaterSentinel || key.index == WaterTile
    ensures m == UnknownMessage <==> key.TileIndex? && key.index !in TileIndices
  {
    match key
    case WaterSentinel => WaterMessage
    case TileIndex(i) =>
      if i == GrassTile then GrassMessage
      else if i == SandTile then SandMessage
      else if i == ForestTile then ForestMessage
      else if i == WaterTile || i == WaterDeepTile then WaterMessage
      else UnknownMessage
  }

  /** Each land tile shows the message of its own terrain. */
  lemma LandTileMessages()
    ensures TileMessage(TileIndex(TileOf(Grass))) == GrassMessage
    ensures TileMessage(TileIndex(TileOf(Sand))) == SandMessage
    ensures TileMessage(TileIndex(TileOf(Forest))) == ForestMessage
  {
  }

  /** Each land band has its own message, so the message names the band entered. */
  lemma LandMessagesDistinct(b1: Band, b2: Band)
    requires Rank(b1) >= 2 && Rank(b2) >= 2
    requires TileMessage(TileIndex(TileOf(b1))) == TileMessage(TileIndex(TileOf(b2)))
    ensures b1 == b2
  {
    assert GrassMessage[0] != SandMessage[0] && SandMessage[0] != ForestMessage[0];
    assert GrassMessage[0] != ForestMessage[0];
  }

  /** The player's new position and the message shown, if any. */
  datatype Outcome = Outcome(x: int, y: int, message: Option<string>)

  /**
   * One frame of the movement rule from pixel position (px, py); `target` is
   * what the layer holds at the target cell (None where there is no tile).
   */
  function Move(px: int, py: int, k: Keys, target: Option<int>): (r: Outcome)
    ensures (r.x != px || r.y != py) <==> Pressed(k) && target.Some? && target.value != WaterTile
    ensures r.x != px || r.y != py ==>
      && r.x == px + StepX(k) * TileSize && r.y == py + StepY(k) * TileSize
      && r.x / TileSize == TargetColumn(px, k) && r.y / TileSize == TargetRow(py, k)
      && r.message == Some(TileMessage(TileIndex(target.value)))
    ensures r.x == px && r.y == py ==> r.message == if Pressed(k) then Some(WaterMessage) else None
  {
    if Pressed(k) then
      var newX := px + StepX(k) * TileSize;
      var newY := py + StepY(k) * TileSize;
      if target.Some? && target.value != WaterTile && target.value != WaterDeepTile then
        Outcome(newX, newY, Some(TileMessage(TileIndex(target.value))))
      else
        Outcome(px, py, Some(TileMessage(WaterSentinel)))
    else
      Outcome(px, py, None)
  }
}
