/**
 * The map session: the seed, the noise scale, the tile layer, the place-name
 * labels and the player's position, with the operations that regenerate the
 * map, re-seed it, rescale it and move the player.
 *
 * The noise library and Math.random are oracles: `noise(librarySeed, x, y)`
 * is what noise.perlin2(x, y) returns after noise.seed(librarySeed), and
 * `random(k)` is the k-th result of Math.random (counting from 0). The field
 * `cursor` counts the results consumed so far, so every call of Math.random
 * in the generator consumes exactly one entry of the stream.
 */
module MapSession {
  import opened Wrappers
  import opened Terrain
  import opened PlaceNames
  import opened Parameters
  import opened Movement

  /** A cell is offered a name when `Math.random() < 0.01`. */
  const NamingChance: real := 0.01

  /** A place-name label and the cell it was placed on. */
  datatype PlaceName = PlaceName(name: string, x: int, y: int)

  /** What generation samples: the noise field under seed `seed`, at coordinates multiplied by `scale`. */
  datatype Sampling = Sampling(noise: (real, real, real) -> real, seed: real, scale: real)

  /** `noise.perlin2(x * noiseScale, y * noiseScale)` for cell (x, y). */
  function Sample(s: Sampling, x: int, y: int): real
  {
    s.noise(s.seed, x as real * s.scale, y as real * s.scale)
  }

  /** The tile the generator places at cell (x, y). */
  function TileFor(s: Sampling, x: int, y: int): (t: int)
    ensures t in TileIndices
  {
    Classify(Sample(s, x, y))
  }

  /** The label was drawn from the name pool of `tile`. */
  predicate Labels(p: PlaceName, tile: int)
  {
    NamePool(tile).Some? && p.name in NamePool(tile).value
  }

  /** Cell of `p` comes before cell of `q` in the generator's row-by-row visiting order. */
  predicate Before(p: PlaceName, q: PlaceName)
  {
    p.y < q.y || (p.y == q.y && p.x < q.x)
  }

  /** The labels placed so far and the number of random draws consumed so far. */
  datatype Naming = Naming(names: seq<PlaceName>, cursor: nat)

  /** The naming step for cell (x, y) holding `tile`. */
  function NameCell(st: Naming, random: nat -> real, tile: int, x: int, y: int): (r: Naming)
    ensures st.cursor < r.cursor <= st.cursor + 2
  {
    if random(st.cursor) < NamingChance then
      if NamePool(tile).Some? then
        var name := GeneratePlaceName(tile, random(st.cursor + 1));
        Naming(if name.Some? then st.names + [PlaceName(name.value, x, y)] else st.names, st.cursor + 2)
      else
        Naming(st.names, st.cursor + 1)
    else
      Naming(st.names, st.cursor + 1)
  }

  /**
   * A naming step consumes one or two draws and keeps the labels so far; it
   * adds at most one label, on the cell and from the pool of its tile, and
   * only after two draws.
   */
  lemma NameCellEffect(st: Naming, random: nat -> real, tile: int, x: int, y: int)
    ensures var r := NameCell(st, random, tile, x, y);
      && st.cursor < r.cursor <= st.cursor + 2
      && |st.names| <= |r.names| <= |st.names| + 1 && r.names[..|st.names|] == st.names
      && (|r.names| > |st.names| ==>
            && r.cursor == st.cursor + 2
            && r.names[|st.names|].x == x && r.names[|st.names|].y == y
            && Labels(r.names[|st.names|], tile))
  {
  }

  /**
   * The chance draw decides: a label is added, and a second draw taken,
   * exactly when the chance draw is below 0.01 and the tile has a name pool
   * (given a pick draw in [0, 1)).
   */
  lemma NameCellGate(st: Naming, random: nat -> real, tile: int, x: int, y: int)
    requires 0.0 <= random(st.cursor + 1) < 1.0
    ensures var r := NameCell(st, random, tile, x, y);
      && (|r.names| > |st.names| <==> random(st.cursor) < NamingChance && tile in TileIndices)
      && (r.cursor == st.cursor + 2 <==> random(st.cursor) < NamingChance && tile in TileIndices)
  {
  }

  /** The naming pass over the first `x` cells of row `y`, from state `st`. */
  function RowScan(st: Naming, s: Sampling, random: nat -> real, y: nat, x: nat): (r: Naming)
    ensures st.cursor + x <= r.cursor
  {
    if x == 0 then st
    else NameCell(RowScan(st, s, random, y, x - 1), random, TileFor(s, x - 1, y), x - 1, y)
  }

  /** The naming pass over the first `y` rows, with the stream of draws starting at `start`. */
  function Scan(s: Sampling, random: nat -> real, start: nat, y: nat): (r: Naming)
    ensures start + y * MapWidth <= r.cursor
  {
    if y == 0 then Naming([], start)
    else RowScan(Scan(s, random, start, y - 1), s, random, y - 1, MapWidth)
  }

  /** Naming `x` cells takes between `x` and `2x` draws, two for each of the at most `x` labels added. */
  lemma {:induction false} RowScanDraws(st: Naming, s: Sampling, random: nat -> real, y: nat, x: nat)
    ensures var r := RowScan(st, s, random, y, x);
      && st.cursor + x <= r.cursor <= st.cursor + 2 * x
      && |st.names| <= |r.names| <= |st.names| + x
      && r.cursor - st.cursor >= 2 * (|r.names| - |st.names|)
  {
    if x > 0 {
      RowScanDraws(st, s, random, y, x - 1);
      NameCellEffect(RowScan(st, s, random, y, x - 1), random, TileFor(s, x - 1, y), x - 1, y);
    }
  }

  /** A pass over `y` rows from draw `start` takes at least one draw per cell and two per label. */
  lemma {:induction false} ScanDraws(s: Sampling, random: nat -> real, start: nat, y: nat)
    ensures var r := Scan(s, random, start, y);
      && start + y * MapWidth <= r.cursor
      && start + 2 * |r.names| <= r.cursor
  {
    if y > 0 {
      ScanDraws(s, random, start, y - 1);
      RowScanDraws(Scan(s, random, start, y - 1), s, random, y - 1, MapWidth);
    }
  }

  /** One more cell of row `y` is one more naming step. */
  lemma RowScanStep(st: Naming, s: Sampling, random: nat -> real, y: nat, x: nat)
    ensures RowScan(st, s, random, y, x + 1) == NameCell(RowScan(st, s, random, y, x), random, TileFor(s, x, y), x, y)
  {
  }

  /** One more row is one more row pass. */
  lemma ScanStep(s: Sampling, random: nat -> real, start: nat, y: nat)
    ensures Scan(s, random, start, y + 1) == RowScan(Scan(s, random, start, y), s, random, y, MapWidth)
  {
  }

  /** Label `p` lies on a cell among the first `rows` rows plus the first `cols` cells of the next, and was drawn from the pool of that cell's tile. */
  predicate PlacedLabel(s: Sampling, p: PlaceName, rows: nat, cols: nat)
  {
    && 0 <= p.x < MapWidth && 0 <= p.y
    && (p.y < rows || (p.y == rows && p.x < cols))
    && Labels(p, TileFor(s, p.x, p.y))
  }

  /**
   * Every label is placed as `PlacedLabel` says, and the labels come in
   * visiting order, so at most one per cell.
   */
  predicate SoundLabels(s: Sampling, names: seq<PlaceName>, rows: nat, cols: nat)
  {
    && (forall k :: 0 <= k < |names| ==> PlacedLabel(s, names[k], rows, cols))
    && (forall k, l :: 0 <= k < l < |names| ==> Before(names[k], names[l]))
  }

  /** Appending a label for the next cell of row `y` keeps the labels sound. */
  lemma AppendSound(s: Sampling, names: seq<PlaceName>, p: PlaceName, y: nat, x: nat)
    requires SoundLabels(s, names, y, x)
    requires x < MapWidth && p.x == x && p.y == y && Labels(p, TileFor(s, x, y))
    ensures SoundLabels(s, names + [p], y, x + 1)
  {
    var ext := names + [p];
    forall k | 0 <= k < |ext|
      ensures PlacedLabel(s, ext[k], y, x + 1)
    {
      if k < |names| {
        assert ext[k] == names[k];
      }
    }
    forall k, l | 0 <= k < l < |ext|
      ensures Before(ext[k], ext[l])
    {
      assert ext[k] == names[k];
      if l < |names| {
        assert ext[l] == names[l];
      } else {
        assert PlacedLabel(s, names[k], y, x);
      }
    }
  }

  /** The naming step for cell (x - 1, y), the last of the first `x` cells of row `y`, keeps the labels sound. */
  lemma NameCellSound(st: Naming, s: Sampling, random: nat -> real, y: nat, x: nat)
    requires 0 < x <= MapWidth
    requires SoundLabels(s, st.names, y, x - 1)
    ensures SoundLabels(s, NameCell(st, random, TileFor(s, x - 1, y), x - 1, y).names, y, x)
  {
    var names := NameCell(st, random, TileFor(s, x - 1, y), x - 1, y).names;
    NameCellEffect(st, random, TileFor(s, x - 1, y), x - 1, y);
    if |names| == |st.names| {
      assert names == names[..|st.names|];
      forall k | 0 <= k < |names|
        ensures PlacedLabel(s, names[k], y, x)
      {
        assert PlacedLabel(s, names[k], y, x - 1);
      }
    } else {
      assert names == st.names + [names[|st.names|]];
      AppendSound(s, st.names, names[|st.names|], y, x - 1);
    }
  }

  /** Labels on the whole of row `y - 1` and before are labels on the first `y` rows. */
  lemma RowDoneSound(s: Sampling, names: seq<PlaceName>, y: nat)
    requires 0 < y
    requires SoundLabels(s, names, y - 1, MapWidth)
    ensures SoundLabels(s, names, y, 0)
  {
    forall k | 0 <= k < |names|
      ensures PlacedLabel(s, names[k], y, 0)
    {
      assert PlacedLabel(s, names[k], y - 1, MapWidth);
    }
  }

  /** Naming cells along row `y` keeps the labels sound. */
  lemma {:induction false} RowScanSound(st: Naming, s: Sampling, random: nat -> real, y: nat, x: nat)
    requires x <= MapWidth
    requires SoundLabels(s, st.names, y, 0)
    ensures SoundLabels(s, RowScan(st, s, random, y, x).names, y, x)
  {
    if x > 0 {
      RowScanSound(st, s, random, y, x - 1);
      NameCellSound(RowScan(st, s, random, y, x - 1), s, random, y, x);
    }
  }

  /** Every label of the naming pass over the first `y` rows is sound. */
  lemma {:induction false} ScanSound(s: Sampling, random: nat -> real, start: nat, y: nat)
    ensures SoundLabels(s, Scan(s, random, start, y).names, y, 0)
  {
    if y > 0 {
      ScanSound(s, random, start, y - 1);
      RowScanSound(Scan(s, random, start, y - 1), s, random, y - 1, MapWidth);
      RowDoneSound(s, Scan(s, random, start, y).names, y);
    }
  }

  class Session {
    /** noise.perlin2 as a function of the noise library's seed and the coordinates. */
    const noise: (real, real, real) -> real
    /** The successive results of Math.random. */
    const random: nat -> real
    /** The tile layer, indexed [x, y]. */
    const tiles: array2<int>

    /** The seed shown to the user and last handed to the noise library on re-seeding. */
    var seed: real
    /** The seed the noise library currently holds. */
    var noiseSeed: real
    var scale: real
    /** Number of Math.random results consumed. */
    var cursor: nat
    var placeNames: seq<PlaceName>
    /** Player position in pixels. */
    var playerX: int
    var playerY: int
    /** The text of the movement message. */
    var message: string

    /** What the generator samples in the current state. */
    function Sampled(): Sampling
      reads this`noiseSeed, this`scale
    {
      Sampling(noise, noiseSeed, scale)
    }

    /** The invariant that holds between generations. */
    ghost predicate Shaped()
      reads this`scale, this`seed
    {
      && tiles.Length0 == MapWidth && tiles.Length1 == MapHeight
      && scale >= MinScale
      && 0.0 <= seed < SeedRange
      && (forall k :: 0.0 <= random(k) < 1.0)
    }

    /** Every cell holds the tile the current seed and scale give it, and every label is sound. */
    ghost predicate Valid()
      reads this`scale, this`seed, this`noiseSeed, this`placeNames, tiles
    {
      && Shaped()
      && (forall x, y :: 0 <= x < MapWidth && 0 <= y < MapHeight ==> tiles[x, y] == TileFor(Sampled(), x, y))
      && SoundLabels(Sampled(), placeNames, MapHeight, 0)
    }

    /** The game's startup: the module-level seed draw, then `create`, which generates the map and places the player. */
    constructor (noise: (real, real, real) -> real, random: nat -> real, librarySeed: real)
      requires forall k :: 0.0 <= random(k) < 1.0
      ensures Valid() && fresh(tiles)
      ensures this.noise == noise && this.random == random
      ensures seed == NewSeed(random(0)) && noiseSeed == librarySeed && scale == InitialScale
      ensures Naming(placeNames, cursor) == Scan(Sampled(), random, 1, MapHeight)
      ensures playerX == TileSize && playerY == TileSize && message == ""
    {
      this.noise := noise;
      this.random := random;
      seed := NewSeed(random(0));
      noiseSeed := librarySeed;
      scale := InitialScale;
      cursor := 1;
      tiles := new int[MapWidth, MapHeight];
      placeNames := [];
      playerX, playerY := TileSize, TileSize;
      message := "";
      new;
      GenerateMap();
    }

    /** Math.random: the next result of the stream. */
    method NextRandom() returns (r: real)
      modifies this`cursor
      ensures r == random(old(cursor)) && cursor == old(cursor) + 1
    {
      r := random(cursor);
      cursor := cursor + 1;
    }

    /**
     * Clears the labels, fills every cell with the classification of its
     * noise sample and offers each cell a name with one chance draw.
     */
    method GenerateMap()
      requires Shaped()
      modifies tiles, this`placeNames, this`cursor
      ensures Valid()
      ensures Naming(placeNames, cursor) == Scan(Sampled(), random, old(cursor), MapHeight)
    {
      var s := Sampled();
      ghost var start := cursor;
      placeNames := [];
      var y := 0;
      while y < MapHeight
        invariant 0 <= y <= MapHeight
        invariant forall i, j :: 0 <= i < MapWidth && 0 <= j < y ==> tiles[i, j] == TileFor(s, i, j)
        invariant Naming(placeNames, cursor) == Scan(s, random, start, y)
      {
        GenerateRow(s, y, start);
        y := y + 1;
      }
      assert Sampled() == s;
      ScanSound(s, random, start, MapHeight);
    }

    /** The generator's inner loop: classifies and names the cells of row `y` from left to right. */
    method GenerateRow(s: Sampling, y: nat, ghost start: nat)
      requires tiles.Length0 == MapWidth && tiles.Length1 == MapHeight && y < MapHeight
      requires forall i, j :: 0 <= i < MapWidth && 0 <= j < y ==> tiles[i, j] == TileFor(s, i, j)
      requires Naming(placeNames, cursor) == Scan(s, random, start, y)
      modifies tiles, this`placeNames, this`cursor
      ensures forall i, j :: 0 <= i < MapWidth && 0 <= j <= y ==> tiles[i, j] == TileFor(s, i, j)
      ensures forall i, j :: 0 <= i < MapWidth && y < j < MapHeight ==> tiles[i, j] == old(tiles[i, j])
      ensures Naming(placeNames, cursor) == Scan(s, random, start, y + 1)
    {
      ghost var before := Scan(s, random, start, y);
      var x := 0;
      while x < MapWidth
        invariant 0 <= x <= MapWidth
        invariant forall i, j :: 0 <= i < MapWidth && 0 <= j <= y && (j < y || i < x) ==> tiles[i, j] == TileFor(s, i, j)
        invariant forall i, j :: 0 <= i < MapWidth && y < j < MapHeight ==> tiles[i, j] == old(tiles[i, j])
        invariant Naming(placeNames, cursor) == RowScan(before, s, random, y, x)
      {
        RowScanStep(before, s, random, y, x);
        VisitCell(s, x, y);
        x := x + 1;
      }
      ScanStep(s, random, start, y);
    }

    /** One iteration of the inner loop: place the classified tile at (x, y), then the naming step. */
    method VisitCell(s: Sampling, x: nat, y: nat)
      requires x < tiles.Length0 && y < tiles.Length1
      modifies tiles, this`placeNames, this`cursor
      ensures tiles[x, y] == TileFor(s, x, y)
      ensures forall i, j :: 0 <= i < tiles.Length0 && 0 <= j < tiles.Length1 && (i != x || j != y) ==> tiles[i, j] == old(tiles[i, j])
      ensures Naming(placeNames, cursor) == NameCell(old(Naming(placeNames, cursor)), random, TileFor(s, x, y), x, y)
    {
      var value := Sample(s, x, y);
      var tile := Classify(value);
      tiles[x, y] := tile;
      NameCellAt(tile, x, y);
    }

    /** The naming step for one cell: a chance draw and, when it succeeds, a name from the tile's pool. */
    method NameCellAt(tile: int, x: int, y: int)
      modifies this`placeNames, this`cursor
      ensures Naming(placeNames, cursor) == NameCell(old(Naming(placeNames, cursor)), random, tile, x, y)
    {
      var chance := NextRandom();
      if chance < NamingChance && NamePool(tile).Some? {
        var draw := NextRandom();
        var name := GeneratePlaceName(tile, draw);
        if name.Some? {
          placeNames := placeNames + [PlaceName(name.value, x, y)];
        }
      }
    }

    /** `regenerateMap`: draws a new seed, hands it to the noise library and regenerates. */
    method RegenerateMap()
      requires Valid()
      modifies tiles, this`seed, this`noiseSeed, this`placeNames, this`cursor
      ensures Valid()
      ensures seed == NewSeed(random(old(cursor))) && noiseSeed == seed && scale == old(scale)
      ensures Naming(placeNames, cursor) == Scan(Sampled(), random, old(cursor) + 1, MapHeight)
    {
      var draw := NextRandom();
      seed := NewSeed(draw);
      noiseSeed := seed;
      GenerateMap();
    }

    /** `decreaseNoiseScale`: lowers the scale by one step, never below the minimum, and regenerates. */
    method DecreaseNoiseScale()
      requires Valid()
      modifies tiles, this`scale, this`placeNames, this`cursor
      ensures Valid()
      ensures scale == DecreasedScale(old(scale)) && seed == old(seed) && noiseSeed == old(noiseSeed)
      ensures Naming(placeNames, cursor) == Scan(Sampled(), random, old(cursor), MapHeight)
    {
      scale := DecreasedScale(scale);
      GenerateMap();
    }

    /** `increaseNoiseScale`: raises the scale by one step and regenerates. */
    method IncreaseNoiseScale()
      requires Valid()
      modifies tiles, this`scale, this`placeNames, this`cursor
      ensures Valid()
      ensures scale == IncreasedScale(old(scale)) && seed == old(seed) && noiseSeed == old(noiseSeed)
      ensures Naming(placeNames, cursor) == Scan(Sampled(), random, old(cursor), MapHeight)
    {
      scale := IncreasedScale(scale);
      GenerateMap();
    }

    /** `layer.getTileAt`: the tile index at a cell, None outside the layer. */
    function TileAt(tx: int, ty: int): (t: Option<int>)
      reads this, tiles
      ensures t.Some? <==> 0 <= tx < tiles.Length0 && 0 <= ty < tiles.Length1
      ensures t.Some? ==> t.value == tiles[tx, ty]
    {
      if 0 <= tx < tiles.Length0 && 0 <= ty < tiles.Length1 then Some(tiles[tx, ty]) else None
    }

    /** The movement decision of `update` for the keys that went down this frame. */
    method Update(keys: Keys)
      modifies this`playerX, this`playerY, this`message
      ensures var r := Move(old(playerX), old(playerY), keys,
                            TileAt(TargetColumn(old(playerX), keys), TargetRow(old(playerY), keys)));
        && playerX == r.x && playerY == r.y
        && message == if r.message.Some? then r.message.value else old(message)
      ensures playerX != old(playerX) || playerY != old(playerY) ==>
        var t := TileAt(playerX / TileSize, playerY / TileSize);
        t.Some? && t.value != WaterTile
    {
      var dx, dy := StepX(keys), StepY(keys);
      if dx != 0 || dy != 0 {
        var newX := playerX + dx * TileSize;
        var newY := playerY + dy * TileSize;
        var tile := TileAt(newX / TileSize, newY / TileSize);
        if tile.Some? && tile.value != WaterTile && tile.value != WaterDeepTile {
          playerX, playerY := newX, newY;
          message := TileMessage(TileIndex(tile.value));
        } else {
          message := TileMessage(WaterSentinel);
        }
      }
    }
  }
}
