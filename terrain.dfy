/**
 * Terrain classification: a raw noise sample is normalised from [-1, 1] to
 * [0, 1] and bucketed by the ascending thresholds 0.3, 0.4, 0.5 and 0.7 into
 * five bands, each of which has a tile index in the TERRAIN table.
 */
module Terrain {

  // Screen and tile geometry of the game configuration.
  const ScreenWidth: nat := 640
  const ScreenHeight: nat := 480
  const TileSize: nat := 64

  /** Columns visited by `for (x = 0; x < 640 / 64; x++)`. */
  const MapWidth: nat := 10
  /**
   * Rows visited by `for (y = 0; y < 480 / 64; y++)`: the bound is 7.5, so
   * the loop runs for y = 0 .. 7.
   */
  const MapHeight: nat := 8

  /** The five terrain bands, in ascending order of normalised noise value. */
  datatype Band = DeepWater | Water | Sand | Grass | Forest

  /** Position of a band in the ascending order. */
  function Rank(b: Band): (r: nat)
    ensures r < 5
  {
    match b
    case DeepWater => 0
    case Water => 1
    case Sand => 2
    case Grass => 3
    case Forest => 4
  }

  // The TERRAIN table of tile indices; both kinds of water share one tile.
  const WaterDeepTile: int := 203
  const WaterTile: int := 203
  const SandTile: int := 18
  const GrassTile: int := 23
  const ForestTile: int := 28

  /** Every tile index the generator can place. */
  const TileIndices: set<int> := {WaterTile, SandTile, GrassTile, ForestTile}

  /** The TERRAIN table: the tile index that renders a band. */
  function TileOf(b: Band): (t: int)
    ensures t in TileIndices
    ensures t == WaterTile <==> Rank(b) <= 1
  {
    match b
    case DeepWater => WaterDeepTile
    case Water => WaterTile
    case Sand => SandTile
    case Grass => GrassTile
    case Forest => ForestTile
  }

  /** The ascending band boundaries: band k lies below Thresholds[k]. */
  const Thresholds: seq<real> := [0.3, 0.4, 0.5, 0.7]

  /** `v` lies in the half-open interval of band `b` (closed below, open above). */
  predicate InBand(b: Band, v: real)
  {
    && (Rank(b) == 0 || Thresholds[Rank(b) - 1] <= v)
    && (Rank(b) == 4 || v < Thresholds[Rank(b)])
  }

  /** Maps a noise sample in [-1, 1] onto [0, 1] by `(value + 1) / 2`. */
  function Normalize(value: real): (v: real)
    ensures value == 2.0 * v - 1.0
    ensures -1.0 <= value <= 1.0 ==> 0.0 <= v <= 1.0
  {
    (value + 1.0) / 2.0
  }

  /** The if/else threshold chain of the generator, on a normalised value. */
  function BandOf(v: real): (b: Band)
    ensures InBand(b, v)
  {
    if v < 0.3 then DeepWater
    else if v < 0.4 then Water
    else if v < 0.5 then Sand
    else if v < 0.7 then Grass
    else Forest
  }

  /** The bands' intervals do not overlap: a value lies in at most one band. */
  lemma BandsDisjoint(b1: Band, b2: Band, v: real)
    requires InBand(b1, v) && InBand(b2, v)
    ensures b1 == b2
  {
  }

  /** The chain picks band `b` exactly when `v` lies in `b`'s interval. */
  lemma BandOfIsInterval(b: Band, v: real)
    ensures BandOf(v) == b <==> InBand(b, v)
  {
    if InBand(b, v) {
      BandsDisjoint(b, BandOf(v), v);
    }
  }

  /** Later bands never come before earlier ones: the chain is monotone in `v`. */
  lemma BandOfMonotone(v1: real, v2: real)
    requires v1 <= v2
    ensures Rank(BandOf(v1)) <= Rank(BandOf(v2))
  {
    ProfileAscending();
    ProfileAgrees(v1);
    ProfileAgrees(v2);
    TableMonotone(Profile, Forest, v1, v2);
  }

  /** The tile index `generateMap` places for a raw noise sample. */
  function Classify(value: real): (t: int)
    ensures t in TileIndices
    ensures t == WaterTile <==> Normalize(value) < 0.4
    ensures t == SandTile <==> 0.4 <= Normalize(value) < 0.5
    ensures t == GrassTile <==> 0.5 <= Normalize(value) < 0.7
    ensures t == ForestTile <==> 0.7 <= Normalize(value)
  {
    TileOf(BandOf(Normalize(value)))
  }

  // The same classification written as a threshold table of
  // (upper bound, band) pairs plus a band for everything above the last bound.

  /** The generator's profile: the ordered (upper bound, band) pairs. */
  const Profile: seq<(real, Band)> := [(0.3, DeepWater), (0.4, Water), (0.5, Sand), (0.7, Grass)]

  /** A table is well formed when bounds and bands both ascend row by row and `top` comes after the last band. */
  predicate Ascending(table: seq<(real, Band)>, top: Band)
  {
    && (forall i :: 0 <= i < |table| - 1 ==> table[i].0 < table[i + 1].0 && Rank(table[i].1) < Rank(table[i + 1].1))
    && (table != [] ==> Rank(table[|table| - 1].1) < Rank(top))
  }

  /** The band of the first row whose bound lies above `v`, else `top`. */
  function BandByTable(table: seq<(real, Band)>, top: Band, v: real): (b: Band)
    ensures b == top || exists i :: 0 <= i < |table| && b == table[i].1
    ensures Ascending(table, top) ==> Rank(b) >= Rank(if table == [] then top else table[0].1)
  {
    if table == [] then top
    else if v < table[0].0 then table[0].1
    else
      var b := BandByTable(table[1..], top, v);
      assert b != top ==> exists i :: 0 <= i < |table| && b == table[i].1 by {
        if b != top {
          var k :| 0 <= k < |table| - 1 && b == table[1..][k].1;
          assert b == table[k + 1].1;
        }
      }
      b
  }

  /** The profile satisfies the ordering requirement on threshold tables. */
  lemma ProfileAscending()
    ensures Ascending(Profile, Forest)
  {
  }

  /** The table-driven classification agrees with the threshold chain everywhere. */
  lemma ProfileAgrees(v: real)
    ensures BandByTable(Profile, Forest, v) == BandOf(v)
  {
    var p1 := Profile[1..];
    var p2 := p1[1..];
    var p3 := p2[1..];
    assert p1 == [(0.4, Water), (0.5, Sand), (0.7, Grass)];
    assert p2 == [(0.5, Sand), (0.7, Grass)];
    assert p3 == [(0.7, Grass)];
    assert p3[1..] == [];
    assert BandByTable(p3, Forest, v) == if v < 0.7 then Grass else Forest;
    assert BandByTable(p2, Forest, v) == if v < 0.5 then Sand else BandByTable(p3, Forest, v);
    assert BandByTable(p1, Forest, v) == if v < 0.4 then Water else BandByTable(p2, Forest, v);
  }

  /** Any well-formed table yields a classification monotone in `v`. */
  lemma {:induction false} TableMonotone(table: seq<(real, Band)>, top: Band, v1: real, v2: real)
    requires Ascending(table, top)
    requires v1 <= v2
    ensures Rank(BandByTable(table, top, v1)) <= Rank(BandByTable(table, top, v2))
  {
    if table != [] && v1 >= table[0].0 {
      assert Ascending(table[1..], top) by {
        forall i | 0 <= i < |table[1..]| - 1
          ensures table[1..][i].0 < table[1..][i + 1].0 && Rank(table[1..][i].1) < Rank(table[1..][i + 1].1)
        {
          assert table[1..][i] == table[i + 1] && table[1..][i + 1] == table[i + 2];
        }
      }
      TableMonotone(table[1..], top, v1, v2);
    }
  }

  /** The integer loop bounds are exactly the cells the source's real-valued bounds admit. */
  lemma MapDimensions(x: int, y: int)
    requires 0 <= x && 0 <= y
    ensures x < MapWidth <==> (x as real) < (ScreenWidth as real) / (TileSize as real)
    ensures y < MapHeight <==> (y as real) < (ScreenHeight as real) / (TileSize as real)
  {
  }
}
