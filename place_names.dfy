/**
 * Procedural place names: a tile index selects a pool of names (both water
 * tiles share one pool) and a uniform draw in [0, 1) picks one of its entries.
 */
module PlaceNames {
  import opened Wrappers
  import opened Terrain

  const WaterNames: seq<string> := ["Azure Bay", "Red Sea", "Crystal Lake", "Silent Depths"]
  const SandNames: seq<string> := ["Golden Dunes", "Sandy Hollow", "Sunburn Flats"]
  const GrassNames: seq<string> := ["Greenfield", "Mossy Plain", "Emerald Expanse"]
  const ForestNames: seq<string> := ["Whispering Woods", "Oakshade", "Darkroot Forest"]

  /** The name pool of a terrain band; deep water and water share one. */
  function PoolFor(b: Band): (p: seq<string>)
    ensures |p| > 0
    ensures p == WaterNames <==> Rank(b) <= 1
  {
    match b
    case DeepWater => WaterNames
    case Water => WaterNames
    case Sand => SandNames
    case Grass => GrassNames
    case Forest => ForestNames
  }

  /** The pool that the name generator's tile-index chain selects, or None for an unknown index. */
  function NamePool(tileIndex: int): (p: Option<seq<string>>)
    ensures p.Some? <==> tileIndex in TileIndices
    ensures p.Some? ==> |p.value| > 0
  {
    if tileIndex == WaterTile || tileIndex == WaterDeepTile then Some(WaterNames)
    else if tileIndex == SandTile then Some(SandNames)
    else if tileIndex == GrassTile then Some(GrassNames)
    else if tileIndex == ForestTile then Some(ForestNames)
    else None
  }

  /** Selecting by tile index gives the pool of the band that placed that tile. */
  lemma PoolOfBandTile(b: Band)
    ensures NamePool(TileOf(b)) == Some(PoolFor(b))
  {
  }

  /** `Math.floor(draw * n)`: the index a uniform draw selects among `n` entries. */
  function PickIndex(draw: real, n: nat): (i: int)
    ensures 0.0 <= draw < 1.0 && n > 0 ==> 0 <= i < n
    ensures 0.0 <= draw ==> 0 <= i
  {
    (draw * n as real).Floor
  }

  /** `arr[Math.floor(draw * arr.length)]`, None where JavaScript yields `undefined`. */
  function RandomFromArray<T>(arr: seq<T>, draw: real): (r: Option<T>)
    ensures r.Some? ==> r.value in arr
    ensures 0.0 <= draw < 1.0 ==> (r.Some? <==> |arr| > 0)
  {
    var i := PickIndex(draw, |arr|);
    if 0 <= i < |arr| then Some(arr[i]) else None
  }

  /** Every entry of a non-empty array is picked by some draw in [0, 1). */
  lemma EveryEntryReachable<T>(arr: seq<T>, k: nat)
    requires k < |arr|
    ensures 0.0 <= (k as real) / (|arr| as real) < 1.0
    ensures RandomFromArray(arr, (k as real) / (|arr| as real)) == Some(arr[k])
  {
    var n := |arr| as real;
    assert (k as real) / n * n == k as real;
  }

  /**
   * The pick is uniform: a draw in [0, 1) selects entry `k` of `n` exactly
   * when it lies in the k-th of `n` equal-width intervals.
   */
  lemma PickUniform(draw: real, n: nat, k: nat)
    requires 0 < n && k < n && 0.0 <= draw < 1.0
    ensures PickIndex(draw, n) == k <==> (k as real) / (n as real) <= draw < ((k + 1) as real) / (n as real)
  {
    var N := n as real;
    FloorIs(draw * N, k);
    ScaledBound(draw, N, k as real);
    ScaledBound(draw, N, (k + 1) as real);
  }

  /** `x.Floor == k` exactly when `x` lies in [k, k + 1). */
  lemma FloorIs(x: real, k: int)
    ensures x.Floor == k <==> k as real <= x < (k + 1) as real
  {
  }

  /** Dividing a bound by a positive `N` is multiplying the value by `N`. */
  lemma ScaledBound(d: real, N: real, a: real)
    requires N > 0.0
    ensures a / N <= d <==> a <= d * N
    ensures d < a / N <==> d * N < a
  {
    assert a / N * N == a;
    if a / N <= d {
      assert (d - a / N) * N >= 0.0;
    }
    if d < a / N {
      assert (a / N - d) * N > 0.0;
    }
  }

  /** A name for a tile: from the tile's pool, or None for an index with no pool. */
  function GeneratePlaceName(tileIndex: int, draw: real): (r: Option<string>)
    ensures r.Some? ==> NamePool(tileIndex).Some? && r.value in NamePool(tileIndex).value
    ensures 0.0 <= draw < 1.0 ==> (r.Some? <==> tileIndex in TileIndices)
  {
    if tileIndex == WaterTile || tileIndex == WaterDeepTile then RandomFromArray(WaterNames, draw)
    else if tileIndex == SandTile then RandomFromArray(SandNames, draw)
    else if tileIndex == GrassTile then RandomFromArray(GrassNames, draw)
    else if tileIndex == ForestTile then RandomFromArray(ForestNames, draw)
    else None
  }

  /** For a tile with a pool, the name is the uniform pick from that pool. */
  lemma GeneratePlaceNameIsPick(tileIndex: int, draw: real)
    requires NamePool(tileIndex).Some?
    ensures GeneratePlaceName(tileIndex, draw) == RandomFromArray(NamePool(tileIndex).value, draw)
  {
  }

  /** `generatePlaceName` of any classified tile returns a name from its band's pool for every pick draw in [0, 1). */
  lemma ClassifiedTileIsNamed(value: real, draw: real)
    requires 0.0 <= draw < 1.0
    ensures var r := GeneratePlaceName(Classify(value), draw);
      r.Some? && r.value in PoolFor(BandOf(Normalize(value)))
  {
    PoolOfBandTile(BandOf(Normalize(value)));
  }
}
