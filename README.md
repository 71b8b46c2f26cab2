# Procedural tile map: a Dafny model

This project models the core of a small browser game that generates a tile
map from Perlin noise. The map is 10 columns by 8 rows of 64-pixel tiles.

- **Terrain.** Each cell samples the noise field at its coordinates times the
  noise scale. The sample is normalised from [-1, 1] to [0, 1] and bucketed by
  the thresholds 0.3, 0.4, 0.5 and 0.7 into deep water, water, sand, grass and
  forest. Each band has a tile index from the TERRAIN table. Both kinds of
  water share index 203.
- **Place names.** Each cell is offered a label with one chance draw. When the
  draw is below 0.01 and the tile index has a name pool, a second draw picks a
  name from that pool.
- **Session.** The session holds the seed, the noise scale, the tile layer, the
  labels and the player. Three operations regenerate the map:
  - re-seeding draws a new seed and hands it to the noise library;
  - decreasing the scale lowers it by 0.02, but never below 0.01;
  - increasing the scale raises it by 0.02.
- **Movement.** A freshly pressed arrow key moves the player by one tile, but
  only onto a cell of the layer that is not water. A move onto land shows the
  message of the tile entered; a blocked press, whether onto water or off the
  map, shows the water message.

The noise library and `Math.random` are oracles given to the session.
`noise(librarySeed, x, y)` is what `noise.perlin2(x, y)` returns while the
library holds seed `librarySeed`. `random(k)` is the k-th `Math.random`
result drawn by the game's own code in main.js, counting from 0; draws the
engine may take for itself are not part of this stream. The session's `cursor` counts the results
consumed so far, so the model keeps the exact order of draws:

- draw 0 is the module-level seed;
- each cell takes one chance draw, then one pick draw only when the chance
  succeeds and the tile has a pool;
- re-seeding takes one draw.

At startup the program never hands its seed to the noise library; only
re-seeding does. So the session keeps two seeds:

- `seed`, the value the program draws and displays;
- `noiseSeed`, the value the noise library holds.

They start independent (the constructor receives the library's initial state)
and are equal after the first re-seed.

Modules:

- `Terrain`: bands, thresholds and `Classify`. It also holds a threshold-table
  reference classification that the chain is proved to agree with.
- `PlaceNames`: name pools, `RandomFromArray` and `GeneratePlaceName`.
- `Parameters`: the scale clamp and the seed draw.
- `Movement`: arrow keys, the movement rule and the tile message switch.
- `MapSession`: the specification of the naming pass and the `Session` class.
- `Wrappers`: `Option`.

## Model

| member | source | states |
|---|---|---|
| Terrain.Normalize | main.js:108 | the normalised value v satisfies value == 2v - 1, and a sample in [-1, 1] lands in [0, 1] |
| Terrain.BandOf | main.js:111-121 | the chain's band contains v in its half-open threshold interval |
| Terrain.BandOfIsInterval | main.js:111-121 | the chain picks a band exactly when v lies in that band's interval (both directions) |
| Terrain.BandOfMonotone | main.js:111-121 | a larger normalised value never gets an earlier band |
| Terrain.TileOf | main.js:22-28 | every band's tile is in the TERRAIN table, and the tile is the water index exactly for the two water bands |
| Terrain.Classify | main.js:107-121 | the tile index is water iff the normalised value is below 0.4, sand iff it is in [0.4, 0.5), grass iff it is in [0.5, 0.7), forest iff it is at least 0.7 |
| Terrain.BandByTable | main.js:111-121 | a threshold table yields one of its own bands or the top band, and on an ascending table never a band before its first |
| Terrain.ProfileAscending | main.js:111-121 | the generator's thresholds and bands ascend together |
| Terrain.ProfileAgrees | main.js:111-121 | the if/else chain equals the table-driven classification on every value |
| Terrain.TableMonotone | main.js:111-121 | any ascending threshold table classifies monotonically |
| Terrain.MapDimensions | main.js:17-19 | the 10 x 8 integer loop bounds admit exactly the cells that x < 640/64 and y < 480/64 admit |
| PlaceNames.PoolFor | main.js:149-152 | every band's pool is non-empty, and the two water bands, and only they, share the water names |
| PlaceNames.NamePool | main.js:148-164 | a tile index has a name pool exactly when it is in the TERRAIN table, and every pool is non-empty |
| PlaceNames.PoolOfBandTile | main.js:148-164 | the pool selected by a band's tile index is that band's pool |
| PlaceNames.PickIndex | main.js:167 | floor(draw * n) is a valid index for a draw in [0, 1) and n > 0 |
| PlaceNames.RandomFromArray | main.js:166-168 | the pick is an element of the array, and for a draw in [0, 1) it is defined exactly when the array is non-empty; which entry a draw picks is stated by `PickUniform` |
| PlaceNames.PickUniform | main.js:167 | a draw in [0, 1) picks entry k of n exactly when it lies in [k/n, (k+1)/n), so each entry gets an interval of equal width |
| PlaceNames.FloorIs | main.js:167 | `Math.floor(x)` is k exactly when x lies in [k, k + 1) |
| PlaceNames.ScaledBound | main.js:167 | comparing a draw with a/n is comparing draw * n with a, for n > 0 |
| PlaceNames.EveryEntryReachable | main.js:166-168 | every entry of a non-empty array is picked by some draw in [0, 1) |
| PlaceNames.GeneratePlaceName | main.js:148-164 | a name comes from the pool of its tile index, and for a draw in [0, 1) a name exists exactly when the index is in the TERRAIN table |
| PlaceNames.GeneratePlaceNameIsPick | main.js:154-161 | for a tile index with a pool, the name is `randomFromArray` of that pool, so it is the uniform pick of `PickUniform` |
| PlaceNames.ClassifiedTileIsNamed | main.js:107-128 | for every noise sample and every pick draw in [0, 1), `generatePlaceName` of the classified tile returns a name from its band's pool; whether a cell is offered a name at all is the chance draw of `MapSession.NameCellGate` |
| Parameters.DecreasedScale | main.js:179-183 | the decreased scale is at least 0.01 and at least s - 0.02, and equals one of them |
| Parameters.IncreasedScale | main.js:186-190 | the increased scale exceeds the old one and keeps the minimum |
| Parameters.DecreaseUndoesIncrease | main.js:179-190 | increase then decrease restores any scale at or above 0.01 |
| Parameters.IncreaseUndoesDecrease | main.js:179-190 | decrease then increase restores the scale exactly when the scale is at least 0.03 |
| Parameters.ScaleStaysAboveMinimum | main.js:35 | no sequence of scale key presses takes the scale below 0.01 |
| Parameters.RepeatedDecreaseReachesMinimum | main.js:179-183 | n decrease presses from a scale within n steps of the minimum end at 0.01 |
| Parameters.MinimumIsFixed | main.js:179-183 | decreasing at the minimum stays at the minimum |
| Parameters.NewSeed | main.js:34 | a seed from a draw in [0, 1) lies in [0, 10000), and the draw is recovered from it |
| Movement.StepX | main.js:204-205 | the horizontal step is +1 iff right went down, -1 iff only left went down, 0 otherwise |
| Movement.StepY | main.js:206-207 | the vertical step is +1 iff down went down, -1 iff only up went down, 0 otherwise |
| Movement.TargetColumn | main.js:210-212 | the target column is the current column plus the step |
| Movement.TargetRow | main.js:211-213 | the target row is the current row plus the step |
| Movement.TileMessage | main.js:228-251 | the message is the water message iff the key is the 'WATER' sentinel or the water index, and the unknown message iff the index is not in the TERRAIN table |
| Movement.LandTileMessages | main.js:232-240 | the grass, sand and forest tiles show the grass, sand and forest messages |
| Movement.LandMessagesDistinct | main.js:231-240 | the three land bands have three different messages |
| Movement.Move | main.js:201-225 | the player moves iff a key is pressed and the target has a non-water tile; a move is exactly one tile in the step's direction and shows the target's message; a blocked press shows the water message; no press changes nothing |
| MapSession.Sample | main.js:107 | the sample of cell (x, y) is the noise field under the library's seed at (x * scale, y * scale); it has no contract of its own and is what `TileFor` classifies |
| MapSession.TileFor | main.js:107-121 | the tile of a cell is a TERRAIN index; it is `Classify` of the cell's sample, whose intervals `Terrain.Classify` states |
| MapSession.NameCell | main.js:126-141 | one naming step consumes one or two draws; its effect on the labels is stated by `NameCellEffect` and `NameCellGate` |
| MapSession.RowScan | main.js:106-143 | naming x cells of a row consumes at least x draws |
| MapSession.Scan | main.js:105-144 | naming y rows consumes at least one draw per cell |
| MapSession.NameCellGate | main.js:126-128 | a label is added, and a second draw taken, exactly when the chance draw is below 0.01 and the tile has a name pool |
| MapSession.NameCellEffect | main.js:126-141 | one naming step consumes one or two draws, keeps the earlier labels and adds at most one; an added label took two draws, lies on the cell and comes from the cell tile's pool |
| MapSession.RowScanDraws | main.js:106-143 | naming x cells of a row consumes between x and 2x draws and adds at most x labels, two draws per label |
| MapSession.ScanDraws | main.js:105-144 | naming y rows consumes at least one draw per cell and two per label |
| MapSession.AppendSound | main.js:105-141 | appending a label for the next cell in visiting order keeps the labels sound |
| MapSession.NameCellSound | main.js:123-141 | one naming step keeps the labels sound |
| MapSession.RowDoneSound | main.js:105-106 | labels sound up to the end of row y - 1 are sound for the first y rows |
| MapSession.RowScanSound | main.js:106-143 | naming along a row keeps the labels sound |
| MapSession.ScanSound | main.js:101-145 | every label of a full pass lies on a map cell, comes from the pool of that cell's tile, and the labels are in row-major order, so at most one per cell |
| MapSession.Session.constructor | main.js:34-35 | startup draws the seed from draw 0, sets the scale to 0.1, generates a valid map from draw 1 on and puts the player at (64, 64) |
| MapSession.Session.NextRandom | main.js:126 | Math.random returns the next draw of the stream and consumes it |
| MapSession.Session.GenerateMap | main.js:101-145 | every cell holds the classification of its scaled noise sample, and the labels and draws consumed are those of the naming pass |
| MapSession.Session.GenerateRow | main.js:106-143 | the inner loop fills row y with its classifications, keeps the rows before it filled, leaves the rows after it unchanged and performs that row's naming pass |
| MapSession.Session.VisitCell | main.js:107-142 | one iteration places the classified tile and performs the cell's naming step |
| MapSession.Session.NameCellAt | main.js:125-142 | the chance draw, the pick draw and the label push agree with the naming step |
| MapSession.Session.RegenerateMap | main.js:171-176 | re-seeding takes one draw, hands the new seed to the noise library and regenerates a valid map |
| MapSession.Session.DecreaseNoiseScale | main.js:179-183 | the scale becomes the clamped decrease, the seeds stay, and the map is regenerated and valid |
| MapSession.Session.IncreaseNoiseScale | main.js:186-190 | the scale grows by one step, the seeds stay, and the map is regenerated and valid |
| MapSession.Session.TileAt | main.js:215 | a cell has a tile exactly when it lies in the layer, and it is the layer's entry |
| MapSession.Session.Update | main.js:201-225 | the position and message follow the movement rule on the layer's tile at the target cell, and after a move the player stands on an existing non-water tile |

## Left out

- Phaser itself is not modelled: scene setup, preloading, the tileset, sprites and rendering. Each label keeps its name and cell; its text object, pixel offset (+5, +5) and style are left out.
- The Perlin noise implementation is not part of this model; it is the oracle `noise`.
- `Math.random` is the oracle stream `random`. Only its range [0, 1) is assumed; its distribution is not modelled.
- Arithmetic is on exact reals, not IEEE doubles. The rounding of `x * noiseScale`, of `(value + 1) / 2` and of repeated `+ 0.02` steps is not modelled.
- `updateInfoText` only formats text for display, so it is not modelled.
- The keyboard bindings are not modelled; each bound key is the session method it calls.
- `JustDown` key polling is not modelled; `Keys` is the set of keys that went down this frame.
- The player's position is an integer. It starts at 64 and only moves by 64, so `Math.floor(p / 64)` is integer division.
- The layer is assumed to be 10 x 8. The source computes the height 480 / 64 = 7.5, and the generation loop visits rows 0 to 7.
- Every layer cell holds a generated tile, so `getTileAt`'s null for an empty cell reduces to the out-of-layer case.
