# gladys weight map: per-cell traversal cost

This project models the cell classifier of the gladys weight map
(`include/gladys/weight_map.hpp`) in Dafny and proves what it promises.
For each raster cell the classifier takes a vector of terrain-class
probabilities, indexed no-3D-data, flat, obstacle, rough, slope. From that it
produces one weight:

- `-1` (unknown) when the no-3D-data probability exceeds 0.9;
- otherwise positive infinity (a raw obstacle) when the obstacle probability
  exceeds 0.4;
- otherwise the cost `1 + 98 * (0.1 flat + 0.3 rough + 0.6 slope)`.

Obstacle inflation marks a cell as an inflated obstacle with the sentinel `-2`,
unless the cell is already a raw obstacle.

The model is one module, `WeightMap`, in `weight_map.dfy`:

- Probabilities and weights are `real`.
- A weight is `Finite(value)` or `Infinite`. `Infinite` stands for `HUGE_VALF`.
- `CellState` is a typed reading of the raw encoding, through `StateOf` and
  `Encode`. Its cases are traversable cost, unknown, raw obstacle and flagged
  obstacle.
- `flag_as_obstacle` updates its cell through a `float&` reference. Here
  it is a method that updates one element of an `array<Weight>`. Its new
  contents are given by the function `FlagCell`.

The classifier does not clamp its input. Callers must supply probabilities in
[0, 1] (`InRange`). `OutOfRangeForgesSentinels` shows why this matters: with a
negative slope probability the mix equals `-2` or `-1` exactly, which is a
sentinel value.

The doc comment of `compute_weight` (lines 61-66) promises "a weight in
[1, 100] or -1". The code also returns positive infinity for obstacles, and the
model follows the code. The largest cost it can produce is 99, not 100.
`WeightImage` proves that every value in [1, 99] is reached.

## Model

| member | source | states |
|---|---|---|
| `WeightMap.ClassIndices` | include/gladys/weight_map.hpp:32 | the five terrain-class indices no-3D-data, flat, obstacle, rough, slope are distinct and are exactly the indices below `N_RASTER` = 5 |
| `WeightMap.SentinelEncoding` | include/gladys/weight_map.hpp:29 | the unknown sentinel is the finite value -1, the flagged-obstacle sentinel the finite value -2, the raw obstacle the infinity, and the three are pairwise distinct |
| `WeightMap.IsObstacle` | include/gladys/weight_map.hpp:57-59 | holds exactly for the infinity `HUGE_VALF` |
| `WeightMap.IsFlagObstacle` | include/gladys/weight_map.hpp:54-56 | holds exactly for the finite value -2 |
| `WeightMap.ComputeWeight` | include/gladys/weight_map.hpp:67-74 | no-3D-data above 0.9 gives the unknown sentinel whatever the other bands hold; the result is a raw obstacle exactly when no-3D-data is at most 0.9 and obstacle exceeds 0.4; otherwise it is the finite flat/rough/slope mix |
| `WeightMap.Mix` | include/gladys/weight_map.hpp:73 | with flat, rough and slope in [0, 1] the traversable cost lies in [1, 99] |
| `WeightMap.ComputeWeightStates` | include/gladys/weight_map.hpp:61-74 | on in-range input the cell is unknown iff no-3D-data exceeds 0.9, a raw obstacle iff not and obstacle exceeds 0.4, traversable iff neither, with cost in [1, 99]; it is never a flagged obstacle |
| `WeightMap.DocumentedRange` | include/gladys/weight_map.hpp:61-66 | on in-range input the result is the unknown sentinel, the obstacle infinity, or a finite weight in [1, 100] |
| `WeightMap.WeightImage` | include/gladys/weight_map.hpp:73 | every cost in [1, 99] is the weight of some in-range probability vector, so the bound in ComputeWeightStates is tight |
| `WeightMap.MixMonotone` | include/gladys/weight_map.hpp:73 | in the traversable branch, raising flat, rough or slope by any positive amount strictly raises the weight; a rise in slope raises it most and a rise in flat least |
| `WeightMap.OutOfRangeForgesSentinels` | include/gladys/weight_map.hpp:67-74 | without the range requirement the classifier can return exactly the flagged-obstacle or the unknown sentinel |
| `WeightMap.StateOf` | include/gladys/weight_map.hpp:29-59 | each raw weight reads as exactly one state: raw obstacle iff `is_obstacle`, flagged obstacle iff `is_flag_obstacle`, unknown iff it is -1, otherwise the finite cost it holds |
| `WeightMap.Encode` | include/gladys/weight_map.hpp:29-59 | writing an encodable state and reading it back gives the same state |
| `WeightMap.StateRoundTrip` | include/gladys/weight_map.hpp:29-59 | reading a raw weight and writing it back gives the same weight |
| `WeightMap.SentinelsDistinct` | include/gladys/weight_map.hpp:29-58 | no weight is both a raw and a flagged obstacle; neither predicate holds for -1 or for any finite weight in [1, 100] |
| `WeightMap.Flagged` | include/gladys/weight_map.hpp:50-53 | the flagged value is always a raw or a flagged obstacle; it is a raw obstacle iff the old value was; the value is unchanged iff it already was a raw or flagged obstacle |
| `WeightMap.FlaggedIdempotent` | include/gladys/weight_map.hpp:50-53 | flagging a value twice equals flagging it once |
| `WeightMap.FlagCell` | include/gladys/weight_map.hpp:50-53 | flagging cell i of a band keeps its length, makes cell i a raw or flagged obstacle, keeps it a raw obstacle iff it was one, and leaves every other cell unchanged |
| `WeightMap.FlagCellIdempotent` | include/gladys/weight_map.hpp:50-53 | flagging the same cell of a band twice equals flagging it once |
| `WeightMap.FlagCellCommutes` | include/gladys/weight_map.hpp:50-53 | flagging two cells gives the same band in either order |
| `WeightMap.FlagAsObstacle` | include/gladys/weight_map.hpp:50-53 | the in-place update of one array cell: the new array equals FlagCell of the old one, so a raw obstacle is left as is, anything else becomes -2, and no other cell changes |

## Left out

- `weight_map::load` (lines 43-47): reads a GeoTiff region and a JSON robot model. This is file I/O.
- `weight_map::_load` (line 48): its body is not part of this model. That body applies the classifier over the raster and inflates obstacles by the robot's radius. The inflation algorithm is therefore not modelled, only the per-cell updater it uses.
- The getters, `get_weight_band`, `get_map`, `get_region` and `save` (lines 76-112): thin wrappers over the raster collaborator.
- The navigation graph, visibility and communication code, the `region_graph` driver and the `disputm.py` tool: their implementations are not part of this model.
- IEEE single-precision behaviour: all arithmetic is over reals. This leaves out rounding of the mix, the float/double conversions in the threshold tests, and NaN inputs.
- ComputeWeight: at the obstacle threshold (line 70) the model and the C++ disagree on a stored probability of 0.4. The float 0.4f widens to the double 0.4000000059604645, which exceeds 0.4, so the C++ returns the infinity, while the model returns the finite mix. At the no-3D-data threshold (line 68) they agree: 0.9f widens to 0.8999999761581421, which is below 0.9.
- ComputeWeight: requires at least five bands. The C++ reads index 4 (slope) without a bounds check, so a shorter vector is undefined behaviour there, not a handled case. Whether the real call site meets this is unknown: the code in `_load` that builds each cell's vector is not part of this model, and the only region built in test/test_gladys.cpp (lines 36-38) has four bands and no slope band.
