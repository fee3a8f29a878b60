/**
 * Per-cell traversal cost of the weight map: the terrain-class band indices,
 * the sentinel encoding of a weight cell, the classifier that turns a vector
 * of class probabilities into one weight, and the updater that marks a cell
 * as an inflated obstacle.
 *
 * Probabilities and weights are reals; the floating-point infinity that
 * marks a raw obstacle is the constructor `Infinite` of `Weight`.
 */
module WeightMap {

  // ---------------------------------------------------------------------------
  // Terrain classes: one probability band per class, in this order.
  // ---------------------------------------------------------------------------

  const No3DClass: nat := 0
  const FlatClass: nat := 1
  const ObstacleClass: nat := 2
  const RoughClass: nat := 3
  const SlopeClass: nat := 4
  /** Number of classes, hence the least length of a probability vector. */
  const NRaster: nat := 5

  /** The indices of the five terrain classes. */
  function Classes(): set<nat> {
    {No3DClass, FlatClass, ObstacleClass, RoughClass, SlopeClass}
  }

  /** The class indices are distinct and are exactly the indices below NRaster. */
  lemma ClassIndices()
    ensures |Classes()| == NRaster
    ensures forall k: nat :: k in Classes() <==> k < NRaster
  {
  }

  /** Each class probability the classifier reads lies in [0, 1]. */
  predicate InRange(data: seq<real>) {
    |data| >= NRaster &&
    forall k :: 0 <= k < NRaster ==> 0.0 <= data[k] <= 1.0
  }

  // ---------------------------------------------------------------------------
  // Weight cells and their sentinels.
  // ---------------------------------------------------------------------------

  /** A single-precision weight: a finite number or positive infinity. */
  datatype Weight = Finite(value: real) | Infinite

  /** Positive infinity: a raw obstacle, before inflation. */
  const HugeValf: Weight := Infinite
  /** A cell that became impassable only through obstacle inflation. */
  const WFlagObstacle: Weight := Finite(-2.0)
  /** Not enough classification confidence. */
  const WUnknown: Weight := Finite(-1.0)

  /** The three sentinels are pairwise distinct; two are finite and negative. */
  lemma SentinelEncoding()
    ensures WUnknown.Finite? && WUnknown.value == -1.0
    ensures WFlagObstacle.Finite? && WFlagObstacle.value == -2.0
    ensures HugeValf.Infinite?
    ensures WUnknown != WFlagObstacle && WUnknown != HugeValf && WFlagObstacle != HugeValf
  {
  }

  /** A raw obstacle: the weight is the infinity. */
  predicate IsObstacle(w: Weight)
    ensures IsObstacle(w) <==> w.Infinite?
  {
    w == HugeValf
  }

  /** An inflated obstacle: the weight is exactly -2. */
  predicate IsFlagObstacle(w: Weight)
    ensures IsFlagObstacle(w) <==> w.Finite? && w.value == -2.0
  {
    w == WFlagObstacle
  }

  /** The four meanings a weight cell can carry. */
  datatype CellState = Traversable(cost: real) | Unknown | RawObstacle | FlagObstacle

  /** Reads a raw weight as the state it encodes; every other finite value is a cost. */
  function StateOf(w: Weight): (c: CellState)
    ensures c == RawObstacle <==> IsObstacle(w)
    ensures c == FlagObstacle <==> IsFlagObstacle(w)
    ensures c == Unknown <==> w == WUnknown
    ensures c.Traversable? <==> w.Finite? && w != WUnknown && w != WFlagObstacle
    ensures c.Traversable? ==> w == Finite(c.cost)
  {
    if IsObstacle(w) then RawObstacle
    else if IsFlagObstacle(w) then FlagObstacle
    else if w == WUnknown then Unknown
    else Traversable(w.value)
  }

  /** A state that has a raw encoding: a cost never equals a sentinel. */
  predicate Encodable(c: CellState) {
    c.Traversable? ==> c.cost != -1.0 && c.cost != -2.0
  }

  /** Writes a state back as a raw weight. */
  function Encode(c: CellState): (w: Weight)
    ensures Encodable(c) ==> StateOf(w) == c
  {
    match c
    case Traversable(cost) => Finite(cost)
    case Unknown => WUnknown
    case RawObstacle => HugeValf
    case FlagObstacle => WFlagObstacle
  }

  /** Reading then writing a weight gives it back, and every read state is encodable. */
  lemma StateRoundTrip(w: Weight)
    ensures Encodable(StateOf(w))
    ensures Encode(StateOf(w)) == w
  {
  }

  /**
   * The sentinels are pairwise distinct, and neither obstacle predicate holds
   * for the unknown sentinel or for any cost in the documented range.
   */
  lemma SentinelsDistinct(w: Weight)
    ensures !(IsObstacle(w) && IsFlagObstacle(w))
    ensures !IsObstacle(WUnknown) && !IsFlagObstacle(WUnknown)
    ensures w.Finite? && 1.0 <= w.value <= 100.0 ==>
              !IsObstacle(w) && !IsFlagObstacle(w) && w != WUnknown
  {
  }

  // ---------------------------------------------------------------------------
  // The classifier.
  // ---------------------------------------------------------------------------

  /** Cost of a traversable cell: flat terrain is cheapest, slope dearest. */
  function Mix(flat: real, rough: real, slope: real): (w: real)
    ensures 0.0 <= flat <= 1.0 && 0.0 <= rough <= 1.0 && 0.0 <= slope <= 1.0 ==>
              1.0 <= w <= 99.0
  {
    1.0 + 98.0 * (flat * 0.1 + rough * 0.3 + slope * 0.6)
  }

  /**
   * Classifies one cell by a fixed priority: unknown first, then a raw
   * obstacle, otherwise the weighted mix of flat, rough and slope.
   */
  function ComputeWeight(data: seq<real>): (r: Weight)
    requires |data| >= NRaster
    ensures data[No3DClass] > 0.9 ==> r == WUnknown
    ensures IsObstacle(r) <==> data[No3DClass] <= 0.9 && data[ObstacleClass] > 0.4
    ensures data[No3DClass] <= 0.9 && data[ObstacleClass] <= 0.4 ==>
              r == Finite(Mix(data[FlatClass], data[RoughClass], data[SlopeClass]))
  {
    if data[No3DClass] > 0.9 then
      WUnknown
    else if data[ObstacleClass] > 0.4 then
      HugeValf
    else
      Finite(Mix(data[FlatClass], data[RoughClass], data[SlopeClass]))
  }

  /**
   * On in-range input the result is exactly one of: unknown (iff the
   * no-3D-data probability exceeds 0.9), a raw obstacle (iff it does not and
   * the obstacle probability exceeds 0.4), or a cost in [1, 99]; never a
   * flagged obstacle.
   */
  lemma ComputeWeightStates(data: seq<real>)
    requires InRange(data)
    ensures StateOf(ComputeWeight(data)) == Unknown <==> data[No3DClass] > 0.9
    ensures StateOf(ComputeWeight(data)) == RawObstacle <==>
              data[No3DClass] <= 0.9 && data[ObstacleClass] > 0.4
    ensures StateOf(ComputeWeight(data)).Traversable? <==>
              data[No3DClass] <= 0.9 && data[ObstacleClass] <= 0.4
    ensures StateOf(ComputeWeight(data)).Traversable? ==>
              1.0 <= StateOf(ComputeWeight(data)).cost <= 99.0
    ensures StateOf(ComputeWeight(data)) != FlagObstacle
    ensures !IsFlagObstacle(ComputeWeight(data))
  {
  }

  /** The documented contract: a weight in [1, 100], or -1 when unknown, or the obstacle infinity. */
  lemma DocumentedRange(data: seq<real>)
    requires InRange(data)
    ensures ComputeWeight(data) == WUnknown || IsObstacle(ComputeWeight(data)) ||
            (ComputeWeight(data).Finite? && 1.0 <= ComputeWeight(data).value <= 100.0)
  {
  }

  /**
   * The cost range [1, 99] is tight: every value in it is the weight of some
   * in-range probability vector, so 99 is reached and nothing above it is.
   */
  lemma WeightImage(w: real)
    requires 1.0 <= w <= 99.0
    ensures exists data :: InRange(data) && ComputeWeight(data) == Finite(w)
  {
    var t := (w - 1.0) / 98.0;
    var data := [0.0, t, 0.0, t, t];
    assert InRange(data);
    assert ComputeWeight(data) == Finite(w);
  }

  /** Raises the probability of class `k` by `d`. */
  function Raise(data: seq<real>, k: nat, d: real): (r: seq<real>)
    requires k < |data|
    ensures |r| == |data| && r[k] == data[k] + d
    ensures forall j :: 0 <= j < |data| && j != k ==> r[j] == data[j]
  {
    data[k := data[k] + d]
  }

  /**
   * In the traversable branch the weight strictly increases with each of
   * flat, rough and slope, and a rise in slope costs most, one in flat least.
   */
  lemma MixMonotone(data: seq<real>, d: real)
    requires |data| >= NRaster
    requires data[No3DClass] <= 0.9 && data[ObstacleClass] <= 0.4
    requires d > 0.0
    ensures ComputeWeight(Raise(data, FlatClass, d)).Finite?
    ensures ComputeWeight(Raise(data, RoughClass, d)).Finite?
    ensures ComputeWeight(Raise(data, SlopeClass, d)).Finite?
    ensures ComputeWeight(data).Finite?
    ensures ComputeWeight(data).value < ComputeWeight(Raise(data, FlatClass, d)).value
    ensures ComputeWeight(Raise(data, FlatClass, d)).value <
            ComputeWeight(Raise(data, RoughClass, d)).value
    ensures ComputeWeight(Raise(data, RoughClass, d)).value <
            ComputeWeight(Raise(data, SlopeClass, d)).value
  {
  }

  /**
   * The classifier does not clamp its input: a negative slope probability
   * yields exactly the flagged-obstacle sentinel, or the unknown sentinel,
   * so the range requirement of ComputeWeightStates cannot be dropped.
   */
  lemma OutOfRangeForgesSentinels()
    ensures ComputeWeight([0.0, 0.0, 0.0, 0.0, -5.0 / 98.0]) == WFlagObstacle
    ensures ComputeWeight([0.0, 0.0, 0.0, 0.0, -5.0 / 147.0]) == WUnknown
  {
  }

  // ---------------------------------------------------------------------------
  // Flagging a cell as an inflated obstacle.
  // ---------------------------------------------------------------------------

  /**
   * The new value of a flagged cell: a raw obstacle stays one, anything else
   * becomes the flagged-obstacle sentinel.
   */
  function Flagged(w: Weight): (r: Weight)
    ensures IsObstacle(r) || IsFlagObstacle(r)
    ensures IsObstacle(r) <==> IsObstacle(w)
    ensures r == w <==> IsObstacle(w) || IsFlagObstacle(w)
  {
    if !IsObstacle(w) then WFlagObstacle else w
  }

  lemma FlaggedIdempotent(w: Weight)
    ensures Flagged(Flagged(w)) == Flagged(w)
  {
  }

  /** The weight band after flagging cell `i`. */
  function FlagCell(s: seq<Weight>, i: nat): (t: seq<Weight>)
    requires i < |s|
    ensures |t| == |s|
    ensures IsObstacle(t[i]) || IsFlagObstacle(t[i])
    ensures IsObstacle(t[i]) <==> IsObstacle(s[i])
    ensures forall j :: 0 <= j < |s| && j != i ==> t[j] == s[j]
  {
    s[i := Flagged(s[i])]
  }

  /** Flagging a cell twice is flagging it once. */
  lemma FlagCellIdempotent(s: seq<Weight>, i: nat)
    requires i < |s|
    ensures FlagCell(FlagCell(s, i), i) == FlagCell(s, i)
  {
  }

  /** Flagging two cells gives the same band in either order. */
  lemma FlagCellCommutes(s: seq<Weight>, i: nat, j: nat)
    requires i < |s| && j < |s|
    ensures FlagCell(FlagCell(s, i), j) == FlagCell(FlagCell(s, j), i)
  {
  }

  /** Marks cell `i` of a weight band as an inflated obstacle, in place. */
  method FlagAsObstacle(a: array<Weight>, i: nat)
    requires i < a.Length
    modifies a
    ensures a[..] == FlagCell(old(a[..]), i)
    ensures IsObstacle(a[i]) || IsFlagObstacle(a[i])
    ensures old(IsObstacle(a[i])) ==> a[i] == old(a[i])
    ensures !old(IsObstacle(a[i])) ==> a[i] == WFlagObstacle
  {
    if !IsObstacle(a[i]) {
      a[i] := WFlagObstacle;
    }
  }
}
