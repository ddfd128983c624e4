/**
 * Weight formulas of src/lib/calculations.ts: arrow length, total weight, grains per pound,
 * front-of-center by moment balance, and the point weight that reaches a target GPP.
 * Quantities are exact reals; the division guards the code leaves to its callers are
 * preconditions here.
 */
module WeightEngine {

  /** calculateArrowLength: the overhang is what the arrow adds to the draw length. */
  function ArrowLength(drawLength: real, overhang: real): (r: real)
    ensures r - drawLength == overhang
  {
    drawLength + overhang
  }

  /** calculateTotalWeight: shaft grains-per-inch times length, plus the three components. */
  function TotalWeight(shaftWeight: real, arrowLength: real, pointWeight: real, nockWeight: real, fletchingWeight: real): real {
    var totalShaftWeight := shaftWeight * arrowLength;
    totalShaftWeight + pointWeight + nockWeight + fletchingWeight
  }

  /** calculateGPP: grains of arrow per pound of draw weight. */
  function Gpp(totalWeight: real, drawWeight: real): (r: real)
    requires drawWeight != 0.0
    ensures r * drawWeight == totalWeight
  {
    totalWeight / drawWeight
  }

  /**
   * calculateFOC: balance point by moments about the nock end (point at the tip, everything
   * else at the middle), as a percentage of length forward of the geometric centre.
   */
  function Foc(arrowLength: real, pointWeight: real, totalWeight: real): real
    requires arrowLength != 0.0 && totalWeight != 0.0
  {
    var shaftWeight := totalWeight - pointWeight;
    var totalMoment := pointWeight * arrowLength + shaftWeight * (arrowLength / 2.0);
    var balancePoint := totalMoment / totalWeight;
    var geometricCenter := arrowLength / 2.0;
    ((balancePoint - geometricCenter) / arrowLength) * 100.0
  }

  /** The moment-balance FOC reduces to half the point's share of the weight, in percent. */
  lemma FocIsHalfPointShare(arrowLength: real, pointWeight: real, totalWeight: real)
    requires arrowLength != 0.0 && totalWeight != 0.0
    ensures Foc(arrowLength, pointWeight, totalWeight) == 50.0 * pointWeight / totalWeight
  {
    var L, p, t := arrowLength, pointWeight, totalWeight;
    var moment := p * L + (t - p) * (L / 2.0);
    assert moment == (t + p) * (L / 2.0);
    var balance := moment / t;
    assert balance * t == (t + p) * (L / 2.0);
    var offset := balance - L / 2.0;
    assert offset * t == p * (L / 2.0);
    assert offset == p * L / (2.0 * t);
    assert offset / L == p / (2.0 * t);
  }

  /** FOC lies in [0, 50] whenever the point is a part of a positive total weight. */
  lemma FocBounds(arrowLength: real, pointWeight: real, totalWeight: real)
    requires arrowLength != 0.0 && totalWeight > 0.0
    requires 0.0 <= pointWeight <= totalWeight
    ensures 0.0 <= Foc(arrowLength, pointWeight, totalWeight) <= 50.0
  {
    FocIsHalfPointShare(arrowLength, pointWeight, totalWeight);
    assert pointWeight / totalWeight <= 1.0;
  }

  /** The point weight that makes the arrow weigh exactly `desiredGpp` grains per pound. */
  function RawPointWeight(drawWeight: real, desiredGpp: real, shaftWeight: real, arrowLength: real,
                          nockWeight: real, fletchingWeight: real): real {
    var desiredTotalWeight := desiredGpp * drawWeight;
    var fixedWeight := shaftWeight * arrowLength + nockWeight + fletchingWeight;
    desiredTotalWeight - fixedWeight
  }

  /** calculateOptimalPointWeight: the exact solution, never below a 75-grain point. */
  function OptimalPointWeight(drawWeight: real, drawLength: real, desiredGpp: real, shaftWeight: real,
                              arrowLength: real, nockWeight: real, fletchingWeight: real): (r: real)
    ensures r >= 75.0
    ensures r == 75.0 || r == RawPointWeight(drawWeight, desiredGpp, shaftWeight, arrowLength, nockWeight, fletchingWeight)
    ensures RawPointWeight(drawWeight, desiredGpp, shaftWeight, arrowLength, nockWeight, fletchingWeight) <= r
  {
    var desiredTotalWeight := desiredGpp * drawWeight;
    var shaftTotalWeight := shaftWeight * arrowLength;
    var fixedWeight := shaftTotalWeight + nockWeight + fletchingWeight;
    if 75.0 >= desiredTotalWeight - fixedWeight then 75.0 else desiredTotalWeight - fixedWeight
  }

  /** When the exact solution is at least 75 grains, the arrow it builds hits the target GPP. */
  lemma OptimalPointWeightHitsTarget(drawWeight: real, drawLength: real, desiredGpp: real, shaftWeight: real,
                                     arrowLength: real, nockWeight: real, fletchingWeight: real)
    requires drawWeight != 0.0
    requires RawPointWeight(drawWeight, desiredGpp, shaftWeight, arrowLength, nockWeight, fletchingWeight) >= 75.0
    ensures var point := OptimalPointWeight(drawWeight, drawLength, desiredGpp, shaftWeight, arrowLength, nockWeight, fletchingWeight);
      Gpp(TotalWeight(shaftWeight, arrowLength, point, nockWeight, fletchingWeight), drawWeight) == desiredGpp
  {
    var point := OptimalPointWeight(drawWeight, drawLength, desiredGpp, shaftWeight, arrowLength, nockWeight, fletchingWeight);
    assert TotalWeight(shaftWeight, arrowLength, point, nockWeight, fletchingWeight) == desiredGpp * drawWeight;
  }

  /** When the floor applies, the arrow is heavier than the target for a positive draw weight. */
  lemma OptimalPointWeightFloorOvershoots(drawWeight: real, drawLength: real, desiredGpp: real, shaftWeight: real,
                                         arrowLength: real, nockWeight: real, fletchingWeight: real)
    requires drawWeight > 0.0
    requires RawPointWeight(drawWeight, desiredGpp, shaftWeight, arrowLength, nockWeight, fletchingWeight) < 75.0
    ensures var point := OptimalPointWeight(drawWeight, drawLength, desiredGpp, shaftWeight, arrowLength, nockWeight, fletchingWeight);
      point == 75.0 &&
      Gpp(TotalWeight(shaftWeight, arrowLength, point, nockWeight, fletchingWeight), drawWeight) > desiredGpp
  {
    var point := OptimalPointWeight(drawWeight, drawLength, desiredGpp, shaftWeight, arrowLength, nockWeight, fletchingWeight);
    var total := TotalWeight(shaftWeight, arrowLength, point, nockWeight, fletchingWeight);
    assert total > desiredGpp * drawWeight;
    var g := Gpp(total, drawWeight);
    assert g * drawWeight > desiredGpp * drawWeight;
  }

  /** Total weight is additive in the point: a heavier point adds exactly its extra grains. */
  lemma TotalWeightPointAdditive(shaftWeight: real, arrowLength: real, p1: real, p2: real,
                                 nockWeight: real, fletchingWeight: real)
    ensures TotalWeight(shaftWeight, arrowLength, p2, nockWeight, fletchingWeight)
      - TotalWeight(shaftWeight, arrowLength, p1, nockWeight, fletchingWeight) == p2 - p1
    ensures TotalWeight(shaftWeight, arrowLength, p1, nockWeight, fletchingWeight) - p1
      == shaftWeight * arrowLength + nockWeight + fletchingWeight
  {
  }

  /** The default setup: 8.5 gr/in over 28", 125 + 8 + 21 grains, on a 50 lb bow. */
  lemma DefaultSetupWeights()
    ensures TotalWeight(8.5, 28.0, 125.0, 8.0, 21.0) == 392.0
    ensures Gpp(392.0, 50.0) == 7.84
    ensures ArrowLength(28.0, 1.0) == 29.0
  {
  }
}
