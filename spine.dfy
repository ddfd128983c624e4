/**
 * Dynamic spine recommendation (calculateSpineRecommendation, src/lib/calculations.ts:19-70):
 * a linear base spine, snapped to the common spine ladder by a left-to-right reduce that
 * replaces the kept entry only when a later one is strictly closer, a clamped +/-50 range,
 * and advisory notes in a fixed order.
 */
module SpineEngine {
  import opened ArcheryTypes
  import opened ReferenceData

  function Abs(x: real): real {
    if x < 0.0 then -x else x
  }

  function Max(a: real, b: real): real {
    if a >= b then a else b
  }

  function Min(a: real, b: real): real {
    if a <= b then a else b
  }

  /** The unsnapped dynamic spine for a bow setup and shaft material. */
  function BaseSpine(drawWeight: real, drawLength: real, pointWeight: real, material: Material): real {
    var c := ConstantsFor(material);
    (drawWeight * 0.9 + (drawLength - 28.0) * 10.0 + (pointWeight - 125.0) * c.weightFactor) * c.baseModifier
  }

  /**
   * The value of `s.reduce((prev, curr) => |curr - x| < |prev - x| ? curr : prev)`:
   * the fold is unrolled from its last step.
   */
  function Nearest(s: seq<real>, x: real): real
    requires |s| > 0
  {
    if |s| == 1 then s[0]
    else
      var prev := Nearest(s[..|s| - 1], x);
      if Abs(s[|s| - 1] - x) < Abs(prev - x) then s[|s| - 1] else prev
  }

  /** `s[k]` is strictly closer to `x` than every entry before it. */
  predicate FirstClosestAt(s: seq<real>, x: real, k: int) {
    0 <= k < |s| && forall j :: 0 <= j < k ==> Abs(s[j] - x) > Abs(s[k] - x)
  }

  /** The reduce returns the FIRST entry at minimal distance from `x`. */
  lemma {:induction false} NearestIsFirstClosest(s: seq<real>, x: real)
    requires |s| > 0
    ensures exists k :: FirstClosestAt(s, x, k) && s[k] == Nearest(s, x)
    ensures forall j :: 0 <= j < |s| ==> Abs(Nearest(s, x) - x) <= Abs(s[j] - x)
  {
    if |s| > 1 {
      var init := s[..|s| - 1];
      NearestIsFirstClosest(init, x);
      var k :| FirstClosestAt(init, x, k) && init[k] == Nearest(init, x);
      if Abs(s[|s| - 1] - x) < Abs(Nearest(init, x) - x) {
        forall j | 0 <= j < |s| - 1 ensures Abs(s[j] - x) > Abs(s[|s| - 1] - x) {
          assert s[j] == init[j];
        }
        assert FirstClosestAt(s, x, |s| - 1);
      } else {
        assert forall j :: 0 <= j < k ==> s[j] == init[j];
        assert FirstClosestAt(s, x, k);
        forall j | 0 <= j < |s| ensures Abs(Nearest(s, x) - x) <= Abs(s[j] - x) {
          if j < |s| - 1 {
            assert s[j] == init[j];
          }
        }
      }
    } else {
      assert FirstClosestAt(s, x, 0);
    }
  }

  /** The ladder is strictly increasing. */
  lemma CommonSpinesIncreasing()
    ensures forall i, j :: 0 <= i < j < |CommonSpines| ==> CommonSpines[i] < CommonSpines[j]
  {
  }

  /**
   * On the ladder: the recommendation is a ladder entry, no entry is closer, and on a tie
   * the smaller entry is kept.
   */
  lemma NearestOnLadder(x: real)
    ensures Nearest(CommonSpines, x) in CommonSpines
    ensures forall j :: 0 <= j < |CommonSpines| ==>
      Abs(Nearest(CommonSpines, x) - x) <= Abs(CommonSpines[j] - x)
    ensures forall j :: 0 <= j < |CommonSpines| && Abs(CommonSpines[j] - x) == Abs(Nearest(CommonSpines, x) - x) ==>
      Nearest(CommonSpines, x) <= CommonSpines[j]
  {
    NearestIsFirstClosest(CommonSpines, x);
    CommonSpinesIncreasing();
  }

  /** Notes pushed for the given point weight and draw length, in push order. */
  function SpineNotes(pointWeight: real, drawLength: real): seq<SpineNote> {
    (if pointWeight > 150.0 then [HeavyPoint] else []) +
    (if pointWeight < 100.0 then [LightPoint] else []) +
    (if drawLength > 30.0 then [LongDraw] else []) +
    (if drawLength < 26.0 then [ShortDraw] else [])
  }

  /** Position of a note in the fixed push order. */
  function NoteRank(n: SpineNote): nat {
    match n
    case HeavyPoint => 0
    case LightPoint => 1
    case LongDraw => 2
    case ShortDraw => 3
  }

  /** The recommendation the calculation produces, stated as one value. */
  function Recommendation(drawWeight: real, drawLength: real, pointWeight: real, material: Material): SpineRecommendation {
    var r := Nearest(CommonSpines, BaseSpine(drawWeight, drawLength, pointWeight, material));
    SpineRecommendation(Max(200.0, r - 50.0), Min(900.0, r + 50.0), r, material, SpineNotes(pointWeight, drawLength))
  }

  /**
   * The recommended spine is a ladder entry inside its own range, the range lies in
   * [200, 900], and it is 100 wide except at the two ends of the ladder, where it is 50.
   */
  lemma RecommendationRange(drawWeight: real, drawLength: real, pointWeight: real, material: Material)
    ensures var rec := Recommendation(drawWeight, drawLength, pointWeight, material);
      && rec.recommended in CommonSpines
      && 200.0 <= rec.minSpine <= rec.recommended <= rec.maxSpine <= 900.0
      && rec.maxSpine - rec.minSpine == (if rec.recommended == 200.0 || rec.recommended == 900.0 then 50.0 else 100.0)
      && rec.material == material
  {
    NearestOnLadder(BaseSpine(drawWeight, drawLength, pointWeight, material));
  }

  /**
   * The notes are exactly the triggered ones, in the fixed order heavy-point, light-point,
   * long-draw, short-draw; the two point notes never both appear, nor the two draw notes.
   */
  lemma SpineNotesExact(pointWeight: real, drawLength: real)
    ensures var notes := SpineNotes(pointWeight, drawLength);
      && (HeavyPoint in notes <==> pointWeight > 150.0)
      && (LightPoint in notes <==> pointWeight < 100.0)
      && (LongDraw in notes <==> drawLength > 30.0)
      && (ShortDraw in notes <==> drawLength < 26.0)
      && (forall i, j :: 0 <= i < j < |notes| ==> NoteRank(notes[i]) < NoteRank(notes[j]))
      && !(HeavyPoint in notes && LightPoint in notes)
      && !(LongDraw in notes && ShortDraw in notes)
  {
  }

  /** The `commonSpines.reduce(...)` step: a scan that keeps an entry until a later one is strictly closer. */
  method SnapToCommonSpine(baseSpine: real) returns (recommended: real)
    ensures recommended == Nearest(CommonSpines, baseSpine)
    ensures recommended in CommonSpines
    ensures forall j :: 0 <= j < |CommonSpines| ==> Abs(recommended - baseSpine) <= Abs(CommonSpines[j] - baseSpine)
  {
    var ladder := CommonSpines;
    recommended := ladder[0];
    for i := 1 to |ladder|
      invariant recommended == Nearest(ladder[..i], baseSpine)
    {
      assert ladder[..i + 1][..i] == ladder[..i];
      if Abs(ladder[i] - baseSpine) < Abs(recommended - baseSpine) {
        recommended := ladder[i];
      }
    }
    assert ladder[..|ladder|] == ladder;
    NearestOnLadder(baseSpine);
  }

  /** calculateSpineRecommendation: mutates the base spine, reduces the ladder, pushes notes. */
  method CalculateSpineRecommendation(drawWeight: real, drawLength: real, pointWeight: real, material: Material)
    returns (rec: SpineRecommendation)
    ensures rec == Recommendation(drawWeight, drawLength, pointWeight, material)
    ensures rec.recommended in CommonSpines
    ensures 200.0 <= rec.minSpine <= rec.recommended <= rec.maxSpine <= 900.0
  {
    var constants := ConstantsFor(material);
    var baseSpine := drawWeight * 0.9 + (drawLength - 28.0) * 10.0;
    var pointAdjustment := (pointWeight - 125.0) * constants.weightFactor;
    baseSpine := baseSpine + pointAdjustment;
    baseSpine := baseSpine * constants.baseModifier;
    assert baseSpine == BaseSpine(drawWeight, drawLength, pointWeight, material);

    var recommended := SnapToCommonSpine(baseSpine);

    var minSpine := Max(200.0, recommended - 50.0);
    var maxSpine := Min(900.0, recommended + 50.0);

    var notes: seq<SpineNote> := [];
    if pointWeight > 150.0 {
      notes := notes + [HeavyPoint];
    }
    if pointWeight < 100.0 {
      notes := notes + [LightPoint];
    }
    if drawLength > 30.0 {
      notes := notes + [LongDraw];
    }
    if drawLength < 26.0 {
      notes := notes + [ShortDraw];
    }

    rec := SpineRecommendation(minSpine, maxSpine, recommended, material, notes);
    RecommendationRange(drawWeight, drawLength, pointWeight, material);
  }
}
