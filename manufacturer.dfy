/**
 * Manufacturer spine matching (getManufacturerSpineRecommendations,
 * src/lib/calculations.ts:75-203). For each series of each manufacturer, the first bucket
 * whose closed draw-weight and point-weight intervals hold the setup gives a spine; an
 * exact-key arrow-length factor and then an exact-key point-weight factor may rescale it
 * (each rescale rounded half-up), each applied rescale adds a note and lowers confidence
 * to medium, and the collected list is sorted by spine. The two per-manufacturer loops of
 * the code are one helper parameterised by manufacturer.
 */
module ManufacturerMatcher {
  import opened ArcheryTypes
  import opened ReferenceData
  import opened AsciiText
  import opened SpineOrdering
  import opened Search

  /** The two manufacturers of the chart, in the order the code visits them. */
  datatype Maker = BlackEagle | Easton

  function MakerName(m: Maker): string {
    match m
    case BlackEagle => "Black Eagle"
    case Easton => "Easton"
  }

  /** Display name of a series: Easton has three renamed keys; every other key is capitalised. */
  function SeriesName(m: Maker, key: string): string {
    match m
    case BlackEagle => Capitalize(key)
    case Easton =>
      if key == "fmj4mm" then "FMJ 4mm"
      else if key == "axisTraditional" then "Axis Traditional"
      else if key == "matchGrade" then "6.5mm Match Grade"
      else Capitalize(key)
  }

  /**
   * Only the three Easton keys are renamed; every other key keeps its length and all but
   * its first character, which is upper-cased.
   */
  lemma SeriesNameShape(m: Maker, key: string)
    ensures m == Easton && key == "fmj4mm" ==> SeriesName(m, key) == "FMJ 4mm"
    ensures m == Easton && key == "axisTraditional" ==> SeriesName(m, key) == "Axis Traditional"
    ensures m == Easton && key == "matchGrade" ==> SeriesName(m, key) == "6.5mm Match Grade"
    ensures (m == BlackEagle || key !in {"fmj4mm", "axisTraditional", "matchGrade"}) ==>
      && |SeriesName(m, key)| == |key|
      && (|key| > 0 ==> SeriesName(m, key)[0] == UpperChar(key[0]) && SeriesName(m, key)[1..] == key[1..])
  {
  }

  /** Both closed intervals of the bucket hold the setup. */
  predicate InBucket(b: Bucket, drawWeight: real, pointWeight: real) {
    drawWeight >= b.drawLo && drawWeight <= b.drawHi &&
    pointWeight >= b.pointLo && pointWeight <= b.pointHi
  }

  /** `spineData.find(...)`: the index of the first bucket holding the setup, if any. */
  function FirstMatch(buckets: seq<Bucket>, drawWeight: real, pointWeight: real): (r: Option<nat>)
    ensures r.Some? ==> r.value < |buckets| && InBucket(buckets[r.value], drawWeight, pointWeight)
    ensures r.Some? ==> forall j :: 0 <= j < r.value ==> !InBucket(buckets[j], drawWeight, pointWeight)
    ensures r.None? <==> forall j :: 0 <= j < |buckets| ==> !InBucket(buckets[j], drawWeight, pointWeight)
  {
    FindFirst(buckets, b => InBucket(b, drawWeight, pointWeight))
  }

  /** `Math.round`: the integer `r` with `r - 1/2 <= x < r + 1/2` (halves round up). */
  function Round(x: real): (r: real)
    ensures r == r.Floor as real
    ensures r - 0.5 <= x < r + 0.5
  {
    (x + 0.5).Floor as real
  }

  /** The arrow-length factor the code applies: only off the 28" baseline, only at an exact key. */
  function LengthFactor(arrowLength: real): Option<real> {
    if arrowLength != 28.0 && arrowLength in ArrowLengthFactors then Some(ArrowLengthFactors[arrowLength]) else None
  }

  /** The point-weight factor the code applies: only off the 100 gr baseline, only at an exact key. */
  function PointFactor(pointWeight: real): Option<real> {
    if pointWeight != 100.0 && pointWeight in PointWeightFactors then Some(PointWeightFactors[pointWeight]) else None
  }

  /** Exactly the non-baseline keys of the two factor tables select an adjustment. */
  lemma AdjustmentKeys(arrowLength: real, pointWeight: real)
    ensures LengthFactor(arrowLength).Some? <==> arrowLength in {26.0, 27.0, 29.0, 30.0, 31.0, 32.0}
    ensures PointFactor(pointWeight).Some? <==> pointWeight in {75.0, 85.0, 125.0, 150.0}
  {
  }

  /** Rescale a spine by a fractional stiffness change, rounded to a whole spine. */
  function Rescale(spine: real, factor: real): real {
    Round(spine * (1.0 + factor))
  }

  /** Apply a factor if one was selected. */
  function RescaleBy(spine: real, factor: Option<real>): real {
    match factor
    case Some(f) => Rescale(spine, f)
    case None => spine
  }

  /** The bucket spine after the length rescale and then the point rescale, compounding. */
  function AdjustedSpine(bucketSpine: real, pointWeight: real, arrowLength: real): real {
    RescaleBy(RescaleBy(bucketSpine, LengthFactor(arrowLength)), PointFactor(pointWeight))
  }

  function AdjustmentNotes(pointWeight: real, arrowLength: real): seq<AdjustmentNote> {
    (if LengthFactor(arrowLength).Some? then [LengthAdjusted(arrowLength)] else []) +
    (if PointFactor(pointWeight).Some? then [PointAdjusted(pointWeight)] else [])
  }

  /** The entry one series contributes, if a bucket of it holds the setup. */
  function MatchSeries(m: Maker, s: SeriesChart, drawWeight: real, pointWeight: real, arrowLength: real)
    : Option<ManufacturerRec>
  {
    match FirstMatch(s.buckets, drawWeight, pointWeight)
    case None => None
    case Some(k) =>
      var notes := AdjustmentNotes(pointWeight, arrowLength);
      Some(ManufacturerRec(
        MakerName(m),
        SeriesName(m, s.key),
        AdjustedSpine(s.buckets[k].recommendedSpine, pointWeight, arrowLength),
        if notes == [] then High else Medium,
        notes))
  }

  /**
   * A series contributes iff one of its buckets holds the setup; its entry carries the
   * manufacturer, the spine of the FIRST such bucket after adjustment, and a confidence
   * that is never low: medium iff some exact-key adjustment applied, else high. At the
   * 28" / 100 gr baseline the bucket spine is returned unchanged and without notes.
   */
  lemma MatchSeriesMeaning(m: Maker, s: SeriesChart, drawWeight: real, pointWeight: real, arrowLength: real)
    ensures var r := MatchSeries(m, s, drawWeight, pointWeight, arrowLength);
      && (r.Some? <==> exists j :: 0 <= j < |s.buckets| && InBucket(s.buckets[j], drawWeight, pointWeight))
      && (r.Some? ==>
        var k := FirstMatch(s.buckets, drawWeight, pointWeight).value;
        && r.value.manufacturer == MakerName(m)
        && r.value.recommendedSpine == AdjustedSpine(s.buckets[k].recommendedSpine, pointWeight, arrowLength)
        && r.value.confidence != Low
        && (r.value.confidence == Medium <==> LengthFactor(arrowLength).Some? || PointFactor(pointWeight).Some?)
        && (arrowLength == 28.0 && pointWeight == 100.0 ==>
              r.value.recommendedSpine == s.buckets[k].recommendedSpine && r.value.notes == []))
  {
  }

  /** A rescale moves the spine by its factor, up to the half-unit of rounding. */
  lemma RescaleNear(spine: real, factor: real)
    ensures -0.5 < Rescale(spine, factor) - spine * (1.0 + factor) <= 0.5
  {
  }

  /** The entries that are present, in order (the pushes of a forEach). */
  function Present(outcomes: seq<Option<ManufacturerRec>>): seq<ManufacturerRec> {
    if outcomes == [] then []
    else
      Present(outcomes[..|outcomes| - 1]) +
      match outcomes[|outcomes| - 1]
      case Some(rec) => [rec]
      case None => []
  }

  /**
   * The positions that contributed: strictly increasing (so each position gives at most one
   * entry, in order), and entry k of `Present(outcomes)` comes from position `r[k]`.
   */
  function PresentAt(outcomes: seq<Option<ManufacturerRec>>): (r: seq<nat>)
    ensures |r| == |Present(outcomes)|
    ensures forall k :: 0 <= k < |r| ==> r[k] < |outcomes| && outcomes[r[k]] == Some(Present(outcomes)[k])
    ensures forall k, l :: 0 <= k < l < |r| ==> r[k] < r[l]
  {
    if outcomes == [] then []
    else
      var n := |outcomes| - 1;
      var init := outcomes[..n];
      var prev := PresentAt(init);
      assert forall k :: 0 <= k < |prev| ==> outcomes[prev[k]] == init[prev[k]];
      assert forall k :: 0 <= k < |prev| ==> Present(outcomes)[k] == Present(init)[k];
      if outcomes[n].Some? then prev + [n] else prev
  }

  /** Every position holding an entry is among the contributing ones. */
  lemma {:induction false} PresentAtComplete(outcomes: seq<Option<ManufacturerRec>>, i: int)
    requires 0 <= i < |outcomes| && outcomes[i].Some?
    ensures i in PresentAt(outcomes)
  {
    var n := |outcomes| - 1;
    if i < n {
      assert outcomes[..n][i] == outcomes[i];
      PresentAtComplete(outcomes[..n], i);
    }
  }

  /** What each series of one manufacturer contributes, series by series. */
  function SeriesOutcomes(m: Maker, series: seq<SeriesChart>, drawWeight: real, pointWeight: real, arrowLength: real)
    : (r: seq<Option<ManufacturerRec>>)
    ensures |r| == |series|
    ensures forall i :: 0 <= i < |series| ==> r[i] == MatchSeries(m, series[i], drawWeight, pointWeight, arrowLength)
  {
    seq(|series|, i requires 0 <= i < |series| => MatchSeries(m, series[i], drawWeight, pointWeight, arrowLength))
  }

  /** The entries of the series of one manufacturer, in series order. */
  function SeriesMatches(m: Maker, series: seq<SeriesChart>, drawWeight: real, pointWeight: real, arrowLength: real)
    : seq<ManufacturerRec>
  {
    Present(SeriesOutcomes(m, series, drawWeight, pointWeight, arrowLength))
  }

  /**
   * Each series contributes at most one entry, in series order, and a series contributes
   * exactly when one of its buckets holds the setup.
   */
  lemma ContributingSeries(m: Maker, series: seq<SeriesChart>, drawWeight: real, pointWeight: real, arrowLength: real)
    ensures var outcomes := SeriesOutcomes(m, series, drawWeight, pointWeight, arrowLength);
      var at := PresentAt(outcomes);
      && (forall k, l :: 0 <= k < l < |at| ==> at[k] < at[l])
      && (forall k :: 0 <= k < |at| ==>
            (at[k] < |series| &&
             MatchSeries(m, series[at[k]], drawWeight, pointWeight, arrowLength) ==
             Some(SeriesMatches(m, series, drawWeight, pointWeight, arrowLength)[k])))
      && (forall i :: 0 <= i < |series| ==>
            (i in at <==> exists j :: 0 <= j < |series[i].buckets| && InBucket(series[i].buckets[j], drawWeight, pointWeight)))
  {
    var outcomes := SeriesOutcomes(m, series, drawWeight, pointWeight, arrowLength);
    var at := PresentAt(outcomes);
    forall i | 0 <= i < |series|
      ensures i in at <==> exists j :: 0 <= j < |series[i].buckets| && InBucket(series[i].buckets[j], drawWeight, pointWeight)
    {
      MatchSeriesMeaning(m, series[i], drawWeight, pointWeight, arrowLength);
      if outcomes[i].Some? {
        PresentAtComplete(outcomes, i);
      }
    }
  }

  /** All entries of the chart before sorting: Black Eagle series first, then Easton. */
  function ChartMatches(chart: SpineChart, drawWeight: real, pointWeight: real, arrowLength: real): seq<ManufacturerRec> {
    SeriesMatches(BlackEagle, chart.blackEagle, drawWeight, pointWeight, arrowLength) +
    SeriesMatches(Easton, chart.easton, drawWeight, pointWeight, arrowLength)
  }

  /** The adjustment step of the forEach callback, on its mutable locals. */
  method AdjustBucketSpine(bucketSpine: real, pointWeight: real, arrowLength: real)
    returns (adjustedSpine: real, confidence: Confidence, notes: seq<AdjustmentNote>)
    ensures adjustedSpine == AdjustedSpine(bucketSpine, pointWeight, arrowLength)
    ensures notes == AdjustmentNotes(pointWeight, arrowLength)
    ensures confidence == if notes == [] then High else Medium
  {
    notes := [];
    confidence := High;

    adjustedSpine := bucketSpine;
    if arrowLength != 28.0 {
      if arrowLength in ArrowLengthFactors {
        var lengthAdjustment := ArrowLengthFactors[arrowLength];
        assert LengthFactor(arrowLength) == Some(lengthAdjustment);
        adjustedSpine := Rescale(bucketSpine, lengthAdjustment);
        notes := notes + [LengthAdjusted(arrowLength)];
        confidence := Medium;
      }
    }
    ghost var afterLength := adjustedSpine;
    assert afterLength == RescaleBy(bucketSpine, LengthFactor(arrowLength));

    if pointWeight != 100.0 {
      if pointWeight in PointWeightFactors {
        var pointAdjustment := PointWeightFactors[pointWeight];
        assert PointFactor(pointWeight) == Some(pointAdjustment);
        adjustedSpine := Rescale(adjustedSpine, pointAdjustment);
        notes := notes + [PointAdjusted(pointWeight)];
        if confidence == High {
          confidence := Medium;
        }
      }
    }
    assert adjustedSpine == RescaleBy(afterLength, PointFactor(pointWeight));
  }

  /** The forEach callback: find the first bucket holding the setup and build the entry. */
  method MatchOneSeries(m: Maker, entry: SeriesChart, drawWeight: real, pointWeight: real, arrowLength: real)
    returns (rec: Option<ManufacturerRec>)
    ensures rec == MatchSeries(m, entry, drawWeight, pointWeight, arrowLength)
  {
    var match_ := FirstMatch(entry.buckets, drawWeight, pointWeight);
    if match_.None? {
      return None;
    }
    var bucket := entry.buckets[match_.value];
    var adjustedSpine, confidence, notes := AdjustBucketSpine(bucket.recommendedSpine, pointWeight, arrowLength);
    rec := Some(ManufacturerRec(MakerName(m), SeriesName(m, entry.key), adjustedSpine, confidence, notes));
  }

  /** One manufacturer's forEach over its series, pushing each match. */
  method CollectSeries(m: Maker, series: seq<SeriesChart>, drawWeight: real, pointWeight: real, arrowLength: real)
    returns (found: seq<ManufacturerRec>)
    ensures found == SeriesMatches(m, series, drawWeight, pointWeight, arrowLength)
    ensures forall r :: r in found ==> r.manufacturer == MakerName(m) && r.confidence != Low
  {
    ghost var outcomes := SeriesOutcomes(m, series, drawWeight, pointWeight, arrowLength);
    found := [];
    for i := 0 to |series|
      invariant found == Present(outcomes[..i])
    {
      assert outcomes[..i + 1][..i] == outcomes[..i];
      var rec := MatchOneSeries(m, series[i], drawWeight, pointWeight, arrowLength);
      if rec.Some? {
        found := found + [rec.value];
      }
    }
    assert outcomes[..|series|] == outcomes;
    SeriesMatchesFacts(m, series, drawWeight, pointWeight, arrowLength);
  }

  /** Every collected entry names its manufacturer and has high or medium confidence. */
  lemma SeriesMatchesFacts(m: Maker, series: seq<SeriesChart>, drawWeight: real, pointWeight: real, arrowLength: real)
    ensures forall r :: r in SeriesMatches(m, series, drawWeight, pointWeight, arrowLength) ==>
      r.manufacturer == MakerName(m) && r.confidence != Low
  {
    var outcomes := SeriesOutcomes(m, series, drawWeight, pointWeight, arrowLength);
    var found := Present(outcomes);
    var at := PresentAt(outcomes);
    forall r | r in found ensures r.manufacturer == MakerName(m) && r.confidence != Low {
      var k :| 0 <= k < |found| && found[k] == r;
      MatchSeriesMeaning(m, series[at[k]], drawWeight, pointWeight, arrowLength);
    }
  }

  /** `Array.prototype.some` over the result: does an entry recommend exactly this spine? */
  predicate RecommendsSpine(recs: seq<ManufacturerRec>, spine: real) {
    exists k :: 0 <= k < |recs| && recs[k].recommendedSpine == spine
  }

  /**
   * getManufacturerSpineRecommendations: the entries of both manufacturers, sorted
   * ascending by spine, stably (entries of equal spine keep table order).
   */
  method GetManufacturerSpineRecommendations(chart: SpineChart, drawWeight: real, pointWeight: real, arrowLength: real)
    returns (recs: seq<ManufacturerRec>)
    ensures SortedBySpine(recs)
    ensures multiset(recs) == multiset(ChartMatches(chart, drawWeight, pointWeight, arrowLength))
    ensures forall v :: WithSpine(recs, v) == WithSpine(ChartMatches(chart, drawWeight, pointWeight, arrowLength), v)
    ensures forall r :: r in recs ==> r.confidence != Low
    ensures forall v :: RecommendsSpine(recs, v) <==> RecommendsSpine(ChartMatches(chart, drawWeight, pointWeight, arrowLength), v)
  {
    var blackEagle := CollectSeries(BlackEagle, chart.blackEagle, drawWeight, pointWeight, arrowLength);
    var easton := CollectSeries(Easton, chart.easton, drawWeight, pointWeight, arrowLength);
    var recommendations := blackEagle + easton;
    recs := SortBySpine(recommendations);
    SortBySpineSorted(recommendations);
    SortBySpinePermutes(recommendations);
    forall v ensures WithSpine(recs, v) == WithSpine(recommendations, v) {
      SortBySpineStable(recommendations, v);
    }
    SamePermutationSameMembers(recs, recommendations);
  }

  lemma SamePermutationSameMembers(a: seq<ManufacturerRec>, b: seq<ManufacturerRec>)
    requires multiset(a) == multiset(b)
    ensures forall r :: r in a <==> r in b
    ensures forall v :: RecommendsSpine(a, v) <==> RecommendsSpine(b, v)
  {
    forall r ensures r in a <==> r in b {
      assert r in a <==> r in multiset(a);
      assert r in b <==> r in multiset(b);
    }
    forall v | RecommendsSpine(a, v) ensures RecommendsSpine(b, v) {
      var k :| 0 <= k < |a| && a[k].recommendedSpine == v;
      assert a[k] in b;
      var j :| 0 <= j < |b| && b[j] == a[k];
    }
    forall v | RecommendsSpine(b, v) ensures RecommendsSpine(a, v) {
      var k :| 0 <= k < |b| && b[k].recommendedSpine == v;
      assert b[k] in a;
      var j :| 0 <= j < |a| && a[j] == b[k];
    }
  }
}
