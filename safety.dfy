/**
 * The safety classifier (performSafetyCheck and its helpers, src/lib/calculations.ts:282-480):
 * three independent threshold checks on GPP, overhang and spine, reduced to the most severe
 * status. The spine check reuses the spine recommendation and the manufacturer matcher;
 * a manufacturer match or a known-brand shaft only softens its message.
 */
module SafetyClassifier {
  import opened ArcheryTypes
  import opened ReferenceData
  import opened AsciiText
  import opened Search
  import opened SpineEngine
  import opened WeightEngine
  import opened ManufacturerMatcher

  // Messages of the three checks.
  const GppDangerMessage: string := "DANGER: GPP below 5 can damage your bow and is unsafe!"
  const GppLowMessage: string := "WARNING: GPP below 6 may reduce bow life and performance."
  const GppHighMessage: string := "High GPP - arrow will be slow but very quiet."
  const GppSafeMessage: string := "GPP is in the optimal range for performance and safety."
  const LengthDangerMessage: string := "DANGER: Arrow too short! Risk of overdraw and injury."
  const LengthMinimalMessage: string := "WARNING: Minimal safety margin. Ensure consistent anchor point."
  const LengthLongMessage: string := "Arrow is quite long - will reduce speed and increase wind drift."
  const LengthSafeMessage: string := "Arrow length provides good safety margin."
  const SpineDangerMessage: string := "Spine is significantly outside recommended range - poor accuracy expected."
  const SpineWarningMessage: string := "Spine is outside optimal range - consider tuning or different spine."
  const SpineSafeMessage: string := "Spine is within the recommended range for your setup."
  const DangerMatchClause: string := " However, this spine matches a manufacturer recommendation, so it may still work well with proper tuning."
  const DangerShaftClause: string := " This is a manufacturer shaft, so the spine may be acceptable for your setup despite being outside the general recommended range. Consider professional tuning."
  const WarningMatchClause: string := " This spine matches a manufacturer recommendation, so it should be acceptable with proper tuning."
  const WarningShaftClause: string := " This is a manufacturer shaft, so the spine difference may be acceptable with proper tuning and technique adjustments."

  /** checkGPP: below 5 is dangerous, below 6 or above 10 is a warning, [6, 10] is safe. */
  function CheckGpp(gpp: real): (r: GppVerdict)
    ensures r.value == gpp
    ensures r.status == Danger <==> gpp < 5.0
    ensures r.status == Warning <==> (5.0 <= gpp < 6.0 || gpp > 10.0)
    ensures r.status == Safe <==> 6.0 <= gpp <= 10.0
  {
    if gpp < 5.0 then
      GppVerdict(gpp, Danger, GppDangerMessage)
    else if gpp < 6.0 then
      GppVerdict(gpp, Warning, GppLowMessage)
    else if gpp > 10.0 then
      GppVerdict(gpp, Warning, GppHighMessage)
    else
      GppVerdict(gpp, Safe, GppSafeMessage)
  }

  /**
   * checkArrowLength, on the overhang past the draw length: below 0.5" is dangerous,
   * below 1" or above 3" is a warning, [1, 3] is safe.
   */
  function CheckArrowLength(drawLength: real, arrowLength: real): (r: Verdict)
    ensures var overhang := arrowLength - drawLength;
      && (r.status == Danger <==> overhang < 0.5)
      && (r.status == Warning <==> (0.5 <= overhang < 1.0 || overhang > 3.0))
      && (r.status == Safe <==> 1.0 <= overhang <= 3.0)
  {
    var overhang := arrowLength - drawLength;
    if overhang < 0.5 then
      Verdict(Danger, LengthDangerMessage)
    else if overhang < 1.0 then
      Verdict(Warning, LengthMinimalMessage)
    else if overhang > 3.0 then
      Verdict(Warning, LengthLongMessage)
    else
      Verdict(Safe, LengthSafeMessage)
  }

  /** An arrow cut to draw length plus overhang is judged on the overhang alone. */
  lemma ArrowLengthCheckByOverhang(drawLength: real, overhang: real)
    ensures CheckArrowLength(drawLength, ArrowLength(drawLength, overhang)) == CheckArrowLength(0.0, overhang)
  {
  }

  /** The default setup (28" draw, 1" overhang, 392 gr on 50 lb) passes both weight checks. */
  lemma DefaultSetupChecks()
    ensures CheckGpp(Gpp(TotalWeight(8.5, 28.0, 125.0, 8.0, 21.0), 50.0)).status == Safe
    ensures CheckArrowLength(28.0, ArrowLength(28.0, 1.0)).status == Safe
    ensures CheckArrowLength(28.0, 28.9).status == Warning
  {
    DefaultSetupWeights();
  }

  /** Does a shaft row have exactly this spine, weight and material? */
  predicate ShaftHasSpecs(shaft: ShaftData, spineValue: real, shaftWeight: real, arrowMaterial: Material) {
    shaft.spine == spineValue && shaft.weight == shaftWeight && shaft.material == arrowMaterial
  }

  /** Row `i` is the first row of the table with these specs. */
  predicate FirstWithSpecs(shafts: seq<ShaftData>, i: int, spineValue: real, shaftWeight: real, arrowMaterial: Material) {
    && 0 <= i < |shafts|
    && ShaftHasSpecs(shafts[i], spineValue, shaftWeight, arrowMaterial)
    && forall j :: 0 <= j < i ==> !ShaftHasSpecs(shafts[j], spineValue, shaftWeight, arrowMaterial)
  }

  /** findShaftBySpecs: the name of the first shaft with these exact specs, else none. */
  function FindShaftBySpecs(shafts: seq<ShaftData>, spineValue: real, shaftWeight: real, arrowMaterial: Material)
    : (r: Option<string>)
    ensures r.Some? ==> exists i :: FirstWithSpecs(shafts, i, spineValue, shaftWeight, arrowMaterial) && shafts[i].name == r.value
    ensures r.None? <==> forall i :: 0 <= i < |shafts| ==> !ShaftHasSpecs(shafts[i], spineValue, shaftWeight, arrowMaterial)
  {
    match FindFirst(shafts, s => ShaftHasSpecs(s, spineValue, shaftWeight, arrowMaterial))
    case Some(i) => Some(shafts[i].name)
    case None => None
  }

  /** The brand names a shaft name is tested against. */
  const KnownManufacturers: seq<string> :=
    ["Black Eagle", "Easton", "Carbon Express", "Gold Tip", "Victory", "Beman", "PSE", "Bloodsport", "Maxima"]

  /** `brands.some(b => lowered.includes(b.toLowerCase()))`. */
  function SomeBrandIn(lowered: string, brands: seq<string>): (r: bool)
    ensures r <==> exists k :: 0 <= k < |brands| && Includes(lowered, Lower(brands[k]))
  {
    if brands == [] then false
    else if Includes(lowered, Lower(brands[0])) then true
    else
      var rest := SomeBrandIn(lowered, brands[1..]);
      assert forall k :: 1 <= k < |brands| ==> brands[k] == brands[1..][k - 1];
      rest
  }

  /** isFromKnownManufacturer: some brand name occurs in the shaft name, ignoring case. */
  function IsFromKnownManufacturer(shaftName: string): (r: bool)
    ensures r <==> exists k, i :: 0 <= k < |KnownManufacturers| && OccursAt(Lower(shaftName), Lower(KnownManufacturers[k]), i)
  {
    SomeBrandIn(Lower(shaftName), KnownManufacturers)
  }

  /** The brand test ignores case: lower-casing the name first changes nothing. */
  lemma KnownManufacturerIgnoresCase(shaftName: string)
    ensures IsFromKnownManufacturer(Lower(shaftName)) == IsFromKnownManufacturer(shaftName)
  {
    LowerIdempotent(shaftName);
  }

  /** The default shaft name is recognised as a known brand. */
  lemma DefaultShaftIsKnown()
    ensures IsFromKnownManufacturer("Easton 4MM Full Metal Jacket 340")
  {
    var lowered := Lower("Easton 4MM Full Metal Jacket 340");
    assert Lower(KnownManufacturers[1]) == "easton";
    assert lowered[0..6] == "easton";
    assert OccursAt(lowered, Lower(KnownManufacturers[1]), 0);
  }

  /**
   * `shaftName || (shaftWeight ? findShaftBySpecs(...) : null)`: an empty name and a zero
   * weight both count as absent.
   */
  function EffectiveShaftName(shafts: seq<ShaftData>, shaftName: Option<string>, shaftWeight: real,
                              spineValue: real, arrowMaterial: Material): Option<string>
  {
    if shaftName.Some? && shaftName.value != "" then shaftName
    else if shaftWeight != 0.0 then FindShaftBySpecs(shafts, spineValue, shaftWeight, arrowMaterial)
    else None
  }

  /** The shaft counts as a manufacturer shaft when its effective name is non-empty and names a known brand. */
  function IsManufacturerShaft(shafts: seq<ShaftData>, shaftName: Option<string>, shaftWeight: real,
                               spineValue: real, arrowMaterial: Material): bool
  {
    match EffectiveShaftName(shafts, shaftName, shaftWeight, spineValue, arrowMaterial)
    case Some(n) => n != "" && IsFromKnownManufacturer(n)
    case None => false
  }

  /**
   * A non-empty given name decides alone (the table is not consulted); without a name a
   * zero shaft weight never identifies a shaft.
   */
  lemma ManufacturerShaftSources(shafts: seq<ShaftData>, shaftName: Option<string>, shaftWeight: real,
                                 spineValue: real, arrowMaterial: Material)
    ensures shaftName.Some? && shaftName.value != "" ==>
      IsManufacturerShaft(shafts, shaftName, shaftWeight, spineValue, arrowMaterial) == IsFromKnownManufacturer(shaftName.value)
    ensures (shaftName.None? || shaftName.value == "") && shaftWeight == 0.0 ==>
      !IsManufacturerShaft(shafts, shaftName, shaftWeight, spineValue, arrowMaterial)
    ensures (&& (shaftName.None? || shaftName.value == "")
             && shaftWeight != 0.0
             && (forall i :: 0 <= i < |shafts| ==> !ShaftHasSpecs(shafts[i], spineValue, shaftWeight, arrowMaterial)))
      ==> !IsManufacturerShaft(shafts, shaftName, shaftWeight, spineValue, arrowMaterial)
  {
  }

  /** How far a spine lies outside a range: distance to the nearer bound, 0 inside. */
  function DistanceOutside(v: real, lo: real, hi: real): real {
    if v < lo then lo - v else if v > hi then v - hi else 0.0
  }

  /** The out-of-range difference as checkSpine measures it: the distance to the closer bound. */
  function BoundDistance(v: real, lo: real, hi: real): real {
    Min(Abs(v - lo), Abs(v - hi))
  }

  /** On a well-formed range, the closer bound of an outside value is the one it has passed. */
  lemma BoundDistanceOutside(v: real, lo: real, hi: real)
    requires lo <= hi
    ensures v < lo || v > hi ==> BoundDistance(v, lo, hi) == DistanceOutside(v, lo, hi) > 0.0
    ensures DistanceOutside(v, lo, hi) == 0.0 <==> lo <= v <= hi
  {
  }

  /** The spine status for a recommendation: safe inside, danger more than 100 outside. */
  function SpineStatus(rec: SpineRecommendation, spineValue: real): Status {
    if spineValue < rec.minSpine || spineValue > rec.maxSpine then
      if BoundDistance(spineValue, rec.minSpine, rec.maxSpine) > 100.0 then Danger else Warning
    else Safe
  }

  function SpineBaseMessage(status: Status): string {
    match status
    case Danger => SpineDangerMessage
    case Warning => SpineWarningMessage
    case Safe => SpineSafeMessage
  }

  /** The clause appended to an out-of-range message; a manufacturer match takes precedence. */
  function SpineSoftening(status: Status, isManufacturerRecommended: bool, isManufacturerShaft: bool): string {
    match status
    case Danger =>
      if isManufacturerRecommended then
        DangerMatchClause
      else if isManufacturerShaft then
        DangerShaftClause
      else ""
    case Warning =>
      if isManufacturerRecommended then
        WarningMatchClause
      else if isManufacturerShaft then
        WarningShaftClause
      else ""
    case Safe => ""
  }

  /**
   * The classification half of checkSpine: status from the distance outside the range,
   * message from the status and the two softening facts.
   */
  method ClassifySpine(rec: SpineRecommendation, spineValue: real,
                       isManufacturerRecommended: bool, isManufacturerShaft: bool)
    returns (v: Verdict)
    ensures v.status == SpineStatus(rec, spineValue)
    ensures v.status == Safe <==> rec.minSpine <= spineValue <= rec.maxSpine
    ensures v.status == Danger <==>
      (spineValue < rec.minSpine || spineValue > rec.maxSpine) && BoundDistance(spineValue, rec.minSpine, rec.maxSpine) > 100.0
    ensures v.message == SpineBaseMessage(v.status) + SpineSoftening(v.status, isManufacturerRecommended, isManufacturerShaft)
  {
    var minSpine, maxSpine := rec.minSpine, rec.maxSpine;
    if spineValue < minSpine || spineValue > maxSpine {
      var difference := Min(Abs(spineValue - minSpine), Abs(spineValue - maxSpine));
      if difference > 100.0 {
        var message := SpineDangerMessage;
        if isManufacturerRecommended {
          message := message + DangerMatchClause;
        } else if isManufacturerShaft {
          message := message + DangerShaftClause;
        }
        assert SpineDangerMessage + "" == SpineDangerMessage;
        v := Verdict(Danger, message);
      } else {
        var message := SpineWarningMessage;
        if isManufacturerRecommended {
          message := message + WarningMatchClause;
        } else if isManufacturerShaft {
          message := message + WarningShaftClause;
        }
        assert SpineWarningMessage + "" == SpineWarningMessage;
        v := Verdict(Warning, message);
      }
    } else {
      v := Verdict(Safe, SpineSafeMessage);
      assert v.message == SpineSafeMessage + "";
    }
  }

  /**
   * checkSpine. The status depends only on the recommendation: safe iff the spine is in
   * [minSpine, maxSpine], danger iff it lies more than 100 outside. The manufacturer lookup
   * (called with the draw length as arrow length) and the shaft lookup only append a clause
   * to the message.
   */
  method CheckSpine(chart: SpineChart, shafts: seq<ShaftData>, drawWeight: real, drawLength: real, spineValue: real,
                    pointWeight: real, arrowMaterial: Material, shaftName: Option<string>, shaftWeight: real)
    returns (v: Verdict)
    ensures var rec := Recommendation(drawWeight, drawLength, pointWeight, arrowMaterial);
      && v.status == SpineStatus(rec, spineValue)
      && (v.status == Safe <==> rec.minSpine <= spineValue <= rec.maxSpine)
      && (v.status == Danger <==> DistanceOutside(spineValue, rec.minSpine, rec.maxSpine) > 100.0)
    ensures v.message == SpineBaseMessage(v.status) + SpineSoftening(v.status,
      RecommendsSpine(ChartMatches(chart, drawWeight, pointWeight, drawLength), spineValue),
      IsManufacturerShaft(shafts, shaftName, shaftWeight, spineValue, arrowMaterial))
  {
    var spineRecommendation := CalculateSpineRecommendation(drawWeight, drawLength, pointWeight, arrowMaterial);

    var manufacturerRecommendations := GetManufacturerSpineRecommendations(chart, drawWeight, pointWeight, drawLength);
    var isManufacturerRecommended := RecommendsSpine(manufacturerRecommendations, spineValue);

    var effectiveShaftName := EffectiveShaftName(shafts, shaftName, shaftWeight, spineValue, arrowMaterial);
    var isManufacturerShaft := if effectiveShaftName.Some? && effectiveShaftName.value != "" then
      IsFromKnownManufacturer(effectiveShaftName.value) else false;

    v := ClassifySpine(spineRecommendation, spineValue, isManufacturerRecommended, isManufacturerShaft);
    RecommendationRange(drawWeight, drawLength, pointWeight, arrowMaterial);
    BoundDistanceOutside(spineValue, spineRecommendation.minSpine, spineRecommendation.maxSpine);
  }

  /** The more severe of two statuses. */
  function Worse(a: Status, b: Status): Status {
    if a.Severity() >= b.Severity() then a else b
  }

  /** The reduction does not depend on the order the three checks are combined in. */
  lemma WorseOrderFree(a: Status, b: Status, c: Status)
    ensures Worse(a, b) == Worse(b, a)
    ensures Worse(Worse(a, b), c) == Worse(a, Worse(b, c))
    ensures Worse(a, a) == a
  {
  }

  /**
   * performSafetyCheck: all three checks are computed and returned; overall is danger if
   * any is danger, else warning if any is warning, else safe.
   */
  method PerformSafetyCheck(config: ArrowConfiguration, chart: SpineChart, shafts: seq<ShaftData>)
    returns (sc: SafetyCheck)
    ensures sc.gpp == CheckGpp(config.gpp)
    ensures sc.arrowLength == CheckArrowLength(config.drawLength, config.arrowLength)
    ensures sc.spine.status ==
      SpineStatus(Recommendation(config.drawWeight, config.drawLength, config.pointWeight, config.arrowMaterial), config.spineValue)
    ensures sc.spine.message == SpineBaseMessage(sc.spine.status) + SpineSoftening(sc.spine.status,
      RecommendsSpine(ChartMatches(chart, config.drawWeight, config.pointWeight, config.drawLength), config.spineValue),
      IsManufacturerShaft(shafts, config.shaftName, config.shaftWeight, config.spineValue, config.arrowMaterial))
    ensures var g, l, s := sc.gpp.status, sc.arrowLength.status, sc.spine.status;
      && (sc.overall == Danger <==> g == Danger || l == Danger || s == Danger)
      && (sc.overall == Warning <==> !(g == Danger || l == Danger || s == Danger) && (g == Warning || l == Warning || s == Warning))
      && (sc.overall == Safe <==> g == Safe && l == Safe && s == Safe)
      && sc.overall == Worse(Worse(g, l), s)
  {
    var gppCheck := CheckGpp(config.gpp);
    var lengthCheck := CheckArrowLength(config.drawLength, config.arrowLength);
    var spineCheck := CheckSpine(chart, shafts, config.drawWeight, config.drawLength, config.spineValue,
                                 config.pointWeight, config.arrowMaterial, config.shaftName, config.shaftWeight);

    var overall := Safe;
    if gppCheck.status == Danger || lengthCheck.status == Danger || spineCheck.status == Danger {
      overall := Danger;
    } else if gppCheck.status == Warning || lengthCheck.status == Warning || spineCheck.status == Warning {
      overall := Warning;
    }

    sc := SafetyCheck(gppCheck, lengthCheck, spineCheck, overall);
  }
}
