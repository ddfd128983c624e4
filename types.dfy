/** Record shapes of the arrow-tuning calculations (src/lib/types.ts). */
module ArcheryTypes {

  datatype Option<T> = None | Some(value: T)

  /** The three shaft materials; each selects a row of spine constants. */
  datatype Material = Carbon | Aluminum | Wood

  /** Tri-level verdict of a safety sub-check. */
  datatype Status = Safe | Warning | Danger {
    /** Rank used by the max-severity reduction: danger > warning > safe. */
    function Severity(): nat {
      match this
      case Safe => 0
      case Warning => 1
      case Danger => 2
    }
  }

  /** A saved arrow setup. `totalWeight`, `gpp` and `foc` are derived caches. */
  datatype ArrowConfiguration = ArrowConfiguration(
    id: string,
    name: string,
    drawLength: real,
    drawWeight: real,
    arrowLength: real,
    overhang: real,
    shaftWeight: real,     // grains per inch
    pointWeight: real,
    nockWeight: real,
    fletchingWeight: real,
    arrowMaterial: Material,
    spineValue: real,
    shaftName: Option<string>,
    totalWeight: real,
    gpp: real,
    foc: real)

  /** One row of the shaft reference table. */
  datatype ShaftData = ShaftData(
    material: Material,
    diameter: real,
    weight: real,          // grains per inch
    spine: real,
    name: string)

  /** Advisory notes of a spine recommendation, in the order they can be pushed. */
  datatype SpineNote = HeavyPoint | LightPoint | LongDraw | ShortDraw {
    function Text(): string {
      match this
      case HeavyPoint => "Heavy point weight - consider stiffer spine"
      case LightPoint => "Light point weight - spine may be too stiff"
      case LongDraw => "Long draw length - may need stiffer spine"
      case ShortDraw => "Short draw length - may need more flexible spine"
    }
  }

  datatype SpineRecommendation = SpineRecommendation(
    minSpine: real,
    maxSpine: real,
    recommended: real,
    material: Material,
    notes: seq<SpineNote>)

  /** Status and message of the arrow-length and spine sub-checks. */
  datatype Verdict = Verdict(status: Status, message: string)

  /** The GPP sub-check also reports the value it classified. */
  datatype GppVerdict = GppVerdict(value: real, status: Status, message: string)

  datatype SafetyCheck = SafetyCheck(
    gpp: GppVerdict,
    arrowLength: Verdict,
    spine: Verdict,
    overall: Status)

  /** Confidence of a manufacturer match; `Low` is part of the declared type. */
  datatype Confidence = High | Medium | Low

  /** Why a manufacturer spine was rescaled: the exact key that selected the factor. */
  datatype AdjustmentNote = LengthAdjusted(arrowLength: real) | PointAdjusted(pointWeight: real)

  /** One entry of the manufacturer recommendation list. */
  datatype ManufacturerRec = ManufacturerRec(
    manufacturer: string,
    series: string,
    recommendedSpine: real,
    confidence: Confidence,
    notes: seq<AdjustmentNote>)
}
