/**
 * The constants of src/lib/data.ts that the formulas read, and the shape of the
 * manufacturer spine chart. The chart contents themselves and the shaft table are
 * parameters of the operations that use them, so every property holds for any table.
 */
module ReferenceData {
  import opened ArcheryTypes

  /** Per-material spine constants (`lengthFactor` is carried but never read). */
  datatype SpineConstants = SpineConstants(baseModifier: real, weightFactor: real, lengthFactor: real)

  function ConstantsFor(m: Material): SpineConstants {
    match m
    case Carbon => SpineConstants(1.0, 0.4, 0.8)
    case Aluminum => SpineConstants(0.9, 0.5, 0.7)
    case Wood => SpineConstants(0.8, 0.6, 0.6)
  }

  /** The common spine ladder the dynamic spine is snapped to, stiffest first. */
  const CommonSpines: seq<real> := [200.0, 250.0, 300.0, 340.0, 350.0, 400.0, 500.0, 600.0, 700.0, 800.0, 900.0]

  /** Fractional spine adjustment keyed by exact point weight (grains). */
  const PointWeightFactors: map<real, real> :=
    map[75.0 := -0.05, 85.0 := -0.03, 100.0 := 0.0, 125.0 := 0.05, 150.0 := 0.1]

  /** Fractional spine adjustment keyed by exact arrow length (inches). */
  const ArrowLengthFactors: map<real, real> :=
    map[26.0 := 0.08, 27.0 := 0.04, 28.0 := 0.0, 29.0 := -0.04, 30.0 := -0.08, 31.0 := -0.12, 32.0 := -0.16]

  /** A closed draw-weight x point-weight box with the spine recommended inside it. */
  datatype Bucket = Bucket(drawLo: real, drawHi: real, pointLo: real, pointHi: real, recommendedSpine: real)

  /** One series of a manufacturer: its table key and its buckets in table order. */
  datatype SeriesChart = SeriesChart(key: string, buckets: seq<Bucket>)

  /** The manufacturer chart: the two manufacturers the matcher reads, series in insertion order. */
  datatype SpineChart = SpineChart(blackEagle: seq<SeriesChart>, easton: seq<SeriesChart>)
}
