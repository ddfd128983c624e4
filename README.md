# Arrow-tuning calculations, modelled in Dafny

This project models the calculation module of archery-friend, `src/lib/calculations.ts`, which
does three things for a bow-and-arrow setup:

- It recommends a dynamic spine. A linear base spine is snapped to a ladder of common spines, and
  the result gets a range and advisory notes.
- It matches the setup against a manufacturer spine chart. The first bucket of each series that
  holds the setup gives a spine. That spine may be rescaled for arrow length and point weight,
  and the list is sorted by spine.
- It derives arrow weights (total weight, grains per pound, front-of-center, optimal point weight)
  and runs a safety check. The check makes three threshold verdicts (GPP, overhang, spine) and
  reduces them to the most severe one.

Modules, one per file:

| file | module | contents |
|---|---|---|
| `types.dfy` | `ArcheryTypes` | record shapes of `src/lib/types.ts` as datatypes |
| `data.dfy` | `ReferenceData` | spine constants, the common spine ladder, the two adjustment-factor maps, and the shape of the manufacturer chart |
| `text.dfy` | `AsciiText` | lower-casing, substring search, capitalisation |
| `search.dfy` | `Search` | `Array.prototype.find` as a first-index search |
| `spine.dfy` | `SpineEngine` | `calculateSpineRecommendation` |
| `ordering.dfy` | `SpineOrdering` | the final stable sort by spine |
| `manufacturer.dfy` | `ManufacturerMatcher` | `getManufacturerSpineRecommendations` |
| `weights.dfy` | `WeightEngine` | arrow length, total weight, GPP, FOC, optimal point weight |
| `safety.dfy` | `SafetyClassifier` | `performSafetyCheck`, `checkGPP`, `checkArrowLength`, `checkSpine`, `findShaftBySpecs`, `isFromKnownManufacturer` |

The parts of the code that work step by step are methods with loops or mutable locals. Each is
proved equal to a specification function, and the properties are lemmas about that function:

- the `reduce` over the ladder and the pushes of notes (`SnapToCommonSpine`,
  `CalculateSpineRecommendation`);
- the `forEach` over the chart series with its mutable `adjustedSpine` and `confidence`
  (`AdjustBucketSpine`, `MatchOneSeries`, `CollectSeries`,
  `GetManufacturerSpineRecommendations`);
- the `+=` on the spine message (`ClassifySpine`, `CheckSpine`);
- the mutable `overall` (`PerformSafetyCheck`).

The pure formulas and threshold checks are functions.

The manufacturer chart and the shaft table are parameters (`SpineChart`, `seq<ShaftData>`), so
every property holds for any table contents. The two manufacturer loops of the code differ only in
the manufacturer name and the series renaming. They are one helper here, parameterised by `Maker`,
visited Black Eagle first and then Easton.

## Model

| member | source | states |
|---|---|---|
| `WeightEngine.ArrowLength` | src/lib/calculations.ts:12-14 | the arrow exceeds the draw length by exactly the overhang |
| `WeightEngine.TotalWeightPointAdditive` | src/lib/calculations.ts:208-217 | total weight minus the point is shaft grains-per-inch times length plus nock and fletching; changing the point changes the total by exactly the difference |
| `WeightEngine.DefaultSetupWeights` | src/lib/calculations.ts:208-224 | the default 8.5 gr/in, 28", 125/8/21 gr arrow weighs 392 gr, which is 7.84 GPP on 50 lb; 28" draw plus 1" overhang is a 29" arrow |
| `WeightEngine.Gpp` | src/lib/calculations.ts:222-224 | GPP times draw weight gives back the total weight |
| `WeightEngine.FocIsHalfPointShare` | src/lib/calculations.ts:229-258 | the moment-balance FOC equals 50 times point weight over total weight |
| `WeightEngine.FocBounds` | src/lib/calculations.ts:229-258 | FOC lies in [0, 50] when the point is part of a positive total weight |
| `WeightEngine.OptimalPointWeight` | src/lib/calculations.ts:263-277 | the result is at least 75, is either 75 or the exact solution, and is never below the exact solution |
| `WeightEngine.OptimalPointWeightHitsTarget` | src/lib/calculations.ts:263-277 | when the exact solution is at least 75 gr, the arrow built with it has exactly the desired GPP |
| `WeightEngine.OptimalPointWeightFloorOvershoots` | src/lib/calculations.ts:263-277 | when the floor applies, the point is 75 gr and the arrow's GPP exceeds the desired one |
| `SpineEngine.NearestIsFirstClosest` | src/lib/calculations.ts:39-42 | the strict-`<` reduce returns the first entry at minimal distance, and no entry is closer |
| `SpineEngine.NearestOnLadder` | src/lib/calculations.ts:38-42 | the snapped spine is a ladder entry, no ladder entry is closer, and on a tie the smaller entry is kept |
| `SpineEngine.CommonSpinesIncreasing` | src/lib/calculations.ts:39 | the ladder is strictly increasing, so earlier means smaller |
| `SpineEngine.RecommendationRange` | src/lib/calculations.ts:44-46 | 200 <= min <= recommended <= max <= 900; the width is 100, or 50 at the 200 and 900 ends; the material is echoed |
| `SpineEngine.SpineNotesExact` | src/lib/calculations.ts:48-61 | each note is present iff its threshold is crossed; notes are in the fixed order; the two point notes and the two draw notes are mutually exclusive |
| `SpineEngine.SnapToCommonSpine` | src/lib/calculations.ts:38-42 | the loop's result is the reduce's value, a ladder entry at minimal distance |
| `SpineEngine.CalculateSpineRecommendation` | src/lib/calculations.ts:19-70 | the mutated base spine, snap, range and pushed notes give the specified recommendation, whose spine is on the ladder inside [200, 900] |
| `AsciiText.Lower` | src/lib/calculations.ts:400 | lower-casing keeps the length and maps each character |
| `AsciiText.LowerIdempotent` | src/lib/calculations.ts:400 | lower-casing twice is lower-casing once |
| `AsciiText.Includes` | src/lib/calculations.ts:400 | the search answers true iff the substring occurs at some position |
| `AsciiText.Capitalize` | src/lib/calculations.ts:137 | the first character is upper-cased and the rest is unchanged |
| `Search.FindFirst` | src/lib/calculations.ts:96-102 | returns the first index passing the test; none iff no element passes |
| `ManufacturerMatcher.SeriesNameShape` | src/lib/calculations.ts:186-190 | Easton renames exactly fmj4mm, axisTraditional and matchGrade; every other key, and every Black Eagle key, is capitalised with the rest unchanged |
| `ManufacturerMatcher.FirstMatch` | src/lib/calculations.ts:96-102 | the first bucket whose closed draw-weight and point-weight intervals both hold the setup; none iff no bucket holds it |
| `ManufacturerMatcher.Round` | src/lib/calculations.ts:116 | `Math.round` gives the integer r with r - 1/2 <= x < r + 1/2, so halves round up |
| `ManufacturerMatcher.AdjustmentKeys` | src/lib/calculations.ts:108-133 | a length rescale applies exactly at 26, 27, 29, 30, 31, 32; a point rescale exactly at 75, 85, 125, 150 |
| `ManufacturerMatcher.RescaleNear` | src/lib/calculations.ts:116-129 | a rounded rescale is within half a unit of the exact rescale |
| `ManufacturerMatcher.MatchSeriesMeaning` | src/lib/calculations.ts:95-141 | a series contributes iff a bucket holds the setup; the entry has the first such bucket's spine after both compounding rescales; confidence is never low and is medium iff an adjustment applied; at 28" and 100 gr the bucket spine is unchanged and there are no notes |
| `ManufacturerMatcher.PresentAt` | src/lib/calculations.ts:104-141 | the pushed entries come from strictly increasing series positions, one per contributing series |
| `ManufacturerMatcher.PresentAtComplete` | src/lib/calculations.ts:104-141 | every series that produced an entry is among the contributing positions |
| `ManufacturerMatcher.ContributingSeries` | src/lib/calculations.ts:95-200 | each series contributes at most one entry, in series order, and exactly when one of its buckets holds the setup |
| `ManufacturerMatcher.AdjustBucketSpine` | src/lib/calculations.ts:104-133 | the mutable spine, notes and confidence end as the compounded rescale, the applied-adjustment notes, and medium iff a note was added |
| `ManufacturerMatcher.MatchOneSeries` | src/lib/calculations.ts:95-141 | the callback yields the specified entry of one series |
| `ManufacturerMatcher.CollectSeries` | src/lib/calculations.ts:95-200 | the loop collects exactly the matches of the manufacturer's series in order; each names the manufacturer and is never low-confidence |
| `ManufacturerMatcher.SeriesMatchesFacts` | src/lib/calculations.ts:135-141 | every collected entry names its manufacturer and has high or medium confidence |
| `ManufacturerMatcher.GetManufacturerSpineRecommendations` | src/lib/calculations.ts:75-203 | the result is sorted by spine; it is a permutation of Black Eagle's then Easton's matches; the sort is stable; no entry is low-confidence; it recommends a spine iff some match does |
| `ManufacturerMatcher.SamePermutationSameMembers` | src/lib/calculations.ts:202 | a sorted permutation has the same entries and recommends the same spines |
| `SpineOrdering.WithSpineAppend` | src/lib/calculations.ts:202 | filtering by spine distributes over concatenation |
| `SpineOrdering.WithSpineAbove` | src/lib/calculations.ts:202 | a sorted list starting above v has no entry of spine v |
| `SpineOrdering.InsertPermutes` | src/lib/calculations.ts:202 | inserting adds exactly the one entry (multiset) |
| `SpineOrdering.InsertLowerBound` | src/lib/calculations.ts:202 | a lower bound on all spines survives an insertion |
| `SpineOrdering.InsertSorted` | src/lib/calculations.ts:202 | insertion into a sorted list keeps it sorted |
| `SpineOrdering.InsertStable` | src/lib/calculations.ts:202 | insertion puts the new entry after every entry of equal spine |
| `SpineOrdering.SortBySpinePermutes` | src/lib/calculations.ts:202 | the sort is a permutation of its input |
| `SpineOrdering.SortBySpineSorted` | src/lib/calculations.ts:202 | the sort's result is ascending by spine |
| `SpineOrdering.SortBySpineStable` | src/lib/calculations.ts:202 | entries of equal spine keep their input order |
| `SafetyClassifier.CheckGpp` | src/lib/calculations.ts:319-345 | the value is echoed; danger iff GPP < 5, warning iff in [5, 6) or > 10, safe iff in [6, 10] |
| `SafetyClassifier.CheckArrowLength` | src/lib/calculations.ts:347-371 | with overhang = arrow - draw: danger iff < 0.5, warning iff in [0.5, 1) or > 3, safe iff in [1, 3] |
| `SafetyClassifier.ArrowLengthCheckByOverhang` | src/lib/calculations.ts:12-14 | an arrow built from draw length plus overhang is judged on the overhang alone |
| `SafetyClassifier.DefaultSetupChecks` | src/lib/calculations.ts:319-371 | the default setup is safe on GPP and on length; 0.9" of overhang is only a warning |
| `SafetyClassifier.FindShaftBySpecs` | src/lib/calculations.ts:373-384 | the name of the first shaft with equal spine, weight and material; none iff no shaft matches |
| `SafetyClassifier.SomeBrandIn` | src/lib/calculations.ts:399-401 | true iff some brand, lower-cased, occurs in the lower-cased name |
| `SafetyClassifier.IsFromKnownManufacturer` | src/lib/calculations.ts:386-402 | true iff one of the nine brand names occurs in the shaft name, ignoring ASCII case |
| `SafetyClassifier.KnownManufacturerIgnoresCase` | src/lib/calculations.ts:399-401 | lower-casing the name first does not change the answer |
| `SafetyClassifier.DefaultShaftIsKnown` | src/lib/calculations.ts:386-402 | "Easton 4MM Full Metal Jacket 340" is recognised as a known brand |
| `SafetyClassifier.ManufacturerShaftSources` | src/lib/calculations.ts:434-438 | a non-empty given name decides alone; with no name, a zero shaft weight or an unmatched table lookup gives no manufacturer shaft |
| `SafetyClassifier.BoundDistanceOutside` | src/lib/calculations.ts:440-445 | on a well-formed range, the distance to the nearer bound of an outside value is its positive distance past the range; inside, that distance is 0 |
| `SafetyClassifier.ClassifySpine` | src/lib/calculations.ts:440-479 | safe iff the spine is in range; danger iff it is out of range and more than 100 from the nearer bound; the message is the status text plus the clause, with a manufacturer match taking precedence over a manufacturer shaft |
| `SafetyClassifier.CheckSpine` | src/lib/calculations.ts:404-480 | the status comes only from the recommended range: safe iff inside, danger iff more than 100 outside; the manufacturer match (looked up with the draw length as arrow length) and the shaft only choose the appended clause |
| `SafetyClassifier.WorseOrderFree` | src/lib/calculations.ts:295-309 | the severity maximum is commutative, associative and idempotent, so the order of the checks does not matter |
| `SafetyClassifier.PerformSafetyCheck` | src/lib/calculations.ts:282-317 | all three sub-checks are returned, the spine verdict with the clause `CheckSpine` chooses; overall is danger iff any is danger, warning iff none is danger and some is warning, safe iff all are safe, which is the most severe of the three |

## Left out

- `src/lib/storage.ts` is not part of this model. It holds browser storage, JSON
  (de)serialisation and an id drawn from the clock and a random source.
- `src/lib/data.ts` contributes only the constants the formulas read. These are the per-material
  spine constants (`src/lib/data.ts:276-292`) and the two adjustment-factor maps
  (`src/lib/data.ts:367-384`). The manufacturer buckets and the shaft list are parameters. The
  component lists and overhang options are not read by the calculations.
- IEEE-754 arithmetic is not modelled: quantities are exact reals. Double rounding, NaN and
  Infinity are absent. Snapping ties and `Math.round` ties can fall differently in exact
  arithmetic than in doubles.
- `WeightEngine.Gpp`: requires a non-zero draw weight. The code would return Infinity or NaN,
  which exact reals cannot represent.
- `WeightEngine.Foc`: requires a non-zero arrow length and total weight, for the same reason.
  Its properties are stated by `FocIsHalfPointShare` and `FocBounds`.
- `SpineOrdering.SortBySpinePermutes`: the in-place `Array.prototype.sort` is modelled as a stable
  insertion sort on a sequence. The result is the same (ascending, a permutation, stable), but
  update in place and the comparator protocol are not captured.
- Message text: advisory notes and adjustment notes are small datatypes. `SpineNote.Text` gives
  the spine notes' wording. The adjustment notes carry the key that selected the factor instead
  of the formatted string with its interpolated number. No property is stated about any
  message wording.
- `AsciiText.Lower` and `AsciiText.UpperChar` map ASCII letters only. JavaScript's
  `toLowerCase`/`toUpperCase` use full Unicode case mapping.
- `ManufacturerMatcher.GetManufacturerSpineRecommendations`: the arrow length is a required
  argument; the code's default of 28 is not modelled, so a caller relying on it passes `28.0`.
- Optional arguments: `shaftName` is an `Option<string>`. `shaftWeight` is a real, and the
  absent case is written as 0, which the code treats the same as an absent value.
- The `lengthFactor` spine constant is carried in `SpineConstants` but, as in the code, never read.
