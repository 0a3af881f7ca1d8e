/**
 * The data-processing rules the test suite writes out inline: the
 * threshold-32 heat rule, vegetation-ratio bands, the three-weight
 * aggregation, growing degree days, week of season, gap detection in a week
 * sequence, dropping missing values and listing missing record fields.
 */
module DataProcessing {
  import opened Common
  import StressIndex

  /** The heat rule as the data-processing suite writes it: 20 points per degree above 32 °C, capped at 100. */
  const INLINE_HEAT_THRESHOLD: real := 32.0
  const INLINE_HEAT_PER_DEGREE: real := 20.0

  /** Day of year of May 1, the first day of the season. */
  const SEASON_START_DOY: int := 121

  function InlineHeatStress(lstMean: real): (s: real)
    ensures 0.0 <= s <= 100.0
    ensures s > 0.0 <==> lstMean > INLINE_HEAT_THRESHOLD
  {
    if lstMean > INLINE_HEAT_THRESHOLD then StressIndex.Min(100.0, (lstMean - INLINE_HEAT_THRESHOLD) * INLINE_HEAT_PER_DEGREE)
    else 0.0
  }

  /** The two heat rules disagree: at 36 °C with three days above 35 °C the calculator stays below 50, the inline rule gives 80. */
  lemma HeatRulesDisagree()
    ensures InlineHeatStress(35.0) > 0.0
    ensures InlineHeatStress(36.0) == 80.0
    ensures StressIndex.HeatStress(36.0, 3, 0, false) < 50.0
    ensures InlineHeatStress(34.0) > 0.0 && StressIndex.HeatStress(34.0, 0, 0, false) == 0.0
  {
  }

  /** Vegetation stress from the ratio of current to historical NDVI. */
  function VegetationStress(healthRatio: real): (s: real)
    ensures 0.0 <= s <= 100.0
    ensures s == 0.0 <==> healthRatio > 1.0
    ensures s == 100.0 <==> healthRatio <= 0.7
  {
    if healthRatio > 1.0 then 0.0
    else if healthRatio > 0.9 then 20.0
    else if healthRatio > 0.8 then 50.0
    else if healthRatio > 0.7 then 75.0
    else 100.0
  }

  /** A healthier ratio never means more vegetation stress; 0.72 against 0.80 is a ratio of 0.9 and scores 50. */
  lemma VegetationStressMonotone(r1: real, r2: real)
    requires r1 <= r2
    ensures VegetationStress(r2) <= VegetationStress(r1)
    ensures 0.72 / 0.80 == 0.9 && VegetationStress(0.72 / 0.80) == 50.0
  {
  }

  /** The water bands of the data-processing suite are the calculator's: a deficit of exactly 4 mm scores 50. */
  lemma WaterBandExample()
    ensures 5.0 - 1.0 == 4.0 && StressIndex.WaterStress(5.0 - 1.0, false) == 50.0
  {
  }

  const AGG_WATER_WEIGHT: real := 0.4
  const AGG_HEAT_WEIGHT: real := 0.3
  const AGG_VEGETATION_WEIGHT: real := 0.3

  /** `sum(components[k] * weights[k])` over water, heat and vegetation. */
  function Aggregate(water: real, heat: real, vegetation: real): (score: real)
    ensures 0.0 <= water <= 100.0 && 0.0 <= heat <= 100.0 && 0.0 <= vegetation <= 100.0 ==> 0.0 <= score <= 100.0
    ensures StressIndex.Min(water, StressIndex.Min(heat, vegetation)) <= score
    ensures score <= -StressIndex.Min(-water, StressIndex.Min(-heat, -vegetation))
  {
    AGG_WATER_WEIGHT * water + AGG_HEAT_WEIGHT * heat + AGG_VEGETATION_WEIGHT * vegetation
  }

  lemma AggregateExample()
    ensures Aggregate(50.0, 30.0, 40.0) == 41.0
  {
  }

  /** Growing degree days: the daily mean above the base temperature, never negative. */
  function GrowingDegreeDays(tmax: real, tmin: real, base: real): (gdd: real)
    ensures gdd >= 0.0 && gdd >= (tmax + tmin) / 2.0 - base
    ensures gdd == 0.0 || gdd == (tmax + tmin) / 2.0 - base
  {
    var excess := (tmax + tmin) / 2.0 - base;
    if excess > 0.0 then excess else 0.0
  }

  lemma GrowingDegreeDaysExample()
    ensures GrowingDegreeDays(30.0, 20.0, 10.0) == 15.0
  {
  }

  /** `(doy - 121) // 7 + 1` with Python's floor division (Dafny's `/` agrees with it for a positive divisor). */
  function WeekOfSeason(doy: int): int {
    (doy - SEASON_START_DOY) / 7 + 1
  }

  /** Week `w` is exactly the seven days starting at day 121 + 7(w - 1). */
  lemma WeekOfSeasonSpan(doy: int, w: int)
    ensures WeekOfSeason(doy) == w <==> SEASON_START_DOY + 7 * (w - 1) <= doy < SEASON_START_DOY + 7 * w
  {
    var q := (doy - SEASON_START_DOY) / 7;
    var r := (doy - SEASON_START_DOY) % 7;
    assert doy - SEASON_START_DOY == 7 * q + r && 0 <= r < 7;
    if SEASON_START_DOY + 7 * (w - 1) <= doy < SEASON_START_DOY + 7 * w {
      assert 7 * (w - 1) <= 7 * q + r < 7 * w;
    }
  }

  lemma WeekOfSeasonExample()
    ensures WeekOfSeason(135) == 3
    ensures WeekOfSeason(121) == 1
  {
  }

  // ---------------------------------------------------------------------------
  // Gap detection
  // ---------------------------------------------------------------------------

  predicate GapAt(weeks: seq<int>, i: int) {
    0 <= i < |weeks| - 1 && weeks[i + 1] - weeks[i] > 1
  }

  /** The gap indices among the first `n` neighbouring pairs. */
  function GapsBefore(weeks: seq<int>, n: nat): seq<nat>
    requires n <= |weeks| - 1 || n == 0
  {
    if n == 0 then []
    else GapsBefore(weeks, n - 1) + (if GapAt(weeks, n - 1) then [n - 1] else [])
  }

  /** Every index `i` whose next week is more than one week later. */
  function Gaps(weeks: seq<int>): seq<nat> {
    GapsBefore(weeks, if |weeks| == 0 then 0 else |weeks| - 1)
  }

  /** The loop over `range(len(weeks) - 1)` that appends each gap index. */
  method FindGaps(weeks: seq<int>) returns (gaps: seq<nat>)
    ensures gaps == Gaps(weeks)
  {
    gaps := [];
    var i := 0;
    while i < |weeks| - 1
      invariant 0 <= i <= |weeks| - 1 || i == 0
      invariant gaps == GapsBefore(weeks, i)
    {
      if weeks[i + 1] - weeks[i] > 1 {
        gaps := gaps + [i];
      }
      i := i + 1;
    }
  }

  lemma {:induction false} GapsBeforeExact(weeks: seq<int>, n: nat)
    requires n <= |weeks| - 1 || n == 0
    ensures forall i :: i in GapsBefore(weeks, n) <==> 0 <= i < n && GapAt(weeks, i)
    ensures forall a, b :: 0 <= a < b < |GapsBefore(weeks, n)| ==> GapsBefore(weeks, n)[a] < GapsBefore(weeks, n)[b]
    ensures forall a :: 0 <= a < |GapsBefore(weeks, n)| ==> GapsBefore(weeks, n)[a] < n
  {
    if n > 0 {
      GapsBeforeExact(weeks, n - 1);
    }
  }

  /** An index is recorded exactly when the next week skips ahead; the indices come out increasing. */
  lemma GapsExact(weeks: seq<int>)
    ensures forall i :: i in Gaps(weeks) <==> GapAt(weeks, i)
    ensures forall a, b :: 0 <= a < b < |Gaps(weeks)| ==> Gaps(weeks)[a] < Gaps(weeks)[b]
  {
    GapsBeforeExact(weeks, if |weeks| == 0 then 0 else |weeks| - 1);
  }

  /** Consecutive weeks have no gaps; [1, 2, 3, 4, 5] is the suite's case. */
  lemma ConsecutiveWeeksHaveNoGaps(weeks: seq<int>)
    requires forall i :: 0 <= i < |weeks| - 1 ==> weeks[i + 1] == weeks[i] + 1
    ensures Gaps(weeks) == []
  {
    NoGapsBefore(weeks, if |weeks| == 0 then 0 else |weeks| - 1);
  }

  lemma {:induction false} NoGapsBefore(weeks: seq<int>, n: nat)
    requires n <= |weeks| - 1 || n == 0
    requires forall i :: 0 <= i < n ==> !GapAt(weeks, i)
    ensures GapsBefore(weeks, n) == []
  {
    if n > 0 {
      NoGapsBefore(weeks, n - 1);
    }
  }

  lemma GapsExample()
    ensures Gaps([1, 2, 3, 4, 5]) == []
    ensures Gaps([1, 2, 5, 6, 9]) == [1, 3]
  {
    ConsecutiveWeeksHaveNoGaps([1, 2, 3, 4, 5]);
  }

  // ---------------------------------------------------------------------------
  // Missing values and fields
  // ---------------------------------------------------------------------------

  /** `[v for v in values if v is not None]`. */
  function DropMissing<T>(values: seq<Option<T>>): (kept: seq<T>)
    ensures |kept| <= |values|
  {
    if values == [] then []
    else (if values[0].Some? then [values[0].value] else []) + DropMissing(values[1..])
  }

  /** Dropping is done piece by piece: the kept values of a concatenation are the concatenated kept values. */
  lemma {:induction false} DropMissingAppend<T>(a: seq<Option<T>>, b: seq<Option<T>>)
    ensures DropMissing(a + b) == DropMissing(a) + DropMissing(b)
  {
    if a != [] {
      assert (a + b)[1..] == a[1..] + b;
      DropMissingAppend(a[1..], b);
    } else {
      assert a + b == b;
    }
  }

  /** A value is kept exactly when it was present, and nothing missing survives. */
  lemma {:induction false} DropMissingExact<T>(values: seq<Option<T>>)
    ensures forall v :: v in DropMissing(values) <==> Some(v) in values
  {
    if values != [] {
      DropMissingExact(values[1..]);
      assert values == [values[0]] + values[1..];
    }
  }

  lemma DropMissingExample()
    ensures DropMissing([Some(1.0), Some(2.0), None, Some(3.0), None, Some(4.0)]) == [1.0, 2.0, 3.0, 4.0]
  {
  }

  /** `[f for f in required_fields if f not in data]`. */
  function MissingFields(required: seq<string>, present: set<string>): (missing: seq<string>)
    ensures forall f :: f in missing <==> f in required && f !in present
  {
    if required == [] then []
    else (if required[0] in present then [] else [required[0]]) + MissingFields(required[1..], present)
  }

  lemma MissingFieldsExample()
    ensures MissingFields(["fips", "date", "ndvi_mean", "lst_mean"], {"fips", "date", "ndvi_mean", "lst_mean"}) == []
    ensures MissingFields(["fips", "date", "ndvi_mean", "lst_mean"], {"fips", "lst_mean"}) == ["date", "ndvi_mean"]
  {
  }
}
