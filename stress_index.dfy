/**
 * The Multivariate Corn Stress Index (MCSI) calculator whose contract the
 * test suite pins: component scores for water and heat stress with the
 * pollination multiplier, the fixed-weight composite clamped to [0, 100],
 * and the five-level status classifier.
 *
 * All arithmetic is on exact reals, so the suite's approximate comparisons
 * become equalities.
 */
module StressIndex {

  const WATER_WEIGHT: real := 0.40
  const HEAT_WEIGHT: real := 0.30
  const VEGETATION_WEIGHT: real := 0.20
  const ATMOSPHERIC_WEIGHT: real := 0.10

  /** Stress during the pollination period is this multiple of the ordinary score, capped at 100. */
  const POLLINATION_MULTIPLIER: real := 1.5

  /** Mean land-surface temperature (°C) at or below which there is no heat stress. */
  const HEAT_THRESHOLD: real := 35.0
  /** Points per degree above the threshold, per day above 35 °C and per day above 38 °C. */
  const HEAT_PER_DEGREE: real := 10.0
  const HEAT_PER_DAY_ABOVE_35: real := 5.0
  const HEAT_PER_DAY_ABOVE_38: real := 10.0

  function Min(a: real, b: real): real {
    if a <= b then a else b
  }

  /** Brings an out-of-range component back into [0, 100]. */
  function Clamp(x: real): (r: real)
    ensures 0.0 <= r <= 100.0
    ensures 0.0 <= x <= 100.0 ==> r == x
    ensures x < 0.0 ==> r == 0.0
    ensures x > 100.0 ==> r == 100.0
  {
    if x < 0.0 then 0.0 else if x > 100.0 then 100.0 else x
  }

  /** The pollination rule shared by both components. */
  function Pollinated(base: real, isPollination: bool): real {
    if isPollination then Min(100.0, base * POLLINATION_MULTIPLIER) else base
  }

  /** Water-deficit bands (mm): surplus 0, under 2 mm 20, up to and including 4 mm 50, under 6 mm 75, else 100. */
  function WaterBand(deficitMm: real): real {
    if deficitMm < 0.0 then 0.0
    else if deficitMm < 2.0 then 20.0
    else if deficitMm <= 4.0 then 50.0
    else if deficitMm < 6.0 then 75.0
    else 100.0
  }

  /** `calculate_water_stress(deficit_mm, is_pollination)`. */
  function WaterStress(deficitMm: real, isPollination: bool): (s: real)
    ensures 0.0 <= s <= 100.0
    ensures deficitMm < 0.0 ==> s == 0.0
    ensures deficitMm >= 6.0 ==> s == 100.0
  {
    Pollinated(WaterBand(deficitMm), isPollination)
  }

  /** `calculate_heat_stress(lst_mean, days_above_35, days_above_38, is_pollination)`. */
  function HeatStress(lstMean: real, daysAbove35: nat, daysAbove38: nat, isPollination: bool): (s: real)
    ensures 0.0 <= s <= 100.0
    ensures s == 0.0 <==> lstMean <= HEAT_THRESHOLD
  {
    var base :=
      if lstMean <= HEAT_THRESHOLD then 0.0
      else Min(100.0, (lstMean - HEAT_THRESHOLD) * HEAT_PER_DEGREE
                      + daysAbove35 as real * HEAT_PER_DAY_ABOVE_35
                      + daysAbove38 as real * HEAT_PER_DAY_ABOVE_38);
    Pollinated(base, isPollination)
  }

  /** `calculate_mcsi(water, heat, vegetation, atmospheric)`: the weighted sum of the clamped components. */
  function Composite(water: real, heat: real, vegetation: real, atmospheric: real): (csi: real)
    ensures 0.0 <= csi <= 100.0
  {
    WATER_WEIGHT * Clamp(water) + HEAT_WEIGHT * Clamp(heat)
    + VEGETATION_WEIGHT * Clamp(vegetation) + ATMOSPHERIC_WEIGHT * Clamp(atmospheric)
  }

  /** The five stress levels, from least to most severe. */
  datatype Status = Healthy | Mild | Moderate | Severe | Critical {

    /** The label `get_stress_status` returns. */
    function Name(): string {
      match this
      case Healthy => "HEALTHY"
      case Mild => "MILD"
      case Moderate => "MODERATE"
      case Severe => "SEVERE"
      case Critical => "CRITICAL"
    }

    function Rank(): nat {
      match this
      case Healthy => 0
      case Mild => 1
      case Moderate => 2
      case Severe => 3
      case Critical => 4
    }
  }

  /** `get_stress_status(csi)`: bands of width 20, each closed at its lower edge. */
  function Classify(csi: real): Status {
    if csi < 20.0 then Healthy
    else if csi < 40.0 then Mild
    else if csi < 60.0 then Moderate
    else if csi < 80.0 then Severe
    else Critical
  }

  // ---------------------------------------------------------------------------
  // Properties
  // ---------------------------------------------------------------------------

  /** The weights sum to one, so equal components give that same value back. */
  lemma WeightsSumToOne()
    ensures WATER_WEIGHT + HEAT_WEIGHT + VEGETATION_WEIGHT + ATMOSPHERIC_WEIGHT == 1.0
    ensures forall x :: 0.0 <= x <= 100.0 ==> Composite(x, x, x, x) == x
  {
  }

  /** During pollination a component is 1.5 times its ordinary value unless that exceeds 100. */
  lemma PollinationMultiplier(deficitMm: real, lstMean: real, d35: nat, d38: nat)
    ensures WaterStress(deficitMm, true) == Min(100.0, 1.5 * WaterStress(deficitMm, false))
    ensures HeatStress(lstMean, d35, d38, true) == Min(100.0, 1.5 * HeatStress(lstMean, d35, d38, false))
  {
  }

  /** More deficit never means less water stress. */
  lemma WaterStressMonotone(d1: real, d2: real, p: bool)
    requires d1 <= d2
    ensures WaterStress(d1, p) <= WaterStress(d2, p)
  {
  }

  /** Hotter, or more hot days, never means less heat stress. */
  lemma HeatStressMonotone(t1: real, t2: real, a1: nat, a2: nat, b1: nat, b2: nat, p: bool)
    requires t1 <= t2 && a1 <= a2 && b1 <= b2
    ensures HeatStress(t1, a1, b1, p) <= HeatStress(t2, a2, b2, p)
  {
  }

  /** The composite never decreases when one component grows. */
  lemma CompositeMonotone(w1: real, h1: real, v1: real, a1: real, w2: real, h2: real, v2: real, a2: real)
    requires w1 <= w2 && h1 <= h2 && v1 <= v2 && a1 <= a2
    ensures Composite(w1, h1, v1, a1) <= Composite(w2, h2, v2, a2)
  {
  }

  /** Inside [0, 100] it strictly grows with any one component, by that component's weight. */
  lemma CompositeStrictlyMonotone(w: real, h: real, v: real, a: real, delta: real)
    requires 0.0 <= w && 0.0 <= h && 0.0 <= v && 0.0 <= a
    requires 0.0 < delta && w + delta <= 100.0 && h + delta <= 100.0 && v + delta <= 100.0 && a + delta <= 100.0
    requires w <= 100.0 && h <= 100.0 && v <= 100.0 && a <= 100.0
    ensures Composite(w + delta, h, v, a) == Composite(w, h, v, a) + WATER_WEIGHT * delta
    ensures Composite(w, h + delta, v, a) == Composite(w, h, v, a) + HEAT_WEIGHT * delta
    ensures Composite(w, h, v + delta, a) == Composite(w, h, v, a) + VEGETATION_WEIGHT * delta
    ensures Composite(w, h, v, a + delta) == Composite(w, h, v, a) + ATMOSPHERIC_WEIGHT * delta
  {
  }

  /** A status band holds exactly the scores between its edges. */
  lemma ClassifyBands(csi: real)
    ensures Classify(csi) == Healthy <==> csi < 20.0
    ensures Classify(csi) == Mild <==> 20.0 <= csi < 40.0
    ensures Classify(csi) == Moderate <==> 40.0 <= csi < 60.0
    ensures Classify(csi) == Severe <==> 60.0 <= csi < 80.0
    ensures Classify(csi) == Critical <==> 80.0 <= csi
  {
  }

  /** A higher score never gets a milder status. */
  lemma ClassifyMonotone(a: real, b: real)
    requires a <= b
    ensures Classify(a).Rank() <= Classify(b).Rank()
  {
  }

  /** The suite's water-stress cases. */
  lemma WaterStressExamples()
    ensures WaterStress(-5.0, false) == 0.0
    ensures 0.0 <= WaterStress(1.5, false) <= 30.0
    ensures 30.0 < WaterStress(3.0, false) <= 70.0
    ensures 50.0 < WaterStress(5.0, false) <= 100.0
    ensures WaterStress(8.0, false) == 100.0
    ensures WaterStress(3.0, true) > WaterStress(3.0, false)
    ensures WaterStress(3.0, true) == 1.5 * WaterStress(3.0, false)
  {
  }

  /** The suite's heat-stress cases. */
  lemma HeatStressExamples()
    ensures HeatStress(25.0, 0, 0, false) == 0.0
    ensures 0.0 < HeatStress(36.0, 3, 0, false) < 50.0
    ensures HeatStress(40.0, 0, 5, false) > 80.0
    ensures HeatStress(37.0, 3, 0, true) > HeatStress(37.0, 3, 0, false)
    ensures HeatStress(37.0, 3, 0, true) == 1.5 * HeatStress(37.0, 3, 0, false)
  {
  }

  /** The suite's composite cases, including out-of-range components and the drought scenarios. */
  lemma CompositeExamples()
    ensures Composite(0.0, 0.0, 0.0, 0.0) == 0.0
    ensures Composite(100.0, 100.0, 100.0, 100.0) == 100.0
    ensures Composite(80.0, 60.0, 40.0, 20.0) == 60.0
    ensures 50.0 < Composite(75.0, 60.0, 50.0, 40.0) < 70.0
    ensures Composite(100.0, 50.0, 50.0, 50.0) - Composite(50.0, 50.0, 50.0, 50.0) == 20.0
    ensures Composite(50.0, 100.0, 50.0, 50.0) - Composite(50.0, 50.0, 50.0, 50.0) == 15.0
    ensures Composite(-10.0, 50.0, 50.0, 50.0) >= 0.0
    ensures 0.0 <= Composite(150.0, 50.0, 50.0, 50.0) <= 100.0
    ensures Composite(30.0, 20.0, 25.0, 15.0) < Composite(60.0, 45.0, 50.0, 35.0) < Composite(90.0, 70.0, 75.0, 60.0)
    ensures Composite(30.0, 60.0, 50.0, 50.0) < Composite(80.0, 60.0, 70.0, 50.0)
    ensures Composite(80.0, 0.0, 0.0, 0.0) < Composite(80.0, 60.0, 50.0, 40.0)
  {
  }

  /** The classifier cases of the integration suite. */
  lemma ClassifyExamples()
    ensures Classify(10.0).Name() == "HEALTHY"
    ensures Classify(30.0).Name() == "MILD"
    ensures Classify(50.0).Name() == "MODERATE"
    ensures Classify(70.0).Name() == "SEVERE"
    ensures Classify(90.0).Name() == "CRITICAL"
    ensures Classify(99.9).Name() == "CRITICAL"
  {
  }
}
