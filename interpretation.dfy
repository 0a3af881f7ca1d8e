/**
 * The interpretation helpers of the RAG service: the five-level status label,
 * the plain-text context handed to the language model, the rule-based
 * recommendations, the risk line and the provenance record. Their
 * implementation is pinned by the integration suite's fixtures; the
 * thresholds the suite leaves open are the constants below.
 */
module Interpretation {
  import opened Text
  import StressIndex

  // ---------------------------------------------------------------------------
  // Inputs
  // ---------------------------------------------------------------------------

  /** The stress-index reading of one county (the `MCsIData` request model). */
  datatype McsiData = McsiData(
    fips: string,
    countyName: string,
    overallStressIndex: real,
    waterStressIndex: real,
    heatStressIndex: real,
    vegetationHealthIndex: real,
    atmosphericStressIndex: real,
    primaryDriver: string,
    indicators: map<string, real>)

  /** A yield forecast for one county (the `YieldForecastData` request model). */
  datatype YieldData = YieldData(
    fips: string,
    year: int,
    currentWeek: int,
    yieldForecast: real,
    intervalLower: real,
    intervalUpper: real,
    uncertainty: real,
    baselineYield: real,
    primaryDriver: string,
    featureImportance: map<string, real>)

  /** A stress reading the suite accepts: indices on the 0..100 scale, some indicators. */
  predicate ValidMcsi(m: McsiData) {
    0.0 <= m.overallStressIndex <= 100.0
    && 0.0 <= m.waterStressIndex <= 100.0
    && |m.indicators| > 0
  }

  /** A forecast the suite accepts: positive, inside its own interval, with positive spread. */
  predicate ValidForecast(y: YieldData) {
    y.yieldForecast > 0.0
    && y.intervalLower <= y.yieldForecast <= y.intervalUpper
    && y.uncertainty > 0.0
  }

  // ---------------------------------------------------------------------------
  // One-decimal rendering of readings
  // ---------------------------------------------------------------------------

  /** The reading in tenths, rounded half up. */
  function Tenths(x: real): int {
    (x * 10.0 + 0.5).Floor
  }

  function TenthsToString(t: nat): string {
    NatToString(t / 10) + "." + [DigitChar(t % 10)]
  }

  /** A reading written with exactly one decimal, as `f"{x:.1f}"` does. */
  function OneDecimal(x: real): (s: string)
    ensures |s| >= 3 && s[|s| - 2] == '.' && IsDigit(s[|s| - 1])
    ensures Tenths(x) < 0 <==> s[0] == '-'
  {
    var t := Tenths(x);
    if t < 0 then "-" + TenthsToString(-t) else TenthsToString(t)
  }

  lemma TenthsToStringInjective(a: nat, b: nat)
    requires TenthsToString(a) == TenthsToString(b)
    ensures a == b
  {
    var sa, sb := TenthsToString(a), TenthsToString(b);
    assert DigitChar(a % 10) == sa[|sa| - 1] == sb[|sb| - 1] == DigitChar(b % 10);
    assert sa[..|sa| - 2] == NatToString(a / 10);
    assert sb[..|sb| - 2] == NatToString(b / 10);
    NatToStringInjective(a / 10, b / 10);
  }

  /** Readings that differ after rounding to tenths are written differently. */
  lemma OneDecimalInjective(x: real, y: real)
    requires OneDecimal(x) == OneDecimal(y)
    ensures Tenths(x) == Tenths(y)
  {
    var tx, ty := Tenths(x), Tenths(y);
    if tx < 0 {
      assert OneDecimal(x)[1..] == TenthsToString(-tx);
      assert OneDecimal(y)[1..] == TenthsToString(-ty);
      TenthsToStringInjective(-tx, -ty);
    } else {
      TenthsToStringInjective(tx, ty);
    }
  }

  lemma OneDecimalExamples()
    ensures OneDecimal(194.2) == "194.2"
    ensures OneDecimal(35.5) == "35.5"
    ensures OneDecimal(0.0) == "0.0"
    ensures OneDecimal(-2.25) == "-2.2"
  {
    assert Tenths(194.2) == 1942;
    assert NatToString(194) == "194";
    assert Tenths(35.5) == 355;
    assert NatToString(35) == "35";
    assert Tenths(-2.25) == -22;
  }

  // ---------------------------------------------------------------------------
  // build_context
  // ---------------------------------------------------------------------------

  const GROWTH_STAGES_TITLE := "CORN_GROWTH_STAGES"
  const THRESHOLDS_TITLE := "CRITICAL_THRESHOLDS"
  const WEEK_LABEL := "week_of_season: "

  const GROWTH_STAGES_SECTION := GROWTH_STAGES_TITLE
    + ": emergence and vegetative growth weeks 18-26, pollination weeks 27-31, grain fill weeks 32-39"
  const THRESHOLDS_SECTION := THRESHOLDS_TITLE
    + ": water stress index above 40, yield below 98% of baseline, heat index above 60 or land surface above 35 C during pollination"

  /** The lines of the context, one fact per line, the agronomy knowledge last. */
  function ContextLines(m: McsiData, y: YieldData): seq<string> {
    [ "COUNTY: " + m.countyName + " (FIPS " + m.fips + ")",
      "OVERALL_STRESS_INDEX: " + OneDecimal(m.overallStressIndex)
        + " (" + StressIndex.Classify(m.overallStressIndex).Name() + ")",
      "WATER_STRESS_INDEX: " + OneDecimal(m.waterStressIndex),
      "HEAT_STRESS_INDEX: " + OneDecimal(m.heatStressIndex),
      "PRIMARY_STRESS_DRIVER: " + m.primaryDriver,
      "YIELD_FORECAST: " + OneDecimal(y.yieldForecast) + " bu/acre",
      WEEK_LABEL + IntToString(y.currentWeek),
      GROWTH_STAGES_SECTION,
      THRESHOLDS_SECTION ]
  }

  /** `build_context`: the text the language model reads. */
  function BuildContext(m: McsiData, y: YieldData): string {
    Join("\n", ContextLines(m, y))
  }

  /** A piece of one line of a newline-joined text is a piece of the text. */
  lemma InLine(before: string, t: string, after: string, lines: seq<string>, i: nat)
    requires i < |lines| && lines[i] == before + t + after
    ensures IsSubstring(t, Join("\n", lines))
  {
    SubstringOfConcat(before, t, after);
    PartInJoin("\n", lines, i);
    SubstringTransitive(t, lines[i], Join("\n", lines));
  }

  /**
   * The context names the county and its FIPS code unvalidated, the overall
   * index with its status label, the forecast, the week and both knowledge
   * sections, whatever the readings are.
   */
  lemma ContextMentions(m: McsiData, y: YieldData)
    ensures IsSubstring(m.countyName, BuildContext(m, y))
    ensures IsSubstring(m.fips, BuildContext(m, y))
    ensures IsSubstring(OneDecimal(m.overallStressIndex), BuildContext(m, y))
    ensures IsSubstring(StressIndex.Classify(m.overallStressIndex).Name(), BuildContext(m, y))
    ensures IsSubstring(OneDecimal(y.yieldForecast), BuildContext(m, y))
    ensures IsSubstring(WEEK_LABEL + IntToString(y.currentWeek), BuildContext(m, y))
    ensures IsSubstring(GROWTH_STAGES_TITLE, BuildContext(m, y))
    ensures IsSubstring(THRESHOLDS_TITLE, BuildContext(m, y))
  {
    var lines := ContextLines(m, y);
    var overall := OneDecimal(m.overallStressIndex);
    var name := StressIndex.Classify(m.overallStressIndex).Name();
    InLine("COUNTY: ", m.countyName, " (FIPS " + m.fips + ")", lines, 0);
    InLine("COUNTY: " + m.countyName + " (FIPS ", m.fips, ")", lines, 0);
    InLine("OVERALL_STRESS_INDEX: ", overall, " (" + name + ")", lines, 1);
    InLine("OVERALL_STRESS_INDEX: " + overall + " (", name, ")", lines, 1);
    InLine("YIELD_FORECAST: ", OneDecimal(y.yieldForecast), " bu/acre", lines, 5);
    InLine("", lines[6], "", lines, 6);
    InLine("", GROWTH_STAGES_TITLE, GROWTH_STAGES_SECTION[|GROWTH_STAGES_TITLE|..], lines, 7);
    InLine("", THRESHOLDS_TITLE, THRESHOLDS_SECTION[|THRESHOLDS_TITLE|..], lines, 8);
  }

  // ---------------------------------------------------------------------------
  // Fixtures of the integration suite
  // ---------------------------------------------------------------------------

  function AdairMcsi(): McsiData {
    McsiData("19001", "Adair", 35.5, 42.3, 8.9, 42.1, 12.0, "Water stress",
      map["water_deficit_mean" := 5.2, "pr_sum" := 2.1, "lst_mean" := 28.5,
          "ndvi_mean" := 0.465, "vpd_mean" := 1.2, "eto_mean" := 4.1])
  }

  function AdairYield(): YieldData {
    YieldData("19001", 2025, 30, 194.2, 193.8, 194.6, 0.4, 199.2, "cumsum_precip",
      map["cumsum_precip" := 0.325, "cumsum_heat_days" := 0.315, "cumsum_vpd" := 0.127,
          "cumsum_water_deficit" := 0.124, "ndvi_current" := 0.109])
  }

  function UnknownMcsi(): McsiData {
    McsiData("00000", "Unknown", 0.0, 0.0, 0.0, 0.0, 0.0, "None", map[])
  }

  function ExtremeMcsi(): McsiData {
    McsiData("19001", "Adair", 99.9, 95.0, 80.0, 5.0, 50.0, "Multiple stressors",
      map["water_deficit_mean" := 10.0])
  }

  function ExtremeYield(): YieldData {
    YieldData("19001", 2025, 30, 150.0, 140.0, 160.0, 10.0, 199.2, "cumsum_heat_days", map[])
  }

  function EarlyMcsi(): McsiData {
    McsiData("19001", "Adair", 15.0, 20.0, 0.0, 45.0, 10.0, "None",
      map["water_deficit_mean" := 2.0])
  }

  function EarlyYield(): YieldData {
    YieldData("19001", 2025, 21, 199.0, 180.0, 218.0, 18.0, 199.2, "week_of_season", map[])
  }

  function PollinationMcsi(): McsiData {
    McsiData("19001", "Adair", 65.0, 50.0, 75.0, 50.0, 30.0, "Heat stress",
      map["lst_mean" := 37.0])
  }

  function PollinationYield(): YieldData {
    YieldData("19001", 2025, 30, 180.0, 179.5, 180.5, 0.5, 199.2, "cumsum_heat_days",
      map["cumsum_heat_days" := 0.5])
  }

  /** Every fixture reading and forecast is well formed; early-season spread exceeds 10. */
  lemma FixturesValid()
    ensures ValidMcsi(AdairMcsi()) && AdairMcsi().fips == "19001"
    ensures ValidForecast(AdairYield()) && AdairYield().fips == "19001"
    ensures ValidForecast(ExtremeYield()) && ValidForecast(EarlyYield()) && ValidForecast(PollinationYield())
    ensures EarlyYield().uncertainty > 10.0
  {
    assert "lst_mean" in AdairMcsi().indicators;
  }

  /**
   * The Adair context (county Adair, FIPS 19001, overall index 35.5,
   * forecast 194.2) carries every fact the suite looks for.
   */
  lemma AdairContext(m: McsiData, y: YieldData)
    requires m.countyName == "Adair" && m.fips == "19001" && m.overallStressIndex == 35.5
    requires y.yieldForecast == 194.2
    ensures IsSubstring("Adair", BuildContext(m, y))
    ensures IsSubstring("19001", BuildContext(m, y))
    ensures IsSubstring("194.2", BuildContext(m, y))
    ensures IsSubstring("35.5", BuildContext(m, y))
    ensures IsSubstring("MILD", BuildContext(m, y))
    ensures IsSubstring("CORN_GROWTH_STAGES", BuildContext(m, y))
    ensures IsSubstring("CRITICAL_THRESHOLDS", BuildContext(m, y))
  {
    ContextMentions(m, y);
    OneDecimalExamples();
    assert StressIndex.Classify(35.5).Name() == "MILD";
  }

  /** An unknown FIPS code reaches the context unvalidated. */
  lemma UnknownFipsContext(m: McsiData, y: YieldData)
    requires m.fips == "00000"
    ensures IsSubstring("00000", BuildContext(m, y))
  {
    ContextMentions(m, y);
  }

  /** A week-21 context states its week. */
  lemma EarlySeasonContext(m: McsiData, y: YieldData)
    requires y.currentWeek == 21
    ensures IsSubstring("week_of_season: 21", BuildContext(m, y))
  {
    WeekLabelExample();
    ContextMentions(m, y);
  }

  lemma WeekLabelExample()
    ensures WEEK_LABEL + IntToString(21) == "week_of_season: 21"
  {
    assert NatToString(21) == "21";
  }

  // ---------------------------------------------------------------------------
  // generate_recommendations
  // ---------------------------------------------------------------------------

  const WATER_ALERT := 40.0
  const YIELD_ALERT_RATIO := 0.98
  const HEAT_ALERT := 60.0
  const LST_ALERT := 35.0
  const POLLINATION_FIRST_WEEK := 27
  const POLLINATION_LAST_WEEK := 31

  const WATER_TAG := "WATER STRESS"
  const YIELD_TAG := "YIELD"
  const POLLINATION_TAG := "POLLINATION"
  const URGENT_TAG := "URGENT"
  const ROUTINE_TAG := "ROUTINE"

  predicate WaterAlert(m: McsiData) {
    m.waterStressIndex > WATER_ALERT
  }

  predicate YieldAlert(y: YieldData) {
    y.yieldForecast < YIELD_ALERT_RATIO * y.baselineYield
  }

  /** Heat during the pollination window: a high heat index or a land surface above 35 C. */
  predicate PollinationAlert(m: McsiData, y: YieldData) {
    POLLINATION_FIRST_WEEK <= y.currentWeek <= POLLINATION_LAST_WEEK
    && (m.heatStressIndex > HEAT_ALERT
        || ("lst_mean" in m.indicators && m.indicators["lst_mean"] > LST_ALERT))
  }

  predicate UrgentAlert(m: McsiData) {
    StressIndex.Classify(m.overallStressIndex) == StressIndex.Critical
  }

  predicate NoAlert(m: McsiData, y: YieldData) {
    !WaterAlert(m) && !YieldAlert(y) && !PollinationAlert(m, y) && !UrgentAlert(m)
  }

  /** One recommendation, before it is written out. */
  datatype Advice =
    | WaterAdvice(waterIndex: real)
    | YieldAdvice(forecast: real, baseline: real)
    | PollinationAdvice(week: int)
    | UrgentAdvice(overall: real)
    | RoutineAdvice
  {
    /** The words every entry of this kind opens with. */
    function Tag(): string {
      match this
      case WaterAdvice(_) => WATER_TAG
      case YieldAdvice(_, _) => YIELD_TAG
      case PollinationAdvice(_) => POLLINATION_TAG
      case UrgentAdvice(_) => URGENT_TAG
      case RoutineAdvice => ROUTINE_TAG
    }

    function Detail(): string {
      match this
      case WaterAdvice(w) =>
        ": water stress index " + OneDecimal(w) + " is above 40; prioritise irrigation and moisture conservation"
      case YieldAdvice(f, b) =>
        " RISK: forecast " + OneDecimal(f) + " bu/acre is below the baseline of " + OneDecimal(b) + " bu/acre"
      case PollinationAdvice(w) =>
        " HEAT RISK: week " + IntToString(w) + " is in the pollination window; protect silking with irrigation where possible"
      case UrgentAdvice(o) =>
        ": overall stress " + OneDecimal(o) + " is CRITICAL; scout fields and review crop insurance now"
      case RoutineAdvice =>
        " MONITORING: no stress trigger is active; continue weekly scouting"
    }

    /** The entry as the service returns it, opening with its tag. */
    function Text(): (s: string)
      ensures StartsWith(s, Tag())
    {
      Tag() + Detail()
    }
  }

  predicate IsTag(tag: string) {
    tag == WATER_TAG || tag == YIELD_TAG || tag == POLLINATION_TAG || tag == URGENT_TAG || tag == ROUTINE_TAG
  }

  /** Which advice the readings call for: one per active trigger, else the routine entry. */
  function Triggered(m: McsiData, y: YieldData): seq<Advice> {
    var alerts :=
      (if WaterAlert(m) then [WaterAdvice(m.waterStressIndex)] else [])
      + (if YieldAlert(y) then [YieldAdvice(y.yieldForecast, y.baselineYield)] else [])
      + (if PollinationAlert(m, y) then [PollinationAdvice(y.currentWeek)] else [])
      + (if UrgentAlert(m) then [UrgentAdvice(m.overallStressIndex)] else []);
    if alerts == [] then [RoutineAdvice] else alerts
  }

  function Texts(advice: seq<Advice>): seq<string> {
    seq(|advice|, i requires 0 <= i < |advice| => advice[i].Text())
  }

  /** `generate_recommendations`: the triggered advice, written out in trigger order. */
  function Recommendations(m: McsiData, y: YieldData): seq<string> {
    Texts(Triggered(m, y))
  }

  /** Some recommendation opens with `tag`. */
  predicate Flagged(recs: seq<string>, tag: string) {
    exists i :: 0 <= i < |recs| && StartsWith(recs[i], tag)
  }

  /** The five tags differ in their first letter. */
  lemma TagLetters(a: Advice, tag: string)
    requires IsTag(tag) && a.Tag()[0] == tag[0]
    ensures a.Tag() == tag
  {
  }

  /** A written-out list opens an entry with a tag exactly when some advice has that tag. */
  lemma FlaggedIffTagged(advice: seq<Advice>, tag: string)
    requires IsTag(tag)
    ensures Flagged(Texts(advice), tag) <==> exists j :: 0 <= j < |advice| && advice[j].Tag() == tag
  {
    var recs := Texts(advice);
    if j :| 0 <= j < |advice| && advice[j].Tag() == tag {
      assert StartsWith(recs[j], tag);
    }
    forall i | 0 <= i < |recs| && StartsWith(recs[i], tag)
      ensures advice[i].Tag() == tag
    {
      OpeningTag(advice[i], tag);
    }
  }

  /** An entry that opens with a tag is advice of that tag's kind. */
  lemma OpeningTag(a: Advice, tag: string)
    requires IsTag(tag) && StartsWith(a.Text(), tag)
    ensures a.Tag() == tag
  {
    var text := a.Text();
    assert text[0] == text[..|tag|][0] == tag[0];
    assert text[0] == text[..|a.Tag()|][0] == a.Tag()[0];
    TagLetters(a, tag);
  }

  /** The triggered advice: which kinds occur, exactly. */
  lemma TriggeredKinds(m: McsiData, y: YieldData)
    ensures |Triggered(m, y)| > 0
    ensures (exists j :: 0 <= j < |Triggered(m, y)| && Triggered(m, y)[j].Tag() == WATER_TAG) <==> WaterAlert(m)
    ensures (exists j :: 0 <= j < |Triggered(m, y)| && Triggered(m, y)[j].Tag() == YIELD_TAG) <==> YieldAlert(y)
    ensures (exists j :: 0 <= j < |Triggered(m, y)| && Triggered(m, y)[j].Tag() == POLLINATION_TAG)
      <==> PollinationAlert(m, y)
    ensures (exists j :: 0 <= j < |Triggered(m, y)| && Triggered(m, y)[j].Tag() == URGENT_TAG) <==> UrgentAlert(m)
    ensures (exists j :: 0 <= j < |Triggered(m, y)| && Triggered(m, y)[j].Tag() == ROUTINE_TAG) <==> NoAlert(m, y)
  {
    var t := Triggered(m, y);
    forall j | 0 <= j < |t|
      ensures t[j].Tag() == WATER_TAG ==> t[j] == WaterAdvice(m.waterStressIndex) && WaterAlert(m)
      ensures t[j].Tag() == YIELD_TAG ==> YieldAlert(y)
      ensures t[j].Tag() == POLLINATION_TAG ==> PollinationAlert(m, y)
      ensures t[j].Tag() == URGENT_TAG ==> UrgentAlert(m)
      ensures t[j].Tag() == ROUTINE_TAG ==> NoAlert(m, y)
    {
    }
    var w := if WaterAlert(m) then 1 else 0;
    var yy := w + if YieldAlert(y) then 1 else 0;
    var p := yy + if PollinationAlert(m, y) then 1 else 0;
    if WaterAlert(m) { assert t[0].Tag() == WATER_TAG; }
    if YieldAlert(y) { assert t[w].Tag() == YIELD_TAG; }
    if PollinationAlert(m, y) { assert t[yy].Tag() == POLLINATION_TAG; }
    if UrgentAlert(m) { assert t[p].Tag() == URGENT_TAG; }
    if NoAlert(m, y) { assert t[0].Tag() == ROUTINE_TAG; }
  }

  /**
   * The list is never empty, and each tag opens an entry exactly when its
   * trigger holds: water above 40, forecast below 98% of baseline, heat in
   * weeks 27-31, a CRITICAL overall index, and the routine entry when
   * nothing fired.
   */
  lemma RecommendationTriggers(m: McsiData, y: YieldData)
    ensures |Recommendations(m, y)| > 0
    ensures Flagged(Recommendations(m, y), WATER_TAG) <==> WaterAlert(m)
    ensures Flagged(Recommendations(m, y), YIELD_TAG) <==> YieldAlert(y)
    ensures Flagged(Recommendations(m, y), POLLINATION_TAG) <==> PollinationAlert(m, y)
    ensures Flagged(Recommendations(m, y), URGENT_TAG) <==> UrgentAlert(m)
    ensures Flagged(Recommendations(m, y), ROUTINE_TAG) <==> NoAlert(m, y)
  {
    TriggeredKinds(m, y);
    FlaggedIffTagged(Triggered(m, y), WATER_TAG);
    FlaggedIffTagged(Triggered(m, y), YIELD_TAG);
    FlaggedIffTagged(Triggered(m, y), POLLINATION_TAG);
    FlaggedIffTagged(Triggered(m, y), URGENT_TAG);
    FlaggedIffTagged(Triggered(m, y), ROUTINE_TAG);
  }

  /** A flagged tag is found by a plain substring search of the space-joined list. */
  lemma FlaggedInText(recs: seq<string>, tag: string)
    requires Flagged(recs, tag)
    ensures IsSubstring(tag, Join(" ", recs))
  {
    var i :| 0 <= i < |recs| && StartsWith(recs[i], tag);
    SubstringOfConcat("", tag, recs[i][|tag|..]);
    assert "" + tag + recs[i][|tag|..] == recs[i];
    PartInJoin(" ", recs, i);
    SubstringTransitive(tag, recs[i], Join(" ", recs));
  }

  /** Adair (water 42.3, forecast 194.2 against 199.2): a water entry and a yield entry. */
  lemma AdairRecommendations(m: McsiData, y: YieldData)
    requires m.waterStressIndex == 42.3 && y.yieldForecast == 194.2 && y.baselineYield == 199.2
    ensures |Recommendations(m, y)| > 0
    ensures IsSubstring(WATER_TAG, Join(" ", Recommendations(m, y)))
    ensures IsSubstring(YIELD_TAG, Join(" ", Recommendations(m, y)))
  {
    assert WaterAlert(m) && YieldAlert(y);
    WaterAndYieldFlagged(m, y);
    FlaggedInText(Recommendations(m, y), WATER_TAG);
    FlaggedInText(Recommendations(m, y), YIELD_TAG);
  }

  lemma WaterAndYieldFlagged(m: McsiData, y: YieldData)
    requires WaterAlert(m) && YieldAlert(y)
    ensures Flagged(Recommendations(m, y), WATER_TAG) && Flagged(Recommendations(m, y), YIELD_TAG)
  {
    RecommendationTriggers(m, y);
  }

  /** The extreme reading (99.9 overall, water 95, forecast 150): water, yield and urgent entries. */
  lemma ExtremeRecommendations(m: McsiData, y: YieldData)
    requires m.overallStressIndex == 99.9 && m.waterStressIndex == 95.0
    requires y.yieldForecast == 150.0 && y.baselineYield == 199.2
    ensures Flagged(Recommendations(m, y), WATER_TAG)
    ensures Flagged(Recommendations(m, y), YIELD_TAG)
    ensures Flagged(Recommendations(m, y), URGENT_TAG)
  {
    assert WaterAlert(m) && YieldAlert(y) && UrgentAlert(m);
    WaterAndYieldFlagged(m, y);
    UrgentFlagged(m, y);
  }

  lemma UrgentFlagged(m: McsiData, y: YieldData)
    requires UrgentAlert(m)
    ensures Flagged(Recommendations(m, y), URGENT_TAG)
  {
    RecommendationTriggers(m, y);
  }

  /** Week 30 with heat 75 and land surface 37 C: a pollination entry. */
  lemma PollinationRecommendations(m: McsiData, y: YieldData)
    requires y.currentWeek == 30 && m.heatStressIndex == 75.0
    ensures Flagged(Recommendations(m, y), POLLINATION_TAG)
  {
    assert PollinationAlert(m, y);
    PollinationFlagged(m, y);
  }

  lemma PollinationFlagged(m: McsiData, y: YieldData)
    requires PollinationAlert(m, y)
    ensures Flagged(Recommendations(m, y), POLLINATION_TAG)
  {
    RecommendationTriggers(m, y);
  }

  /** The suite's fixtures meet the premises of the lemmas above. */
  lemma FixturePremises()
    ensures AdairMcsi().countyName == "Adair" && AdairMcsi().fips == "19001"
    ensures AdairMcsi().overallStressIndex == 35.5 && AdairMcsi().waterStressIndex == 42.3
    ensures AdairYield().yieldForecast == 194.2 && AdairYield().baselineYield == 199.2
    ensures AdairYield().uncertainty == 0.4
    ensures UnknownMcsi().fips == "00000" && EarlyYield().currentWeek == 21
    ensures ExtremeMcsi().overallStressIndex == 99.9 && ExtremeMcsi().waterStressIndex == 95.0
    ensures ExtremeYield().yieldForecast == 150.0 && ExtremeYield().baselineYield == 199.2
    ensures PollinationYield().currentWeek == 30 && PollinationMcsi().heatStressIndex == 75.0
    ensures PollinationMcsi().indicators["lst_mean"] == 37.0
  {
  }

  // ---------------------------------------------------------------------------
  // assess_risk
  // ---------------------------------------------------------------------------

  datatype RiskLevel = Low | Elevated | High {
    function Name(): string {
      match this
      case Low => "LOW"
      case Elevated => "MODERATE"
      case High => "HIGH"
    }

    function Rank(): nat {
      match this
      case Low => 0
      case Elevated => 1
      case High => 2
    }
  }

  const PLUS_MINUS := "\U{B1}"
  const RISK_WORD := " RISK: forecast "

  /** HIGH from SEVERE stress or a forecast under 90% of baseline; LOW only when healthy and on baseline. */
  function Risk(m: McsiData, y: YieldData): RiskLevel {
    var rank := StressIndex.Classify(m.overallStressIndex).Rank();
    if rank >= 3 || y.yieldForecast < 0.9 * y.baselineYield then High
    else if rank >= 1 || YieldAlert(y) then Elevated
    else Low
  }

  /** The uncertainty suffix: a plus-minus sign and the spread. */
  function Spread(u: real): string {
    PLUS_MINUS + " " + OneDecimal(u) + " bu/acre"
  }

  /** `assess_risk`: the level, the forecast and its uncertainty after a plus-minus sign. */
  function AssessRisk(m: McsiData, y: YieldData): string {
    Risk(m, y).Name() + RISK_WORD + OneDecimal(y.yieldForecast) + " " + Spread(y.uncertainty)
  }

  lemma RiskLineParts(level: string, forecast: string, spread: string)
    ensures StartsWith(level + RISK_WORD + forecast + " " + spread, level)
    ensures IsSubstring("RISK", level + RISK_WORD + forecast + " " + spread)
    ensures IsSubstring(spread, level + RISK_WORD + forecast + " " + spread)
  {
    var s := level + RISK_WORD + forecast + " " + spread;
    assert s[..|level|] == level;
    assert s[|level| + 1..|level| + 5] == RISK_WORD[1..5] == "RISK";
    assert OccursAt("RISK", s, |level| + 1);
    assert OccursAt(spread, s, |s| - |spread|);
  }

  /** The risk line opens with its level, says RISK and ends with the plus-minus uncertainty. */
  lemma RiskFormat(m: McsiData, y: YieldData)
    ensures StartsWith(AssessRisk(m, y), Risk(m, y).Name())
    ensures Risk(m, y).Name() in {"LOW", "MODERATE", "HIGH"}
    ensures IsSubstring("RISK", AssessRisk(m, y))
    ensures IsSubstring(Spread(y.uncertainty), AssessRisk(m, y))
    ensures StartsWith(Spread(y.uncertainty), PLUS_MINUS)
  {
    RiskLineParts(Risk(m, y).Name(), OneDecimal(y.yieldForecast), Spread(y.uncertainty));
    var u := Spread(y.uncertainty);
    assert u[..1] == PLUS_MINUS;
  }

  /** More stress on the same forecast never lowers the risk level. */
  lemma RiskMonotone(m1: McsiData, m2: McsiData, y: YieldData)
    requires m1.overallStressIndex <= m2.overallStressIndex
    ensures Risk(m1, y).Rank() <= Risk(m2, y).Rank()
  {
    StressIndex.ClassifyMonotone(m1.overallStressIndex, m2.overallStressIndex);
  }

  /** The Adair line (index 35.5, forecast 194.2 of 199.2, spread 0.4) reads MODERATE RISK. */
  lemma AdairRisk(m: McsiData, y: YieldData)
    requires m.overallStressIndex == 35.5 && y.yieldForecast == 194.2 && y.baselineYield == 199.2
    requires y.uncertainty == 0.4
    ensures StartsWith(AssessRisk(m, y), "MODERATE")
    ensures IsSubstring(Spread(0.4), AssessRisk(m, y))
  {
    RiskFormat(m, y);
  }

  // ---------------------------------------------------------------------------
  // track_data_sources
  // ---------------------------------------------------------------------------

  const MODEL_NAME := "gemini-1.5-pro"
  const KNOWLEDGE_SOURCE := "built-in corn agronomy knowledge"

  datatype McsiSource = McsiSource(endpoint: string, fips: string, countyName: string)
  datatype YieldSource = YieldSource(endpoint: string, fips: string, year: int, currentWeek: int)

  /** The provenance record; its fields are the dictionary's keys. */
  datatype Provenance = Provenance(
    mcsiService: McsiSource,
    yieldForecastService: YieldSource,
    knowledgeContext: string,
    model: string)

  /** `track_data_sources`: where each part of an interpretation came from. */
  function TrackDataSources(m: McsiData, y: YieldData): Provenance {
    Provenance(
      McsiSource("/mcsi/county/" + m.fips, m.fips, m.countyName),
      YieldSource("/forecast", y.fips, y.year, y.currentWeek),
      KNOWLEDGE_SOURCE,
      MODEL_NAME)
  }

  /** The record echoes the county and week it describes and names a Gemini model. */
  lemma ProvenanceEchoes(m: McsiData, y: YieldData)
    ensures TrackDataSources(m, y).mcsiService.fips == m.fips
    ensures EndsWith(TrackDataSources(m, y).mcsiService.endpoint, m.fips)
    ensures TrackDataSources(m, y).yieldForecastService.fips == y.fips
    ensures TrackDataSources(m, y).yieldForecastService.currentWeek == y.currentWeek
    ensures IsSubstring("gemini", Lower(TrackDataSources(m, y).model))
  {
    var lowered := Lower(MODEL_NAME);
    assert lowered == MODEL_NAME;
    assert OccursAt("gemini", lowered, 0);
    var e := "/mcsi/county/" + m.fips;
    assert e[|e| - |m.fips|..] == m.fips;
  }
}
