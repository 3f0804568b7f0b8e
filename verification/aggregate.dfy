/**
 * The integration summary built from the run totals: an overall severity,
 * an overall risk score, the dispatch and coordination states and the
 * business figures, each rendered as the text the summary record holds.
 */
module Aggregate {
  import opened Common
  import Decimal

  datatype Level = Normal | High | Critical

  /** The severity as the summary records it; each label reads back as its own level. */
  function LevelLabel(l: Level): (t: string)
    ensures LevelOf(t) == Some(l)
  {
    match l
    case Normal => "NORMAL"
    case High => "HIGH"
    case Critical => "CRITICAL"
  }

  /** The level a recorded label names, if any. */
  function LevelOf(t: string): Option<Level> {
    if t == "NORMAL" then Some(Normal)
    else if t == "HIGH" then Some(High)
    else if t == "CRITICAL" then Some(Critical)
    else None
  }

  /** Position of a level in the order NORMAL < HIGH < CRITICAL. */
  function Rank(l: Level): nat {
    match l
    case Normal => 0
    case High => 1
    case Critical => 2
  }

  /** CRITICAL from three leaks on, HIGH from one, NORMAL without leaks. */
  function OverallLevel(totalLeaks: nat): (l: Level)
    ensures l == Critical <==> totalLeaks >= 3
    ensures l == High <==> 1 <= totalLeaks < 3
    ensures l == Normal <==> totalLeaks == 0
  {
    if totalLeaks >= 3 then Critical else if totalLeaks >= 1 then High else Normal
  }

  /** More leaks never lower the overall severity. */
  lemma OverallLevelMonotone(a: nat, b: nat)
    requires a <= b
    ensures Rank(OverallLevel(a)) <= Rank(OverallLevel(b))
  {
  }

  /** The overall risk score: 2 without leaks, else 3 plus 2 per leak, capped at 10. */
  function OverallRisk(totalLeaks: nat): (r: nat)
    ensures 2 <= r <= 10
    ensures r == 2 <==> totalLeaks == 0
    ensures r == 10 <==> totalLeaks >= 4
    ensures 0 < totalLeaks < 4 ==> r == 3 + 2 * totalLeaks
  {
    if totalLeaks > 0 then Min(10, 3 + 2 * totalLeaks) else 2
  }

  /** More leaks never lower the overall risk score. */
  lemma OverallRiskMonotone(a: nat, b: nat)
    requires a <= b
    ensures OverallRisk(a) <= OverallRisk(b)
  {
  }

  const GallonsPerLeak: nat := 5000
  const DollarsPerLeak: nat := 25000

  const RiskSuffix := "/10"
  const WaterSuffix := " gallons/hour"
  const CostPrefix := "$"
  const CostSuffix := " per major leak prevented"

  /** The risk text, `"<score>/10"`; the score reads back from it. */
  function RiskText(score: nat): (t: string)
    ensures Decimal.ParseFramed("", RiskSuffix, t) == Some(score)
  {
    Decimal.FramedRoundTrip("", score, RiskSuffix);
    assert "" + Decimal.Show(score) + RiskSuffix == Decimal.Show(score) + RiskSuffix;
    Decimal.Show(score) + RiskSuffix
  }

  /** The water figure text, `"<leaks * 5000> gallons/hour"`; the figure reads back from it. */
  function WaterText(totalLeaks: nat): (t: string)
    ensures Decimal.ParseFramed("", WaterSuffix, t) == Some(totalLeaks * GallonsPerLeak)
  {
    var gallons := totalLeaks * GallonsPerLeak;
    Decimal.FramedRoundTrip("", gallons, WaterSuffix);
    assert "" + Decimal.Show(gallons) + WaterSuffix == Decimal.Show(gallons) + WaterSuffix;
    Decimal.Show(gallons) + WaterSuffix
  }

  /** The cost figure text, `"$<leaks * 25000> per major leak prevented"`; the figure reads back from it. */
  function CostText(totalLeaks: nat): (t: string)
    ensures Decimal.ParseFramed(CostPrefix, CostSuffix, t) == Some(totalLeaks * DollarsPerLeak)
  {
    var dollars := totalLeaks * DollarsPerLeak;
    Decimal.FramedRoundTrip(CostPrefix, dollars, CostSuffix);
    CostPrefix + Decimal.Show(dollars) + CostSuffix
  }

  /** The maintenance dispatch state: triggered by any leak, standing by otherwise. */
  function DispatchState(totalLeaks: nat): (t: string)
    ensures totalLeaks > 0 ==> t == "TRIGGERED"
    ensures totalLeaks == 0 ==> t == "STANDBY"
  {
    if totalLeaks > 0 then "TRIGGERED" else "STANDBY"
  }

  /** The response coordination state: multi-agency on any leak, routine otherwise. */
  function CoordinationState(totalLeaks: nat): (t: string)
    ensures totalLeaks > 0 ==> t == "MULTI-AGENCY"
    ensures totalLeaks == 0 ==> t == "ROUTINE"
  {
    if totalLeaks > 0 then "MULTI-AGENCY" else "ROUTINE"
  }

  /** The data-dependent fields of the integration summary record. */
  datatype Summary = Summary(
    imagesAnalyzed: nat,
    leaksDetected: nat,
    normalEquipment: nat,
    overallSeverity: string,
    riskScore: string,
    maintenanceDispatch: string,
    responseCoordination: string,
    estimatedWaterSaved: string,
    estimatedCostSavings: string)

  /**
   * The summary, produced only when some leaked or normal pump was counted.
   * Its texts carry the risk score and the linear business figures, which
   * read back exactly from the rendered strings.
   */
  function Summarize(imagesAnalyzed: nat, totalLeaks: nat, totalNormal: nat): (s: Option<Summary>)
    ensures s.Some? <==> totalLeaks > 0 || totalNormal > 0
    ensures s.Some? ==> s.value.imagesAnalyzed == imagesAnalyzed
    ensures s.Some? ==> s.value.leaksDetected == totalLeaks && s.value.normalEquipment == totalNormal
    ensures s.Some? ==> LevelOf(s.value.overallSeverity) == Some(OverallLevel(totalLeaks))
    ensures s.Some? ==> Decimal.ParseFramed("", RiskSuffix, s.value.riskScore) == Some(OverallRisk(totalLeaks))
    ensures s.Some? ==> s.value.maintenanceDispatch == if totalLeaks > 0 then "TRIGGERED" else "STANDBY"
    ensures s.Some? ==> s.value.responseCoordination == if totalLeaks > 0 then "MULTI-AGENCY" else "ROUTINE"
    ensures s.Some? ==> Decimal.ParseFramed("", WaterSuffix, s.value.estimatedWaterSaved) == Some(totalLeaks * GallonsPerLeak)
    ensures s.Some? ==> Decimal.ParseFramed(CostPrefix, CostSuffix, s.value.estimatedCostSavings) == Some(totalLeaks * DollarsPerLeak)
  {
    if totalLeaks > 0 || totalNormal > 0 then
      Some(Summary(
        imagesAnalyzed, totalLeaks, totalNormal,
        LevelLabel(OverallLevel(totalLeaks)),
        RiskText(OverallRisk(totalLeaks)),
        DispatchState(totalLeaks),
        CoordinationState(totalLeaks),
        WaterText(totalLeaks),
        CostText(totalLeaks)))
    else
      None
  }

  /** With no leaks the summary, when there is one, reports NORMAL, risk 2, standby, routine coordination and zero savings. */
  lemma NoLeaksSummary(imagesAnalyzed: nat, totalNormal: nat)
    requires totalNormal > 0
    ensures Summarize(imagesAnalyzed, 0, totalNormal).Some?
    ensures Summarize(imagesAnalyzed, 0, totalNormal).value.overallSeverity == "NORMAL"
    ensures Summarize(imagesAnalyzed, 0, totalNormal).value.riskScore == "2/10"
    ensures Summarize(imagesAnalyzed, 0, totalNormal).value.maintenanceDispatch == "STANDBY"
    ensures Summarize(imagesAnalyzed, 0, totalNormal).value.responseCoordination == "ROUTINE"
    ensures Summarize(imagesAnalyzed, 0, totalNormal).value.estimatedWaterSaved == "0 gallons/hour"
  {
    assert Decimal.Show(2) == "2";
    assert RiskText(OverallRisk(0)) == "2/10";
    assert Decimal.Show(0) == "0";
    assert WaterText(0) == "0 gallons/hour";
  }

  /** Three leaks: CRITICAL and risk 9. */
  lemma ThreeLeaksSummary(imagesAnalyzed: nat, totalNormal: nat)
    ensures Summarize(imagesAnalyzed, 3, totalNormal).Some?
    ensures Summarize(imagesAnalyzed, 3, totalNormal).value.overallSeverity == "CRITICAL"
    ensures Summarize(imagesAnalyzed, 3, totalNormal).value.riskScore == "9/10"
  {
    assert Decimal.Show(9) == "9";
  }

  /** Three leaks save 15000 gallons/hour. */
  lemma ThreeLeaksWater()
    ensures WaterText(3) == "15000" + WaterSuffix
  {
    assert Decimal.Show(15) == "15";
    assert Decimal.Show(150) == "150";
    assert Decimal.Show(1500) == "1500";
    assert Decimal.Show(15000) == "15000";
    assert WaterText(3) == Decimal.Show(15000) + WaterSuffix;
  }

  /** Three leaks save $75000. */
  lemma ThreeLeaksCost()
    ensures CostText(3) == CostPrefix + "75000" + CostSuffix
  {
    assert Decimal.Show(75) == "75";
    assert Decimal.Show(750) == "750";
    assert Decimal.Show(7500) == "7500";
    assert Decimal.Show(75000) == "75000";
    assert CostText(3) == CostPrefix + Decimal.Show(75000) + CostSuffix;
  }
}
