/**
 The health flags: a KPI is healthy when its actual reaches 90% of a non-zero plan;
 the man-day flag asks for full utilisation of 24 days per planned head.
 */
module Health {
  import opened Wrappers
  import opened Table
  import opened Kpis

  const Threshold: real := 0.9

  /** `is_good`: a zero plan is never met; otherwise the actual reaches `threshold` of the plan. */
  function IsGood(actual: real, plan: real, threshold: real): (r: bool)
    ensures plan == 0.0 ==> !r
    ensures plan > 0.0 ==> (r <==> actual / plan >= threshold)
    ensures plan < 0.0 ==> (r <==> actual / plan <= threshold)
  {
    if plan != 0.0 then actual >= threshold * plan else false
  }

  /** Reaching exactly 90% of a non-zero plan counts as healthy. */
  lemma BoundaryIsHealthy(plan: real)
    requires plan != 0.0
    ensures IsGood(Threshold * plan, plan, Threshold)
  {
  }

  /**
   `is_good` on the TP means, either of which may be NaN. A NaN plan passes the
   `plan != 0` test, but `actual >= threshold * plan` is then false, as it is for a
   NaN actual: a NaN operand never yields a healthy flag.
   */
  function IsGoodMean(actual: Option<real>, plan: Option<real>): (r: bool)
    ensures r ==> actual.Some? && plan.Some? && plan.value != 0.0
    ensures actual.Some? && plan.Some? && plan.value > 0.0 ==> (r <==> actual.value / plan.value >= Threshold)
    ensures actual.Some? && plan.Some? && plan.value < 0.0 ==> (r <==> actual.value / plan.value <= Threshold)
  {
    match (actual, plan)
    case (Some(a), Some(p)) => IsGood(a, p, Threshold)
    case _ => false
  }

  /** The `manday` flag: full utilisation of the planned man-days, false without a positive manpower plan. */
  function MandayFlag(mandaysActual: real, mpPlan: real): (r: bool)
    ensures mpPlan <= 0.0 ==> !r
    ensures mpPlan > 0.0 ==> (r <==> mandaysActual / (MandaysPerHead * mpPlan) >= 1.0)
  {
    if mpPlan > 0.0 then mandaysActual >= mpPlan * MandaysPerHead else false
  }

  /** The man-day flag is stricter than the generic rule applied to the man-day plan. */
  lemma MandayStricterThanGeneric(mandaysActual: real, mpPlan: real)
    ensures MandayFlag(mandaysActual, mpPlan) ==> IsGood(mandaysActual, MandaysPerHead * mpPlan, Threshold)
  {
  }

  /** ...and strictly so: 90% of the planned man-days passes the generic rule but not the man-day flag. */
  lemma MandayNinetyPercentFails()
    ensures IsGood(21.6, MandaysPerHead * 1.0, Threshold)
    ensures !MandayFlag(21.6, 1.0)
  {
  }

  datatype Flags = Flags(
    callage: bool,
    routes: bool,
    productivity: bool,
    lines: bool,
    tp: bool,
    secondary: bool,
    manday: bool)

  /** The `flags` dictionary computed from a KPI block. */
  function EvalFlags(k: Kpis): (f: Flags)
    ensures k.callagePlan == 0.0 ==> !f.callage
    ensures k.routesPlan == 0.0 ==> !f.routes
    ensures k.prodPlan == 0.0 ==> !f.productivity
    ensures k.linesAveragePlan == 0.0 ==> !f.lines
    ensures k.secPlan == 0.0 ==> !f.secondary
    ensures k.tpActual.None? || k.tpPlan.None? ==> !f.tp
    ensures k.tpPlan == Some(0.0) ==> !f.tp
    ensures k.mpPlan <= 0.0 ==> !f.manday
    // with a positive plan, each flag holds exactly when 90% of the plan is reached
    ensures k.callagePlan > 0.0 ==> (f.callage <==> k.callageActual / k.callagePlan >= Threshold)
    ensures k.routesPlan > 0.0 ==> (f.routes <==> k.routesActual / k.routesPlan >= Threshold)
    ensures k.prodPlan > 0.0 ==> (f.productivity <==> k.prodActual / k.prodPlan >= Threshold)
    ensures k.linesAveragePlan > 0.0 ==> (f.lines <==> k.linesAverage / k.linesAveragePlan >= Threshold)
    ensures k.secPlan > 0.0 ==> (f.secondary <==> k.secActual / k.secPlan >= Threshold)
    ensures k.tpActual.Some? && k.tpPlan.Some? && k.tpPlan.value > 0.0 ==>
      (f.tp <==> k.tpActual.value / k.tpPlan.value >= Threshold)
    // with a negative plan, `actual >= 0.9 * plan` flips into a ratio at most 0.9
    ensures k.callagePlan < 0.0 ==> (f.callage <==> k.callageActual / k.callagePlan <= Threshold)
    ensures k.routesPlan < 0.0 ==> (f.routes <==> k.routesActual / k.routesPlan <= Threshold)
    ensures k.prodPlan < 0.0 ==> (f.productivity <==> k.prodActual / k.prodPlan <= Threshold)
    ensures k.linesAveragePlan < 0.0 ==> (f.lines <==> k.linesAverage / k.linesAveragePlan <= Threshold)
    ensures k.secPlan < 0.0 ==> (f.secondary <==> k.secActual / k.secPlan <= Threshold)
    ensures k.tpActual.Some? && k.tpPlan.Some? && k.tpPlan.value < 0.0 ==>
      (f.tp <==> k.tpActual.value / k.tpPlan.value <= Threshold)
    // the man-day flag asks for the whole man-day plan
    ensures k.mpPlan > 0.0 ==> (f.manday <==> k.mandaysActual >= MandaysPerHead * k.mpPlan)
  {
    Flags(
      callage := IsGood(k.callageActual, k.callagePlan, Threshold),
      routes := IsGood(k.routesActual, k.routesPlan, Threshold),
      productivity := IsGood(k.prodActual, k.prodPlan, Threshold),
      lines := IsGood(k.linesAverage, k.linesAveragePlan, Threshold),
      tp := IsGoodMean(k.tpActual, k.tpPlan),
      secondary := IsGood(k.secActual, k.secPlan, Threshold),
      manday := MandayFlag(k.mandaysActual, k.mpPlan))
  }

  /** The flags of a (filtered) table. */
  function FlagsOf(t: Table): Flags
  {
    EvalFlags(Aggregate(t))
  }

  /** Without billed outlets the lines flag is never healthy. */
  lemma NoBilledOutletsNoLines(t: Table)
    requires Aggregate(t).uboActual <= 0.0
    ensures !FlagsOf(t).lines
  {
  }

  /**
   With billed outlets and a positive lines-per-DB ratio, the lines flag compares the
   average of the two line ratios with 81% (90% of 90%) of the lines-per-DB ratio.
   */
  lemma LinesFlagAgainstDbRatio(t: Table)
    requires Aggregate(t).uboActual > 0.0 && Aggregate(t).linesPerDbActual > 0.0
    ensures FlagsOf(t).lines <==> Aggregate(t).linesAverage >= 0.81 * Aggregate(t).linesPerDbActual
  {
    var k := Aggregate(t);
    assert k.linesAveragePlan == 0.9 * k.linesPerDbActual;
    assert Threshold * k.linesAveragePlan == 0.81 * k.linesPerDbActual;
  }

  /** Without a routes plan, callage, routes and productivity all fail. */
  lemma NoRoutesPlanNoExecution(t: Table)
    requires Aggregate(t).routesPlan == 0.0
    ensures !FlagsOf(t).callage && !FlagsOf(t).routes && !FlagsOf(t).productivity
  {
  }

  /** The man-day flag holds exactly when the man-day plan is met in full (threshold 1.0, not 0.9). */
  lemma MandayMeansFullPlan(t: Table)
    ensures FlagsOf(t).manday <==>
      Aggregate(t).mpPlan > 0.0 && Aggregate(t).mandaysActual >= Aggregate(t).mandaysPlan
  {
  }

  /** A table with none of the metric columns raises no healthy flag at all. */
  lemma NoMetricColumnsNoHealthyFlag(t: Table)
    requires t.columns == {}
    ensures FlagsOf(t) == Flags(false, false, false, false, false, false, false)
  {
    MissingColumnsContributeZero(t);
  }
}
