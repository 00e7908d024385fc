/**
 The KPI aggregation over the filtered table: actual values as column sums (0 for a
 missing column), TP per outlet as a mean, line ratios guarded by the billed-outlet
 count, and plan values that are fixed multiples of other plans.
 */
module Kpis {
  import opened Wrappers
  import opened Table

  const ManpowerActual: string := "Manpower Actual"
  const MandaysActual: string := "Mandays Actual"
  const RoutesActual: string := "Unique Routes Actual"
  const CallageActual: string := "Unique Callage Actual"
  const ProductivityActual: string := "Productivity Actual"
  const SecondaryActual: string := "Secondary INR Actual"
  const UboActual: string := "UBO Actual"
  const UlsRetailer: string := "ULS Retailer"
  const UlsDb: string := "ULS DB"
  const TpActual: string := "TP per Outlet Actual"
  const ManpowerPlan: string := "Manpower Plan"
  const RoutesPlan: string := "Unique Routes Plan"
  const SecondaryPlan: string := "Secondary INR Plan"
  const TpPlan: string := "TP per Outlet Plan"
  const UboPlan: string := "UBO Plan"

  /** Planned man-days per head, planned calls per route, planned productive share of calls. */
  const MandaysPerHead: real := 24.0
  const CallsPerRoute: real := 40.0
  const ProductiveShare: real := 0.8
  /** Planned lines per outlet as a share of the lines-per-distributor plan. */
  const OutletLineShare: real := 0.8

  /** A TP mean is `None` when it is pandas NaN (a column with no present cell). */
  datatype Kpis = Kpis(
    mpActual: real,
    mandaysActual: real,
    routesActual: real,
    callageActual: real,
    prodActual: real,
    secActual: real,
    uboActual: real,
    ulsRetailer: real,
    ulsDb: real,
    tpActual: Option<real>,
    linesPerOutletActual: real,
    linesPerDbActual: real,
    linesAverage: real,
    mpPlan: real,
    mandaysPlan: real,
    routesPlan: real,
    callagePlan: real,
    prodPlan: real,
    secPlan: real,
    ulsDbPlan: real,
    linesPerOutletPlan: real,
    linesAveragePlan: real,
    tpPlan: Option<real>,
    uboPlan: real)

  /** `x / ubo` when `ubo > 0`, else 0. */
  function PerBilledOutlet(x: real, ubo: real): (r: real)
    ensures ubo <= 0.0 ==> r == 0.0
    ensures ubo > 0.0 ==> r * ubo == x
  {
    if ubo > 0.0 then x / ubo else 0.0
  }

  /** The KPI block of the dashboard, computed from the filtered table. */
  function Aggregate(t: Table): (k: Kpis)
    // No billed outlet: every line metric and the line plans fall back to 0.
    ensures k.uboActual <= 0.0 ==>
      && k.linesPerOutletActual == 0.0 && k.linesPerDbActual == 0.0 && k.linesAverage == 0.0
      && k.ulsDbPlan == 0.0 && k.linesPerOutletPlan == 0.0 && k.linesAveragePlan == 0.0
    // Billed outlets: the ratios are exact quotients and the average plan is 90% of lines per DB.
    ensures k.uboActual > 0.0 ==>
      && k.linesPerOutletActual * k.uboActual == k.ulsRetailer
      && k.linesPerDbActual * k.uboActual == k.ulsDb
      && k.linesAveragePlan == 0.9 * k.linesPerDbActual
    // The lines-per-DB plan is pegged to the actual ratio in every case.
    ensures k.ulsDbPlan == k.linesPerDbActual
    // Plans derived from plans.
    ensures k.mandaysPlan == 24.0 * k.mpPlan
    ensures k.callagePlan == 40.0 * k.routesPlan
    ensures k.prodPlan == 32.0 * k.routesPlan
    // The line KPI behind the `lines` flag, and the outlet plan.
    ensures k.linesAverage == (k.linesPerOutletActual + k.linesPerDbActual) / 2.0
    ensures k.linesPerOutletPlan == 0.8 * k.ulsDbPlan
    // The TP means: NaN-skipping means of the present columns, 0 for a missing one.
    ensures k.tpActual == MeanOrZero(t, TpActual) && k.tpPlan == MeanOrZero(t, TpPlan)
  {
    var ubo := SumOrZero(t, UboActual);
    var ulsRetailer := SumOrZero(t, UlsRetailer);
    var ulsDb := SumOrZero(t, UlsDb);
    var perOutlet := PerBilledOutlet(ulsRetailer, ubo);
    var perDb := PerBilledOutlet(ulsDb, ubo);
    var mpPlan := SumOrZero(t, ManpowerPlan);
    var routesPlan := SumOrZero(t, RoutesPlan);
    var callagePlan := routesPlan * CallsPerRoute;
    var ulsDbPlan := if ubo > 0.0 then perDb else 0.0;
    var outletPlan := ulsDbPlan * OutletLineShare;
    Kpis(
      mpActual := SumOrZero(t, ManpowerActual),
      mandaysActual := SumOrZero(t, MandaysActual),
      routesActual := SumOrZero(t, RoutesActual),
      callageActual := SumOrZero(t, CallageActual),
      prodActual := SumOrZero(t, ProductivityActual),
      secActual := SumOrZero(t, SecondaryActual),
      uboActual := ubo,
      ulsRetailer := ulsRetailer,
      ulsDb := ulsDb,
      tpActual := MeanOrZero(t, TpActual),
      linesPerOutletActual := perOutlet,
      linesPerDbActual := perDb,
      linesAverage := (perOutlet + perDb) / 2.0,
      mpPlan := mpPlan,
      mandaysPlan := mpPlan * MandaysPerHead,
      routesPlan := routesPlan,
      callagePlan := callagePlan,
      prodPlan := callagePlan * ProductiveShare,
      secPlan := SumOrZero(t, SecondaryPlan),
      ulsDbPlan := ulsDbPlan,
      linesPerOutletPlan := outletPlan,
      linesAveragePlan := (outletPlan + ulsDbPlan) / 2.0,
      tpPlan := MeanOrZero(t, TpPlan),
      uboPlan := SumOrZero(t, UboPlan))
  }

  /** Every KPI whose source column is missing from the table is 0. */
  lemma MissingColumnsContributeZero(t: Table)
    ensures ManpowerActual !in t.columns ==> Aggregate(t).mpActual == 0.0
    ensures MandaysActual !in t.columns ==> Aggregate(t).mandaysActual == 0.0
    ensures RoutesActual !in t.columns ==> Aggregate(t).routesActual == 0.0
    ensures CallageActual !in t.columns ==> Aggregate(t).callageActual == 0.0
    ensures ProductivityActual !in t.columns ==> Aggregate(t).prodActual == 0.0
    ensures SecondaryActual !in t.columns ==> Aggregate(t).secActual == 0.0
    ensures UboActual !in t.columns ==> Aggregate(t).uboActual == 0.0 && Aggregate(t).linesAveragePlan == 0.0
    ensures UlsRetailer !in t.columns ==> Aggregate(t).ulsRetailer == 0.0
    ensures UlsDb !in t.columns ==> Aggregate(t).ulsDb == 0.0
    ensures UboPlan !in t.columns ==> Aggregate(t).uboPlan == 0.0
    ensures TpActual !in t.columns ==> Aggregate(t).tpActual == Some(0.0)
    ensures ManpowerPlan !in t.columns ==> Aggregate(t).mpPlan == 0.0 && Aggregate(t).mandaysPlan == 0.0
    ensures RoutesPlan !in t.columns ==> Aggregate(t).routesPlan == 0.0 && Aggregate(t).callagePlan == 0.0 && Aggregate(t).prodPlan == 0.0
    ensures SecondaryPlan !in t.columns ==> Aggregate(t).secPlan == 0.0
    ensures TpPlan !in t.columns ==> Aggregate(t).tpPlan == Some(0.0)
  {
  }

  /** A table of the same columns split in two: every summed KPI is the sum of its parts. */
  lemma {:induction false} SummedKpisAdd(columns: set<string>, a: seq<Row>, b: seq<Row>)
    ensures var k, ka, kb := Aggregate(Table(columns, a + b)), Aggregate(Table(columns, a)), Aggregate(Table(columns, b));
      && k.mpActual == ka.mpActual + kb.mpActual
      && k.mandaysActual == ka.mandaysActual + kb.mandaysActual
      && k.routesActual == ka.routesActual + kb.routesActual
      && k.callageActual == ka.callageActual + kb.callageActual
      && k.prodActual == ka.prodActual + kb.prodActual
      && k.secActual == ka.secActual + kb.secActual
      && k.uboActual == ka.uboActual + kb.uboActual
      && k.ulsRetailer == ka.ulsRetailer + kb.ulsRetailer
      && k.ulsDb == ka.ulsDb + kb.ulsDb
      && k.mpPlan == ka.mpPlan + kb.mpPlan
      && k.routesPlan == ka.routesPlan + kb.routesPlan
      && k.secPlan == ka.secPlan + kb.secPlan
      && k.uboPlan == ka.uboPlan + kb.uboPlan
  {
    ColumnSumAppend(a, b, ManpowerActual);
    ColumnSumAppend(a, b, MandaysActual);
    ColumnSumAppend(a, b, RoutesActual);
    ColumnSumAppend(a, b, CallageActual);
    ColumnSumAppend(a, b, ProductivityActual);
    ColumnSumAppend(a, b, SecondaryActual);
    ColumnSumAppend(a, b, UboActual);
    ColumnSumAppend(a, b, ManpowerPlan);
    ColumnSumAppend(a, b, RoutesPlan);
    ColumnSumAppend(a, b, SecondaryPlan);
    ColumnSumAppend(a, b, UlsRetailer);
    ColumnSumAppend(a, b, UlsDb);
    ColumnSumAppend(a, b, UboPlan);
  }

  /** What one row adds to a summed KPI: its cell (NaN as 0) when the table has the column, else 0. */
  function Contribution(columns: set<string>, row: Row, col: string): real
  {
    if col in columns then Cell(row, col) else 0.0
  }

  /**
   A one-row table: every summed KPI is that row's contribution. With `SummedKpisAdd`
   and `EmptyTableKpis` this fixes every summed KPI of every table.
   */
  lemma SingleRowKpis(columns: set<string>, row: Row)
    ensures var k := Aggregate(Table(columns, [row]));
      && k.mpActual == Contribution(columns, row, ManpowerActual)
      && k.mandaysActual == Contribution(columns, row, MandaysActual)
      && k.routesActual == Contribution(columns, row, RoutesActual)
      && k.callageActual == Contribution(columns, row, CallageActual)
      && k.prodActual == Contribution(columns, row, ProductivityActual)
      && k.secActual == Contribution(columns, row, SecondaryActual)
      && k.uboActual == Contribution(columns, row, UboActual)
      && k.ulsRetailer == Contribution(columns, row, UlsRetailer)
      && k.ulsDb == Contribution(columns, row, UlsDb)
      && k.mpPlan == Contribution(columns, row, ManpowerPlan)
      && k.routesPlan == Contribution(columns, row, RoutesPlan)
      && k.secPlan == Contribution(columns, row, SecondaryPlan)
      && k.uboPlan == Contribution(columns, row, UboPlan)
  {
    ColumnSumSingle(row, ManpowerActual);
    ColumnSumSingle(row, MandaysActual);
    ColumnSumSingle(row, RoutesActual);
    ColumnSumSingle(row, CallageActual);
    ColumnSumSingle(row, ProductivityActual);
    ColumnSumSingle(row, SecondaryActual);
    ColumnSumSingle(row, UboActual);
    ColumnSumSingle(row, UlsRetailer);
    ColumnSumSingle(row, UlsDb);
    ColumnSumSingle(row, ManpowerPlan);
    ColumnSumSingle(row, RoutesPlan);
    ColumnSumSingle(row, SecondaryPlan);
    ColumnSumSingle(row, UboPlan);
  }

  /** A table with no rows: every summed KPI is 0 and both TP means are NaN (or 0 for a missing column). */
  lemma EmptyTableKpis(columns: set<string>)
    ensures var k := Aggregate(Table(columns, []));
      && k.mpActual == 0.0 && k.mandaysActual == 0.0 && k.routesActual == 0.0
      && k.callageActual == 0.0 && k.prodActual == 0.0 && k.secActual == 0.0
      && k.uboActual == 0.0 && k.ulsRetailer == 0.0 && k.ulsDb == 0.0
      && k.mpPlan == 0.0 && k.routesPlan == 0.0 && k.secPlan == 0.0 && k.uboPlan == 0.0
      && (TpActual in columns ==> k.tpActual.None?)
      && (TpPlan in columns ==> k.tpPlan.None?)
  {
    ColumnSumAllNaN([], ManpowerActual);
    ColumnSumAllNaN([], MandaysActual);
    ColumnSumAllNaN([], RoutesActual);
    ColumnSumAllNaN([], CallageActual);
    ColumnSumAllNaN([], ProductivityActual);
    ColumnSumAllNaN([], SecondaryActual);
    ColumnSumAllNaN([], UboActual);
    ColumnSumAllNaN([], UlsRetailer);
    ColumnSumAllNaN([], UlsDb);
    ColumnSumAllNaN([], ManpowerPlan);
    ColumnSumAllNaN([], RoutesPlan);
    ColumnSumAllNaN([], SecondaryPlan);
    ColumnSumAllNaN([], UboPlan);
  }

  /** When not NaN, the TP per outlet mean lies within the range of the present TP cells. */
  lemma TpWithinCellRange(t: Table, lo: real, hi: real)
    requires TpActual in t.columns
    requires forall row :: row in t.rows && TpActual in row.cells ==> lo <= row.cells[TpActual] <= hi
    requires Aggregate(t).tpActual.Some?
    ensures lo <= Aggregate(t).tpActual.value <= hi
  {
    MeanBounds(t.rows, TpActual, lo, hi);
  }
}
