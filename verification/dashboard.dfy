/**
 One evaluation of the dashboard for a table and a selection: filter, and either
 stop with "no data" or compute the KPIs, the flags, the narrative and the two
 leaderboards. The table is a parameter: loading the file is not modelled.
 */
module Dashboard {
  import opened Wrappers
  import opened Table
  import opened Filters
  import opened Kpis
  import opened Health
  import opened Narrative
  import opened Leaderboard

  datatype Analysis =
    | NoData
    | Report(
        kpis: Kpis,
        flags: Flags,
        narrative: seq<Msg>,
        aseBoard: Option<Board>,
        territoryBoard: Option<Board>)

  function Analyze(t: Table, sel: Selection): (r: Analysis)
    // an empty selection ends the evaluation: no KPI, flag or message is produced
    ensures r.NoData? <==> Select(t.rows, sel) == []
    // the KPIs are those of exactly the matching rows
    ensures r.Report? ==> r.kpis == Aggregate(Table(t.columns, Select(t.rows, sel)))
    ensures r.Report? ==> r.flags == EvalFlags(r.kpis)
    ensures r.Report? ==> r.narrative == Narrate(r.flags) && 5 <= |r.narrative| <= 8
    // the leaderboards ignore the selection: they rank the whole table
    ensures r.Report? ==> r.aseBoard == Rank(t, Ase) && r.territoryBoard == Rank(t, Territory)
  {
    var filtered := ApplyFilters(t, sel);
    if |filtered.rows| == 0 then NoData
    else
      var k := Aggregate(filtered);
      var f := EvalFlags(k);
      Report(k, f, Narrate(f), Rank(t, Ase), Rank(t, Territory))
  }

  /** Two selections that both find rows show the same leaderboards. */
  lemma LeaderboardsIgnoreSelection(t: Table, s1: Selection, s2: Selection)
    requires Select(t.rows, s1) != [] && Select(t.rows, s2) != []
    ensures Analyze(t, s1).Report? && Analyze(t, s2).Report?
    ensures Analyze(t, s1).aseBoard == Analyze(t, s2).aseBoard
    ensures Analyze(t, s1).territoryBoard == Analyze(t, s2).territoryBoard
  {
  }

  /** Any selection the drop-downs offer on a non-empty table yields a report. */
  lemma OfferedSelectionReports(t: Table, sel: Selection)
    requires Offered(t, sel) && |t.rows| > 0
    ensures Analyze(t, sel).Report?
  {
    OfferedSelectionFindsRows(t, sel);
  }

  /** "All" everywhere reports on the whole table. */
  lemma AllSelectionCoversTable(t: Table)
    requires |t.rows| > 0
    ensures Analyze(t, Selection(AllDsms, AllAses, AllTerritories)).Report?
    ensures Analyze(t, Selection(AllDsms, AllAses, AllTerritories)).kpis == Aggregate(t)
  {
    SelectAllKeepsEverything(t.rows);
  }

  /** Without any metric column every flag fails and the narrative is the all-errors path. */
  lemma NoMetricColumnsNarrative(t: Table, sel: Selection)
    requires t.columns == {}
    requires Analyze(t, sel).Report?
    ensures Analyze(t, sel).narrative == [
      Msg(Error, CallageBelowThreshold), Msg(Error, CheckMandaysDeployment),
      Msg(Error, LinesUnderThreshold), Msg(Error, TpWeak), Msg(Info, FewLinesLowPrice)]
  {
    NoMetricColumnsNoHealthyFlag(Table(t.columns, Select(t.rows, sel)));
  }

  // ---------------------------------------------------------------------------
  // Worked examples

  /** A one-row table: manpower plan 10, routes plan 100 with 95 achieved, secondary 10 of 50. */
  function OneRowExample(): Row
  {
    Row(Some("X"), Some("A1"), Some("T1"), map[
      ManpowerPlan := 10.0, ManpowerActual := 8.0, RoutesPlan := 100.0, RoutesActual := 95.0,
      SecondaryPlan := 50.0, SecondaryActual := 10.0])
  }

  function OneRowExampleTable(): Table
  {
    Table({ManpowerPlan, ManpowerActual, RoutesPlan, RoutesActual, SecondaryPlan, SecondaryActual}, [OneRowExample()])
  }

  /** One row with a routes plan of 100: the callage plan is 4000 and the man-day plan 240. */
  lemma SingleRowPlans()
    ensures var t := OneRowExampleTable();
      var k := Aggregate(t);
      k.callagePlan == 4000.0 && k.mandaysPlan == 240.0 && !FlagsOf(t).manday && !FlagsOf(t).secondary
      && FlagsOf(t).routes
  {
  }

  /** A zero secondary plan never reads as healthy, whatever the actual. */
  lemma ZeroSecondaryPlanNeverHealthy(k: Kpis)
    requires k.secPlan == 0.0 && k.secActual > 0.0
    ensures !EvalFlags(k).secondary
  {
  }

  /** The two groups of the two-ASE example, in key order, with their totals. */
  lemma TwoGroupsEntries(r1: Row, r2: Row)
    requires r1 == Row(None, Some("A1"), None, map[SecondaryActual := 100.0])
    requires r2 == Row(None, Some("A2"), None, map[SecondaryActual := 50.0])
    ensures GroupEntries([r1, r2], Ase) == [Entry("A1", 100.0), Entry("A2", 50.0)]
  {
    var rows := [r1, r2];
    assert OccursIn(rows, Ase, "A1") by { assert r1 in rows; }
    assert OccursIn(rows, Ase, "A2") by { assert r2 in rows; }
    var keys := GroupKeys(rows, Ase);
    assert forall k :: k in keys <==> k in ["A1", "A2"];
    assert LexOrder.Less("A1", "A2") by {
      assert "A1"[1..] == "1" && "A2"[1..] == "2";
    }
    LexOrder.SortedListUnique(keys, ["A1", "A2"]);
    assert "A1" != "A2" by { assert "A1"[1] != "A2"[1]; }
    assert Restrict(rows, Ase, "A1") == [r1];
    assert Restrict(rows, Ase, "A2") == [r2];
    ColumnSumSingle(r1, SecondaryActual);
    ColumnSumSingle(r2, SecondaryActual);
  }

  /** Two ASE groups with totals 100 and 50: the top is the first; the bottom lists both, no padding. */
  lemma TwoGroupsBoard(r1: Row, r2: Row)
    requires r1 == Row(None, Some("A1"), None, map[SecondaryActual := 100.0])
    requires r2 == Row(None, Some("A2"), None, map[SecondaryActual := 50.0])
    ensures Rank(Table({SecondaryActual}, [r1, r2]), Ase)
      == Some(Board([Entry("A1", 100.0)], [Entry("A1", 100.0), Entry("A2", 50.0)]))
  {
    TwoGroupsEntries(r1, r2);
    var e1, e2 := Entry("A1", 100.0), Entry("A2", 50.0);
    assert [e1, e2][1..] == [e2];
    assert RankDescending([e2]) == [e2];
    assert RankDescending([e1, e2]) == [e1, e2];
    assert TopAndBottom([e1, e2]) == Board([e1], [e1, e2]);
  }
}
