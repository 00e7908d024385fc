/**
 The sidebar drill-down: the DSM, ASE and territory drop-down lists and the
 filtered table. A selection holds the chosen strings exactly as the drop-downs
 return them, "All DSMs", "All ASEs" and "All Territories" standing for no choice.
 */
module Filters {
  import opened Wrappers
  import opened LexOrder
  import opened Table

  const AllDsms: string := "All DSMs"
  const AllAses: string := "All ASEs"
  const AllTerritories: string := "All Territories"

  datatype Selection = Selection(dsm: string, ase: string, territory: string)

  /** Some row of `rows` has `v` at `level`. */
  ghost predicate OccursIn(rows: seq<Row>, level: Level, v: string)
  {
    exists row :: row in rows && KeyOf(row, level) == Some(v)
  }

  /** `sorted(rows[level].dropna().unique())` */
  function Candidates(rows: seq<Row>, level: Level): (r: seq<string>)
    ensures StrictlySorted(r)
    ensures forall v :: v in r <==> OccursIn(rows, level, v)
  {
    forall v ensures Some(v) in Keys(rows, level) <==> OccursIn(rows, level, v) {
      KeysMembership(rows, level, v);
    }
    Distinct(Keys(rows, level))
  }

  /** The DSM drop-down: every DSM of the table, NaN dropped. */
  function DsmCandidates(t: Table): (r: seq<string>)
    ensures StrictlySorted(r)
    ensures forall v :: v in r <==> exists row :: row in t.rows && row.dsm == Some(v)
  {
    Candidates(t.rows, Dsm)
  }

  /** The ASE drop-down: ASEs of the rows under the chosen DSM, or of all rows. */
  function AseCandidates(t: Table, dsm: string): (r: seq<string>)
    ensures StrictlySorted(r)
    ensures forall v :: v in r <==>
      exists row :: row in t.rows && (dsm == AllDsms || row.dsm == Some(dsm)) && row.ase == Some(v)
  {
    if dsm == AllDsms then Candidates(t.rows, Ase)
    else Candidates(Restrict(t.rows, Dsm, dsm), Ase)
  }

  /**
   The rows the territory drop-down is built from. With a specific ASE the DSM is
   compared with the selected DSM string even when that string is "All DSMs".
   */
  ghost predicate TerritoryScope(row: Row, dsm: string, ase: string)
  {
    if ase != AllAses then row.dsm == Some(dsm) && row.ase == Some(ase)
    else if dsm != AllDsms then row.dsm == Some(dsm)
    else true
  }

  /** The territory drop-down. */
  function TerritoryCandidates(t: Table, dsm: string, ase: string): (r: seq<string>)
    ensures StrictlySorted(r)
    ensures forall v :: v in r <==>
      exists row :: row in t.rows && TerritoryScope(row, dsm, ase) && row.territory == Some(v)
  {
    if ase != AllAses then
      Candidates(Restrict(Restrict(t.rows, Dsm, dsm), Ase, ase), Territory)
    else if dsm != AllDsms then
      Candidates(Restrict(t.rows, Dsm, dsm), Territory)
    else
      Candidates(t.rows, Territory)
  }

  /**
   With a specific ASE and "All DSMs", the territory list is empty unless some
   row's DSM is literally the string "All DSMs".
   */
  lemma TerritoryListEmptyUnderAllDsms(t: Table, ase: string)
    requires ase != AllAses
    requires forall row :: row in t.rows ==> row.dsm != Some(AllDsms)
    ensures TerritoryCandidates(t, AllDsms, ase) == []
  {
    var r := TerritoryCandidates(t, AllDsms, ase);
    if |r| > 0 {
      HeadIsMember(r);
      assert false;
    }
  }

  /** One selection component imposes no constraint exactly when it is the "All" entry. */
  predicate Matches(sel: Selection, row: Row)
  {
    && (sel.dsm == AllDsms || row.dsm == Some(sel.dsm))
    && (sel.ase == AllAses || row.ase == Some(sel.ase))
    && (sel.territory == AllTerritories || row.territory == Some(sel.territory))
  }

  /** The reference filter: one pass keeping the rows that match every component. */
  function Select(rows: seq<Row>, sel: Selection): (r: seq<Row>)
    ensures forall row :: row in r <==> row in rows && Matches(sel, row)
    ensures |r| <= |rows|
  {
    if |rows| == 0 then []
    else
      assert rows == [rows[0]] + rows[1..];
      var rest := Select(rows[1..], sel);
      if Matches(sel, rows[0]) then [rows[0]] + rest else rest
  }

  /** Selecting distributes over concatenation, so it keeps the table's row order. */
  lemma {:induction false} SelectAppend(a: seq<Row>, b: seq<Row>, sel: Selection)
    ensures Select(a + b, sel) == Select(a, sel) + Select(b, sel)
    decreases |a|
  {
    if |a| == 0 {
      assert a + b == b;
    } else {
      assert (a + b)[1..] == a[1..] + b;
      SelectAppend(a[1..], b, sel);
    }
  }

  /** One filtering step: the rows as they are, or restricted to the chosen key. */
  function Stage(rows: seq<Row>, level: Level, choice: string, all: string): seq<Row>
  {
    if choice == all then rows else Restrict(rows, level, choice)
  }

  /** The three successive filters of the dashboard, DSM first, then ASE, then territory. */
  function Staged(rows: seq<Row>, sel: Selection): seq<Row>
  {
    Stage(Stage(Stage(rows, Dsm, sel.dsm, AllDsms), Ase, sel.ase, AllAses), Territory, sel.territory, AllTerritories)
  }

  /** The staged filters keep exactly the rows the one-pass reference keeps, in the same order. */
  lemma {:induction false} StagedIsSelect(rows: seq<Row>, sel: Selection)
    ensures Staged(rows, sel) == Select(rows, sel)
    decreases |rows|
  {
    if |rows| > 0 {
      StagedIsSelect(rows[1..], sel);
      var x := rows[0];
      assert rows == [x] + rows[1..];
      var s1 := Stage(rows, Dsm, sel.dsm, AllDsms);
      var s1' := Stage(rows[1..], Dsm, sel.dsm, AllDsms);
      var s2 := Stage(s1, Ase, sel.ase, AllAses);
      var s2' := Stage(s1', Ase, sel.ase, AllAses);
      var inDsm := sel.dsm == AllDsms || x.dsm == Some(sel.dsm);
      var inAse := sel.ase == AllAses || x.ase == Some(sel.ase);
      assert s1 == (if inDsm then [x] else []) + s1';
      RestrictAppend([x], s1', Ase, sel.ase);
      assert s2 == (if inDsm && inAse then [x] else []) + s2';
      RestrictAppend([x], s2', Territory, sel.territory);
    }
  }

  /** The filtered table `filtered_df`: same columns, the matching rows in table order. */
  function ApplyFilters(t: Table, sel: Selection): (r: Table)
    ensures r.columns == t.columns
    ensures r.rows == Select(t.rows, sel)
  {
    StagedIsSelect(t.rows, sel);
    Table(t.columns, Staged(t.rows, sel))
  }

  /** A selection of all "All" entries keeps the whole table. */
  lemma {:induction false} SelectAllKeepsEverything(rows: seq<Row>)
    ensures Select(rows, Selection(AllDsms, AllAses, AllTerritories)) == rows
    decreases |rows|
  {
    if |rows| > 0 {
      SelectAllKeepsEverything(rows[1..]);
      assert rows == [rows[0]] + rows[1..];
    }
  }

  /** A selection the three drop-downs can produce. */
  ghost predicate Offered(t: Table, sel: Selection)
  {
    && (sel.dsm == AllDsms || sel.dsm in DsmCandidates(t))
    && (sel.ase == AllAses || sel.ase in AseCandidates(t, sel.dsm))
    && (sel.territory == AllTerritories || sel.territory in TerritoryCandidates(t, sel.dsm, sel.ase))
  }

  /**
   Every selection the drop-downs offer finds at least one row of a non-empty
   table, so "No data found" is shown only for an empty table.
   */
  lemma OfferedSelectionFindsRows(t: Table, sel: Selection)
    requires Offered(t, sel)
    requires |t.rows| > 0
    ensures |Select(t.rows, sel)| > 0
  {
    var found: Row;
    if sel.territory != AllTerritories {
      assert sel.territory in TerritoryCandidates(t, sel.dsm, sel.ase);
      found :| found in t.rows && TerritoryScope(found, sel.dsm, sel.ase)
        && found.territory == Some(sel.territory);
    } else if sel.ase != AllAses {
      assert sel.ase in AseCandidates(t, sel.dsm);
      found :| found in t.rows && (sel.dsm == AllDsms || found.dsm == Some(sel.dsm))
        && found.ase == Some(sel.ase);
    } else if sel.dsm != AllDsms {
      assert sel.dsm in DsmCandidates(t);
      found :| found in t.rows && found.dsm == Some(sel.dsm);
    } else {
      found := t.rows[0];
    }
    assert Matches(sel, found);
    assert found in Select(t.rows, sel);
  }
}
