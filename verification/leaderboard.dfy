/**
 The top and bottom performers: the whole (unfiltered) table grouped by ASE or by
 territory, secondary sales summed per group, groups ranked by that sum in
 descending order, the first one kept as the top and the last three as the bottom.
 */
module Leaderboard {
  import opened Wrappers
  import opened LexOrder
  import opened Table
  import opened Filters
  import Kpis

  datatype Entry = Entry(key: string, total: real)

  datatype Board = Board(top: seq<Entry>, bottom: seq<Entry>)

  const TopCount: nat := 1
  const BottomCount: nat := 3

  function Min(a: nat, b: nat): nat
  {
    if a <= b then a else b
  }

  /** The groups: the distinct non-NaN keys of the level, in sorted order. */
  function GroupKeys(rows: seq<Row>, level: Level): (r: seq<string>)
    ensures StrictlySorted(r)
    ensures forall k :: k in r <==> OccursIn(rows, level, k)
  {
    Candidates(rows, level)
  }

  /** A group's secondary sales: the sum over exactly the rows carrying its key. */
  function GroupTotal(rows: seq<Row>, level: Level, k: string): real
  {
    ColumnSum(Restrict(rows, level, k), Kpis.SecondaryActual)
  }

  /** The grouped sums, one entry per group, in key order. */
  function GroupEntries(rows: seq<Row>, level: Level): (r: seq<Entry>)
    ensures |r| == |GroupKeys(rows, level)|
    ensures forall e: Entry :: e in r <==> e.key in GroupKeys(rows, level) && e.total == GroupTotal(rows, level, e.key)
    ensures DistinctKeys(r)
  {
    var keys := GroupKeys(rows, level);
    var r := seq(|keys|, i requires 0 <= i < |keys| => Entry(keys[i], GroupTotal(rows, level, keys[i])));
    StrictlySortedNoDuplicates(keys);
    assert forall e: Entry :: e.key in keys && e.total == GroupTotal(rows, level, e.key) ==> e in r by {
      forall e: Entry | e.key in keys && e.total == GroupTotal(rows, level, e.key)
        ensures e in r
      {
        var i :| 0 <= i < |keys| && keys[i] == e.key;
        assert r[i] == e;
      }
    }
    r
  }

  /** No two entries name the same group. */
  ghost predicate DistinctKeys(s: seq<Entry>)
  {
    forall i, j :: 0 <= i < j < |s| ==> s[i].key != s[j].key
  }

  /** No entry occurs twice. */
  ghost predicate NoRepeats(s: seq<Entry>)
  {
    forall i, j :: 0 <= i < j < |s| ==> s[i] != s[j]
  }

  /** A list without repeats holds each entry at most once, counted as a multiset. */
  lemma {:induction false} NoRepeatsCountsOne(s: seq<Entry>)
    requires NoRepeats(s)
    ensures forall x :: multiset(s)[x] <= 1
    decreases |s|
  {
    if |s| > 0 {
      var t := s[1..];
      assert s == [s[0]] + t;
      assert NoRepeats(t) by {
        forall i, j | 0 <= i < j < |t|
          ensures t[i] != t[j]
        {
          assert t[i] == s[i + 1] && t[j] == s[j + 1];
        }
      }
      NoRepeatsCountsOne(t);
      assert s[0] !in t by {
        forall k | 0 <= k < |t|
          ensures t[k] != s[0]
        {
          assert t[k] == s[k + 1];
        }
      }
      assert multiset(t)[s[0]] == 0;
    }
  }

  /** ...and conversely: a list holding each entry at most once has no repeats. */
  lemma CountsOneNoRepeats(s: seq<Entry>)
    requires forall x :: multiset(s)[x] <= 1
    ensures NoRepeats(s)
  {
    forall i, j | 0 <= i < j < |s|
      ensures s[i] != s[j]
    {
      var x := s[i];
      assert s == s[..j] + s[j..];
      assert s[..j][i] == x;
      assert s[j..][0] == s[j];
      assert multiset(s)[x] == multiset(s[..j])[x] + multiset(s[j..])[x];
      assert multiset(s[..j])[x] >= 1;
      assert x !in multiset(s[j..]);
    }
  }

  lemma SuffixNoRepeats(s: seq<Entry>, cut: nat)
    requires NoRepeats(s) && cut <= |s|
    ensures NoRepeats(s[cut..])
  {
    var tail := s[cut..];
    forall i, j | 0 <= i < j < |tail|
      ensures tail[i] != tail[j]
    {
      assert tail[i] == s[cut + i] && tail[j] == s[cut + j];
    }
  }

  /** Totals never increase along the list. */
  ghost predicate Descending(s: seq<Entry>)
  {
    forall i, j :: 0 <= i < j < |s| ==> s[i].total >= s[j].total
  }

  lemma PrependDescending(h: Entry, s: seq<Entry>)
    requires Descending(s)
    requires forall x :: x in s ==> h.total >= x.total
    ensures Descending([h] + s)
  {
    var r := [h] + s;
    forall i, j | 0 <= i < j < |r|
      ensures r[i].total >= r[j].total
    {
      assert r[j] == s[j - 1];
      if i > 0 {
        assert r[i] == s[i - 1];
      }
    }
  }

  lemma HeadAboveInserted(s: seq<Entry>, e: Entry, rest: seq<Entry>)
    requires Descending(s) && |s| > 0 && e.total < s[0].total
    requires multiset(rest) == multiset(s[1..]) + multiset{e}
    ensures forall x :: x in rest ==> s[0].total >= x.total
  {
    forall x | x in rest
      ensures s[0].total >= x.total
    {
      assert x in multiset(rest);
      if x != e {
        assert x in multiset(s[1..]);
        var j :| 0 <= j < |s[1..]| && s[1..][j] == x;
        assert s[j + 1] == x;
      }
    }
  }

  function InsertDescending(e: Entry, s: seq<Entry>): (r: seq<Entry>)
    requires Descending(s)
    ensures Descending(r)
    ensures multiset(r) == multiset(s) + multiset{e}
  {
    if |s| == 0 then [e]
    else if e.total >= s[0].total then
      PrependDescending(e, s);
      [e] + s
    else
      assert s == [s[0]] + s[1..];
      var rest := InsertDescending(e, s[1..]);
      HeadAboveInserted(s, e, rest);
      PrependDescending(s[0], rest);
      [s[0]] + rest
  }

  /** `sort_values(ascending=False)`: a descending permutation of the groups. */
  function RankDescending(s: seq<Entry>): (r: seq<Entry>)
    ensures Descending(r)
    ensures multiset(r) == multiset(s)
  {
    if |s| == 0 then []
    else
      assert s == [s[0]] + s[1..];
      InsertDescending(s[0], RankDescending(s[1..]))
  }

  /** The head of a descending ranking is at least every entry of it. */
  lemma HeadIsLargest(ranked: seq<Entry>, x: Entry)
    requires Descending(ranked) && |ranked| > 0 && x in ranked
    ensures ranked[0].total >= x.total
  {
    var j :| 0 <= j < |ranked| && ranked[j] == x;
  }

  lemma InSuffix<T>(s: seq<T>, cut: int, j: int)
    requires 0 <= cut <= j < |s|
    ensures s[j] in s[cut..]
  {
    assert s[cut..][j - cut] == s[j];
  }

  /** Every entry of a tail of a descending ranking is at most every entry before the tail. */
  lemma TailIsSmallest(ranked: seq<Entry>, cut: nat, e: Entry, x: Entry)
    requires Descending(ranked) && cut <= |ranked|
    requires e in ranked[cut..] && x in ranked && x !in ranked[cut..]
    ensures e.total <= x.total
  {
    var i :| 0 <= i < |ranked[cut..]| && ranked[cut..][i] == e;
    var j :| 0 <= j < |ranked| && ranked[j] == x;
    if j >= cut {
      InSuffix(ranked, cut, j);
      assert false;
    }
    assert ranked[cut + i] == e;
  }

  lemma SuffixDescending(ranked: seq<Entry>, cut: nat)
    requires Descending(ranked) && cut <= |ranked|
    ensures Descending(ranked[cut..])
  {
    var tail := ranked[cut..];
    forall i, j | 0 <= i < j < |tail|
      ensures tail[i].total >= tail[j].total
    {
      assert tail[i] == ranked[cut + i] && tail[j] == ranked[cut + j];
    }
  }

  /** `head(1)` and `tail(3)` of a descending ranking. */
  function TopAndBottom(ranked: seq<Entry>): (b: Board)
    requires Descending(ranked)
    ensures |b.top| == Min(TopCount, |ranked|)
    ensures |b.bottom| == Min(BottomCount, |ranked|)
    ensures forall e :: e in b.top + b.bottom ==> e in ranked
    ensures forall e, x :: e in b.top && x in ranked ==> e.total >= x.total
    ensures forall e, x :: e in b.bottom && x in ranked && x !in b.bottom ==> e.total <= x.total
    ensures Descending(b.bottom)
  {
    var n := |ranked|;
    var cut := n - Min(BottomCount, n);
    var top := ranked[..Min(TopCount, n)];
    var bottom := ranked[cut..];
    assert forall e, x :: e in top && x in ranked ==> e.total >= x.total by {
      forall e, x | e in top && x in ranked
        ensures e.total >= x.total
      {
        HeadIsLargest(ranked, x);
      }
    }
    assert forall e, x :: e in bottom && x in ranked && x !in bottom ==> e.total <= x.total by {
      forall e, x | e in bottom && x in ranked && x !in bottom
        ensures e.total <= x.total
      {
        TailIsSmallest(ranked, cut, e, x);
      }
    }
    SuffixDescending(ranked, cut);
    Board(top, bottom)
  }

  function KeysOf(es: seq<Entry>): (ks: seq<string>)
    ensures forall e :: e in es ==> e.key in ks
    ensures |ks| == |es| && forall i :: 0 <= i < |es| ==> ks[i] == es[i].key
  {
    var ks := seq(|es|, i requires 0 <= i < |es| => es[i].key);
    assert forall e :: e in es ==> e.key in ks by {
      forall e | e in es
        ensures e.key in ks
      {
        var i :| 0 <= i < |es| && es[i] == e;
        assert ks[i] == e.key;
      }
    }
    ks
  }

  /**
   The leaderboard of one grouping level. `None` when the table has no
   "Secondary INR Actual" column, where the dashboard stops with a missing-column error.
   */
  function Rank(t: Table, level: Level): (r: Option<Board>)
    ensures r.None? <==> Kpis.SecondaryActual !in t.columns
    ensures r.Some? ==>
      var n := |GroupKeys(t.rows, level)|;
      |r.value.top| == Min(TopCount, n) && |r.value.bottom| == Min(BottomCount, n)
    // every listed entry is a group with its true total
    ensures r.Some? ==> forall e :: e in r.value.top + r.value.bottom ==>
      OccursIn(t.rows, level, e.key) && e.total == GroupTotal(t.rows, level, e.key)
    // the top entry's total is at least every group's total
    ensures r.Some? ==> forall e, k :: e in r.value.top && OccursIn(t.rows, level, k) ==>
      e.total >= GroupTotal(t.rows, level, k)
    // every bottom total is at most the total of every group outside the bottom list
    ensures r.Some? ==> forall e, k :: e in r.value.bottom && OccursIn(t.rows, level, k) && k !in KeysOf(r.value.bottom) ==>
      e.total <= GroupTotal(t.rows, level, k)
    // the bottom list keeps the descending order of the ranking and names each group once
    ensures r.Some? ==> Descending(r.value.bottom) && DistinctKeys(r.value.bottom)
  {
    if Kpis.SecondaryActual !in t.columns then None
    else
      var entries := GroupEntries(t.rows, level);
      var ranked := RankDescending(entries);
      PermutationKeepsMembers(ranked, entries);
      var b := TopAndBottom(ranked);
      RankedHasNoRepeats(entries, ranked);
      SuffixNoRepeats(ranked, |ranked| - Min(BottomCount, |ranked|));
      assert forall k :: OccursIn(t.rows, level, k) ==> Entry(k, GroupTotal(t.rows, level, k)) in ranked;
      Some(b)
  }

  /** Reordering entries with distinct keys repeats none of them. */
  lemma RankedHasNoRepeats(entries: seq<Entry>, ranked: seq<Entry>)
    requires DistinctKeys(entries) && multiset(ranked) == multiset(entries)
    ensures NoRepeats(ranked)
  {
    NoRepeatsCountsOne(entries);
    CountsOneNoRepeats(ranked);
  }

  /** A permutation has the same length and the same members. */
  lemma PermutationKeepsMembers(a: seq<Entry>, b: seq<Entry>)
    requires multiset(a) == multiset(b)
    ensures |a| == |b|
    ensures forall e :: e in a <==> e in b
  {
    assert |multiset(a)| == |multiset(b)|;
    forall e
      ensures e in a <==> e in b
    {
      assert e in a <==> e in multiset(a);
      assert e in b <==> e in multiset(b);
    }
  }
}
