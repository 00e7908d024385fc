/**
 Lexicographic order on strings (code point by code point, a proper prefix first),
 which is how Python's `sorted` orders the hierarchy keys. Dafny's own `<` on
 sequences means "proper prefix", so the order is defined here explicitly, together
 with the sorted, duplicate-free lists the candidate drop-downs are built from.
 */
module LexOrder {
  import opened Wrappers

  predicate Less(a: string, b: string)
    decreases |a|
  {
    if |a| == 0 then |b| > 0
    else if |b| == 0 then false
    else a[0] < b[0] || (a[0] == b[0] && Less(a[1..], b[1..]))
  }

  lemma {:induction false} LessIrreflexive(a: string)
    ensures !Less(a, a)
    decreases |a|
  {
    if |a| > 0 {
      LessIrreflexive(a[1..]);
    }
  }

  lemma {:induction false} LessTransitive(a: string, b: string, c: string)
    requires Less(a, b) && Less(b, c)
    ensures Less(a, c)
    decreases |a|
  {
    if |a| > 0 && a[0] == b[0] && b[0] == c[0] {
      LessTransitive(a[1..], b[1..], c[1..]);
    }
  }

  lemma {:induction false} LessTotal(a: string, b: string)
    requires a != b
    ensures Less(a, b) || Less(b, a)
    decreases |a|
  {
    if |a| > 0 && |b| > 0 && a[0] == b[0] {
      assert a == [a[0]] + a[1..] && b == [b[0]] + b[1..];
      LessTotal(a[1..], b[1..]);
    }
  }

  lemma LessAsymmetric(a: string, b: string)
    requires Less(a, b)
    ensures !Less(b, a)
  {
    if Less(b, a) {
      LessTransitive(a, b, a);
      LessIrreflexive(a);
    }
  }

  /** Every earlier element is strictly below every later one: sorted and duplicate-free. */
  ghost predicate StrictlySorted(s: seq<string>)
  {
    forall i, j :: 0 <= i < j < |s| ==> Less(s[i], s[j])
  }

  lemma PrependBelowAll(h: string, s: seq<string>)
    requires StrictlySorted(s)
    requires forall v :: v in s ==> Less(h, v)
    ensures StrictlySorted([h] + s)
  {
    var r := [h] + s;
    forall i, j | 0 <= i < j < |r|
      ensures Less(r[i], r[j])
    {
      if i == 0 {
        assert r[j] == s[j - 1];
      } else {
        assert r[i] == s[i - 1] && r[j] == s[j - 1];
      }
    }
  }

  lemma TailSorted(s: seq<string>)
    requires StrictlySorted(s) && |s| > 0
    ensures StrictlySorted(s[1..])
  {
    var t := s[1..];
    forall i, j | 0 <= i < j < |t|
      ensures Less(t[i], t[j])
    {
      assert t[i] == s[i + 1] && t[j] == s[j + 1];
    }
  }

  /** Inserts `x` into a strictly sorted list, keeping it strictly sorted (a no-op if present). */
  function Insert(x: string, s: seq<string>): (r: seq<string>)
    requires StrictlySorted(s)
    ensures StrictlySorted(r)
    ensures forall v :: v in r <==> v == x || v in s
    ensures |r| <= |s| + 1
  {
    if |s| == 0 then [x]
    else if x == s[0] then s
    else if Less(x, s[0]) then
      assert forall v :: v in s ==> Less(x, v) by {
        forall v | v in s
          ensures Less(x, v)
        {
          var j :| 0 <= j < |s| && s[j] == v;
          if j > 0 {
            LessTransitive(x, s[0], v);
          }
        }
      }
      PrependBelowAll(x, s);
      [x] + s
    else
      TailSorted(s);
      var rest := Insert(x, s[1..]);
      assert forall v :: v in rest ==> Less(s[0], v) by {
        forall v | v in rest
          ensures Less(s[0], v)
        {
          if v == x {
            LessTotal(x, s[0]);
          } else {
            var j :| 0 <= j < |s[1..]| && s[1..][j] == v;
            assert s[j + 1] == v;
          }
        }
      }
      PrependBelowAll(s[0], rest);
      assert s == [s[0]] + s[1..];
      [s[0]] + rest
  }

  /**
   The sorted list of the distinct present values of a column: pandas
   `sorted(col.dropna().unique())`.
   */
  function Distinct(keys: seq<Option<string>>): (r: seq<string>)
    ensures StrictlySorted(r)
    ensures forall v :: v in r <==> Some(v) in keys
    ensures |r| <= |keys|
  {
    if |keys| == 0 then []
    else
      var rest := Distinct(keys[1..]);
      assert keys == [keys[0]] + keys[1..];
      match keys[0]
      case None => rest
      case Some(v) => Insert(v, rest)
  }

  /**
   A strictly sorted list is determined by its elements: two strictly sorted lists
   holding the same strings are equal. So `Distinct` is THE sorted deduplication.
   */
  lemma {:induction false} SortedListUnique(a: seq<string>, b: seq<string>)
    requires StrictlySorted(a) && StrictlySorted(b)
    requires forall v :: v in a <==> v in b
    ensures a == b
    decreases |a|
  {
    if |a| == 0 {
      if |b| > 0 {
        HeadIsMember(b);
        assert false;
      }
    } else {
      assert a[0] in b;
      assert b[0] in a;
      if a[0] != b[0] {
        var j :| 0 <= j < |b| && b[j] == a[0];
        var i :| 0 <= i < |a| && a[i] == b[0];
        assert Less(b[0], a[0]);
        assert Less(a[0], b[0]);
        LessAsymmetric(a[0], b[0]);
        assert false;
      }
      TailSorted(a);
      TailSorted(b);
      forall v
        ensures v in a[1..] <==> v in b[1..]
      {
        if v in a[1..] {
          var i :| 0 <= i < |a[1..]| && a[1..][i] == v;
          assert Less(a[0], a[i + 1]);
          LessIrreflexive(v);
          assert v in b && v != b[0];
          assert b == [b[0]] + b[1..];
        }
        if v in b[1..] {
          var i :| 0 <= i < |b[1..]| && b[1..][i] == v;
          assert Less(b[0], b[i + 1]);
          LessIrreflexive(v);
          assert v in a && v != a[0];
          assert a == [a[0]] + a[1..];
        }
      }
      SortedListUnique(a[1..], b[1..]);
      assert a == [a[0]] + a[1..] && b == [b[0]] + b[1..];
    }
  }

  lemma HeadIsMember<T>(s: seq<T>)
    requires |s| > 0
    ensures s[0] in s
  {
  }

  /** Distinct elements only: a strictly sorted list holds each string once. */
  lemma StrictlySortedNoDuplicates(s: seq<string>)
    requires StrictlySorted(s)
    ensures forall i, j :: 0 <= i < |s| && 0 <= j < |s| && i != j ==> s[i] != s[j]
  {
    forall i, j | 0 <= i < |s| && 0 <= j < |s| && i != j
      ensures s[i] != s[j]
    {
      if i < j {
        LessIrreflexive(s[i]);
      } else {
        LessIrreflexive(s[j]);
      }
    }
  }
}
