/** `sorted(d.items(), key=lambda x: x[1], reverse=True)[:n]`: Python's sort
    is stable, and `reverse=True` keeps equal elements in their original
    order, so the result is a stable sort by value, largest first. */
module Ranking {
  import opened Aggregation

  type Entry = (Key, real)

  predicate NonIncreasing(s: seq<Entry>)
  {
    forall i, j :: 0 <= i < j < |s| ==> s[i].1 >= s[j].1
  }

  /** The entries of `s` whose value is `v`, in their order in `s`. */
  function WithValue(s: seq<Entry>, v: real): (r: seq<Entry>)
    ensures |r| <= |s|
  {
    if |s| == 0 then []
    else (if s[0].1 == v then [s[0]] else []) + WithValue(s[1..], v)
  }

  lemma {:induction false} WithValueConcat(a: seq<Entry>, b: seq<Entry>, v: real)
    ensures WithValue(a + b, v) == WithValue(a, v) + WithValue(b, v)
    decreases |a|
  {
    if |a| > 0 {
      assert (a + b)[1..] == a[1..] + b;
      WithValueConcat(a[1..], b, v);
    } else {
      assert a + b == b;
    }
  }

  lemma {:induction false} WithValueNone(s: seq<Entry>, v: real)
    requires forall i :: 0 <= i < |s| ==> s[i].1 != v
    ensures WithValue(s, v) == []
    decreases |s|
  {
    if |s| > 0 {
      WithValueNone(s[1..], v);
    }
  }

  /** A prefix keeps a prefix of each run of equal values. */
  lemma {:induction false} WithValuePrefix(s: seq<Entry>, n: nat, v: real)
    requires n <= |s|
    ensures WithValue(s[..n], v) <= WithValue(s, v)
  {
    assert s == s[..n] + s[n..];
    WithValueConcat(s[..n], s[n..], v);
  }

  /** Places `x` after every entry whose value is at least its own. */
  function InsertDesc(s: seq<Entry>, x: Entry): (r: seq<Entry>)
    ensures multiset(r) == multiset(s) + multiset{x}
    ensures |r| == |s| + 1
  {
    if |s| == 0 then [x]
    else if s[0].1 >= x.1 then
      assert s == [s[0]] + s[1..];
      [s[0]] + InsertDesc(s[1..], x)
    else [x] + s
  }

  lemma {:induction false} InsertDescNonIncreasing(s: seq<Entry>, x: Entry)
    requires NonIncreasing(s)
    ensures NonIncreasing(InsertDesc(s, x))
    decreases |s|
  {
    if |s| > 0 && s[0].1 >= x.1 {
      var r := InsertDesc(s[1..], x);
      InsertDescNonIncreasing(s[1..], x);
      forall j | 0 <= j < |r| ensures s[0].1 >= r[j].1 {
        assert r[j] in multiset(r);
        if r[j] != x {
          assert r[j] in s[1..];
        }
      }
    }
  }

  lemma {:induction false} InsertDescWithValue(s: seq<Entry>, x: Entry, v: real)
    requires NonIncreasing(s)
    ensures WithValue(InsertDesc(s, x), v) == WithValue(s, v) + (if x.1 == v then [x] else [])
    decreases |s|
  {
    if |s| > 0 {
      if s[0].1 >= x.1 {
        InsertDescWithValue(s[1..], x, v);
        assert ([s[0]] + InsertDesc(s[1..], x))[1..] == InsertDesc(s[1..], x);
      } else {
        assert ([x] + s)[1..] == s;
        if x.1 == v {
          WithValueNone(s, v);
        }
      }
    }
  }

  /** The stable sort by value, largest first. */
  function SortDesc(s: seq<Entry>): (r: seq<Entry>)
    ensures multiset(r) == multiset(s)
    ensures |r| == |s|
  {
    if |s| == 0 then []
    else
      assert s == s[..|s| - 1] + [s[|s| - 1]];
      InsertDesc(SortDesc(s[..|s| - 1]), s[|s| - 1])
  }

  /** The sort orders values from largest to smallest, and entries of equal
      value keep their original relative order. */
  lemma {:induction false} SortDescIsStable(s: seq<Entry>)
    ensures NonIncreasing(SortDesc(s))
    ensures forall v :: WithValue(SortDesc(s), v) == WithValue(s, v)
    decreases |s|
  {
    if |s| > 0 {
      var init, last := s[..|s| - 1], s[|s| - 1];
      SortDescIsStable(init);
      assert SortDesc(s) == InsertDesc(SortDesc(init), last);
      InsertDescNonIncreasing(SortDesc(init), last);
      forall v ensures WithValue(SortDesc(s), v) == WithValue(s, v) {
        SortDescStepWithValue(s, v);
      }
    }
  }

  /** One insertion step of the sort keeps the entries of value `v` in
      their order, given that the sort of the prefix does. */
  lemma SortDescStepWithValue(s: seq<Entry>, v: real)
    requires |s| > 0 && NonIncreasing(SortDesc(s[..|s| - 1]))
    requires WithValue(SortDesc(s[..|s| - 1]), v) == WithValue(s[..|s| - 1], v)
    ensures WithValue(SortDesc(s), v) == WithValue(s, v)
  {
    var init, last := s[..|s| - 1], s[|s| - 1];
    assert s == init + [last];
    var sortedInit := SortDesc(init);
    var tail := if last.1 == v then [last] else [];
    assert SortDesc(s) == InsertDesc(sortedInit, last);
    InsertDescWithValue(sortedInit, last, v);
    assert WithValue(SortDesc(s), v) == WithValue(init, v) + tail;
    WithValueConcat(init, [last], v);
    assert [last][1..] == [];
    assert WithValue([last], v) == tail;
  }

  /** Whatever a prefix of a sorted sequence leaves out is no larger than
      anything it keeps. */
  lemma PrefixDominates(sorted: seq<Entry>, k: nat, x: Entry)
    requires k <= |sorted| && NonIncreasing(sorted)
    requires x in sorted && x !in sorted[..k]
    ensures forall j :: 0 <= j < k ==> sorted[j].1 >= x.1
  {
    var i :| 0 <= i < |sorted| && sorted[i] == x;
    assert i >= k;
  }

  /** The `n` entries with the largest values, ties in original order. */
  function Top(s: seq<Entry>, n: nat): (r: seq<Entry>)
    ensures |r| == if |s| < n then |s| else n
    ensures multiset(r) <= multiset(s)
  {
    var sorted := SortDesc(s);
    var k := if |s| < n then |s| else n;
    assert sorted == sorted[..k] + sorted[k..];
    sorted[..k]
  }

  /** The chosen entries come largest first, and entries of equal value are
      those that come first in `s`, in their order in `s`. */
  lemma TopIsOrderedAndStable(s: seq<Entry>, n: nat)
    ensures NonIncreasing(Top(s, n))
    ensures forall v :: WithValue(Top(s, n), v) <= WithValue(s, v)
  {
    var sorted := SortDesc(s);
    var k := |Top(s, n)|;
    SortDescIsStable(s);
    forall v ensures WithValue(sorted[..k], v) <= WithValue(s, v) {
      WithValuePrefix(sorted, k, v);
    }
  }

  /** Every entry left out is no larger than any entry chosen. */
  lemma TopDominatesRest(s: seq<Entry>, n: nat, x: Entry)
    requires x in s && x !in Top(s, n)
    ensures forall j :: 0 <= j < |Top(s, n)| ==> Top(s, n)[j].1 >= x.1
  {
    var sorted := SortDesc(s);
    SortDescIsStable(s);
    assert x in multiset(sorted);
    PrefixDominates(sorted, |Top(s, n)|, x);
  }
}
