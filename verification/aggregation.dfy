/** Summation and grouping as the backend does them with `sum(...)` and a
    `defaultdict(float)`: a dictionary is an insertion-ordered sequence of
    (key, value) pairs whose keys are pairwise distinct. */
module Aggregation {

  /** Every dictionary the backend builds is keyed by a string: a category,
      an income source or a "YYYY-MM" month. */
  type Key = string

  /** `sum(xs)`, accumulated left to right. */
  function Sum(xs: seq<real>): real
  {
    if |xs| == 0 then 0.0 else Sum(xs[..|xs| - 1]) + xs[|xs| - 1]
  }

  lemma {:induction false} SumConcat(a: seq<real>, b: seq<real>)
    ensures Sum(a + b) == Sum(a) + Sum(b)
    decreases |b|
  {
    if |b| == 0 {
      assert a + b == a;
    } else {
      assert (a + b)[..|a + b| - 1] == a + b[..|b| - 1];
      SumConcat(a, b[..|b| - 1]);
    }
  }

  /** The sum of non-negative numbers is at least `t` times the number of
      them that exceed `t`. */
  lemma {:induction false} SumBoundsCountAbove(xs: seq<real>, t: real)
    requires t >= 0.0
    requires forall i :: 0 <= i < |xs| ==> xs[i] >= 0.0
    ensures Sum(xs) >= t * (CountAbove(xs, t) as real)
    decreases |xs|
  {
    if |xs| > 0 {
      SumBoundsCountAbove(xs[..|xs| - 1], t);
    }
  }

  /** A sum of non-negative numbers is at least each of them. */
  lemma {:induction false} SumAtLeastMember(xs: seq<real>, k: nat)
    requires k < |xs|
    requires forall i :: 0 <= i < |xs| ==> xs[i] >= 0.0
    ensures Sum(xs) >= xs[k]
    decreases |xs|
  {
    if k < |xs| - 1 {
      SumAtLeastMember(xs[..|xs| - 1], k);
    } else {
      SumNonNegative(xs[..|xs| - 1]);
    }
  }

  /** A sum of non-negative numbers is non-negative. */
  lemma {:induction false} SumNonNegative(xs: seq<real>)
    requires forall i :: 0 <= i < |xs| ==> xs[i] >= 0.0
    ensures Sum(xs) >= 0.0
    decreases |xs|
  {
    if |xs| > 0 {
      SumNonNegative(xs[..|xs| - 1]);
    }
  }

  /** How many of `xs` are strictly greater than `t`. */
  function CountAbove(xs: seq<real>, t: real): (n: nat)
    ensures n <= |xs|
  {
    if |xs| == 0 then 0
    else CountAbove(xs[..|xs| - 1], t) + (if xs[|xs| - 1] > t then 1 else 0)
  }

  function Keys(items: seq<(Key, real)>): (ks: seq<Key>)
    ensures |ks| == |items|
    ensures forall i :: 0 <= i < |items| ==> ks[i] == items[i].0
  {
    seq(|items|, i requires 0 <= i < |items| => items[i].0)
  }

  function Values(items: seq<(Key, real)>): (vs: seq<real>)
    ensures |vs| == |items|
    ensures forall i :: 0 <= i < |items| ==> vs[i] == items[i].1
  {
    seq(|items|, i requires 0 <= i < |items| => items[i].1)
  }

  predicate NoDuplicates(s: seq<Key>)
  {
    forall i, j :: 0 <= i < j < |s| ==> s[i] != s[j]
  }

  /** The elements of `s` in order of first occurrence, each once: the key
      order of a dictionary filled from `s`. */
  function Distinct(s: seq<Key>): (r: seq<Key>)
    ensures NoDuplicates(r)
    ensures forall x :: x in r <==> x in s
  {
    if |s| == 0 then []
    else
      var d := Distinct(s[..|s| - 1]);
      assert forall x :: x in s <==> x in s[..|s| - 1] || x == s[|s| - 1];
      if s[|s| - 1] in d then d else d + [s[|s| - 1]]
  }

  /** The number of distinct elements is the size of their set. */
  lemma {:induction false} DistinctCardinality(s: seq<Key>)
    ensures |Distinct(s)| == |set x | x in s|
    decreases |s|
  {
    if |s| > 0 {
      var init, last := s[..|s| - 1], s[|s| - 1];
      DistinctCardinality(init);
      assert (set x | x in s) == (set x | x in init) + {last} by {
        assert forall x :: x in s <==> x in init || x == last;
      }
      if last !in init {
        assert last !in (set x | x in init);
      }
    }
  }

  /** The sum of the values stored under key `k`. */
  function KeySum(items: seq<(Key, real)>, k: Key): real
  {
    if |items| == 0 then 0.0
    else KeySum(items[..|items| - 1], k)
         + (if items[|items| - 1].0 == k then items[|items| - 1].1 else 0.0)
  }

  lemma {:induction false} KeySumOfAbsentKey(items: seq<(Key, real)>, k: Key)
    ensures k !in Keys(items) ==> KeySum(items, k) == 0.0
    decreases |items|
  {
    if |items| > 0 {
      var init := items[..|items| - 1];
      assert forall i :: 0 <= i < |init| ==> Keys(init)[i] == Keys(items)[i];
      KeySumOfAbsentKey(init, k);
    }
  }

  /** With non-negative values every key's sum is non-negative. */
  lemma {:induction false} KeySumNonNegative(items: seq<(Key, real)>, k: Key)
    requires forall i :: 0 <= i < |items| ==> items[i].1 >= 0.0
    ensures KeySum(items, k) >= 0.0
    decreases |items|
  {
    if |items| > 0 {
      KeySumNonNegative(items[..|items| - 1], k);
    }
  }

  /** `d[k] += v` on a defaultdict: adds to the entry for `k`, or appends
      a new entry at the end. */
  function AddTo(d: seq<(Key, real)>, k: Key, v: real): (r: seq<(Key, real)>)
    requires NoDuplicates(Keys(d))
  {
    if |d| == 0 then [(k, v)]
    else if d[0].0 == k then [(k, d[0].1 + v)] + d[1..]
    else
      KeysTail(d);
      [d[0]] + AddTo(d[1..], k, v)
  }

  /** The entry for `k` grows by `v` and no other entry changes; a new key
      goes at the end. */
  lemma {:induction false} AddToUpdatesOneEntry(d: seq<(Key, real)>, k: Key, v: real)
    requires NoDuplicates(Keys(d))
    ensures var r := AddTo(d, k, v);
      && Keys(r) == (if k in Keys(d) then Keys(d) else Keys(d) + [k])
      && (forall j :: 0 <= j < |d| ==> r[j].1 == d[j].1 + (if d[j].0 == k then v else 0.0))
      && (k !in Keys(d) ==> r[|d|] == (k, v))
    decreases |d|
  {
    if |d| > 0 {
      var r := AddTo(d, k, v);
      assert Keys(d) == [d[0].0] + Keys(d[1..]);
      KeysTail(d);
      if d[0].0 == k {
        AddToFirstEntry(d, k, v);
      } else {
        var tail := AddTo(d[1..], k, v);
        AddToUpdatesOneEntry(d[1..], k, v);
        assert r == [d[0]] + tail;
        assert Keys(r) == [d[0].0] + Keys(tail);
        assert k in Keys(d) <==> k in Keys(d[1..]);
        forall j | 1 <= j < |d| ensures r[j].1 == d[j].1 + (if d[j].0 == k then v else 0.0) {
          assert r[j] == tail[j - 1] && d[j] == d[1..][j - 1];
        }
      }
    }
  }

  /** Adding to the first entry's key changes that entry only. */
  lemma AddToFirstEntry(d: seq<(Key, real)>, k: Key, v: real)
    requires |d| > 0 && d[0].0 == k && NoDuplicates(Keys(d))
    ensures var r := AddTo(d, k, v);
      && k in Keys(d) && Keys(r) == Keys(d)
      && (forall j :: 0 <= j < |d| ==> r[j].1 == d[j].1 + (if d[j].0 == k then v else 0.0))
  {
    var r := AddTo(d, k, v);
    assert r == [(k, d[0].1 + v)] + d[1..];
    assert Keys(d)[0] == k;
    forall j | 1 <= j < |d| ensures d[j].0 != k && r[j] == d[j] {
      assert Keys(d)[0] != Keys(d)[j];
    }
  }

  lemma SumCons(x: real, xs: seq<real>)
    ensures Sum([x] + xs) == x + Sum(xs)
  {
    SumConcat([x], xs);
    assert Sum([x]) == Sum([]) + x;
  }

  lemma KeysTail(d: seq<(Key, real)>)
    requires |d| > 0 && NoDuplicates(Keys(d))
    ensures Keys(d[1..]) == Keys(d)[1..] && NoDuplicates(Keys(d[1..]))
  {
    assert Keys(d[1..]) == Keys(d)[1..];
  }

  lemma ValuesCons(x: (Key, real), s: seq<(Key, real)>)
    ensures Values([x] + s) == [x.1] + Values(s)
  {
  }

  lemma {:induction false} AddToTotal(d: seq<(Key, real)>, k: Key, v: real)
    requires NoDuplicates(Keys(d))
    ensures Sum(Values(AddTo(d, k, v))) == Sum(Values(d)) + v
    decreases |d|
  {
    if |d| == 0 {
      assert Values(AddTo(d, k, v)) == [v];
      assert Sum([v]) == Sum([]) + v;
    } else {
      assert d == [d[0]] + d[1..];
      ValuesCons(d[0], d[1..]);
      SumCons(d[0].1, Values(d[1..]));
      if d[0].0 == k {
        assert AddTo(d, k, v) == [(k, d[0].1 + v)] + d[1..];
        ValuesCons((k, d[0].1 + v), d[1..]);
        SumCons(d[0].1 + v, Values(d[1..]));
      } else {
        KeysTail(d);
        var tail := AddTo(d[1..], k, v);
        assert AddTo(d, k, v) == [d[0]] + tail;
        ValuesCons(d[0], tail);
        SumCons(d[0].1, Values(tail));
        AddToTotal(d[1..], k, v);
      }
    }
  }

  /** The dictionary `for k, v in items: d[k] += v` builds from an empty
      defaultdict: one entry per key present, in order of first appearance,
      holding that key's sum. */
  function GroupSum(items: seq<(Key, real)>): (d: seq<(Key, real)>)
    ensures Keys(d) == Distinct(Keys(items))
    ensures forall j :: 0 <= j < |d| ==> d[j].1 == KeySum(items, d[j].0)
  {
    if |items| == 0 then []
    else
      var init, last := items[..|items| - 1], items[|items| - 1];
      assert Keys(init) == Keys(items)[..|items| - 1];
      var d := GroupSum(init);
      KeySumOfAbsentKey(init, last.0);
      AddToUpdatesOneEntry(d, last.0, last.1);
      AddTo(d, last.0, last.1)
  }

  /** The values of the grouped dictionary add up to the sum of all items. */
  lemma {:induction false} GroupSumTotal(items: seq<(Key, real)>)
    ensures Sum(Values(GroupSum(items))) == Sum(Values(items))
    decreases |items|
  {
    if |items| > 0 {
      var init := items[..|items| - 1];
      GroupSumTotal(init);
      AddToTotal(GroupSum(init), items[|items| - 1].0, items[|items| - 1].1);
      assert Values(init) == Values(items)[..|items| - 1];
    }
  }

  /** `d.get(k, default)`. */
  function Lookup(d: seq<(Key, real)>, k: Key, default: real): real
  {
    if |d| == 0 then default
    else if d[0].0 == k then d[0].1
    else Lookup(d[1..], k, default)
  }

  lemma {:induction false} LookupFindsEntry(d: seq<(Key, real)>, j: nat, default: real)
    requires j < |d| && NoDuplicates(Keys(d))
    ensures Lookup(d, d[j].0, default) == d[j].1
    decreases j
  {
    if j > 0 {
      assert Keys(d[1..]) == Keys(d)[1..];
      LookupFindsEntry(d[1..], j - 1, default);
    }
  }

  lemma {:induction false} LookupMissing(d: seq<(Key, real)>, k: Key, default: real)
    requires k !in Keys(d)
    ensures Lookup(d, k, default) == default
    decreases |d|
  {
    if |d| > 0 {
      assert Keys(d[1..]) == Keys(d)[1..];
      LookupMissing(d[1..], k, default);
    }
  }

  /** Reading the grouped dictionary with default 0 gives the key's sum,
      whether or not the key occurs. */
  lemma LookupGroupSum(items: seq<(Key, real)>, k: Key)
    ensures Lookup(GroupSum(items), k, 0.0) == KeySum(items, k)
  {
    var d := GroupSum(items);
    if k in Keys(d) {
      var j :| 0 <= j < |d| && Keys(d)[j] == k;
      LookupFindsEntry(d, j, 0.0);
    } else {
      LookupMissing(d, k, 0.0);
      KeySumOfAbsentKey(items, k);
    }
  }

  /** Sum over the key list `ks` of each key's sum in `items`. */
  function SumOfKeySums(ks: seq<Key>, items: seq<(Key, real)>): real
  {
    if |ks| == 0 then 0.0 else KeySum(items, ks[0]) + SumOfKeySums(ks[1..], items)
  }

  /** `v` for each occurrence of `a` in `ks`. */
  function Hits(ks: seq<Key>, a: Key, v: real): real
  {
    if |ks| == 0 then 0.0 else (if ks[0] == a then v else 0.0) + Hits(ks[1..], a, v)
  }

  lemma {:induction false} HitsOnce(ks: seq<Key>, a: Key, v: real)
    requires NoDuplicates(ks)
    ensures Hits(ks, a, v) == if a in ks then v else 0.0
    decreases |ks|
  {
    if |ks| > 0 {
      HitsOnce(ks[1..], a, v);
      assert ks == [ks[0]] + ks[1..];
    }
  }

  lemma {:induction false} SumOfKeySumsSnoc(ks: seq<Key>, items: seq<(Key, real)>, x: (Key, real))
    ensures SumOfKeySums(ks, items + [x]) == SumOfKeySums(ks, items) + Hits(ks, x.0, x.1)
    decreases |ks|
  {
    if |ks| > 0 {
      SumOfKeySumsSnoc(ks[1..], items, x);
      assert (items + [x])[..|items + [x]| - 1] == items;
    }
  }

  /** Summing each key's total over a duplicate-free key list that covers
      every key present gives the sum of all items. */
  lemma {:induction false} SumOfKeySumsCovers(ks: seq<Key>, items: seq<(Key, real)>)
    requires NoDuplicates(ks)
    requires forall i :: 0 <= i < |items| ==> items[i].0 in ks
    ensures SumOfKeySums(ks, items) == Sum(Values(items))
    decreases |items|
  {
    if |items| == 0 {
      assert forall k :: KeySum(items, k) == 0.0;
      SumOfKeySumsZero(ks, items);
    } else {
      var init, last := items[..|items| - 1], items[|items| - 1];
      assert items == init + [last];
      SumOfKeySumsCovers(ks, init);
      SumOfKeySumsSnoc(ks, init, last);
      HitsOnce(ks, last.0, last.1);
      assert Values(init) == Values(items)[..|items| - 1];
    }
  }

  lemma {:induction false} SumOfKeySumsZero(ks: seq<Key>, items: seq<(Key, real)>)
    requires |items| == 0
    ensures SumOfKeySums(ks, items) == 0.0
    decreases |ks|
  {
    if |ks| > 0 {
      SumOfKeySumsZero(ks[1..], items);
    }
  }
}
