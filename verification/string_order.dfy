/** Python's ordering of `str` values (code point by code point, a proper
    prefix first) and the key sort the dashboard applies to its month buckets. */
module StringOrder {

  /** `a < b` on Python strings. */
  predicate Less(a: string, b: string)
    decreases |a|
  {
    if |a| == 0 then |b| > 0
    else if |b| == 0 then false
    else if a[0] != b[0] then a[0] < b[0]
    else Less(a[1..], b[1..])
  }

  lemma {:induction false} LessIrreflexive(a: string)
    ensures !Less(a, a)
    decreases |a|
  {
    if |a| > 0 {
      LessIrreflexive(a[1..]);
    }
  }

  lemma {:induction false} LessTransitive(a: string, b: string, c: string)
    requires Less(a, b) && Less(b, c)
    ensures Less(a, c)
    decreases |a|
  {
    if |a| > 0 && a[0] == b[0] && b[0] == c[0] {
      LessTransitive(a[1..], b[1..], c[1..]);
    }
  }

  lemma {:induction false} LessTotal(a: string, b: string)
    requires a != b
    ensures Less(a, b) || Less(b, a)
    decreases |a|
  {
    if |a| > 0 && |b| > 0 && a[0] == b[0] {
      assert a == [a[0]] + a[1..] && b == [b[0]] + b[1..];
      LessTotal(a[1..], b[1..]);
    }
  }

  lemma LessAsymmetric(a: string, b: string)
    requires Less(a, b)
    ensures !Less(b, a) && a != b
  {
    LessIrreflexive(a);
    if Less(b, a) {
      LessTransitive(a, b, a);
    }
  }

  /** Comparing two strings that start with prefixes of equal length is
      decided by the prefixes unless they coincide. */
  lemma {:induction false} LessOfConcat(p1: string, s1: string, p2: string, s2: string)
    requires |p1| == |p2|
    ensures Less(p1 + s1, p2 + s2) <==> Less(p1, p2) || (p1 == p2 && Less(s1, s2))
    ensures p1 + s1 == p2 + s2 <==> p1 == p2 && s1 == s2
    decreases |p1|
  {
    if |p1| == 0 {
      assert p1 + s1 == s1 && p2 + s2 == s2;
    } else {
      assert (p1 + s1)[1..] == p1[1..] + s1;
      assert (p2 + s2)[1..] == p2[1..] + s2;
      assert p1 == [p1[0]] + p1[1..] && p2 == [p2[0]] + p2[1..];
      if p1 + s1 == p2 + s2 {
        assert (p1 + s1)[0] == (p2 + s2)[0];
        assert (p1 + s1)[1..] == (p2 + s2)[1..];
      }
      LessOfConcat(p1[1..], s1, p2[1..], s2);
    }
  }

  /** Strictly increasing under `Less`: the shape of a sorted list of
      distinct keys. */
  predicate Ascending(s: seq<string>)
  {
    forall i, j :: 0 <= i < j < |s| ==> Less(s[i], s[j])
  }

  /** Every element is at most its successors (equal neighbours allowed). */
  predicate NonDecreasing(s: seq<string>)
  {
    forall i, j :: 0 <= i < j < |s| ==> s[i] == s[j] || Less(s[i], s[j])
  }

  /** Inserts `x` in front of the first element not below it. */
  function Insert(s: seq<string>, x: string): (r: seq<string>)
    ensures multiset(r) == multiset(s) + multiset{x}
  {
    if |s| == 0 then [x]
    else if Less(s[0], x) then
      assert s == [s[0]] + s[1..];
      [s[0]] + Insert(s[1..], x)
    else [x] + s
  }

  lemma {:induction false} InsertKeepsAscending(s: seq<string>, x: string)
    requires Ascending(s) && x !in s
    ensures Ascending(Insert(s, x))
    decreases |s|
  {
    if |s| > 0 {
      if Less(s[0], x) {
        InsertKeepsAscending(s[1..], x);
        var r := Insert(s[1..], x);
        assert multiset(r) == multiset(s[1..]) + multiset{x};
        forall j | 0 <= j < |r| ensures Less(s[0], r[j]) {
          assert r[j] in multiset(r);
          if r[j] != x {
            assert r[j] in s[1..];
          }
        }
      } else {
        LessTotal(x, s[0]);
        forall j | 0 < j < |s| ensures Less(x, s[j]) {
          LessTransitive(x, s[0], s[j]);
        }
      }
    }
  }

  /** `sorted(...)` on a list of keys: insertion sort. */
  function Sort(s: seq<string>): (r: seq<string>)
    ensures multiset(r) == multiset(s)
  {
    if |s| == 0 then []
    else
      assert s == s[..|s| - 1] + [s[|s| - 1]];
      Insert(Sort(s[..|s| - 1]), s[|s| - 1])
  }

  /** Sorting distinct keys yields them in strictly increasing order. */
  lemma {:induction false} SortAscending(s: seq<string>)
    requires forall i, j :: 0 <= i < j < |s| ==> s[i] != s[j]
    ensures Ascending(Sort(s))
    decreases |s|
  {
    if |s| > 0 {
      var init, last := s[..|s| - 1], s[|s| - 1];
      SortAscending(init);
      assert last !in multiset(Sort(init));
      InsertKeepsAscending(Sort(init), last);
    }
  }

  /** Sorting neither adds nor loses a key. */
  lemma SortKeepsMembers(ks: seq<string>)
    ensures forall m :: m in Sort(ks) <==> m in ks
  {
    forall m ensures m in Sort(ks) <==> m in ks {
      assert m in Sort(ks) <==> m in multiset(Sort(ks));
      assert m in ks <==> m in multiset(ks);
    }
  }
}
