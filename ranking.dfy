/** The order of the rows in one scenario table: a stable sort by requests
    per second, highest first, modelled as an
    insertion sort that places each record after every record whose
    throughput is at least its own. */
module Ranking {
  import opened Records

  ghost predicate NonIncreasing(s: seq<Record>)
  {
    forall i, j :: 0 <= i < j < |s| ==> RpsOf(s[i]) >= RpsOf(s[j])
  }

  /** The records whose throughput is exactly `v`, in order. */
  function WithRps(s: seq<Record>, v: real): (r: seq<Record>)
  {
    if s == [] then []
    else WithRps(s[..|s| - 1], v) + (if RpsOf(s[|s| - 1]) == v then [s[|s| - 1]] else [])
  }

  /** Records of equal throughput appear in `r` in the same relative order as in `s`. */
  ghost predicate SameTieOrder(s: seq<Record>, r: seq<Record>)
  {
    forall v :: WithRps(r, v) == WithRps(s, v)
  }

  lemma WithRpsSnoc(s: seq<Record>, x: Record, v: real)
    ensures WithRps(s + [x], v) == WithRps(s, v) + (if RpsOf(x) == v then [x] else [])
  {
    assert (s + [x])[..|s|] == s;
  }

  /** Places `x` after the last record of `s` whose throughput is at least that of `x`. */
  function InsertDesc(s: seq<Record>, x: Record): (r: seq<Record>)
  {
    if s == [] || RpsOf(s[|s| - 1]) >= RpsOf(x) then s + [x]
    else InsertDesc(s[..|s| - 1], x) + [s[|s| - 1]]
  }

  lemma {:induction false} InsertDescPermutes(s: seq<Record>, x: Record)
    ensures multiset(InsertDesc(s, x)) == multiset(s) + multiset{x}
  {
    if s != [] && RpsOf(s[|s| - 1]) < RpsOf(x) {
      var init := s[..|s| - 1];
      InsertDescPermutes(init, x);
      assert s == init + [s[|s| - 1]];
    }
  }

  lemma {:induction false} InsertDescOrdered(s: seq<Record>, x: Record)
    requires NonIncreasing(s)
    ensures NonIncreasing(InsertDesc(s, x))
  {
    if s != [] && RpsOf(s[|s| - 1]) < RpsOf(x) {
      var init, last := s[..|s| - 1], s[|s| - 1];
      InsertDescOrdered(init, x);
      InsertDescPermutes(init, x);
      var t := InsertDesc(init, x);
      forall i | 0 <= i < |t|
        ensures RpsOf(t[i]) >= RpsOf(last)
      {
        assert t[i] in multiset(t);
        if t[i] != x {
          assert t[i] in multiset(init);
          var j :| 0 <= j < |init| && init[j] == t[i];
          assert s[j] == t[i];
        }
      }
    }
  }

  lemma {:induction false} InsertDescKeepsTies(s: seq<Record>, x: Record, v: real)
    ensures WithRps(InsertDesc(s, x), v) == WithRps(s, v) + (if RpsOf(x) == v then [x] else [])
  {
    if s == [] || RpsOf(s[|s| - 1]) >= RpsOf(x) {
      WithRpsSnoc(s, x, v);
    } else {
      var init, last := s[..|s| - 1], s[|s| - 1];
      assert s == init + [last];
      InsertDescKeepsTies(init, x, v);
      WithRpsSnoc(InsertDesc(init, x), last, v);
      WithRpsSnoc(init, last, v);
    }
  }

  /** The group sorted by requests per second, highest first, stably: the records
      are taken in input order and each is inserted in turn. */
  function SortByRpsDesc(rs: seq<Record>): (r: seq<Record>)
  {
    if rs == [] then [] else InsertDesc(SortByRpsDesc(rs[..|rs| - 1]), rs[|rs| - 1])
  }

  /** The rows of a scenario table are a permutation of its group, ordered by
      throughput from highest to lowest, and records of equal throughput keep their
      input order (Python's sort is stable, also with `reverse=True`). */
  lemma {:induction false} SortByRpsDescCorrect(rs: seq<Record>)
    ensures multiset(SortByRpsDesc(rs)) == multiset(rs)
    ensures |SortByRpsDesc(rs)| == |rs|
    ensures NonIncreasing(SortByRpsDesc(rs))
    ensures SameTieOrder(rs, SortByRpsDesc(rs))
  {
    if rs != [] {
      var init, x := rs[..|rs| - 1], rs[|rs| - 1];
      var sorted := SortByRpsDesc(init);
      SortByRpsDescCorrect(init);
      assert rs == init + [x];
      InsertDescPermutes(sorted, x);
      InsertDescOrdered(sorted, x);
      forall v ensures WithRps(InsertDesc(sorted, x), v) == WithRps(rs, v) {
        InsertDescKeepsTies(sorted, x, v);
        WithRpsSnoc(init, x, v);
      }
    }
  }

  /** The three properties determine the order completely: any permutation of the
      group that is ordered by descending throughput and keeps ties in input order
      is the one the report prints. */
  lemma {:induction false} SortedOrderUnique(a: seq<Record>, b: seq<Record>)
    requires multiset(a) == multiset(b)
    requires NonIncreasing(a) && NonIncreasing(b)
    requires SameTieOrder(a, b)
    ensures a == b
  {
    if a != [] {
      SameLowestRps(a, b);
      var n := |a|;
      var a', b', last := a[..n - 1], b[..n - 1], a[n - 1];
      assert a == a' + [last];
      assert b == b' + [b[n - 1]];
      WithRpsSnoc(a', last, RpsOf(last));
      WithRpsSnoc(b', b[n - 1], RpsOf(last));
      var ties := WithRps(a, RpsOf(last));
      assert ties == WithRps(b, RpsOf(last));
      assert ties[|ties| - 1] == last;
      assert ties[|ties| - 1] == b[n - 1];
      forall w ensures WithRps(a', w) == WithRps(b', w) {
        DropLastTie(a', b', last, w);
      }
      assert multiset(a') == multiset(a) - multiset{last};
      assert multiset(b') == multiset(b) - multiset{last};
      SortedOrderUnique(a', b');
    }
  }

  /** Removing the same last record from two orderings with the same ties leaves the same ties. */
  lemma DropLastTie(a: seq<Record>, b: seq<Record>, last: Record, w: real)
    requires WithRps(a + [last], w) == WithRps(b + [last], w)
    ensures WithRps(a, w) == WithRps(b, w)
  {
    WithRpsSnoc(a, last, w);
    WithRpsSnoc(b, last, w);
    var whole, pa, pb := WithRps(a + [last], w), WithRps(a, w), WithRps(b, w);
    assert |pa| == |pb|;
    assert pa == whole[..|pa|] && pb == whole[..|pb|];
  }

  /** Two orderings of the same records by descending throughput end on the same throughput. */
  lemma SameLowestRps(a: seq<Record>, b: seq<Record>)
    requires multiset(a) == multiset(b) && a != []
    requires NonIncreasing(a) && NonIncreasing(b)
    ensures |b| == |a| && RpsOf(a[|a| - 1]) == RpsOf(b[|b| - 1])
  {
    assert |a| == |multiset(a)| == |multiset(b)| == |b|;
    var n := |a|;
    assert a[n - 1] in multiset(b);
    assert b[n - 1] in multiset(a);
    var i :| 0 <= i < n && b[i] == a[n - 1];
    var j :| 0 <= j < n && a[j] == b[n - 1];
    assert RpsOf(b[i]) >= RpsOf(b[n - 1]);
    assert RpsOf(a[j]) >= RpsOf(a[n - 1]);
  }
}
