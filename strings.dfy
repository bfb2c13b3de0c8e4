/** Python's ordering of strings (lexicographic by code point), the sorting
    of a set of labels that the report uses for every key list, and Python's
    substring test. */
module StringOrder {
  import opened Records

  /** Python's `<` on strings. */
  function Less(a: string, b: string): (r: bool)
  {
    if |a| == 0 then |b| > 0
    else if |b| == 0 then false
    else if a[0] != b[0] then a[0] < b[0]
    else Less(a[1..], b[1..])
  }

  lemma {:induction false} LessIrreflexive(a: string)
    ensures !Less(a, a)
  {
    if |a| > 0 {
      LessIrreflexive(a[1..]);
    }
  }

  lemma {:induction false} LessAsymmetric(a: string, b: string)
    ensures Less(a, b) ==> !Less(b, a)
  {
    if |a| > 0 && |b| > 0 && a[0] == b[0] {
      LessAsymmetric(a[1..], b[1..]);
    }
  }

  lemma {:induction false} LessTransitive(a: string, b: string, c: string)
    requires Less(a, b) && Less(b, c)
    ensures Less(a, c)
  {
    if |a| > 0 && a[0] == b[0] && b[0] == c[0] {
      LessTransitive(a[1..], b[1..], c[1..]);
    }
  }

  /** Any two distinct strings are ordered one way or the other. */
  lemma {:induction false} LessTotal(a: string, b: string)
    ensures a == b || Less(a, b) || Less(b, a)
  {
    if |a| > 0 && |b| > 0 && a[0] == b[0] {
      LessTotal(a[1..], b[1..]);
      if a[1..] == b[1..] {
        assert a == [a[0]] + a[1..] && b == [b[0]] + b[1..];
      }
    }
  }

  ghost predicate StrictlyAscending(s: seq<string>)
  {
    forall i, j :: 0 <= i < j < |s| ==> Less(s[i], s[j])
  }

  lemma AscendingIsDistinct(s: seq<string>)
    requires StrictlyAscending(s)
    ensures Distinct(s)
  {
    forall i, j | 0 <= i < j < |s|
      ensures s[i] != s[j]
    {
      LessIrreflexive(s[i]);
    }
  }

  /** Inserts a new label into a strictly ascending list of labels. */
  function Insert(x: string, s: seq<string>): (r: seq<string>)
    requires StrictlyAscending(s) && x !in s
    ensures StrictlyAscending(r)
    ensures Elems(r) == Elems(s) + {x}
    ensures |r| == |s| + 1
  {
    if s == [] then [x]
    else if Less(x, s[0]) then
      LessAfterHead(x, s);
      [x] + s
    else
      LessTotal(x, s[0]);
      assert s == [s[0]] + s[1..];
      var tail := Insert(x, s[1..]);
      assert Elems(s) == {s[0]} + Elems(s[1..]);
      HeadBelowTail(s);
      HeadBeforeAll(s[0], tail);
      [s[0]] + tail
  }

  lemma LessAfterHead(x: string, s: seq<string>)
    requires StrictlyAscending(s) && s != [] && Less(x, s[0])
    ensures StrictlyAscending([x] + s)
  {
    forall j | 0 < j < |s|
      ensures Less(x, s[j])
    {
      LessTransitive(x, s[0], s[j]);
    }
  }

  lemma HeadBeforeAll(h: string, t: seq<string>)
    requires StrictlyAscending(t)
    requires forall y :: y in Elems(t) ==> Less(h, y)
    ensures StrictlyAscending([h] + t)
  {
    forall j | 0 <= j < |t|
      ensures Less(h, t[j])
    {
      assert t[j] in Elems(t);
    }
  }

  lemma HeadBelowTail(s: seq<string>)
    requires StrictlyAscending(s) && s != []
    ensures forall y :: y in Elems(s[1..]) ==> Less(s[0], y)
  {
    forall y | y in Elems(s[1..])
      ensures Less(s[0], y)
    {
      var k :| 0 <= k < |s[1..]| && s[1..][k] == y;
      assert s[k + 1] == y;
    }
  }

  /** Sorting a set of distinct labels: the loop takes the keys one
      at a time and inserts each into an ascending list. */
  method SortedKeys(keys: set<string>) returns (r: seq<string>)
    ensures StrictlyAscending(r)
    ensures Elems(r) == keys
    ensures |r| == |keys|
  {
    r := [];
    var rest := keys;
    while rest != {}
      invariant StrictlyAscending(r)
      invariant Elems(r) + rest == keys
      invariant Elems(r) !! rest
      invariant |r| + |rest| == |keys|
      decreases rest
    {
      var x :| x in rest;
      r := Insert(x, r);
      rest := rest - {x};
    }
  }

  /** A strictly ascending list is determined by its elements, so the result
      of `sorted` over a set does not depend on how the set was built. */
  lemma {:induction false} AscendingUnique(a: seq<string>, b: seq<string>)
    requires StrictlyAscending(a) && StrictlyAscending(b)
    requires Elems(a) == Elems(b)
    ensures a == b
  {
    assert a != [] ==> a[0] in Elems(a);
    assert b != [] ==> b[0] in Elems(b);
    if a != [] {
      assert a[0] in Elems(b);
      assert b != [];
      assert b[0] in Elems(a);
      var i :| 0 <= i < |a| && a[i] == b[0];
      var j :| 0 <= j < |b| && b[j] == a[0];
      if i > 0 && j > 0 {
        LessAsymmetric(a[0], a[i]);
      } else if i > 0 {
        LessIrreflexive(a[0]);
      } else if j > 0 {
        LessIrreflexive(b[0]);
      }
      assert a[0] == b[0];
      TailElems(a);
      TailElems(b);
      AscendingUnique(a[1..], b[1..]);
      assert a == [a[0]] + a[1..] && b == [b[0]] + b[1..];
    }
  }

  lemma TailElems(a: seq<string>)
    requires StrictlyAscending(a) && a != []
    ensures StrictlyAscending(a[1..])
    ensures Elems(a[1..]) == Elems(a) - {a[0]}
  {
    assert a == [a[0]] + a[1..];
    forall y | y in a[1..]
      ensures y != a[0]
    {
      var k :| 0 <= k < |a[1..]| && a[1..][k] == y;
      assert Less(a[0], a[k + 1]);
      LessIrreflexive(a[0]);
    }
  }

  /** Python's substring test: `sub` occurs somewhere in `s`. */
  predicate Contains(s: string, sub: string)
  {
    sub <= s || (|s| > 0 && Contains(s[1..], sub))
  }

  lemma {:induction false} ContainsInLonger(a: string, b: string, c: string)
    requires b <= a && Contains(b, c)
    ensures Contains(a, c)
  {
    if !(c <= b) {
      ContainsInLonger(a[1..], b[1..], c);
    }
  }

  /** A substring of a substring is a substring. */
  lemma {:induction false} ContainsTransitive(a: string, b: string, c: string)
    requires Contains(a, b) && Contains(b, c)
    ensures Contains(a, c)
  {
    if b <= a {
      ContainsInLonger(a, b, c);
    } else {
      ContainsTransitive(a[1..], b, c);
    }
  }
}
