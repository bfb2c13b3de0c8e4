/** Benchmark result records as the report generator sees them, with the
    defaults it applies to missing fields, and the order-preserving filters
    over which grouping and per-proxy totals are specified. */
module Records {

  datatype Option<T> = None | Some(value: T)

  /** One parsed result document: the proxy under test, the scenario, and
      the measured requests per second. Each field may be absent. */
  datatype Record = Record(proxy: Option<string>, scenario: Option<string>, rps: Option<real>)

  /** Which label a record is grouped by. */
  datatype Grouping = ByProxy | ByScenario

  const Unknown: string := "unknown"

  function GetOr<T>(o: Option<T>, default: T): T
  {
    match o
    case Some(v) => v
    case None => default
  }

  /** The proxy label, `"unknown"` when the document has none. */
  function ProxyOf(r: Record): string { GetOr(r.proxy, Unknown) }

  /** The scenario label, `"unknown"` when the document has none. */
  function ScenarioOf(r: Record): string { GetOr(r.scenario, Unknown) }

  /** The measured requests per second, 0 when the document has none. */
  function RpsOf(r: Record): real { GetOr(r.rps, 0.0) }

  function KeyOf(r: Record, g: Grouping): (k: string)
  {
    match g
    case ByProxy => ProxyOf(r)
    case ByScenario => ScenarioOf(r)
  }

  function Elems(s: seq<string>): set<string> { set x | x in s }

  /** The distinct labels of the records. */
  function KeySet(rs: seq<Record>, g: Grouping): (r: set<string>)
  {
    set r | r in rs :: KeyOf(r, g)
  }

  /** The records whose label is `k`, in input order. */
  function Matching(rs: seq<Record>, g: Grouping, k: string): (r: seq<Record>)
  {
    if rs == [] then []
    else Matching(rs[..|rs| - 1], g, k) + (if KeyOf(rs[|rs| - 1], g) == k then [rs[|rs| - 1]] else [])
  }

  /** Sum of the throughput of the records. */
  function SumRps(rs: seq<Record>): (r: real)
  {
    if rs == [] then 0.0 else SumRps(rs[..|rs| - 1]) + RpsOf(rs[|rs| - 1])
  }

  /** A record is in the group of `k` exactly when it is an input record labelled `k`,
      and the group holds it as many times as the input does. */
  lemma {:induction false} MatchingMembers(rs: seq<Record>, g: Grouping, k: string)
    ensures forall x :: x in Matching(rs, g, k) <==> x in rs && KeyOf(x, g) == k
    ensures forall x :: KeyOf(x, g) == k ==> multiset(Matching(rs, g, k))[x] == multiset(rs)[x]
    ensures |Matching(rs, g, k)| <= |rs|
  {
    if rs != [] {
      var init, last := rs[..|rs| - 1], rs[|rs| - 1];
      MatchingMembers(init, g, k);
      assert rs == init + [last];
    }
  }

  /** A group is non-empty exactly when some record carries its label. */
  lemma {:induction false} MatchingNonEmpty(rs: seq<Record>, g: Grouping, k: string)
    ensures |Matching(rs, g, k)| > 0 <==> k in KeySet(rs, g)
  {
    MatchingMembers(rs, g, k);
    if k in KeySet(rs, g) {
      var r :| r in rs && KeyOf(r, g) == k;
      assert r in Matching(rs, g, k);
    }
    if |Matching(rs, g, k)| > 0 {
      var r := Matching(rs, g, k)[0];
      assert r in rs && KeyOf(r, g) == k;
    }
  }

  lemma MatchingSnoc(rs: seq<Record>, x: Record, g: Grouping, k: string)
    ensures Matching(rs + [x], g, k) == Matching(rs, g, k) + (if KeyOf(x, g) == k then [x] else [])
    ensures SumRps(rs + [x]) == SumRps(rs) + RpsOf(x)
  {
    assert (rs + [x])[..|rs|] == rs;
  }

  /** A document without a scenario is grouped, and tabled, under `"unknown"`. */
  lemma MissingScenarioIsUnknown(rs: seq<Record>, r: Record)
    requires r in rs && r.scenario.None?
    ensures r in Matching(rs, ByScenario, Unknown)
  {
    MatchingMembers(rs, ByScenario, Unknown);
  }

  /** A document without a proxy is totalled, and charted, under `"unknown"`. */
  lemma MissingProxyIsUnknown(rs: seq<Record>, r: Record)
    requires r in rs && r.proxy.None?
    ensures r in Matching(rs, ByProxy, Unknown)
  {
    MatchingMembers(rs, ByProxy, Unknown);
  }

  /** A document without a throughput counts as one test with throughput 0: it
      adds nothing to the throughput sum of any group it joins. */
  lemma MissingRpsIsZero(rs: seq<Record>, r: Record, g: Grouping, k: string)
    requires r.rps.None?
    ensures RpsOf(r) == 0.0
    ensures SumRps(Matching(rs + [r], g, k)) == SumRps(Matching(rs, g, k))
    ensures |Matching(rs + [r], g, k)| == |Matching(rs, g, k)| + (if KeyOf(r, g) == k then 1 else 0)
  {
    MatchingSnoc(rs, r, g, k);
    if KeyOf(r, g) == k {
      MatchingSnoc(Matching(rs, g, k), r, g, k);
      assert RpsOf(r) == 0.0;
    } else {
      assert Matching(rs + [r], g, k) == Matching(rs, g, k);
    }
  }

  /** Sum of group sizes and sum of group throughputs over a list of labels. */
  function GroupSizes(ks: seq<string>, rs: seq<Record>, g: Grouping): (n: nat)
  {
    if ks == [] then 0 else GroupSizes(ks[..|ks| - 1], rs, g) + |Matching(rs, g, ks[|ks| - 1])|
  }

  function GroupRps(ks: seq<string>, rs: seq<Record>, g: Grouping): (r: real)
  {
    if ks == [] then 0.0 else GroupRps(ks[..|ks| - 1], rs, g) + SumRps(Matching(rs, g, ks[|ks| - 1]))
  }

  ghost predicate Distinct(ks: seq<string>)
  {
    forall i, j :: 0 <= i < j < |ks| ==> ks[i] != ks[j]
  }

  lemma {:induction false} GroupsGrow(ks: seq<string>, rs: seq<Record>, x: Record, g: Grouping)
    requires Distinct(ks)
    ensures GroupSizes(ks, rs + [x], g) == GroupSizes(ks, rs, g) + (if KeyOf(x, g) in ks then 1 else 0)
    ensures GroupRps(ks, rs + [x], g) == GroupRps(ks, rs, g) + (if KeyOf(x, g) in ks then RpsOf(x) else 0.0)
  {
    if ks != [] {
      var init, k := ks[..|ks| - 1], ks[|ks| - 1];
      assert ks == init + [k];
      GroupsGrow(init, rs, x, g);
      MatchingSnoc(rs, x, g, k);
      MatchingSnoc(Matching(rs, g, k), x, g, k);
      if KeyOf(x, g) == k {
        assert KeyOf(x, g) !in init;
        assert SumRps(Matching(rs + [x], g, k)) == SumRps(Matching(rs, g, k)) + RpsOf(x);
      } else {
        assert Matching(rs + [x], g, k) == Matching(rs, g, k);
        assert KeyOf(x, g) in ks <==> KeyOf(x, g) in init;
      }
    }
  }

  /** Grouping by a list of distinct labels that covers every record puts each
      record in exactly one group: the group sizes add up to the number of
      records and the group throughputs add up to the total throughput. */
  lemma {:induction false} GroupsPartition(ks: seq<string>, rs: seq<Record>, g: Grouping)
    requires Distinct(ks)
    requires KeySet(rs, g) <= Elems(ks)
    ensures GroupSizes(ks, rs, g) == |rs|
    ensures GroupRps(ks, rs, g) == SumRps(rs)
  {
    if rs == [] {
      GroupsEmpty(ks, g);
    } else {
      var init, x := rs[..|rs| - 1], rs[|rs| - 1];
      assert rs == init + [x];
      assert KeySet(init, g) <= KeySet(rs, g);
      GroupsPartition(ks, init, g);
      GroupsGrow(ks, init, x, g);
      assert KeyOf(x, g) in Elems(ks);
    }
  }

  lemma {:induction false} GroupsEmpty(ks: seq<string>, g: Grouping)
    ensures GroupSizes(ks, [], g) == 0 && GroupRps(ks, [], g) == 0.0
  {
    if ks != [] {
      GroupsEmpty(ks[..|ks| - 1], g);
    }
  }
}
