/** The data behind the text report: one table per scenario (scenarios in
    ascending order, rows by descending throughput) and a summary table with
    one row per proxy (proxies in ascending order, average throughput and
    number of tests). Rows are kept as tuples of values; their rendering into
    fixed-width text is not modelled. */
module TextReport {
  import opened Records
  import opened StringOrder
  import opened Ranking

  /** One row of a scenario table: the proxy and its requests per second. */
  datatype Row = Row(proxy: string, rps: real)

  /** The table printed under `Scenario: <name>`. */
  datatype Section = Section(scenario: string, rows: seq<Row>)

  /** The running throughput total and test count kept per proxy. */
  datatype Totals = Totals(totalRps: real, count: nat)

  /** One row of the summary table. */
  datatype SummaryRow = SummaryRow(proxy: string, avgRps: real, count: nat)

  datatype Report = Report(sections: seq<Section>, summary: seq<SummaryRow>)

  function RowOf(r: Record): Row { Row(ProxyOf(r), RpsOf(r)) }

  function RowsOf(rs: seq<Record>): (rows: seq<Row>)
  {
    seq(|rs|, i requires 0 <= i < |rs| => RowOf(rs[i]))
  }

  /** `groups` holds, for every label that occurs in `rs`, the records with that label in order. */
  ghost predicate GroupsOf(groups: map<string, seq<Record>>, rs: seq<Record>, g: Grouping)
  {
    && groups.Keys == KeySet(rs, g)
    && forall k :: k in groups ==> groups[k] == Matching(rs, g, k)
  }

  lemma KeySetSnoc(rs: seq<Record>, x: Record, g: Grouping)
    ensures KeySet(rs + [x], g) == KeySet(rs, g) + {KeyOf(x, g)}
  {
    assert forall r :: r in rs + [x] <==> r in rs || r == x;
  }

  lemma AppendToGroup(groups: map<string, seq<Record>>, rs: seq<Record>, x: Record, g: Grouping)
    requires GroupsOf(groups, rs, g)
    ensures var k := KeyOf(x, g);
      GroupsOf(groups[k := (if k in groups then groups[k] else []) + [x]], rs + [x], g)
  {
    var k := KeyOf(x, g);
    KeySetSnoc(rs, x, g);
    MatchingNonEmpty(rs, g, k);
    var groups' := groups[k := (if k in groups then groups[k] else []) + [x]];
    forall j | j in groups'
      ensures groups'[j] == Matching(rs + [x], g, j)
    {
      MatchingSnoc(rs, x, g, j);
    }
  }

  /** The loop that splits the records into one list per scenario: every
      scenario that occurs gets a key, and its list holds exactly the records of
      that scenario in input order. */
  method GroupByScenario(results: seq<Record>) returns (groups: map<string, seq<Record>>)
    ensures groups.Keys == KeySet(results, ByScenario)
    ensures forall k :: k in groups ==> groups[k] == Matching(results, ByScenario, k)
    ensures forall k :: k in groups ==> |groups[k]| > 0
  {
    groups := map[];
    for i := 0 to |results|
      invariant GroupsOf(groups, results[..i], ByScenario)
    {
      var r := results[i];
      var scenario := ScenarioOf(r);
      AppendToGroup(groups, results[..i], r, ByScenario);
      assert results[..i + 1] == results[..i] + [r];
      if scenario !in groups {
        groups := groups[scenario := []];
      }
      groups := groups[scenario := groups[scenario] + [r]];
    }
    assert results[..|results|] == results;
    forall k | k in groups
      ensures |groups[k]| > 0
    {
      MatchingNonEmpty(results, ByScenario, k);
    }
  }

  /** Sum of the throughput of the records of proxy `p`. */
  function ProxyRps(rs: seq<Record>, p: string): (total: real)
  {
    if rs == [] then 0.0
    else ProxyRps(rs[..|rs| - 1], p) + (if ProxyOf(rs[|rs| - 1]) == p then RpsOf(rs[|rs| - 1]) else 0.0)
  }

  /** Number of records of proxy `p`. */
  function ProxyCount(rs: seq<Record>, p: string): (count: nat)
  {
    if rs == [] then 0
    else ProxyCount(rs[..|rs| - 1], p) + (if ProxyOf(rs[|rs| - 1]) == p then 1 else 0)
  }

  /** The running sums are the throughput sum and the size of the proxy's group. */
  lemma {:induction false} ProxySumsAreGroupSums(rs: seq<Record>, p: string)
    ensures ProxyRps(rs, p) == SumRps(Matching(rs, ByProxy, p))
    ensures ProxyCount(rs, p) == |Matching(rs, ByProxy, p)|
  {
    if rs != [] {
      var init, x := rs[..|rs| - 1], rs[|rs| - 1];
      ProxySumsAreGroupSums(init, p);
      assert rs == init + [x];
      MatchingSnoc(init, x, ByProxy, p);
      if ProxyOf(x) == p {
        MatchingSnoc(Matching(init, ByProxy, p), x, ByProxy, p);
      } else {
        assert Matching(rs, ByProxy, p) == Matching(init, ByProxy, p);
      }
    }
  }

  /** `totals` holds, for every proxy that occurs in `rs`, the sum and the number of its records. */
  ghost predicate TotalsOf(totals: map<string, Totals>, rs: seq<Record>)
  {
    && totals.Keys == KeySet(rs, ByProxy)
    && forall p :: p in totals ==> totals[p] == Totals(ProxyRps(rs, p), ProxyCount(rs, p))
  }

  lemma ProxyStep(rs: seq<Record>, i: nat, q: string)
    requires i < |rs|
    ensures ProxyRps(rs[..i + 1], q) == ProxyRps(rs[..i], q) + (if ProxyOf(rs[i]) == q then RpsOf(rs[i]) else 0.0)
    ensures ProxyCount(rs[..i + 1], q) == ProxyCount(rs[..i], q) + (if ProxyOf(rs[i]) == q then 1 else 0)
  {
    assert rs[..i + 1][..i] == rs[..i];
  }

  lemma KeySetStep(rs: seq<Record>, i: nat, g: Grouping)
    requires i < |rs|
    ensures KeySet(rs[..i + 1], g) == KeySet(rs[..i], g) + {KeyOf(rs[i], g)}
  {
    assert rs[..i + 1] == rs[..i] + [rs[i]];
    KeySetSnoc(rs[..i], rs[i], g);
  }

  lemma AddToTotals(totals: map<string, Totals>, rs: seq<Record>, i: nat, totals': map<string, Totals>)
    requires i < |rs|
    requires TotalsOf(totals, rs[..i])
    requires var t := if ProxyOf(rs[i]) in totals then totals[ProxyOf(rs[i])] else Totals(0.0, 0);
      totals' == totals[ProxyOf(rs[i]) := Totals(t.totalRps + RpsOf(rs[i]), t.count + 1)]
    ensures TotalsOf(totals', rs[..i + 1])
  {
    var p := ProxyOf(rs[i]);
    KeySetStep(rs, i, ByProxy);
    if p !in totals {
      MatchingNonEmpty(rs[..i], ByProxy, p);
      ProxySumsAreGroupSums(rs[..i], p);
    }
    forall q | q in totals'
      ensures totals'[q] == Totals(ProxyRps(rs[..i + 1], q), ProxyCount(rs[..i + 1], q))
    {
      ProxyStep(rs, i, q);
    }
  }

  /** The loop that fills the per-proxy totals: one entry per proxy that occurs,
      holding the sum of that proxy's throughput and the number of its records. */
  method AccumulateProxyTotals(results: seq<Record>) returns (totals: map<string, Totals>)
    ensures totals.Keys == KeySet(results, ByProxy)
    ensures forall p :: p in totals ==>
      totals[p].totalRps == SumRps(Matching(results, ByProxy, p)) &&
      totals[p].count == |Matching(results, ByProxy, p)|
    ensures forall p :: p in totals ==> totals[p].count >= 1
  {
    totals := map[];
    for i := 0 to |results|
      invariant TotalsOf(totals, results[..i])
    {
      var r := results[i];
      var proxy := ProxyOf(r);
      var reqSec := RpsOf(r);
      ghost var before := totals;
      if proxy !in totals {
        totals := totals[proxy := Totals(0.0, 0)];
      }
      totals := totals[proxy := totals[proxy].(totalRps := totals[proxy].totalRps + reqSec)];
      totals := totals[proxy := totals[proxy].(count := totals[proxy].count + 1)];
      AddToTotals(before, results, i, totals);
    }
    assert results[..|results|] == results;
    forall p | p in totals
      ensures totals[p].totalRps == SumRps(Matching(results, ByProxy, p))
      ensures totals[p].count == |Matching(results, ByProxy, p)| >= 1
    {
      ProxySumsAreGroupSums(results, p);
      MatchingNonEmpty(results, ByProxy, p);
    }
  }

  /** The mean throughput of a proxy: its total over its count, 0 for no tests. */
  function Average(total: real, count: nat): (avg: real)
    ensures count > 0 ==> avg * count as real == total
    ensures count == 0 ==> avg == 0.0
  {
    if count > 0 then total / count as real else 0.0
  }

  function ScenarioNames(sections: seq<Section>): (names: seq<string>)
  {
    seq(|sections|, i requires 0 <= i < |sections| => sections[i].scenario)
  }

  function ProxyNames(summary: seq<SummaryRow>): (names: seq<string>)
  {
    seq(|summary|, i requires 0 <= i < |summary| => summary[i].proxy)
  }

  /** Number of rows over all scenario tables. */
  function RowCount(sections: seq<Section>): (n: nat)
  {
    if sections == [] then 0 else RowCount(sections[..|sections| - 1]) + |sections[|sections| - 1].rows|
  }

  /** Number of tests over all summary rows. */
  function TestCount(summary: seq<SummaryRow>): (n: nat)
  {
    if summary == [] then 0 else TestCount(summary[..|summary| - 1]) + summary[|summary| - 1].count
  }

  /** The table of a scenario lists the records of that scenario, ordered by descending throughput. */
  ghost predicate SectionOf(results: seq<Record>, section: Section)
  {
    section.rows == RowsOf(SortByRpsDesc(Matching(results, ByScenario, section.scenario)))
  }

  /** The scenario tables of the report: one per distinct scenario, in ascending
      order, each listing its group ordered by descending throughput. */
  ghost predicate SectionsFor(results: seq<Record>, sections: seq<Section>)
  {
    && StrictlyAscending(ScenarioNames(sections))
    && Elems(ScenarioNames(sections)) == KeySet(results, ByScenario)
    && forall i :: 0 <= i < |sections| ==> SectionOf(results, sections[i])
  }

  /** The summary table of the report: one row per distinct proxy, in ascending
      order, with the number of its records and their mean throughput. */
  ghost predicate SummaryFor(results: seq<Record>, summary: seq<SummaryRow>)
  {
    && StrictlyAscending(ProxyNames(summary))
    && Elems(ProxyNames(summary)) == KeySet(results, ByProxy)
    && forall i :: 0 <= i < |summary| ==> SummaryRowOf(results, summary[i])
  }

  /** A summary row counts the records of its proxy and gives their mean throughput. */
  ghost predicate SummaryRowOf(results: seq<Record>, row: SummaryRow)
  {
    && row.count == |Matching(results, ByProxy, row.proxy)|
    && row.count >= 1
    && row.avgRps == SumRps(Matching(results, ByProxy, row.proxy)) / row.count as real
  }

  lemma RowCountSnoc(sections: seq<Section>, section: Section)
    ensures RowCount(sections + [section]) == RowCount(sections) + |section.rows|
  {
    assert (sections + [section])[..|sections|] == sections;
  }

  lemma TestCountSnoc(summary: seq<SummaryRow>, row: SummaryRow)
    ensures TestCount(summary + [row]) == TestCount(summary) + row.count
  {
    assert (summary + [row])[..|summary|] == summary;
  }

  lemma GroupSizesStep(ks: seq<string>, i: nat, rs: seq<Record>, g: Grouping)
    requires i < |ks|
    ensures GroupSizes(ks[..i + 1], rs, g) == GroupSizes(ks[..i], rs, g) + |Matching(rs, g, ks[i])|
  {
    assert ks[..i + 1][..i] == ks[..i];
  }

  lemma SectionsComplete(results: seq<Record>, keys: seq<string>, sections: seq<Section>)
    requires StrictlyAscending(keys) && Elems(keys) == KeySet(results, ByScenario)
    requires |sections| == |keys|
    requires forall j :: 0 <= j < |keys| ==> sections[j].scenario == keys[j] && SectionOf(results, sections[j])
    requires RowCount(sections) == GroupSizes(keys, results, ByScenario)
    ensures SectionsFor(results, sections)
    ensures RowCount(sections) == |results|
  {
    ScenarioNamesAre(sections, keys);
    PartitionedByKeys(results, keys, ByScenario);
  }

  lemma ScenarioNamesAre(sections: seq<Section>, keys: seq<string>)
    requires |sections| == |keys|
    requires forall j :: 0 <= j < |keys| ==> sections[j].scenario == keys[j]
    ensures ScenarioNames(sections) == keys
  {
  }

  lemma ProxyNamesAre(summary: seq<SummaryRow>, keys: seq<string>)
    requires |summary| == |keys|
    requires forall j :: 0 <= j < |keys| ==> summary[j].proxy == keys[j]
    ensures ProxyNames(summary) == keys
  {
  }

  lemma PartitionedByKeys(results: seq<Record>, keys: seq<string>, g: Grouping)
    requires StrictlyAscending(keys) && Elems(keys) == KeySet(results, g)
    ensures GroupSizes(keys, results, g) == |results|
    ensures GroupRps(keys, results, g) == SumRps(results)
  {
    AscendingIsDistinct(keys);
    GroupsPartition(keys, results, g);
  }

  lemma SortedRowCount(group: seq<Record>)
    ensures |RowsOf(SortByRpsDesc(group))| == |group|
  {
    SortByRpsDescCorrect(group);
  }

  /** The loop over the sorted scenario keys that emits one table per scenario,
      each with its group sorted by descending throughput. */
  method ScenarioSections(results: seq<Record>) returns (sections: seq<Section>)
    ensures SectionsFor(results, sections)
    ensures RowCount(sections) == |results|
  {
    var groups := GroupByScenario(results);
    var scenarioKeys := SortedKeys(groups.Keys);
    forall k | k in scenarioKeys
      ensures k in groups
    {
      assert k in Elems(scenarioKeys);
    }
    sections := EmitSections(results, groups, scenarioKeys);
    SectionsComplete(results, scenarioKeys, sections);
  }

  /** The body of that loop: for each key in turn, sort its group and append its table. */
  method EmitSections(results: seq<Record>, groups: map<string, seq<Record>>, keys: seq<string>)
    returns (sections: seq<Section>)
    requires forall k :: k in keys ==> k in groups && groups[k] == Matching(results, ByScenario, k)
    ensures |sections| == |keys|
    ensures forall j :: 0 <= j < |keys| ==> sections[j].scenario == keys[j] && SectionOf(results, sections[j])
    ensures RowCount(sections) == GroupSizes(keys, results, ByScenario)
  {
    sections := [];
    for i := 0 to |keys|
      invariant |sections| == i
      invariant forall j :: 0 <= j < i ==> sections[j].scenario == keys[j] && SectionOf(results, sections[j])
      invariant RowCount(sections) == GroupSizes(keys[..i], results, ByScenario)
    {
      var scenario := keys[i];
      var ordered := SortByRpsDesc(groups[scenario]);
      SortedRowCount(groups[scenario]);
      GroupSizesStep(keys, i, results, ByScenario);
      RowCountSnoc(sections, Section(scenario, RowsOf(ordered)));
      sections := sections + [Section(scenario, RowsOf(ordered))];
    }
    assert keys[..|keys|] == keys;
  }

  lemma SummaryComplete(results: seq<Record>, proxies: seq<string>, summary: seq<SummaryRow>)
    requires StrictlyAscending(proxies) && Elems(proxies) == KeySet(results, ByProxy)
    requires |summary| == |proxies|
    requires forall j :: 0 <= j < |proxies| ==> summary[j].proxy == proxies[j] && SummaryRowOf(results, summary[j])
    requires TestCount(summary) == GroupSizes(proxies, results, ByProxy)
    ensures SummaryFor(results, summary)
    ensures TestCount(summary) == |results|
  {
    ProxyNamesAre(summary, proxies);
    PartitionedByKeys(results, proxies, ByProxy);
  }

  /** The loop over the sorted proxy keys that emits one summary row per
      proxy with its average throughput and its number of tests. */
  method SummaryTable(results: seq<Record>) returns (summary: seq<SummaryRow>)
    ensures SummaryFor(results, summary)
    ensures TestCount(summary) == |results|
  {
    var totals := AccumulateProxyTotals(results);
    var proxies := SortedKeys(totals.Keys);
    forall p | p in proxies
      ensures p in totals
    {
      assert p in Elems(proxies);
    }
    summary := EmitSummaryRows(results, totals, proxies);
    SummaryComplete(results, proxies, summary);
  }

  /** The body of that loop: for each proxy in turn, append its average and count. */
  method EmitSummaryRows(results: seq<Record>, totals: map<string, Totals>, proxies: seq<string>)
    returns (summary: seq<SummaryRow>)
    requires forall p :: p in proxies ==>
      && p in totals
      && totals[p].count >= 1
      && totals[p].totalRps == SumRps(Matching(results, ByProxy, p))
      && totals[p].count == |Matching(results, ByProxy, p)|
    ensures |summary| == |proxies|
    ensures forall j :: 0 <= j < |proxies| ==> summary[j].proxy == proxies[j] && SummaryRowOf(results, summary[j])
    ensures TestCount(summary) == GroupSizes(proxies, results, ByProxy)
  {
    summary := [];
    for i := 0 to |proxies|
      invariant |summary| == i
      invariant forall j :: 0 <= j < i ==> summary[j].proxy == proxies[j] && SummaryRowOf(results, summary[j])
      invariant TestCount(summary) == GroupSizes(proxies[..i], results, ByProxy)
    {
      var proxy := proxies[i];
      var data := totals[proxy];
      var avgRps := Average(data.totalRps, data.count);
      GroupSizesStep(proxies, i, results, ByProxy);
      TestCountSnoc(summary, SummaryRow(proxy, avgRps, data.count));
      summary := summary + [SummaryRow(proxy, avgRps, data.count)];
    }
    assert proxies[..|proxies|] == proxies;
  }

  /** The text report without the rendering: the scenario tables and the
      summary table. Every record appears in exactly one scenario table and is
      counted in exactly one summary row. */
  method GenerateTextReport(results: seq<Record>) returns (report: Report)
    ensures SectionsFor(results, report.sections)
    ensures SummaryFor(results, report.summary)
    ensures RowCount(report.sections) == |results|
    ensures TestCount(report.summary) == |results|
  {
    var sections := ScenarioSections(results);
    var summary := SummaryTable(results);
    report := Report(sections, summary);
  }
}
