/** The data the three charts are drawn from: the sorted proxy and scenario
    axes, the `rps_data[proxy][scenario]` lookup, the per-proxy averages of
    the second chart and the scenario lists of the cached/uncached panels.
    The drawing itself is not modelled. */
module Charts {
  import opened Records
  import opened StringOrder

  /** `rps_data`: proxy -> scenario -> requests per second. */
  type RpsTable = map<string, map<string, real>>

  function Lookup(row: map<string, real>, s: string): (r: Option<real>)
  {
    if s in row then Some(row[s]) else None
  }

  predicate IsPair(r: Record, p: string, s: string)
  {
    ProxyOf(r) == p && ScenarioOf(r) == s
  }

  /** The throughput of the last record, in input order, with proxy `p` and scenario `s`. */
  function LastRps(rs: seq<Record>, p: string, s: string): (r: Option<real>)
  {
    if rs == [] then None
    else if IsPair(rs[|rs| - 1], p, s) then Some(RpsOf(rs[|rs| - 1]))
    else LastRps(rs[..|rs| - 1], p, s)
  }

  /** Record `i` is the last one with proxy `p` and scenario `s`. */
  ghost predicate LastWriteAt(rs: seq<Record>, p: string, s: string, i: int)
  {
    && 0 <= i < |rs|
    && IsPair(rs[i], p, s)
    && forall j :: i < j < |rs| ==> !IsPair(rs[j], p, s)
  }

  /** Last write wins: the lookup holds the throughput of the last matching record,
      and holds nothing exactly when no record matches. */
  lemma {:induction false} LastRpsIsLastWrite(rs: seq<Record>, p: string, s: string, i: int)
    requires LastWriteAt(rs, p, s, i)
    ensures LastRps(rs, p, s) == Some(RpsOf(rs[i]))
  {
    if i < |rs| - 1 {
      LastRpsIsLastWrite(rs[..|rs| - 1], p, s, i);
    }
  }

  lemma {:induction false} LastRpsNone(rs: seq<Record>, p: string, s: string)
    ensures LastRps(rs, p, s).None? <==> forall i :: 0 <= i < |rs| ==> !IsPair(rs[i], p, s)
  {
    if rs != [] {
      var init := rs[..|rs| - 1];
      LastRpsNone(init, p, s);
      assert forall i :: 0 <= i < |init| ==> init[i] == rs[i];
    }
  }

  lemma LastRpsStep(rs: seq<Record>, i: nat, p: string, s: string)
    requires i < |rs|
    ensures LastRps(rs[..i + 1], p, s) == if IsPair(rs[i], p, s) then Some(RpsOf(rs[i])) else LastRps(rs[..i], p, s)
  {
    assert rs[..i + 1][..i] == rs[..i];
  }

  /** The lookup holds, for every proxy, the last-written throughput of each scenario. */
  ghost predicate TableOf(table: RpsTable, rs: seq<Record>)
  {
    forall p, s :: p in table ==> Lookup(table[p], s) == LastRps(rs, p, s)
  }

  lemma WriteToTable(table: RpsTable, rs: seq<Record>, i: nat, table': RpsTable)
    requires i < |rs|
    requires TableOf(table, rs[..i]) && ProxyOf(rs[i]) in table
    requires table' == table[ProxyOf(rs[i]) := table[ProxyOf(rs[i])][ScenarioOf(rs[i]) := RpsOf(rs[i])]]
    ensures TableOf(table', rs[..i + 1])
  {
    forall p, s | p in table'
      ensures Lookup(table'[p], s) == LastRps(rs[..i + 1], p, s)
    {
      LastRpsStep(rs, i, p, s);
    }
  }

  /** Starts the lookup with an empty row for every proxy of the axis, then writes
      each record's throughput under its proxy and scenario, in input order. */
  method BuildRpsTable(results: seq<Record>, proxies: seq<string>) returns (table: RpsTable)
    requires KeySet(results, ByProxy) <= Elems(proxies)
    ensures table.Keys == Elems(proxies)
    ensures forall p, s :: p in table ==> Lookup(table[p], s) == LastRps(results, p, s)
  {
    table := map p | p in proxies :: map[];
    for i := 0 to |results|
      invariant table.Keys == Elems(proxies)
      invariant TableOf(table, results[..i])
    {
      var r := results[i];
      var proxy := ProxyOf(r);
      var scenario := ScenarioOf(r);
      var rps := RpsOf(r);
      assert r in results;
      assert proxy in KeySet(results, ByProxy);
      ghost var before := table;
      table := table[proxy := table[proxy][scenario := rps]];
      WriteToTable(before, results, i, table);
    }
    assert results[..|results|] == results;
  }

  /** Every scenario of a proxy's row is a scenario of that proxy's records. */
  lemma TableRowsWithinScenarios(table: RpsTable, results: seq<Record>, p: string, s: string)
    requires TableOf(table, results) && p in table
    ensures s in table[p] <==> exists i :: 0 <= i < |results| && IsPair(results[i], p, s)
  {
    assert Lookup(table[p], s) == LastRps(results, p, s);
    LastRpsNone(results, p, s);
  }

  /** The values of a proxy's row, one per scenario it has, in scenario order. */
  function RowValues(row: map<string, real>, scenarios: seq<string>): (r: seq<real>)
  {
    if scenarios == [] then []
    else
      var last := scenarios[|scenarios| - 1];
      RowValues(row, scenarios[..|scenarios| - 1]) + (if last in row then [row[last]] else [])
  }

  /** The strictly positive values, in order. */
  function Positives(vs: seq<real>): (r: seq<real>)
  {
    if vs == [] then []
    else Positives(vs[..|vs| - 1]) + (if vs[|vs| - 1] > 0.0 then [vs[|vs| - 1]] else [])
  }

  function Sum(vs: seq<real>): (r: real)
  {
    if vs == [] then 0.0 else Sum(vs[..|vs| - 1]) + vs[|vs| - 1]
  }

  /** The mean of the strictly positive values, 0 when there are none. */
  function PositiveMean(vs: seq<real>): (mean: real)
  {
    var pos := Positives(vs);
    if |pos| > 0 then Sum(pos) / |pos| as real else 0.0
  }

  lemma {:induction false} PositivesMembers(vs: seq<real>)
    ensures forall x :: x in Positives(vs) <==> x in vs && x > 0.0
  {
    if vs != [] {
      var init := vs[..|vs| - 1];
      PositivesMembers(init);
      assert vs == init + [vs[|vs| - 1]];
    }
  }

  lemma {:induction false} SumBetween(vs: seq<real>, lo: real, hi: real)
    requires forall x :: x in vs ==> lo <= x <= hi
    ensures |vs| as real * lo <= Sum(vs) <= |vs| as real * hi
  {
    if vs != [] {
      var init := vs[..|vs| - 1];
      assert forall x :: x in init ==> x in vs;
      SumBetween(init, lo, hi);
      assert vs[|vs| - 1] in vs;
    }
  }

  /** The Chart 2 bar of a proxy with a positive value lies between any lower and
      upper bound of its positive values. */
  lemma PositiveMeanBetween(vs: seq<real>, lo: real, hi: real)
    requires exists i :: 0 <= i < |vs| && vs[i] > 0.0
    requires forall i :: 0 <= i < |vs| && vs[i] > 0.0 ==> lo <= vs[i] <= hi
    ensures lo <= PositiveMean(vs) <= hi
  {
    var pos := Positives(vs);
    PositivesMembers(vs);
    var i :| 0 <= i < |vs| && vs[i] > 0.0;
    assert vs[i] in pos;
    forall x | x in pos
      ensures lo <= x <= hi
    {
      var j :| 0 <= j < |vs| && vs[j] == x;
    }
    SumBetween(pos, lo, hi);
    MeanBetween(Sum(pos), |pos| as real, lo, hi);
  }

  lemma MeanBetween(total: real, n: real, lo: real, hi: real)
    requires n > 0.0 && n * lo <= total <= n * hi
    ensures lo <= total / n <= hi
  {
    var mean := total / n;
    assert total == mean * n;
  }

  lemma PositiveMeanZero(vs: seq<real>)
    ensures PositiveMean(vs) > 0.0 <==> exists i :: 0 <= i < |vs| && vs[i] > 0.0
    ensures PositiveMean(vs) == 0.0 <==> forall i :: 0 <= i < |vs| ==> vs[i] <= 0.0
  {
    var pos := Positives(vs);
    PositivesMembers(vs);
    forall i | 0 <= i < |vs|
      ensures vs[i] > 0.0 ==> vs[i] in pos
    {
      assert vs[i] in vs;
    }
    if pos != [] {
      assert pos[0] in pos;
      var j :| 0 <= j < |vs| && vs[j] == pos[0];
      SumOfPositives(pos);
    }
  }

  lemma {:induction false} SumOfPositives(vs: seq<real>)
    requires vs != [] && forall x :: x in vs ==> x > 0.0
    ensures Sum(vs) > 0.0
  {
    var init := vs[..|vs| - 1];
    assert vs[|vs| - 1] in vs;
    if init != [] {
      assert forall x :: x in init ==> x in vs;
      SumOfPositives(init);
    }
  }

  /** The values collected from a row are exactly the values the row holds for the
      listed scenarios. */
  lemma {:induction false} RowValuesMembers(row: map<string, real>, scenarios: seq<string>)
    ensures forall x :: x in RowValues(row, scenarios) <==> exists s :: s in scenarios && s in row && row[s] == x
  {
    if scenarios != [] {
      var init := scenarios[..|scenarios| - 1];
      RowValuesMembers(row, init);
      assert scenarios == init + [scenarios[|scenarios| - 1]];
    }
  }

  lemma {:induction false} RowValuesCount(row: map<string, real>, scenarios: seq<string>)
    requires Distinct(scenarios)
    ensures |RowValues(row, scenarios)| == |row.Keys * Elems(scenarios)|
  {
    if scenarios != [] {
      var init, last := scenarios[..|scenarios| - 1], scenarios[|scenarios| - 1];
      assert Distinct(init);
      RowValuesCount(row, init);
      assert Elems(scenarios) == Elems(init) + {last};
      assert last !in Elems(init);
      CommonKeysStep(row.Keys, Elems(init), last);
    }
  }

  lemma CommonKeysStep(keys: set<string>, seen: set<string>, x: string)
    requires x !in seen
    ensures |keys * (seen + {x})| == |keys * seen| + (if x in keys then 1 else 0)
  {
    if x in keys {
      assert keys * (seen + {x}) == keys * seen + {x};
    } else {
      assert keys * (seen + {x}) == keys * seen;
    }
  }

  /** One bar per listed scenario: the row's value for it, 0 when it has none. */
  function Bars(row: map<string, real>, scenarios: seq<string>): (r: seq<real>)
    ensures |r| == |scenarios|
  {
    seq(|scenarios|, i requires 0 <= i < |scenarios| => GetOr(Lookup(row, scenarios[i]), 0.0))
  }

  /** A bar shows the throughput of the last record for its proxy and scenario, and
      0 for a pair that was not benchmarked. */
  lemma BarsAreLastWrites(table: RpsTable, results: seq<Record>, p: string, scenarios: seq<string>)
    requires TableOf(table, results) && p in table
    ensures forall i :: 0 <= i < |scenarios| ==> Bars(table[p], scenarios)[i] == GetOr(LastRps(results, p, scenarios[i]), 0.0)
  {
    forall i | 0 <= i < |scenarios|
      ensures Bars(table[p], scenarios)[i] == GetOr(LastRps(results, p, scenarios[i]), 0.0)
    {
      assert Lookup(table[p], scenarios[i]) == LastRps(results, p, scenarios[i]);
    }
  }

  /** The Chart 2 loop: one average per proxy, in proxy order. */
  method AverageRps(proxies: seq<string>, scenarios: seq<string>, table: RpsTable) returns (avgRps: seq<real>)
    requires forall p :: p in proxies ==> p in table
    ensures |avgRps| == |proxies|
    ensures forall i :: 0 <= i < |proxies| ==> avgRps[i] == PositiveMean(RowValues(table[proxies[i]], scenarios))
  {
    avgRps := [];
    for i := 0 to |proxies|
      invariant |avgRps| == i
      invariant forall j :: 0 <= j < i ==> avgRps[j] == PositiveMean(RowValues(table[proxies[j]], scenarios))
    {
      var values := Positives(RowValues(table[proxies[i]], scenarios));
      avgRps := avgRps + [if |values| > 0 then Sum(values) / |values| as real else 0.0];
    }
  }

  /** The labels that pass `keep`, in order. */
  function Keep(ss: seq<string>, keep: string -> bool): (r: seq<string>)
  {
    if ss == [] then []
    else Keep(ss[..|ss| - 1], keep) + (if keep(ss[|ss| - 1]) then [ss[|ss| - 1]] else [])
  }

  lemma {:induction false} KeepMembers(ss: seq<string>, keep: string -> bool)
    ensures forall s :: s in Keep(ss, keep) <==> s in ss && keep(s)
  {
    if ss != [] {
      var init := ss[..|ss| - 1];
      KeepMembers(init, keep);
      assert ss == init + [ss[|ss| - 1]];
    }
  }

  lemma {:induction false} KeepAscending(ss: seq<string>, keep: string -> bool)
    ensures StrictlyAscending(ss) ==> StrictlyAscending(Keep(ss, keep))
  {
    if ss != [] && StrictlyAscending(ss) {
      var init, last := ss[..|ss| - 1], ss[|ss| - 1];
      KeepAscending(init, keep);
      KeepMembers(init, keep);
      var kept := Keep(init, keep);
      forall i | 0 <= i < |kept|
        ensures Less(kept[i], last)
      {
        assert kept[i] in init;
        var j :| 0 <= j < |init| && init[j] == kept[i];
        assert ss[j] == kept[i];
      }
    }
  }

  /** The scenarios whose name contains the panel's tag, in order, as the Chart 3
      panels are filled. */
  function PanelScenarios(scenarios: seq<string>, cacheType: string): (r: seq<string>)
    ensures forall s :: s in r <==> s in scenarios && Contains(s, cacheType)
    ensures StrictlyAscending(scenarios) ==> StrictlyAscending(r)
  {
    var keep := (s: string) => Contains(s, cacheType);
    KeepMembers(scenarios, keep);
    KeepAscending(scenarios, keep);
    Keep(scenarios, keep)
  }

  lemma {:induction false} ContainsAt(s: string, sub: string, i: nat)
    requires i <= |s| && sub <= s[i..]
    ensures Contains(s, sub)
  {
    if i > 0 {
      assert s[1..][i - 1..] == s[i..];
      ContainsAt(s[1..], sub, i - 1);
    }
  }

  lemma UncachedContainsCached(s: string)
    requires Contains(s, "uncached")
    ensures Contains(s, "cached")
  {
    ContainsAt("uncached", "cached", 2);
    ContainsTransitive(s, "uncached", "cached");
  }

  /** As written, the "Cached" panel also lists every uncached scenario. */
  lemma CachedPanelHoldsUncached(scenarios: seq<string>)
    ensures forall s :: s in PanelScenarios(scenarios, "uncached") ==> s in PanelScenarios(scenarios, "cached")
  {
    forall s | s in PanelScenarios(scenarios, "uncached")
      ensures s in PanelScenarios(scenarios, "cached")
    {
      UncachedContainsCached(s);
    }
  }

  /** With the scenarios `api-cached` and `api-uncached`, the "Cached" panel shows
      `api-uncached` as well, which the "Uncached" panel also shows. */
  lemma CachedPanelCounterexample()
    ensures "api-uncached" in PanelScenarios(["api-cached", "api-uncached"], "cached")
    ensures "api-uncached" in PanelScenarios(["api-cached", "api-uncached"], "uncached")
    ensures "api-cached" !in PanelScenarios(["api-cached", "api-uncached"], "uncached")
  {
    UncachedNameMatchesBoth();
    CachedNameMatchesOne();
  }

  lemma UncachedNameMatchesBoth()
    ensures Contains("api-uncached", "cached") && Contains("api-uncached", "uncached")
  {
    ContainsAt("api-uncached", "cached", 6);
    ContainsAt("api-uncached", "uncached", 4);
  }

  lemma CachedNameMatchesOne()
    ensures !Contains("api-cached", "uncached")
  {
    NoStart("api-cached", "uncached");
  }

  /** No position where `sub` would fit starts with its first character. */
  lemma {:induction false} NoStart(s: string, sub: string)
    requires |sub| > 0
    requires forall i :: 0 <= i < |s| && i + |sub| <= |s| ==> s[i] != sub[0]
    ensures !Contains(s, sub)
  {
    if |s| > 0 {
      forall i | 0 <= i < |s[1..]| && i + |sub| <= |s[1..]|
        ensures s[1..][i] != sub[0]
      {
        assert s[1..][i] == s[i + 1];
      }
      NoStart(s[1..], sub);
    }
  }

  /** The two Chart 3 panels. */
  datatype Panels = Panels(cached: seq<string>, uncached: seq<string>)

  /** The intended split: a scenario is uncached when its name contains "uncached",
      and cached when its name contains "cached" but not "uncached". */
  function CachePanels(scenarios: seq<string>): (r: Panels)
    ensures forall s :: s in r.cached <==> s in scenarios && Contains(s, "cached") && !Contains(s, "uncached")
    ensures r.uncached == PanelScenarios(scenarios, "uncached")
    ensures StrictlyAscending(scenarios) ==> StrictlyAscending(r.cached)
  {
    var keep := (s: string) => Contains(s, "cached") && !Contains(s, "uncached");
    KeepMembers(scenarios, keep);
    KeepAscending(scenarios, keep);
    Panels(Keep(scenarios, keep), PanelScenarios(scenarios, "uncached"))
  }

  /** Every scenario whose name mentions caching lands in exactly one panel, and no
      other scenario is shown. */
  lemma CachePanelsPartition(scenarios: seq<string>)
    ensures forall s :: s in CachePanels(scenarios).cached ==> s !in CachePanels(scenarios).uncached
    ensures forall s :: s in CachePanels(scenarios).cached || s in CachePanels(scenarios).uncached
                   <==> s in scenarios && Contains(s, "cached")
  {
    forall s | s in scenarios && Contains(s, "uncached")
      ensures Contains(s, "cached")
    {
      UncachedContainsCached(s);
    }
  }

  /** The data the three charts are drawn from. */
  datatype ChartData = ChartData(
    proxies: seq<string>,
    scenarios: seq<string>,
    rpsData: RpsTable,
    rpsBars: seq<seq<real>>,
    avgRps: seq<real>,
    panels: Panels,
    cachedBars: seq<seq<real>>,
    uncachedBars: seq<seq<real>>)

  /** The bar loops of Charts 1 and 3: for each proxy in axis order, one bar per listed
      scenario, each the last-written throughput of its pair and 0 when the pair was
      not benchmarked. */
  method ChartBars(results: seq<Record>, table: RpsTable, proxies: seq<string>, scenarios: seq<string>)
    returns (bars: seq<seq<real>>)
    requires TableOf(table, results)
    requires forall p :: p in proxies ==> p in table
    ensures |bars| == |proxies|
    ensures forall i :: 0 <= i < |proxies| ==> |bars[i]| == |scenarios|
    ensures forall i :: 0 <= i < |proxies| ==> bars[i] == Bars(table[proxies[i]], scenarios)
    ensures forall i, j :: 0 <= i < |proxies| && 0 <= j < |scenarios| ==>
              bars[i][j] == GetOr(LastRps(results, proxies[i], scenarios[j]), 0.0)
  {
    bars := [];
    for i := 0 to |proxies|
      invariant |bars| == i
      invariant forall k :: 0 <= k < i ==> |bars[k]| == |scenarios|
      invariant forall k :: 0 <= k < i ==> bars[k] == Bars(table[proxies[k]], scenarios)
      invariant forall k, j :: 0 <= k < i && 0 <= j < |scenarios| ==>
                  bars[k][j] == GetOr(LastRps(results, proxies[k], scenarios[j]), 0.0)
    {
      var values := Bars(table[proxies[i]], scenarios);
      BarsAreLastWrites(table, results, proxies[i], scenarios);
      bars := bars + [values];
    }
  }

  /** Generating the charts, up to the drawing: the axes, the lookup, the bars, the
      averages and the two panels. */
  method GenerateChartData(results: seq<Record>) returns (data: ChartData)
    ensures StrictlyAscending(data.proxies) && Elems(data.proxies) == KeySet(results, ByProxy)
    ensures StrictlyAscending(data.scenarios) && Elems(data.scenarios) == KeySet(results, ByScenario)
    ensures data.rpsData.Keys == Elems(data.proxies)
    ensures forall p, s :: p in data.rpsData ==> Lookup(data.rpsData[p], s) == LastRps(results, p, s)
    ensures |data.rpsBars| == |data.proxies|
    ensures forall i :: 0 <= i < |data.proxies| ==> |data.rpsBars[i]| == |data.scenarios|
    ensures forall i :: 0 <= i < |data.proxies| ==> data.rpsBars[i] == Bars(data.rpsData[data.proxies[i]], data.scenarios)
    ensures forall i, j :: 0 <= i < |data.proxies| && 0 <= j < |data.scenarios| ==>
              data.rpsBars[i][j] == GetOr(LastRps(results, data.proxies[i], data.scenarios[j]), 0.0)
    ensures |data.avgRps| == |data.proxies|
    ensures forall i :: 0 <= i < |data.proxies| ==>
              data.avgRps[i] == PositiveMean(RowValues(data.rpsData[data.proxies[i]], data.scenarios))
    ensures data.panels == CachePanels(data.scenarios)
    ensures StrictlyAscending(data.panels.cached) && StrictlyAscending(data.panels.uncached)
    ensures |data.cachedBars| == |data.proxies| && |data.uncachedBars| == |data.proxies|
    ensures forall i :: 0 <= i < |data.proxies| ==>
              |data.cachedBars[i]| == |data.panels.cached| && |data.uncachedBars[i]| == |data.panels.uncached|
    ensures forall i, j :: 0 <= i < |data.proxies| && 0 <= j < |data.panels.cached| ==>
              data.cachedBars[i][j] == GetOr(LastRps(results, data.proxies[i], data.panels.cached[j]), 0.0)
    ensures forall i, j :: 0 <= i < |data.proxies| && 0 <= j < |data.panels.uncached| ==>
              data.uncachedBars[i][j] == GetOr(LastRps(results, data.proxies[i], data.panels.uncached[j]), 0.0)
  {
    var proxies := SortedKeys(KeySet(results, ByProxy));
    var scenarios := SortedKeys(KeySet(results, ByScenario));
    var table := BuildRpsTable(results, proxies);
    assert TableOf(table, results);
    var rpsBars := ChartBars(results, table, proxies, scenarios);
    var avgRps := AverageRps(proxies, scenarios, table);
    var panels := CachePanels(scenarios);
    var cachedBars := ChartBars(results, table, proxies, panels.cached);
    var uncachedBars := ChartBars(results, table, proxies, panels.uncached);
    data := ChartData(proxies, scenarios, table, rpsBars, avgRps, panels, cachedBars, uncachedBars);
  }
}
