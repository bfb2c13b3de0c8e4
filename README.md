# Proxy benchmark report generator: the aggregation core

`scripts/generate-report.py` reads one JSON result document per benchmark run. Each document holds:
- a proxy name;
- a scenario name;
- the h2load measurements, of which requests per second is used here.

From these it produces a text report and three charts. This project models the part of the script that turns the list of result records into the numbers shown:

- **Text report (`TextReport`)**:
  - The records are grouped by scenario.
  - There is one table per scenario, with scenarios in ascending order. Its rows are sorted stably by requests per second, highest first.
  - A summary gives one row per proxy, with proxies in ascending order. Each row has the proxy's number of tests and the mean of their requests per second.
- **Chart data (`Charts`)**:
  - The sorted proxy and scenario axes.
  - The lookup `rps_data[proxy][scenario]`, where the last record written for a pair wins.
  - The bar values, with 0 for a pair never benchmarked.
  - The per-proxy average of Chart 2, taken over the strictly positive lookup values.
  - The scenario lists of the two Chart 3 panels, cached and uncached.

Supporting modules:
- **`Records`** holds the record, with every field optional. Missing fields default to `"unknown"`, `"unknown"` and `0`. It also holds the order-preserving filters and sums the contracts are written in.
- **`StringOrder`** models Python's ordering of `str`, which compares code points lexicographically. It also holds `sorted()` over a set of labels and the substring test `in`.
- **`Ranking`** models the stable descending sort.

The grouping, totals, table-emitting, lookup and averaging loops of the script are methods with loop invariants. Each is proved against a specification function:
- `Matching`: the records with a given label, in input order;
- `SortByRpsDesc`;
- `LastRps`;
- `PositiveMean`.

The properties the script relies on are proved as lemmas about those functions:
- the groups partition the input;
- the sort is a permutation, ordered and stable, and these three properties determine the result;
- the lookup is the last write;
- the mean lies between the smallest and largest positive value.

## Model

| member | source | states |
|---|---|---|
| Records.MissingScenarioIsUnknown | scripts/generate-report.py:54 | a document without a scenario is in the group of the scenario "unknown" |
| Records.MissingProxyIsUnknown | scripts/generate-report.py:92 | a document without a proxy is in the totals group of the proxy "unknown" |
| Records.MissingRpsIsZero | scripts/generate-report.py:93-97 | a document without a throughput counts as throughput 0: it adds nothing to the sum of any group it joins, but it adds one to that group's count |
| Records.MatchingMembers | scripts/generate-report.py:52-57 | a record is in the group of label k exactly when it is an input record whose label (with the "unknown" default) is k, and the group holds it as often as the input does |
| Records.MatchingNonEmpty | scripts/generate-report.py:52-57 | a group is non-empty exactly when its label occurs among the records |
| Records.GroupsPartition | scripts/generate-report.py:52-57 | grouping by distinct labels that cover every record puts each record in exactly one group: the group sizes add up to the number of records and the group throughputs to the total throughput |
| TextReport.GroupByScenario | scripts/generate-report.py:52-57 | the loop creates a key for every scenario that occurs and no other, and each key's list is exactly that scenario's records in input order, never empty |
| StringOrder.LessTotal | scripts/generate-report.py:60 | Python string comparison orders any two distinct labels one way or the other |
| StringOrder.LessTransitive | scripts/generate-report.py:60 | Python string comparison is transitive |
| StringOrder.SortedKeys | scripts/generate-report.py:60 | `sorted` of the key set returns every key exactly once, in strictly ascending order |
| StringOrder.AscendingUnique | scripts/generate-report.py:123-124 | a strictly ascending list is determined by its elements, so the sorted axes depend only on the label sets |
| Ranking.SortByRpsDescCorrect | scripts/generate-report.py:68-72 | the ordered table is a permutation of the group, ordered by requests per second from highest to lowest, and records of equal throughput keep their input order |
| Ranking.SortedOrderUnique | scripts/generate-report.py:68-72 | a permutation ordered by descending throughput that keeps ties in input order is unique, so the three properties fix the printed order |
| TextReport.EmitSections | scripts/generate-report.py:60-83 | one table per key in the given order, each holding that scenario's records sorted by descending throughput; the tables hold as many rows as the groups hold records |
| TextReport.ScenarioSections | scripts/generate-report.py:52-83 | the scenario tables come in strictly ascending scenario order, one per distinct scenario, each with its records ranked, and together they hold every record exactly once |
| TextReport.ProxySumsAreGroupSums | scripts/generate-report.py:90-97 | the running total and count of a proxy are the throughput sum and the number of that proxy's records |
| TextReport.AccumulateProxyTotals | scripts/generate-report.py:90-97 | the totals have an entry for every proxy that occurs and no other; each entry's total is the sum of the proxy's throughputs and its count, at least 1, is the number of its records |
| TextReport.Average | scripts/generate-report.py:104 | the average times the count gives the total when the count is positive, and the average is 0 otherwise |
| TextReport.EmitSummaryRows | scripts/generate-report.py:102-105 | one summary row per proxy in the given order, with that proxy's test count and mean throughput |
| TextReport.SummaryTable | scripts/generate-report.py:90-105 | the summary rows come in strictly ascending proxy order, one per distinct proxy, and their test counts add up to the number of records |
| TextReport.GenerateTextReport | scripts/generate-report.py:41-105 | the report's scenario tables and summary rows as above; every record is printed in exactly one table and counted in exactly one summary row |
| Charts.LastRpsIsLastWrite | scripts/generate-report.py:128-132 | when record i is the last one for a proxy and scenario, the lookup for that pair holds record i's throughput (last write wins) |
| Charts.LastRpsNone | scripts/generate-report.py:128-132 | the lookup has no entry for a pair exactly when no record has that proxy and scenario |
| Charts.BuildRpsTable | scripts/generate-report.py:127-132 | the lookup has a row for every proxy of the axis and no other, and every row's entry for a scenario is the last-written throughput of that pair, absent when the pair never occurs |
| Charts.TableRowsWithinScenarios | scripts/generate-report.py:127-132 | a proxy's row has an entry for a scenario exactly when some record has that proxy and scenario |
| Charts.BarsAreLastWrites | scripts/generate-report.py:145 | each bar is the throughput of the last record of its proxy and scenario, or 0 when the pair was not benchmarked |
| Charts.ChartBars | scripts/generate-report.py:143-147 | one list of bars per proxy in axis order, one bar per listed scenario, each the last-written throughput of its pair or 0 when the pair was not benchmarked |
| Charts.RowValuesMembers | scripts/generate-report.py:167 | the values collected for a proxy are exactly the values its row holds for the listed scenarios |
| Charts.RowValuesCount | scripts/generate-report.py:167 | with distinct scenarios, one value is collected per scenario the row has, so no value is counted twice |
| Charts.PositiveMeanBetween | scripts/generate-report.py:165-168 | the Chart 2 average of a proxy with a positive value lies between any lower and upper bound of its positive values |
| Charts.PositiveMeanZero | scripts/generate-report.py:165-168 | the average is positive exactly when some value is positive, and 0 exactly when none is |
| Charts.AverageRps | scripts/generate-report.py:165-168 | one average per proxy, in axis order, each the mean of that proxy's strictly positive values or 0 when it has none |
| Charts.PanelScenarios | scripts/generate-report.py:190 | the panel filter keeps exactly the scenarios whose name contains the tag, in their ascending order |
| Charts.CachedPanelHoldsUncached | scripts/generate-report.py:188-190 | as written, every scenario of the "uncached" panel is also in the "cached" panel |
| Charts.CachedPanelCounterexample | scripts/generate-report.py:188-190 | for the scenarios `api-cached` and `api-uncached`, `api-uncached` is shown in both panels |
| Charts.CachePanels | scripts/generate-report.py:188-190 | the corrected split: the cached panel holds exactly the scenarios containing "cached" but not "uncached", the uncached panel those containing "uncached", both ascending |
| Charts.CachePanelsPartition | scripts/generate-report.py:188-190 | the corrected panels are disjoint and together show exactly the scenarios whose name contains "cached" |
| Charts.GenerateChartData | scripts/generate-report.py:122-198 | the axes are the sorted distinct proxies and scenarios, the lookup is the last write per pair, each bar of Charts 1 and 3 is its pair's last throughput or 0, each average is the proxy's positive mean, and the panels are the corrected split |

## Left out

- Loading the result files (`load_results`, scripts/generate-report.py:25-38) is not modelled. This covers the directory scan, JSON decoding and the warning on unreadable files. The model starts from the list of records.
- The command line entry point (`main`) is not modelled. It handles usage errors, the missing directory, the "no results" exit, and printing.
- Text rendering is not modelled:
  - banners and column headers;
  - the `Generated:` timestamp, which reads the clock;
  - the results directory line;
  - the fixed-width formatting (`:<12`, `:>12.2f`);
  - joining the lines;
  - writing `report.txt`.
  The model returns the tables as values.
- The `latency_mean` and `total_requests` columns of the scenario tables are passed through from the document unchanged and are not modelled. A row keeps the proxy and its requests per second.
- Drawing with matplotlib is not modelled, nor is the check for whether it is installed. This covers figure sizes, bar offsets and widths, colours, upper-cased legend labels, value labels, and saving the PNG files.
- The Chart 3 tick labels with `-cached`/`-uncached` stripped (`s.replace(...)`, line 206) are not modelled. They only change display text.
- Floating point is not modelled. Throughputs are exact reals, so rounding in the running sums and averages is not modelled.
- `float()` raising on a non-numeric `requests_per_sec` is not modelled. The model takes the field as a number when present.
- Non-dictionary `h2load` values are not modelled.
- Non-string proxy or scenario values are not modelled. That includes an explicit JSON `null`, which Python keeps as `None`. `None` makes the script raise in one of three places:
  - in `sorted` at lines 60, 102 and 123-124, when other labels exist;
  - in the row format at line 81;
  - in the substring test at line 190.
- Charts.AverageRps: takes a proxy's values in ascending scenario order rather than in the dictionary's insertion order. Over exact reals the sum and the count, and hence the average, do not depend on the order.
- Charts.GenerateChartData: fills the cached panel with the corrected split `Charts.CachePanels` rather than the substring filter as written. The as-written filter is `Charts.PanelScenarios`; see Findings.

## Findings

| source | as written | input that shows it | evidently intended | confidence | as-written member | corrected member |
|---|---|---|---|---|---|---|
| scripts/generate-report.py:190 | the "Cached" panel keeps every scenario whose name contains `cached`, which includes every name containing `uncached` | scenarios `api-cached`, `api-uncached`: `api-uncached` appears in both the "Cached" and the "Uncached" panel | the "Cached" panel shows only cached scenarios, so the two panels are disjoint | medium, not executed | Charts.CachedPanelCounterexample | Charts.CachePanels |
