/** The four summary counters shown above the report: critical vulnerabilities,
    total issues, open ports and subdomains. As shipped, the first two are read
    from the static category tables rather than from the scan; `IntendedSummary`
    is the corrected projection that reads them from the scan. */
module ReportSummary {
  import opened Wrappers
  import opened ScanResults
  import opened ReportTable
  import opened ReportPieChart

  datatype Summary = Summary(critical: nat, totalIssues: nat, openPorts: nat, subdomains: nat)

  /** `data[level]?.length || 0`: the size of the bucket stored under the key
      `level`, or 0 when the table has no such key. */
  function CountSeverity(data: CategoryTable, level: string): (n: nat)
    ensures (forall i :: 0 <= i < |data| ==> Key(data[i].0) != level) ==> n == 0
    ensures n > 0 ==> exists i :: 0 <= i < |data| && Key(data[i].0) == level && n == |data[i].1|
  {
    if data == [] then 0
    else if Key(data[0].0) == level then |data[0].1|
    else
      var n := CountSeverity(data[1..], level);
      assert n > 0 ==> exists i :: 0 <= i < |data| && Key(data[i].0) == level && n == |data[i].1| by {
        if n > 0 {
          var i :| 0 <= i < |data[1..]| && Key(data[1..][i].0) == level && n == |data[1..][i].1|;
          assert data[i + 1] == data[1..][i];
        }
      }
      n
  }

  lemma KeyInjective(a: Severity, b: Severity)
    ensures Key(a) == Key(b) <==> a == b
  {
  }

  /** In a table whose keys are in display order (hence distinct),
      `countSeverity` finds the bucket stored under the key and returns the
      number of its patterns. */
  lemma {:induction false} CountSeverityLookup(data: CategoryTable, i: nat)
    requires KeysInDisplayOrder(data)
    requires i < |data|
    ensures CountSeverity(data, Key(data[i].0)) == |data[i].1|
  {
    if i > 0 {
      KeyInjective(data[0].0, data[i].0);
      assert Rank(data[0].0) < Rank(data[i].0);
      assert data[1..][i - 1] == data[i];
      CountSeverityLookup(data[1..], i - 1);
    }
  }

  /** `Object.values(table).reduce((acc, curr) => acc + curr.length, 0) || 0`:
      the number of patterns over all buckets. */
  function TotalPatterns(t: CategoryTable): (n: nat)
    ensures n == |Flatten(t, Vulnerability)|
  {
    TableSize(t)
  }

  lemma TableSizeOfThree(t: CategoryTable)
    requires |t| == 3
    ensures TableSize(t) == |t[0].1| + |t[1].1| + |t[2].1|
  {
    assert t[1..][0] == t[1] && t[1..][1..][0] == t[2];
    assert TableSize(t[1..][1..]) == |t[2].1| + TableSize(t[1..][1..][1..]);
    assert t[1..][1..][1..] == [];
  }

  /** For a table with the three buckets, the total is the sum of the three
      per-level counts. */
  lemma TotalIsSumOfLevels(t: CategoryTable)
    requires ThreeBuckets(t)
    ensures TotalPatterns(t) ==
      CountSeverity(t, "severe") + CountSeverity(t, "medium") + CountSeverity(t, "low")
  {
    ThreeBucketsInDisplayOrder(t);
    TableSizeOfThree(t);
    assert Key(t[0].0) == "severe" && Key(t[1].0) == "medium" && Key(t[2].0) == "low";
    CountSeverityLookup(t, 0);
    CountSeverityLookup(t, 1);
    CountSeverityLookup(t, 2);
  }

  /** `results?.open_ports?.length || 0` */
  function OpenPortCount(results: Value): (n: nat)
    ensures results.Obj? && results.fields.openPorts.Some? ==> n == |results.fields.openPorts.value|
    ensures !results.Obj? || results.fields.openPorts.None? ==> n == 0
  {
    if results.Obj? then LengthOrZero(results.fields.openPorts) else 0
  }

  /** `results?.subdomains?.length || 0` */
  function SubdomainCount(results: Value): (n: nat)
    ensures results.Obj? && results.fields.subdomains.Some? ==> n == |results.fields.subdomains.value|
    ensures !results.Obj? || results.fields.subdomains.None? ==> n == 0
  {
    if results.Obj? then LengthOrZero(results.fields.subdomains) else 0
  }

  /** `ReportSummary({results, scanCompleted})` as shipped, against the category
      tables `vt` and `mt`: nothing before the scan completes; otherwise the
      critical and total counters come from the tables and only the port and
      subdomain counters read the results. */
  function RenderSummaryWith(results: Value, scanCompleted: bool, vt: CategoryTable, mt: CategoryTable): (r: Option<Summary>)
    ensures r.None? <==> !scanCompleted
    ensures r.Some? ==> r.value.critical == CountSeverity(vt, "severe")
    ensures r.Some? ==> r.value.totalIssues == |CombineFindings(vt, mt)|
    ensures r.Some? ==> r.value.openPorts == OpenPortCount(results)
    ensures r.Some? ==> r.value.subdomains == SubdomainCount(results)
  {
    if !scanCompleted then None
    else Some(Summary(
      CountSeverity(vt, "severe"),
      TotalPatterns(vt) + TotalPatterns(mt),
      OpenPortCount(results),
      SubdomainCount(results)))
  }

  /** The component as shipped, reading the two static tables. */
  function RenderSummary(results: Value, scanCompleted: bool): Option<Summary> {
    RenderSummaryWith(results, scanCompleted, Vulnerabilities, Misconfigurations)
  }

  /** The critical and total counters do not depend on the scan at all. */
  lemma SummaryIgnoresFindings(a: Value, b: Value, vt: CategoryTable, mt: CategoryTable)
    ensures RenderSummaryWith(a, true, vt, mt).value.critical == RenderSummaryWith(b, true, vt, mt).value.critical
    ensures RenderSummaryWith(a, true, vt, mt).value.totalIssues == RenderSummaryWith(b, true, vt, mt).value.totalIssues
  {
  }

  /** With the shipped tables the summary always reports one critical
      vulnerability and six issues. */
  lemma ShippedSummaryCounters(results: Value)
    ensures RenderSummary(results, true).value.critical == 1
    ensures RenderSummary(results, true).value.totalIssues == 6
  {
    ShippedTablesInDisplayOrder();
    CountSeverityLookup(Vulnerabilities, 0);
    ShippedCombinedFindings();
  }

  /** The subdomain counter shows the same number as the summary table's
      "Subdomains Found" row. */
  lemma SubdomainCounterMatchesTable(r: ScanResult, vt: CategoryTable, mt: CategoryTable)
    ensures SummaryRows(r)[8].value == CountCell(RenderSummaryWith(Obj(r), true, vt, mt).value.subdomains)
  {
    assert SummaryRows(r)[8].value == SummaryValue(r, 8);
  }

  /** The open-port counter is the number of ports the summary table's "Open
      Ports" row joins. */
  lemma PortCounterMatchesTable(r: ScanResult, vt: CategoryTable, mt: CategoryTable)
    ensures RenderSummaryWith(Obj(r), true, vt, mt).value.openPorts ==
      (if PortList(r).Some? then |PortList(r).value| else 0)
  {
  }

  /** A scan that reports one remote code execution and one open-ports
      misconfiguration: the shipped summary shows six issues, where the
      corrected one shows the two the scan found (`IntendedScenario`). */
  lemma ShippedScenario(r: ScanResult)
    requires r.vulnerabilities == Some(["Remote Code Execution"])
    requires r.securityMisconfigs == Some(["Open Ports"])
    ensures RenderSummary(Obj(r), true).value.totalIssues == 6
  {
    ShippedSummaryCounters(Obj(r));
  }

  // ---------------------------------------------------------------------------
  // The corrected counters
  // ---------------------------------------------------------------------------

  /** The summary the report evidently means: critical vulnerabilities are the
      scan's vulnerabilities classified severe, and total issues are all the
      vulnerabilities and misconfigurations the scan reports, as in the bar
      chart. */
  function IntendedSummary(results: Value, scanCompleted: bool, vt: CategoryTable, mt: CategoryTable): (r: Option<Summary>)
    ensures r.None? <==> !scanCompleted
    ensures r.Some? ==> r.value.openPorts == RenderSummaryWith(results, scanCompleted, vt, mt).value.openPorts
    ensures r.Some? ==> r.value.subdomains == RenderSummaryWith(results, scanCompleted, vt, mt).value.subdomains
  {
    if !scanCompleted then None
    else
      var f := Fields(results).GetOr(EmptyResult);
      Some(Summary(
        CountSeveritiesByCategory(f.vulnerabilities, vt).severe,
        |OrEmpty(f.vulnerabilities)| + |OrEmpty(f.securityMisconfigs)|,
        OpenPortCount(results),
        SubdomainCount(results)))
  }

  /** The corrected counters describe the scan: the critical count is the
      severe tally of the scan's vulnerabilities, it never exceeds the total,
      and the total is the sum of the bar chart's two bars. */
  lemma IntendedSummaryDescribesScan(r: ScanResult, vt: CategoryTable, mt: CategoryTable)
    ensures IntendedSummary(Obj(r), true, vt, mt).value.critical == Tally(OrEmpty(r.vulnerabilities), vt, Severe)
    ensures IntendedSummary(Obj(r), true, vt, mt).value.critical <= IntendedSummary(Obj(r), true, vt, mt).value.totalIssues
    ensures IntendedSummary(Obj(r), true, vt, mt).value.totalIssues ==
      Sum(ChartsOf(r.vulnerabilities, r.securityMisconfigs, vt, mt).barTotals)
  {
    var s := IntendedSummary(Obj(r), true, vt, mt).value;
    var d := CountSeveritiesByCategory(r.vulnerabilities, vt);
    var a, b := |OrEmpty(r.vulnerabilities)|, |OrEmpty(r.securityMisconfigs)|;
    assert s.critical == d.Get(Severe) && s.totalIssues == a + b;
    CountTotal(r.vulnerabilities, vt);
    NonEmptyCountZero(OrEmpty(r.vulnerabilities));
    assert d.Get(Severe) <= a;
    var bars := ChartsOf(r.vulnerabilities, r.securityMisconfigs, vt, mt).barTotals;
    assert bars == [a, b];
    SumOfPair(a, b);
  }

  lemma SumOfPair(a: nat, b: nat)
    ensures Sum([a, b]) == a + b
  {
    assert [a, b][1..] == [b];
    assert Sum([b]) == b + Sum([b][1..]);
    assert [b][1..] == [];
  }

  /** A missing result object counts as a clean scan. */
  lemma IntendedSummaryOfNonObject(results: Value, vt: CategoryTable, mt: CategoryTable)
    requires !results.Obj?
    ensures IntendedSummary(results, true, vt, mt) == Some(Summary(0, 0, 0, 0))
  {
    CountAbsentList(vt);
  }

  /** The same kind of scan under the corrected counters: one vulnerability
      named by a severe pattern and one misconfiguration make two issues, one
      of them critical. With the shipped tables, "Remote Code Execution" is
      such a name. */
  lemma IntendedScenario(r: ScanResult, vt: CategoryTable, mt: CategoryTable, name: string, other: string)
    requires |vt| > 0 && vt[0].0 == Severe && name in vt[0].1 && name != ""
    requires r.vulnerabilities == Some([name])
    requires r.securityMisconfigs == Some([other])
    ensures IntendedSummary(Obj(r), true, vt, mt).value.critical == 1
    ensures IntendedSummary(Obj(r), true, vt, mt).value.totalIssues == 2
  {
    var d := CountSeveritiesByCategory(r.vulnerabilities, vt);
    assert IntendedSummary(Obj(r), true, vt, mt).value.critical == d.Get(Severe);
    PatternOfFirstBucket(name, vt);
    assert Tally([name], vt, Severe) == Counted(name, vt, Severe) + Tally([name][1..], vt, Severe);
  }

  /** The scan that reports one remote code execution and one open-ports
      misconfiguration, against the shipped tables: two issues, one critical. */
  lemma ShippedIntendedScenario(r: ScanResult)
    requires r.vulnerabilities == Some(["Remote Code Execution"])
    requires r.securityMisconfigs == Some(["Open Ports"])
    ensures IntendedSummary(Obj(r), true, Vulnerabilities, Misconfigurations).value.critical == 1
    ensures IntendedSummary(Obj(r), true, Vulnerabilities, Misconfigurations).value.totalIssues == 2
  {
    IntendedScenario(r, Vulnerabilities, Misconfigurations, "Remote Code Execution", "Open Ports");
  }
}
