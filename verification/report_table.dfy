/** The report table component: the severity buckets and the two static category
    tables it exports, the nine-row scan summary built from an all-optional
    result, and the flattened list of findings. */
module ReportTable {
  import opened Wrappers
  import opened Text
  import opened ScanResults

  // ---------------------------------------------------------------------------
  // Severity buckets and category tables
  // ---------------------------------------------------------------------------

  datatype Severity = Severe | Medium | Low

  /** The object key under which a bucket is stored. */
  function Key(s: Severity): string {
    match s
    case Severe => "severe"
    case Medium => "medium"
    case Low => "low"
  }

  /** Display order: severe first, low last. */
  function Rank(s: Severity): nat {
    match s
    case Severe => 0
    case Medium => 1
    case Low => 2
  }

  /** A `Record<Severity, string[]>`: the buckets in the object's key order, each
      with its list of patterns. */
  type CategoryTable = seq<(Severity, seq<string>)>

  /** The buckets appear in display order; in particular no key appears twice,
      as in any object literal. */
  ghost predicate KeysInDisplayOrder(t: CategoryTable) {
    forall i, j :: 0 <= i < j < |t| ==> Rank(t[i].0) < Rank(t[j].0)
  }

  const Vulnerabilities: CategoryTable := [
    (Severe, ["Remote Code Execution"]),
    (Medium, ["Cross-Site Scripting (XSS)"]),
    (Low, ["SQL Injection"])
  ]

  const Misconfigurations: CategoryTable := [
    (Severe, ["Unrestricted File Upload"]),
    (Medium, ["Open Ports"]),
    (Low, ["Default Credentials"])
  ]

  /** Severe, medium and low, once each and in that order. */
  ghost predicate ThreeBuckets(t: CategoryTable) {
    |t| == 3 && t[0].0 == Severe && t[1].0 == Medium && t[2].0 == Low
  }

  lemma ThreeBucketsInDisplayOrder(t: CategoryTable)
    requires ThreeBuckets(t)
    ensures KeysInDisplayOrder(t)
  {
  }

  /** Both shipped tables list severe, medium and low once each, in that order. */
  lemma ShippedTablesInDisplayOrder()
    ensures ThreeBuckets(Vulnerabilities) && KeysInDisplayOrder(Vulnerabilities)
    ensures ThreeBuckets(Misconfigurations) && KeysInDisplayOrder(Misconfigurations)
  {
    ThreeBucketsInDisplayOrder(Vulnerabilities);
    ThreeBucketsInDisplayOrder(Misconfigurations);
  }

  /** `severityColorMap` */
  function SeverityColor(s: Severity): string {
    match s
    case Severe => "#EF4444"
    case Medium => "#F97316"
    case Low => "#FACC15"
  }

  /** The number of patterns over all buckets of a table. */
  function TableSize(t: seq<(Severity, seq<string>)>): nat {
    if t == [] then 0 else |t[0].1| + TableSize(t[1..])
  }

  // ---------------------------------------------------------------------------
  // Scan summary rows
  // ---------------------------------------------------------------------------

  /** A rendered table cell: text, a number, or nothing at all (`undefined`). */
  datatype Cell = TextCell(text: string) | CountCell(count: nat) | EmptyCell

  datatype Row = Row(field: string, value: Cell)

  const NotAvailable := "N/A"

  const SummaryFields: seq<string> := [
    "Domain", "Web Server", "Framework", "Programming Language", "IP Address",
    "Vulnerabilities Found", "Security Misconfigurations", "Open Ports", "Subdomains Found"
  ]

  /** `value || "N/A"` for an optional string: a missing or empty string falls back. */
  function OrNotAvailable(s: Option<string>): (r: string)
    ensures r != ""
    ensures s.Some? && s.value != "" ==> r == s.value
    ensures (s.None? || s.value == "") ==> r == NotAvailable
  {
    if s.Some? && s.value != "" then s.value else NotAvailable
  }

  /** `list?.length || 0` */
  function LengthOrZero<T>(xs: Option<seq<T>>): nat {
    if xs.Some? then |xs.value| else 0
  }

  /** `list?.join(", ") || "N/A"` */
  function JoinOrNotAvailable(xs: Option<seq<string>>): string {
    if xs.None? then NotAvailable
    else var joined := Join(xs.value, ", "); if joined == "" then NotAvailable else joined
  }

  lemma JoinOrNotAvailableMeaning(xs: Option<seq<string>>)
    ensures JoinOrNotAvailable(xs) ==
      if xs.None? || |xs.value| == 0 || (|xs.value| == 1 && xs.value[0] == "") then NotAvailable
      else Join(xs.value, ", ")
  {
    if xs.Some? {
      JoinEmpty(xs.value, ", ");
    }
  }

  /** `ports.join(", ")` converts each number to its decimal text first. */
  function PortTexts(ports: seq<int>): (r: seq<string>)
    ensures |r| == |ports|
    ensures forall i :: 0 <= i < |ports| ==> r[i] == IntToDecimal(ports[i])
  {
    if ports == [] then [] else [IntToDecimal(ports[0])] + PortTexts(ports[1..])
  }

  function WebServer(r: ScanResult): Option<string> {
    if r.fingerprint.Some? then r.fingerprint.value.webServer else None
  }

  function Framework(r: ScanResult): Option<string> {
    if r.fingerprint.Some? then r.fingerprint.value.framework else None
  }

  function Language(r: ScanResult): Option<string> {
    if r.fingerprint.Some? then r.fingerprint.value.language else None
  }

  function DomainName(r: ScanResult): Option<string> {
    if r.whois.Some? then r.whois.value.domainName else None
  }

  /** The nine summary rows, labelled in the fixed order of `SummaryFields`. */
  function SummaryRows(r: ScanResult): (rows: seq<Row>)
    ensures |rows| == |SummaryFields| == 9
    ensures forall i :: 0 <= i < 9 ==> rows[i] == Row(SummaryFields[i], SummaryValue(r, i))
  {
    seq(9, i requires 0 <= i < 9 => Row(SummaryFields[i], SummaryValue(r, i)))
  }

  /** What each summary row shows. The domain row has no fallback; the
      fingerprint rows fall back to "N/A"; the address and port rows are joined
      with ", " and read "N/A" when there is nothing to show; the three counting
      rows hold a list length or 0. */
  lemma SummaryRowValues(r: ScanResult)
    ensures var rows := SummaryRows(r);
      && (rows[0].value == EmptyCell <==> DomainName(r).None?)
      && (rows[0].value != EmptyCell ==> rows[0].value == TextCell(DomainName(r).value))
      && rows[1].value == TextCell(OrNotAvailable(WebServer(r)))
      && rows[2].value == TextCell(OrNotAvailable(Framework(r)))
      && rows[3].value == TextCell(OrNotAvailable(Language(r)))
      && rows[5].value == CountCell(if r.vulnerabilities.Some? then |r.vulnerabilities.value| else 0)
      && rows[6].value == CountCell(if r.securityMisconfigs.Some? then |r.securityMisconfigs.value| else 0)
      && rows[8].value == CountCell(if r.subdomains.Some? then |r.subdomains.value| else 0)
  {
  }

  /** The address and port rows join their lists with ", " and read "N/A" when
      the list is missing, empty, or (for addresses) a single empty string. */
  lemma SummaryJoinedRows(r: ScanResult)
    ensures SummaryRows(r)[4].value == TextCell(
      if r.dns.None? || |r.dns.value| == 0 || (|r.dns.value| == 1 && r.dns.value[0] == "")
      then NotAvailable else Join(r.dns.value, ", "))
    ensures SummaryRows(r)[7].value == TextCell(
      if r.openPorts.None? || |r.openPorts.value| == 0
      then NotAvailable else Join(PortTexts(r.openPorts.value), ", "))
  {
    JoinOrNotAvailableMeaning(r.dns);
    JoinOrNotAvailableMeaning(PortList(r));
    if r.openPorts.Some? && |r.openPorts.value| == 1 {
      assert IntToDecimal(r.openPorts.value[0]) != "";
    }
  }

  /** The open ports as the text the table joins. */
  function PortList(r: ScanResult): Option<seq<string>> {
    if r.openPorts.Some? then Some(PortTexts(r.openPorts.value)) else None
  }

  /** The value cell of summary row `i`. */
  function SummaryValue(r: ScanResult, i: nat): Cell
    requires i < 9
  {
    match i
    case 0 => if DomainName(r).Some? then TextCell(DomainName(r).value) else EmptyCell
    case 1 => TextCell(OrNotAvailable(WebServer(r)))
    case 2 => TextCell(OrNotAvailable(Framework(r)))
    case 3 => TextCell(OrNotAvailable(Language(r)))
    case 4 => TextCell(JoinOrNotAvailable(r.dns))
    case 5 => CountCell(LengthOrZero(r.vulnerabilities))
    case 6 => CountCell(LengthOrZero(r.securityMisconfigs))
    case 7 => TextCell(JoinOrNotAvailable(PortList(r)))
    case 8 => CountCell(LengthOrZero(r.subdomains))
  }

  // ---------------------------------------------------------------------------
  // Combined findings
  // ---------------------------------------------------------------------------

  datatype FindingType = Vulnerability | Misconfiguration

  datatype Finding = Finding(kind: FindingType, severity: Severity, description: string)

  /** One bucket's patterns as findings tagged with the bucket and the table type. */
  function TagBucket(bucket: (Severity, seq<string>), kind: FindingType): (r: seq<Finding>)
    ensures |r| == |bucket.1|
    ensures forall i :: 0 <= i < |r| ==> r[i] == Finding(kind, bucket.0, bucket.1[i])
    decreases |bucket.1|
  {
    if bucket.1 == [] then []
    else [Finding(kind, bucket.0, bucket.1[0])] + TagBucket((bucket.0, bucket.1[1..]), kind)
  }

  /** `Object.entries(table).flatMap(...)`: every bucket in key order. */
  function Flatten(t: seq<(Severity, seq<string>)>, kind: FindingType): (r: seq<Finding>)
    ensures |r| == TableSize(t)
    ensures forall i :: 0 <= i < |r| ==> r[i].kind == kind
  {
    if t == [] then [] else TagBucket(t[0], kind) + Flatten(t[1..], kind)
  }

  /** A finding is listed exactly when its description is a pattern of the
      bucket named by its severity, in the table of its type. */
  lemma {:induction false} FlattenMembership(t: seq<(Severity, seq<string>)>, kind: FindingType, f: Finding)
    ensures f in Flatten(t, kind) <==>
      f.kind == kind &&
      exists i, j :: 0 <= i < |t| && 0 <= j < |t[i].1| && t[i].0 == f.severity && t[i].1[j] == f.description
  {
    if t != [] {
      FlattenMembership(t[1..], kind, f);
      var head := TagBucket(t[0], kind);
      assert Flatten(t, kind) == head + Flatten(t[1..], kind);
      if f in head {
        var j :| 0 <= j < |head| && head[j] == f;
        assert t[0].1[j] == f.description;
      }
      if exists i, j :: 0 <= i < |t[1..]| && 0 <= j < |t[1..][i].1| && t[1..][i].0 == f.severity && t[1..][i].1[j] == f.description {
        var i, j :| 0 <= i < |t[1..]| && 0 <= j < |t[1..][i].1| && t[1..][i].0 == f.severity && t[1..][i].1[j] == f.description;
        assert t[i + 1] == t[1..][i];
      }
      if f.kind == kind && exists i, j :: 0 <= i < |t| && 0 <= j < |t[i].1| && t[i].0 == f.severity && t[i].1[j] == f.description {
        var i, j :| 0 <= i < |t| && 0 <= j < |t[i].1| && t[i].0 == f.severity && t[i].1[j] == f.description;
        if i == 0 {
          assert head[j] == f;
        } else {
          assert t[1..][i - 1] == t[i];
        }
      }
    }
  }

  /** Flattening a table whose buckets are in display order lists the findings
      in display order too. */
  lemma {:induction false} FlattenInDisplayOrder(t: seq<(Severity, seq<string>)>, kind: FindingType)
    requires KeysInDisplayOrder(t)
    ensures forall i, j :: 0 <= i < j < |Flatten(t, kind)| ==>
      Rank(Flatten(t, kind)[i].severity) <= Rank(Flatten(t, kind)[j].severity)
  {
    if t != [] {
      FlattenInDisplayOrder(t[1..], kind);
      var head := TagBucket(t[0], kind);
      var tail := Flatten(t[1..], kind);
      assert Flatten(t, kind) == head + tail;
      forall j | 0 <= j < |tail|
        ensures Rank(t[0].0) < Rank(tail[j].severity)
      {
        FlattenMembership(t[1..], kind, tail[j]);
        assert tail[j] in tail;
        var a, b :| 0 <= a < |t[1..]| && 0 <= b < |t[1..][a].1| && t[1..][a].0 == tail[j].severity && t[1..][a].1[b] == tail[j].description;
        assert t[1..][a] == t[a + 1];
      }
    }
  }

  /** Vulnerability findings first, then misconfiguration findings. */
  function CombineFindings(vulnerabilityTable: seq<(Severity, seq<string>)>, misconfigurationTable: seq<(Severity, seq<string>)>): (r: seq<Finding>)
    ensures |r| == TableSize(vulnerabilityTable) + TableSize(misconfigurationTable)
    ensures forall i :: 0 <= i < |r| ==> (r[i].kind == Vulnerability <==> i < TableSize(vulnerabilityTable))
    ensures forall i :: 0 <= i < |r| ==> (r[i].kind == Misconfiguration <==> i >= TableSize(vulnerabilityTable))
  {
    Flatten(vulnerabilityTable, Vulnerability) + Flatten(misconfigurationTable, Misconfiguration)
  }

  /** `combinedFindings`, built once from the two static tables. */
  function CombinedFindings(): seq<Finding> {
    CombineFindings(Vulnerabilities, Misconfigurations)
  }

  /** With the shipped tables the findings list holds six entries, grouped by
      type and ordered severe, medium, low inside each group. */
  lemma ShippedCombinedFindings()
    ensures |CombinedFindings()| == 6
    ensures CombinedFindings()[..3] == Flatten(Vulnerabilities, Vulnerability)
    ensures forall i, j :: 0 <= i < j < 6 && CombinedFindings()[i].kind == CombinedFindings()[j].kind ==>
      Rank(CombinedFindings()[i].severity) <= Rank(CombinedFindings()[j].severity)
  {
    var v := Flatten(Vulnerabilities, Vulnerability);
    var m := Flatten(Misconfigurations, Misconfiguration);
    ShippedTablesInDisplayOrder();
    FlattenInDisplayOrder(Vulnerabilities, Vulnerability);
    FlattenInDisplayOrder(Misconfigurations, Misconfiguration);
    assert TableSize(Vulnerabilities) == 3 && TableSize(Misconfigurations) == 3;
    var c := CombinedFindings();
    assert c == v + m;
    forall i, j | 0 <= i < j < 6 && c[i].kind == c[j].kind
      ensures Rank(c[i].severity) <= Rank(c[j].severity)
    {
      if j < 3 {
        assert c[i] == v[i] && c[j] == v[j];
      } else {
        assert i >= 3;
        assert c[i] == m[i - 3] && c[j] == m[j - 3];
      }
    }
  }

  // ---------------------------------------------------------------------------
  // The component
  // ---------------------------------------------------------------------------

  const FormatErrorMessage := "Error: Scan results are not in the expected format."

  datatype TableView =
    | Hidden
    | FormatError(message: string)
    | Tables(summary: seq<Row>, findings: seq<Finding>)

  /** Nothing before the scan completes; the fixed error text unless the results
      are an object; otherwise the summary rows and the static findings list. */
  function RenderTable(scanCompleted: bool, results: Value): (v: TableView)
    ensures v.Hidden? <==> !scanCompleted
    ensures v.FormatError? <==> scanCompleted && !results.Obj?
    ensures v.FormatError? ==> v.message == FormatErrorMessage
    ensures v.Tables? ==> v.summary == SummaryRows(results.fields) && v.findings == CombinedFindings()
  {
    if !scanCompleted then Hidden
    else if !Truthy(results) || !results.Obj? then FormatError(FormatErrorMessage)
    else Tables(SummaryRows(results.fields), CombinedFindings())
  }
}
