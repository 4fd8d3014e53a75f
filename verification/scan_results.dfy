/** The loosely typed scan-result payload the report components receive. A
    JavaScript value is either one of the primitive kinds or an object; for an
    object only the fields the report reads are kept, each of which may be
    missing (`null` or `undefined`). */
module ScanResults {
  import opened Wrappers

  datatype Fingerprint = Fingerprint(
    webServer: Option<string>,
    framework: Option<string>,
    language: Option<string>)

  datatype Whois = Whois(domainName: Option<string>)

  /** The fields of a scan result that the summary table, the counters and the
      charts read. */
  datatype ScanResult = ScanResult(
    fingerprint: Option<Fingerprint>,
    dns: Option<seq<string>>,
    whois: Option<Whois>,
    vulnerabilities: Option<seq<string>>,
    securityMisconfigs: Option<seq<string>>,
    openPorts: Option<seq<int>>,
    subdomains: Option<seq<string>>)

  /** A JavaScript value as far as the page can tell kinds apart. */
  datatype Value =
    | Undefined
    | Null
    | Bool(b: bool)
    | Num(n: int)
    | Str(s: string)
    | Obj(fields: ScanResult)

  /** JavaScript truthiness: what `if (v)` and `v || fallback` test. */
  predicate Truthy(v: Value) {
    match v
    case Undefined => false
    case Null => false
    case Bool(b) => b
    case Num(n) => n != 0
    case Str(s) => s != ""
    case Obj(_) => true
  }

  /** `v?.field` reaches a field only when `v` is an object. */
  function Fields(v: Value): Option<ScanResult> {
    if v.Obj? then Some(v.fields) else None
  }

  /** A scan result in which every field is missing. */
  const EmptyResult := ScanResult(None, None, None, None, None, None, None)
}
