# BugGPT report and scan page, modelled in Dafny

BugGPT's front end lets a user submit a domain for a security scan. It follows
the scan's progress over a socket and renders the result as a report. This
project models the logic of that front end and of the maintenance script that
repairs stored results, and proves what the code does:

- **Classifying findings** (`ReportPieChart`). A finding name lands in a
  severity bucket (severe, medium, low). The bucket is the first one, in the
  category table's key order, with a pattern that occurs in the name, ignoring
  case. Each list of names is tallied per bucket, empty names skipped. The
  non-empty buckets become pie-chart slices. The charts are hidden when
  nothing was tallied.
- **The report table** (`ReportTable`). It holds the two static category
  tables and the colour map. The nine-row scan summary is built from an
  all-optional result using JavaScript's `||` fallbacks. The findings list
  flattens both static tables.
- **The summary counters** (`ReportSummary`). "Critical" and "Total Issues"
  are read from the static tables, and open ports and subdomains from the
  result. `IntendedSummary` is the corrected version (see Findings).
- **The scan page** (`ScanDomain`). A transition function over the page's
  state hooks covers submit, start success or failure, progress, completion
  and unmount. It also tracks the socket operations that the effect on
  `scanId` performs. The lemmas show four things:
  - at most one socket is ever open;
  - that socket is joined to the current scan id;
  - a socket is closed before the next one opens;
  - each handler changes only what it sets.
- **The repair script** (`FixJsonFormatting`). Python's `str.replace` is
  modelled as a left-to-right, non-overlapping replace-all. The chain of
  three replacements is applied to every record whose text fails the JSON
  check. The loop is a method, proved equal to a reference definition, with
  lemmas about what a run commits.
- **String operations** (`Text`). These cover ASCII case conversion,
  substring search, `join`, integer-to-decimal conversion, JavaScript's
  first-occurrence `replace` and `split(" ")[0]`, and Python's replace-all.
  Each comes with the lemmas the other modules need.
- **Results and options** (`ScanResults`, `Wrappers`). `Value` is a
  JavaScript value as far as the components tell kinds apart, with
  truthiness. `Option` stands for `null`/`undefined`.

The JSON parsers (`JSON.parse`, `json.loads`) are function parameters. So are
the validity check and the parse that may throw. The HTTP request and the
socket are represented by the effects each event emits.

Behaviour worth knowing, which the model follows as the code has it:

- **Summary counters.** "Critical" and "Total Issues" come from the static
  tables, not from the scan (see Findings).
- **Socket after completion.** Completion does not close the socket. It stays
  joined to the finished scan until the scan id changes or the page unmounts
  (`ScanDomain.SocketOutlivesCompletion`).
- **Re-submission.** While a new start request is outstanding, the old socket
  is still open, and its progress events are applied to the new submission
  (`ScanDomain.OldScanProgressDuringResubmission`).
- **Unparseable completion text.** `JSON.parse` throws inside the socket
  handler, so the page is left unchanged and no error is reported
  (`ScanDomain.CompleteTransition`).
- **Old scans' events.** They are not filtered by scan id. Only the socket's
  lifetime decides which events arrive.

## Model

| member | source | states |
|---|---|---|
| ReportPieChart.GetSeverityIsFirstMatch | project/src/components/ReportPieChart.tsx:43-58 | The bucket returned is the first, in the table's key order, with a pattern that is a case-insensitive substring of the name; `low` when no bucket matches |
| ReportPieChart.AnyPatternInMatches | project/src/components/ReportPieChart.tsx:50-52 | `some(p => lowerName.includes(p.toLowerCase()))` holds exactly when some pattern, lower-cased, occurs in the lower-cased name |
| ReportPieChart.GetSeverityIgnoresCase | project/src/components/ReportPieChart.tsx:47-51 | A name and its lower-cased form are classified into the same bucket (and, under ASCII case mapping, its upper-cased form too) |
| ReportPieChart.ShippedVulnerabilityClassification | project/src/components/ReportPieChart.tsx:48-57 | With the shipped vulnerability table: severe iff a severe pattern matches, medium iff no severe but a medium one matches, low otherwise |
| ReportPieChart.PatternOfFirstBucket | project/src/components/ReportPieChart.tsx:48-55 | A name that is itself a pattern of the first bucket is classified into that bucket |
| ReportPieChart.Reduce | project/src/components/ReportPieChart.tsx:64-72 | The `reduce` leaves in each bucket the number of non-empty names classified into it |
| ReportPieChart.CountSeveritiesByCategory | project/src/components/ReportPieChart.tsx:60-73 | Each bucket's count is the reference tally of non-empty names classified into it, an absent list counting as empty |
| ReportPieChart.CountAbsentList | project/src/components/ReportPieChart.tsx:61 | An absent list gives zero in all three buckets |
| ReportPieChart.CountTotal | project/src/components/ReportPieChart.tsx:66-68 | The three counts add up to the number of non-empty names: each is counted once, empties never |
| ReportPieChart.TallyTotal | project/src/components/ReportPieChart.tsx:65-69 | Every non-empty name lands in exactly one of the three reference tallies |
| ReportPieChart.CountAppendOne | project/src/components/ReportPieChart.tsx:65-69 | One more name adds 1 to the bucket it is classified into and nothing elsewhere; an empty name adds nothing |
| ReportPieChart.CountOrderIrrelevant | project/src/components/ReportPieChart.tsx:64-72 | The counts do not depend on the order of the names: any rearrangement of the list gives the same three counts |
| ReportPieChart.TallyPermutation | project/src/components/ReportPieChart.tsx:64-72 | Two lists holding the same names, in any order, give the same count in each bucket |
| ReportPieChart.NonZeroBuckets | project/src/components/ReportPieChart.tsx:76-78 | Exactly the buckets with a positive count are kept, in severe, medium, low order |
| ReportPieChart.LabelRoundTrip | project/src/components/ReportPieChart.tsx:80-82 | A label starts with a capital letter and lower-cases back to the bucket's key |
| ReportPieChart.PlainColorUnchanged | project/src/components/ReportPieChart.tsx:84-87 | A non-empty colour with no space and no `bg-` in it passes through the split/replace/fallback unchanged |
| ReportPieChart.ShippedChartColors | project/src/components/ReportTable.tsx:197-201 | The shipped colour map's hex codes are used verbatim as slice colours |
| ReportPieChart.GenerateChartData | project/src/components/ReportPieChart.tsx:75-100 | Labels, data and colours have one entry per non-empty bucket |
| ReportPieChart.ChartSlices | project/src/components/ReportPieChart.tsx:76-87 | Slice i is the i-th non-empty bucket: positive count, that bucket's count, capitalised label and mapped colour |
| ReportPieChart.PieSumIsTotal | project/src/components/ReportPieChart.tsx:83 | A pie's slices add up to the tally's total |
| ReportPieChart.ChartSumIsTotal | project/src/components/ReportPieChart.tsx:76-83 | The counts of the kept buckets add up to the total of all three |
| ReportPieChart.ChartsOf | project/src/components/ReportPieChart.tsx:128-145 | The bars are the raw list lengths, empty names included; each pie adds up to its list's non-empty names, at most its bar's height and exactly that when no name is empty |
| ReportPieChart.RenderChartsWith | project/src/components/ReportPieChart.tsx:147-152 | Nothing renders exactly when both lists hold only empty names (or are absent); otherwise the charts |
| ReportPieChart.TallyZeroIffNoNames | project/src/components/ReportPieChart.tsx:66 | A tally is all zero exactly when every name in the list is empty |
| ReportPieChart.PieTotalBound | project/src/components/ReportPieChart.tsx:128-140 | A pie adds up to the number of non-empty names: at most the list's length, and exactly that when no name is empty |
| ReportTable.ShippedTablesInDisplayOrder | project/src/components/ReportTable.tsx:185-195 | Both static tables list severe, medium and low once each, in that order |
| ReportTable.OrNotAvailable | project/src/components/ReportTable.tsx:96 | `value \|\| "N/A"`: a missing or empty string falls back to "N/A", anything else is kept |
| ReportTable.JoinOrNotAvailableMeaning | project/src/components/ReportTable.tsx:106 | The joined list reads "N/A" exactly when it is missing, empty, or a single empty string |
| ReportTable.PortTexts | project/src/components/ReportTable.tsx:117 | Each port is turned into its decimal text before joining |
| ReportTable.SummaryRows | project/src/components/ReportTable.tsx:92-123 | Exactly nine rows, labelled Domain … Subdomains Found in that order |
| ReportTable.SummaryRowValues | project/src/components/ReportTable.tsx:93-121 | The domain row is empty exactly when the name is missing; fingerprint rows fall back to "N/A"; counting rows show a list length or 0 |
| ReportTable.SummaryJoinedRows | project/src/components/ReportTable.tsx:106-118 | The address and port rows join their lists with ", " and read "N/A" when there is nothing to show |
| ReportTable.TagBucket | project/src/components/ReportTable.tsx:210-216 | One finding per pattern, in order, tagged with the bucket and the table's type |
| ReportTable.Flatten | project/src/components/ReportTable.tsx:209-224 | One finding per pattern of the table, all of the table's type |
| ReportTable.FlattenMembership | project/src/components/ReportTable.tsx:209-216 | A finding is listed exactly when its description is a pattern of the bucket named by its severity |
| ReportTable.FlattenInDisplayOrder | project/src/components/ReportTable.tsx:209-224 | Flattening a table in display order lists findings severe first, low last |
| ReportTable.CombineFindings | project/src/components/ReportTable.tsx:209-224 | All vulnerability findings come first, then all misconfiguration findings |
| ReportTable.ShippedCombinedFindings | project/src/components/ReportTable.tsx:185-224 | The shipped findings list has six entries, grouped by type and ordered by severity within each group |
| ReportTable.RenderTable | project/src/components/ReportTable.tsx:79-89 | Nothing before the scan completes; the fixed error text unless the results are an object; otherwise the rows and findings |
| ReportSummary.CountSeverity | project/src/components/ReportSummary.tsx:80-81 | Zero when no bucket has the key; a positive count is the size of a bucket stored under the key |
| ReportSummary.CountSeverityLookup | project/src/components/ReportSummary.tsx:80-81 | In a table whose keys are in display order, the count is the size of the bucket stored under the key |
| ReportSummary.TotalPatterns | project/src/components/ReportSummary.tsx:83-92 | The reduced total is the number of findings the table flattens to |
| ReportSummary.TotalIsSumOfLevels | project/src/components/ReportSummary.tsx:83-92 | For a three-bucket table the total is the sum of the severe, medium and low counts |
| ReportSummary.OpenPortCount | project/src/components/ReportSummary.tsx:108 | The list's length when the result is an object with the list, else 0 |
| ReportSummary.SubdomainCount | project/src/components/ReportSummary.tsx:112 | The list's length when the result is an object with the list, else 0 |
| ReportSummary.RenderSummaryWith | project/src/components/ReportSummary.tsx:77-116 | Nothing before completion; critical and total come from the tables, the total being the length of the findings list |
| ReportSummary.SummaryIgnoresFindings | project/src/components/ReportSummary.tsx:83-104 | The critical and total counters are the same whatever the scan returned |
| ReportSummary.ShippedSummaryCounters | project/src/components/ReportSummary.tsx:99-104 | With the shipped tables every completed scan shows one critical vulnerability and six issues |
| ReportSummary.SubdomainCounterMatchesTable | project/src/components/ReportSummary.tsx:112 | The subdomain counter equals the table's "Subdomains Found" cell |
| ReportSummary.PortCounterMatchesTable | project/src/components/ReportSummary.tsx:108 | The port counter is the number of ports the table's "Open Ports" cell joins |
| ReportSummary.ShippedScenario | project/src/components/ReportSummary.tsx:104 | A scan with one vulnerability and one misconfiguration is shown as six issues |
| ReportSummary.IntendedSummary | project/src/components/ReportSummary.tsx:94-104 | The corrected summary: same gating and port/subdomain counters as shipped |
| ReportSummary.IntendedSummaryDescribesScan | project/src/components/ReportSummary.tsx:97-104 | Corrected counters: critical is the severe tally of the scan's vulnerabilities, at most the total, and the total is the sum of the bars |
| ReportSummary.IntendedSummaryOfNonObject | project/src/components/ReportSummary.tsx:108-112 | A non-object result shows all four counters as zero under the correction |
| ReportSummary.IntendedScenario | project/src/components/ReportSummary.tsx:97-104 | One severe-pattern vulnerability and one misconfiguration give one critical and two issues |
| ReportSummary.ShippedIntendedScenario | project/src/components/ReportSummary.tsx:97-104 | The scan with "Remote Code Execution" and "Open Ports" gives one critical and two issues under the correction |
| ScanDomain.SubmitTransition | project/src/pages/ScanDomain.tsx:40-49 | Submit is possible iff mounted, not scanning and a domain is entered; it clears error and results, resets progress, sets the initial task and scanning, sends the request |
| ScanDomain.SubmitSucceededTransition | project/src/pages/ScanDomain.tsx:49-50 | A successful start stores the id and changes no displayed field |
| ScanDomain.SubmitFailedTransition | project/src/pages/ScanDomain.tsx:51-54 | A failed start shows the fixed message, stops scanning, keeps the scan id and the socket |
| ScanDomain.ProgressTransition | project/src/pages/ScanDomain.tsx:22-25 | Progress arrives only on an open socket and changes only progress and task label |
| ScanDomain.CompleteTransition | project/src/pages/ScanDomain.tsx:27-32 | Completion stores the object (or the parsed text) and stops scanning; progress and task keep their values; unparseable text changes nothing |
| ScanDomain.CompletePayloadEncodings | project/src/pages/ScanDomain.tsx:29 | Results sent as JSON text have the same effect as the object they encode |
| ScanDomain.SocketOutlivesCompletion | project/src/pages/ScanDomain.tsx:27-36 | Completion neither closes the socket nor opens another |
| ScanDomain.OldScanProgressDuringResubmission | project/src/pages/ScanDomain.tsx:40-50 | After a re-submission and before its response, the old socket is still open and its progress is shown |
| ScanDomain.SetScanIdSockets | project/src/pages/ScanDomain.tsx:14-38 | A new scan id closes the old socket, then opens one for a non-empty id, never two at once |
| ScanDomain.NewIdReplacesSocket | project/src/pages/ScanDomain.tsx:14-38 | A different non-empty id gives exactly: disconnect the old socket, then connect the new one |
| ScanDomain.StepSockets | project/src/pages/ScanDomain.tsx:14-55 | Every event keeps the socket tied to the current id, and its socket operations account exactly for the change with at most one open |
| ScanDomain.RunSockets | project/src/pages/ScanDomain.tsx:14-38 | The same over any sequence of events |
| ScanDomain.AtMostOneSocket | project/src/pages/ScanDomain.tsx:14-38 | From the first render, at every moment of any run at most one socket is open (each closed before the next opens), and at the end it is joined to the current non-empty scan id |
| ScanDomain.NothingAfterUnmount | project/src/pages/ScanDomain.tsx:34-36 | After unmount no event opens a socket or changes the displayed state |
| ScanDomain.SubmitIffButtonEnabled | project/src/pages/ScanDomain.tsx:135-142 | With a domain entered, submit is possible exactly when the button is enabled |
| ScanDomain.ViewAfterSubmit | project/src/pages/ScanDomain.tsx:128-154 | After submit: disabled "Scanning..." button, no error, initial task at 0%, no results section |
| ScanDomain.ResultsSectionShown | project/src/pages/ScanDomain.tsx:57-58 | The results section shows exactly when the results are truthy; `null` shows nothing |
| ScanDomain.RunCons | project/src/pages/ScanDomain.tsx:40-55 | Running an event then the rest is running the rest from the event's page, its effects first |
| ScanDomain.EndToEnd | project/src/pages/ScanDomain.tsx:40-55 | Submit, id "abc123", progress 40%, completion: finished page with the results, the socket still joined, one connect |
| FixJsonFormatting.FirstReplacementIsIdentity | project/fix_json_formatting.py:20 | The first replacement writes back what it finds, so only the last two change anything |
| FixJsonFormatting.RepairLength | project/fix_json_formatting.py:20 | Each `" ` replaced adds two characters and each `} ` in the intermediate text adds one |
| FixJsonFormatting.RepairNeverShrinks | project/fix_json_formatting.py:20 | The repaired text is never shorter |
| FixJsonFormatting.RepairChangesIffPattern | project/fix_json_formatting.py:20 | The repair changes the text exactly when it contains `" ` or `} ` |
| FixJsonFormatting.UpdateWhere | project/fix_json_formatting.py:22 | Every row with the id gets the new text; all other rows and all ids are unchanged |
| FixJsonFormatting.PassUpTo | project/fix_json_formatting.py:13-23 | The pass never adds or removes rows |
| FixJsonFormatting.Reference | project/fix_json_formatting.py:13-27 | The final table has as many rows as the fetched one |
| FixJsonFormatting.Fix | project/fix_json_formatting.py:4-27 | The loop computes the reference outcome, and it commits exactly when no text is `NULL` |
| FixJsonFormatting.NullStopsPass | project/fix_json_formatting.py:14-17 | A `NULL` text stops the pass for good: `TypeError` escapes the `except JSONDecodeError` |
| FixJsonFormatting.PassKeepsIds | project/fix_json_formatting.py:22 | The pass never changes a row's scan id |
| FixJsonFormatting.PassLog | project/fix_json_formatting.py:13-23 | The printed ids are those of the records failing the check, in order |
| FixJsonFormatting.PassUntouched | project/fix_json_formatting.py:13-22 | A row whose id no failing record shares is never rewritten |
| FixJsonFormatting.CommitIffNoNull | project/fix_json_formatting.py:13-27 | The script commits exactly when no text is `NULL`; otherwise the table is left as it was |
| FixJsonFormatting.CommittedRun | project/fix_json_formatting.py:13-23 | A committed run keeps rows and ids, prints exactly the failing ids, and rewrites no row whose id no failing record shares |
| FixJsonFormatting.CommittedRunDistinctIds | project/fix_json_formatting.py:13-22 | With distinct ids, exactly the failing rows get their repaired text |
| FixJsonFormatting.AllValidUnchanged | project/fix_json_formatting.py:14-17 | A table whose texts all pass the check comes through unchanged, with nothing printed |
| Text.ContainsIsSubstring | project/src/components/ReportPieChart.tsx:51 | `includes` holds exactly when the pattern occurs at some position |
| Text.LowerIdempotent | project/src/components/ReportPieChart.tsx:47 | Lower-casing twice is lower-casing once |
| Text.JoinEmpty | project/src/components/ReportTable.tsx:106 | A join with a non-empty separator is empty exactly for no elements or one empty element |
| Text.NatToDecimal | project/src/components/ReportTable.tsx:117 | A natural number's decimal text is a non-empty string of digits |
| Text.IntToDecimalRoundTrip | project/src/components/ReportTable.tsx:117 | Reading back the decimal text of an integer gives the integer |
| Text.FirstField | project/src/components/ReportPieChart.tsx:86 | `split(" ")[0]` is a prefix without spaces, ending at the first space or the end |
| Text.ReplaceFirstAbsent | project/src/components/ReportPieChart.tsx:86 | `replace` leaves a string without the pattern unchanged |
| Text.ReplaceAllLength | project/fix_json_formatting.py:20 | Each replaced occurrence changes the length by the replacement's length minus the pattern's |
| Text.ReplaceAllSelf | project/fix_json_formatting.py:20 | Replacing a pattern by itself is the identity |
| Text.OccurrencesPositive | project/fix_json_formatting.py:20 | A pattern is replaced at least once exactly when it occurs |
| Text.ReplaceAllAbsent | project/fix_json_formatting.py:20 | A string without the pattern comes back unchanged |

## Left out

- Case conversion is ASCII only. `toLowerCase`/`toUpperCase` in JavaScript follow Unicode, where a character may change length or map onto ASCII letters (`ß` upper-cases to `SS`, the ligature `ﬁ` to `FI`); names with such characters may classify differently from the model.
- ReportPieChart.GetSeverityIgnoresCase: the upper-case half holds for ASCII case mapping only. With JavaScript's Unicode mapping, "Cross-Site Scripting (Xß)" is low but its upper-cased form "CROSS-SITE SCRIPTING (XSS)" is medium; the code itself only lower-cases, so only the lower-case half is what the code relies on.
- `JSON.parse` and `json.loads` are parameters: a parse function that may fail, and a validity predicate. Their grammar is not modelled.
- The results section's per-field rendering (`renderValue`, `JSON.stringify`) is not modelled. Only whether the section appears is modelled.
- Markup, Tailwind classes, Chart.js options, the bar chart's fixed colours and `severityColorMapForTable` are presentation only.
- The socket's `connect` handler that emits `join_scan` is folded into the `Connect(id)` effect. Socket.IO reconnection is not modelled.
- The HTTP request is the `PostStart` effect. Its response is a separate `SubmitSucceeded`/`SubmitFailed` event, which may arrive after socket events. Request contents beyond the domain are not modelled.
- Progress percentages and port numbers are integers. JavaScript numbers are floating point, and a non-integer value would print differently.
- An absent (`undefined`) finding list is `None` and counts as empty. A `null` list would throw in the chart component; this is not modelled.
- `console.log` in the report table is omitted. The script's `print` lines are returned as the list of ids they name.
- The script's database is a sequence of `(scan_id, results)` records. Connection failures and SQL errors other than the `NULL` text are not modelled.
- Object key order is taken to be the order the tables are written in, which is what JavaScript gives for these string keys.
- ReportPieChart.GenerateChartData: its own contract gives only the lengths. Contents and sums are stated by `ChartSlices` and `PieSumIsTotal`.
- The server (`main.py`), `api.ts`, `socket.js`, the loggers, `db.py` and the unused `constants.ts` are not part of this model.

## Findings

| source | as written | input that shows it | evidently intended | confidence | as-written member | corrected member |
|---|---|---|---|---|---|---|
| project/src/components/ReportSummary.tsx:83-104 | "Critical Vulnerabilities" is the size of the static table's severe list, and "Total Issues" is the number of patterns in both static tables; neither reads the scan | a completed scan reporting vulnerabilities ["Remote Code Execution"] and misconfigurations ["Open Ports"] shows 6 issues (any scan shows 1 and 6) | count the scan's own findings: 1 critical, 2 issues | not executed; high, since the counters never read `results` | ReportSummary.ShippedScenario | ReportSummary.ShippedIntendedScenario |
