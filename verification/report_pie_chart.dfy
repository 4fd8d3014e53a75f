/** The chart component: classifying a finding name into a severity bucket by
    ordered, case-insensitive substring matching against a category table,
    tallying a list of names per bucket, projecting the non-zero buckets into
    pie-chart data, and deciding whether the charts render at all. */
module ReportPieChart {
  import opened Wrappers
  import opened Text
  import opened ReportTable

  // ---------------------------------------------------------------------------
  // Classification
  // ---------------------------------------------------------------------------

  /** Some pattern of a bucket, lower-cased, occurs in the lower-cased name. */
  ghost predicate Matches(name: string, patterns: seq<string>) {
    exists i :: 0 <= i < |patterns| && IsSubstring(Lower(patterns[i]), Lower(name))
  }

  /** `r` is the bucket of the first table entry that matches the name, or `Low`
      when no entry matches. */
  ghost predicate IsFirstMatch(name: string, t: seq<(Severity, seq<string>)>, r: Severity) {
    || (exists i :: 0 <= i < |t| && t[i].0 == r && Matches(name, t[i].1) &&
          forall j :: 0 <= j < i ==> !Matches(name, t[j].1))
    || (r == Low && forall i :: 0 <= i < |t| ==> !Matches(name, t[i].1))
  }

  /** `patterns.some(p => lowerName.includes(p.toLowerCase()))` */
  function AnyPatternIn(lowerName: string, patterns: seq<string>): bool {
    exists i | 0 <= i < |patterns| :: Contains(lowerName, Lower(patterns[i]))
  }

  lemma AnyPatternInMatches(name: string, patterns: seq<string>)
    ensures AnyPatternIn(Lower(name), patterns) <==> Matches(name, patterns)
  {
    forall i | 0 <= i < |patterns|
      ensures Contains(Lower(name), Lower(patterns[i])) <==> IsSubstring(Lower(patterns[i]), Lower(name))
    {
      ContainsIsSubstring(Lower(name), Lower(patterns[i]));
    }
  }

  /** The loop over `Object.keys(categoryMap)` with its early return. */
  function FirstBucket(lowerName: string, t: seq<(Severity, seq<string>)>): Severity {
    if t == [] then Low
    else if AnyPatternIn(lowerName, t[0].1) then t[0].0
    else FirstBucket(lowerName, t[1..])
  }

  lemma {:induction false} FirstBucketIsFirstMatch(name: string, t: seq<(Severity, seq<string>)>)
    ensures IsFirstMatch(name, t, FirstBucket(Lower(name), t))
  {
    if t != [] {
      AnyPatternInMatches(name, t[0].1);
      if !AnyPatternIn(Lower(name), t[0].1) {
        var r := FirstBucket(Lower(name), t[1..]);
        FirstBucketIsFirstMatch(name, t[1..]);
        if exists i :: 0 <= i < |t[1..]| && t[1..][i].0 == r && Matches(name, t[1..][i].1) &&
            forall j :: 0 <= j < i ==> !Matches(name, t[1..][j].1) {
          var i :| 0 <= i < |t[1..]| && t[1..][i].0 == r && Matches(name, t[1..][i].1) &&
            forall j :: 0 <= j < i ==> !Matches(name, t[1..][j].1);
          assert t[i + 1] == t[1..][i];
          forall j | 0 <= j < i + 1
            ensures !Matches(name, t[j].1)
          {
            if j > 0 {
              assert t[j] == t[1..][j - 1];
            }
          }
        } else {
          forall i | 0 <= i < |t|
            ensures !Matches(name, t[i].1)
          {
            if i > 0 {
              assert t[i] == t[1..][i - 1];
            }
          }
        }
      }
    }
  }

  /** `getSeverity(name, categoryMap)` */
  function GetSeverity(name: string, t: CategoryTable): Severity {
    FirstBucket(Lower(name), t)
  }

  /** The bucket `getSeverity` returns is the first one, in the table's key
      order, with a pattern that is a case-insensitive substring of the name,
      and `Low` when there is none. */
  lemma GetSeverityIsFirstMatch(name: string, t: CategoryTable)
    ensures IsFirstMatch(name, t, GetSeverity(name, t))
  {
    FirstBucketIsFirstMatch(name, t);
  }

  /** Classification ignores case: a name and its lower-cased form land in the
      same bucket, and so does its upper-cased form under the model's ASCII
      case mapping. */
  lemma GetSeverityIgnoresCase(name: string, t: CategoryTable)
    ensures GetSeverity(Lower(name), t) == GetSeverity(name, t)
    ensures GetSeverity(Upper(name), t) == GetSeverity(name, t)
  {
    LowerIdempotent(name);
    LowerOfUpper(name);
  }

  /** A name that is itself one of the first bucket's patterns lands in the
      first bucket. */
  lemma PatternOfFirstBucket(name: string, t: CategoryTable)
    requires |t| > 0 && name in t[0].1
    ensures GetSeverity(name, t) == t[0].0
  {
    var i :| 0 <= i < |t[0].1| && t[0].1[i] == name;
    assert Contains(Lower(name), Lower(t[0].1[i]));
  }

  /** With the shipped vulnerability table the buckets are tried severe, then
      medium, then low, and anything unmatched is low. */
  lemma {:induction false} ShippedVulnerabilityClassification(name: string)
    ensures GetSeverity(name, Vulnerabilities) == Severe <==> Matches(name, ["Remote Code Execution"])
    ensures GetSeverity(name, Vulnerabilities) == Medium <==>
      !Matches(name, ["Remote Code Execution"]) && Matches(name, ["Cross-Site Scripting (XSS)"])
    ensures GetSeverity(name, Vulnerabilities) == Low <==>
      !Matches(name, ["Remote Code Execution"]) && !Matches(name, ["Cross-Site Scripting (XSS)"])
  {
    var t := Vulnerabilities;
    var r := GetSeverity(name, t);
    GetSeverityIsFirstMatch(name, t);
    assert t[0].0 == Severe && t[1].0 == Medium && t[2].0 == Low;
    if exists i :: 0 <= i < |t| && t[i].0 == r && Matches(name, t[i].1) &&
        forall j :: 0 <= j < i ==> !Matches(name, t[j].1) {
      var i :| 0 <= i < |t| && t[i].0 == r && Matches(name, t[i].1) &&
        forall j :: 0 <= j < i ==> !Matches(name, t[j].1);
      assert i == 0 || !Matches(name, t[0].1);
      assert i == 2 ==> !Matches(name, t[1].1);
    } else {
      assert !Matches(name, t[0].1) && !Matches(name, t[1].1);
    }
  }

  // ---------------------------------------------------------------------------
  // Tallies
  // ---------------------------------------------------------------------------

  datatype SeverityData = SeverityData(severe: nat, medium: nat, low: nat) {

    function Get(s: Severity): nat {
      match s
      case Severe => severe
      case Medium => medium
      case Low => low
    }

    function Total(): nat {
      severe + medium + low
    }

    predicate AllZero() {
      severe == 0 && medium == 0 && low == 0
    }
  }

  /** A list parameter that defaults to `[]` when absent. */
  function OrEmpty(xs: Option<seq<string>>): seq<string> {
    if xs.Some? then xs.value else []
  }

  const NoFindings := SeverityData(0, 0, 0)

  /** One step of the `reduce`: an empty name is skipped, any other adds one
      to the bucket it classifies into. */
  function CountStep(acc: SeverityData, item: string, t: CategoryTable): SeverityData {
    if item == "" then acc
    else match GetSeverity(item, t)
      case Severe => acc.(severe := acc.severe + 1)
      case Medium => acc.(medium := acc.medium + 1)
      case Low => acc.(low := acc.low + 1)
  }

  /** 1 when the name is non-empty and classifies into bucket `b`, else 0. */
  function Counted(item: string, t: CategoryTable, b: Severity): nat {
    if item != "" && GetSeverity(item, t) == b then 1 else 0
  }

  /** Reference count: how many non-empty names classify into bucket `b`. */
  function Tally(items: seq<string>, t: CategoryTable, b: Severity): nat {
    if items == [] then 0 else Counted(items[0], t, b) + Tally(items[1..], t, b)
  }

  /** How many names are non-empty. */
  function NonEmptyCount(items: seq<string>): nat {
    if items == [] then 0 else (if items[0] != "" then 1 else 0) + NonEmptyCount(items[1..])
  }

  lemma {:induction false} TallyAppend(a: seq<string>, b: seq<string>, t: CategoryTable, s: Severity)
    ensures Tally(a + b, t, s) == Tally(a, t, s) + Tally(b, t, s)
  {
    if a != [] {
      TallyAppend(a[1..], b, t, s);
      assert (a + b)[1..] == a[1..] + b;
    } else {
      assert a + b == b;
    }
  }

  /** Appending one name adds it to its bucket's count, if it is non-empty. */
  lemma TallyAppendOne(items: seq<string>, item: string, t: CategoryTable)
    ensures forall b :: Tally(items + [item], t, b) == Tally(items, t, b) + Counted(item, t, b)
  {
    forall b | true
      ensures Tally(items + [item], t, b) == Tally(items, t, b) + Counted(item, t, b)
    {
      TallyAppend(items, [item], t, b);
      assert [item][1..] == [];
    }
  }

  /** `items.reduce(step, {severe: 0, medium: 0, low: 0})`: the fold over every
      name but the last, followed by one step for the last name. */
  function Reduce(items: seq<string>, t: CategoryTable): (r: SeverityData)
    ensures forall b :: r.Get(b) == Tally(items, t, b)
    decreases |items|
  {
    if items == [] then NoFindings
    else
      var init, last := items[..|items| - 1], items[|items| - 1];
      assert items == init + [last];
      TallyAppendOne(init, last, t);
      CountStep(Reduce(init, t), last, t)
  }

  /** Every non-empty name lands in exactly one bucket. */
  lemma {:induction false} TallyTotal(items: seq<string>, t: CategoryTable)
    ensures Tally(items, t, Severe) + Tally(items, t, Medium) + Tally(items, t, Low) == NonEmptyCount(items)
  {
    if items != [] {
      TallyTotal(items[1..], t);
    }
  }

  /** Nothing is counted exactly when every name is empty. */
  lemma {:induction false} NonEmptyCountZero(items: seq<string>)
    ensures NonEmptyCount(items) == 0 <==> forall i :: 0 <= i < |items| ==> items[i] == ""
    ensures NonEmptyCount(items) <= |items|
    ensures NonEmptyCount(items) == |items| <==> "" !in items
  {
    if items != [] {
      NonEmptyCountZero(items[1..]);
      assert forall i :: 1 <= i < |items| ==> items[i] == items[1..][i - 1];
      assert "" in items <==> items[0] == "" || "" in items[1..];
    }
  }

  /** `countSeveritiesByCategory(items, categoryMap)`: an absent list counts as
      empty; each bucket holds the number of non-empty names classified into it,
      and the buckets together hold every non-empty name (`CountTotal`). */
  function CountSeveritiesByCategory(items: Option<seq<string>>, t: CategoryTable): (r: SeverityData)
    ensures forall b :: r.Get(b) == Tally(OrEmpty(items), t, b)

  {
    Reduce(OrEmpty(items), t)
  }

  /** An absent list tallies to zero in every bucket. */
  lemma CountAbsentList(t: CategoryTable)
    ensures CountSeveritiesByCategory(None, t) == NoFindings
  {
    var r := CountSeveritiesByCategory(None, t);
    assert r.Get(Severe) == 0 && r.Get(Medium) == 0 && r.Get(Low) == 0;
  }

  /** The three tallies together count every non-empty name once. */
  lemma CountTotal(items: Option<seq<string>>, t: CategoryTable)
    ensures CountSeveritiesByCategory(items, t).Total() == NonEmptyCount(OrEmpty(items))
  {
    TallyTotal(OrEmpty(items), t);
  }

  /** Appending one name adds 1 to its bucket and nothing elsewhere; appending
      an empty name changes nothing. */
  lemma CountAppendOne(items: seq<string>, item: string, t: CategoryTable)
    ensures forall b ::
      CountSeveritiesByCategory(Some(items + [item]), t).Get(b) ==
      CountSeveritiesByCategory(Some(items), t).Get(b) + Counted(item, t, b)
  {
    TallyAppendOne(items, item, t);
  }

  /** Taking the name at position `k` out of a list removes exactly its own
      contribution from each tally. */
  lemma TallyWithout(b: seq<string>, k: nat, t: CategoryTable, s: Severity)
    requires k < |b|
    ensures Tally(b, t, s) == Tally(b[..k] + b[k + 1..], t, s) + Counted(b[k], t, s)
  {
    assert b == b[..k] + ([b[k]] + b[k + 1..]);
    TallyAppend(b[..k], [b[k]] + b[k + 1..], t, s);
    TallyAppend(b[..k], b[k + 1..], t, s);
    assert ([b[k]] + b[k + 1..])[1..] == b[k + 1..];
  }

  /** Removing the same name from two rearrangements of one list leaves two
      rearrangements of each other. */
  lemma MultisetWithout(a: seq<string>, b: seq<string>, k: nat)
    requires multiset(a) == multiset(b) && a != [] && k < |b| && b[k] == a[0]
    ensures multiset(a[1..]) == multiset(b[..k] + b[k + 1..])
  {
    assert a == [a[0]] + a[1..];
    assert b == b[..k] + [b[k]] + b[k + 1..];
    assert multiset(a) == multiset{a[0]} + multiset(a[1..]);
    assert multiset(b) == multiset(b[..k]) + multiset{b[k]} + multiset(b[k + 1..]);
    assert multiset(b[..k] + b[k + 1..]) == multiset(b[..k]) + multiset(b[k + 1..]);
    assert multiset(a[1..]) == multiset(a) - multiset{a[0]};
  }

  /** Two lists holding the same names, in any order, tally alike. */
  lemma {:induction false} TallyPermutation(a: seq<string>, b: seq<string>, t: CategoryTable, s: Severity)
    requires multiset(a) == multiset(b)
    ensures Tally(a, t, s) == Tally(b, t, s)
    decreases |a|
  {
    if a == [] {
      assert |b| == |multiset(b)| == 0;
    } else {
      assert a[0] in multiset(b);
      var k :| 0 <= k < |b| && b[k] == a[0];
      MultisetWithout(a, b, k);
      TallyPermutation(a[1..], b[..k] + b[k + 1..], t, s);
      TallyWithout(b, k, t, s);
    }
  }

  /** The tallies do not depend on the order in which the names arrive: any
      rearrangement of the list gives the same counts. */
  lemma CountOrderIrrelevant(a: seq<string>, b: seq<string>, t: CategoryTable)
    requires multiset(a) == multiset(b)
    ensures CountSeveritiesByCategory(Some(a), t) == CountSeveritiesByCategory(Some(b), t)
  {
    var x := CountSeveritiesByCategory(Some(a), t);
    var y := CountSeveritiesByCategory(Some(b), t);
    TallyPermutation(a, b, t, Severe);
    TallyPermutation(a, b, t, Medium);
    TallyPermutation(a, b, t, Low);
    assert x.severe == x.Get(Severe) == y.Get(Severe) == y.severe;
    assert x.medium == x.Get(Medium) == y.Get(Medium) == y.medium;
    assert x.low == x.Get(Low) == y.Get(Low) == y.low;
  }

  // ---------------------------------------------------------------------------
  // Pie-chart data
  // ---------------------------------------------------------------------------

  /** A bucket, if its count is positive. */
  function IfPositive(d: SeverityData, b: Severity): seq<Severity> {
    if d.Get(b) > 0 then [b] else []
  }

  /** `Object.entries(severityData).filter(([, value]) => value > 0)`: the
      buckets with a positive count, in severe, medium, low order. */
  function NonZeroBuckets(d: SeverityData): (es: seq<Severity>)
    ensures forall b :: b in es <==> d.Get(b) > 0
    ensures forall i, j :: 0 <= i < j < |es| ==> Rank(es[i]) < Rank(es[j])
  {
    IfPositive(d, Severe) + IfPositive(d, Medium) + IfPositive(d, Low)
  }

  /** `key.charAt(0).toUpperCase() + key.slice(1)` */
  function Capitalize(s: string): string {
    if s == [] then [] else [UpperChar(s[0])] + s[1..]
  }

  function Label(b: Severity): string {
    Capitalize(Key(b))
  }

  /** A chart label starts with a capital letter and lower-cases back to the
      bucket's key. */
  lemma LabelRoundTrip(b: Severity)
    ensures |Label(b)| > 0 && 'A' <= Label(b)[0] <= 'Z'
    ensures Lower(Label(b)) == Key(b)
  {
    match b
    case Severe => assert Label(b) == "Severe";
    case Medium => assert Label(b) == "Medium";
    case Low => assert Label(b) == "Low";
  }

  /** `color?.split(" ")[0].replace("bg-", "#") || "#ccc"` */
  function ChartColor(color: string): string {
    var c := ReplaceFirst(FirstField(color, ' '), "bg-", "#");
    if c == "" then "#ccc" else c
  }

  /** A non-empty colour with no space and no `bg-` in it passes through
      unchanged. */
  lemma PlainColorUnchanged(c: string)
    requires c != "" && ' ' !in c && !IsSubstring("bg-", c)
    ensures ChartColor(c) == c
  {
    assert FirstField(c, ' ') == c;
    ReplaceFirstAbsent(c, "bg-", "#");
  }

  /** A string without the letter `b` cannot contain `bg-`. */
  lemma NoBgWithoutB(c: string)
    requires 'b' !in c
    ensures !IsSubstring("bg-", c)
  {
    forall k | 0 <= k <= |c|
      ensures !("bg-" <= c[k..])
    {
      assert k < |c| ==> c[k..][0] == c[k];
    }
  }

  /** The shipped colour map already holds plain hex codes, which the chart
      passes through unchanged. */
  lemma ShippedChartColors(b: Severity)
    ensures ChartColor(SeverityColor(b)) == SeverityColor(b)
  {
    NoBgWithoutB(SeverityColor(b));
    PlainColorUnchanged(SeverityColor(b));
  }

  function Labels(es: seq<Severity>): (r: seq<string>)
    ensures |r| == |es| && forall i :: 0 <= i < |es| ==> r[i] == Label(es[i])
  {
    if es == [] then [] else [Label(es[0])] + Labels(es[1..])
  }

  function Counts(es: seq<Severity>, d: SeverityData): (r: seq<nat>)
    ensures |r| == |es| && forall i :: 0 <= i < |es| ==> r[i] == d.Get(es[i])
  {
    if es == [] then [] else [d.Get(es[0])] + Counts(es[1..], d)
  }

  function Colors(es: seq<Severity>): (r: seq<string>)
    ensures |r| == |es| && forall i :: 0 <= i < |es| ==> r[i] == ChartColor(SeverityColor(es[i]))
  {
    if es == [] then [] else [ChartColor(SeverityColor(es[0]))] + Colors(es[1..])
  }

  function Sum(xs: seq<nat>): nat {
    if xs == [] then 0 else xs[0] + Sum(xs[1..])
  }

  lemma {:induction false} SumAppend(a: seq<nat>, b: seq<nat>)
    ensures Sum(a + b) == Sum(a) + Sum(b)
  {
    if a == [] {
      assert a + b == b;
    } else {
      SumAppend(a[1..], b);
      assert (a + b)[1..] == a[1..] + b;
    }
  }

  lemma SumOfPart(d: SeverityData, b: Severity)
    ensures Sum(Counts(IfPositive(d, b), d)) == d.Get(b)
  {
    if d.Get(b) > 0 {
      assert Counts(IfPositive(d, b), d) == [d.Get(b)];
      assert [d.Get(b)][1..] == [];
    }
  }

  /** The slices of a pie add up to the tally's total. */
  lemma ChartSumIsTotal(d: SeverityData)
    ensures Sum(Counts(NonZeroBuckets(d), d)) == d.Total()
  {
    var a := IfPositive(d, Severe);
    var b := IfPositive(d, Medium);
    var c := IfPositive(d, Low);
    assert Counts(a + b + c, d) == Counts(a, d) + Counts(b, d) + Counts(c, d);
    SumAppend(Counts(a, d), Counts(b, d));
    SumAppend(Counts(a, d) + Counts(b, d), Counts(c, d));
    SumOfPart(d, Severe);
    SumOfPart(d, Medium);
    SumOfPart(d, Low);
  }

  datatype ChartData = ChartData(labels: seq<string>, data: seq<nat>, colors: seq<string>)

  /** `generateChartData(severityData)`: one slice per non-empty bucket, with
      aligned labels, counts and colours (`ChartSlices`) that add up to the
      total count (`PieSumIsTotal`). */
  function GenerateChartData(d: SeverityData): (c: ChartData)
    ensures |c.labels| == |c.data| == |c.colors| == |NonZeroBuckets(d)|
  {
    var es := NonZeroBuckets(d);
    ChartData(Labels(es), Counts(es, d), Colors(es))
  }

  /** The slices of a pie add up to the tally's total. */
  lemma PieSumIsTotal(d: SeverityData)
    ensures Sum(GenerateChartData(d).data) == d.Total()
  {
    ChartSumIsTotal(d);
  }

  /** Slice `i` of a pie is the `i`-th non-empty bucket in severe, medium, low
      order: its count is positive and its label and colour are the bucket's. */
  lemma ChartSlices(d: SeverityData)
    ensures var c := GenerateChartData(d);
      forall i :: 0 <= i < |c.data| ==>
        c.data[i] > 0 &&
        c.data[i] == d.Get(NonZeroBuckets(d)[i]) &&
        c.labels[i] == Label(NonZeroBuckets(d)[i]) &&
        c.colors[i] == ChartColor(SeverityColor(NonZeroBuckets(d)[i]))
  {
    var es := NonZeroBuckets(d);
    assert forall i :: 0 <= i < |es| ==> es[i] in es;
  }

  // ---------------------------------------------------------------------------
  // The component
  // ---------------------------------------------------------------------------

  datatype ChartsView = ChartsView(
    barLabels: seq<string>,
    barTotals: seq<nat>,
    vulnerabilityPie: ChartData,
    misconfigurationPie: ChartData)

  /** A tally is all zero exactly when every name of the list is empty (an
      absent list counts as empty). */
  lemma TallyZeroIffNoNames(items: Option<seq<string>>, t: CategoryTable)
    ensures CountSeveritiesByCategory(items, t).AllZero() <==>
      forall i :: 0 <= i < |OrEmpty(items)| ==> OrEmpty(items)[i] == ""
  {
    var d := CountSeveritiesByCategory(items, t);
    CountTotal(items, t);
    NonEmptyCountZero(OrEmpty(items));
    assert d.AllZero() <==> d.Total() == 0;
  }

  /** A pie's slices add up to the number of non-empty names: at most its
      list's length, and exactly that length when no name is empty. */
  lemma PieTotalBound(items: Option<seq<string>>, t: CategoryTable)
    ensures Sum(GenerateChartData(CountSeveritiesByCategory(items, t)).data) == NonEmptyCount(OrEmpty(items))
    ensures Sum(GenerateChartData(CountSeveritiesByCategory(items, t)).data) <= |OrEmpty(items)|
    ensures Sum(GenerateChartData(CountSeveritiesByCategory(items, t)).data) == |OrEmpty(items)| <==>
      "" !in OrEmpty(items)
  {
    PieSumIsTotal(CountSeveritiesByCategory(items, t));
    NonEmptyCountZero(OrEmpty(items));
    CountTotal(items, t);
  }

  /** The bar chart of raw list lengths and one pie per list's tally: a bar
      counts every name, empty ones included, while its pie counts only the
      non-empty names, so the pie adds up to the bar's height exactly when no
      name is empty. */
  function ChartsOf(vulnerabilities: Option<seq<string>>, misconfigs: Option<seq<string>>,
                    vt: CategoryTable, mt: CategoryTable): (view: ChartsView)
    ensures view.barLabels == ["Vulnerabilities", "Misconfigurations"]
    ensures view.barTotals == [|OrEmpty(vulnerabilities)|, |OrEmpty(misconfigs)|]
    ensures view.vulnerabilityPie == GenerateChartData(CountSeveritiesByCategory(vulnerabilities, vt))
    ensures view.misconfigurationPie == GenerateChartData(CountSeveritiesByCategory(misconfigs, mt))
    ensures Sum(view.vulnerabilityPie.data) == NonEmptyCount(OrEmpty(vulnerabilities)) <= |OrEmpty(vulnerabilities)|
    ensures Sum(view.vulnerabilityPie.data) == |OrEmpty(vulnerabilities)| <==> "" !in OrEmpty(vulnerabilities)
    ensures Sum(view.misconfigurationPie.data) == NonEmptyCount(OrEmpty(misconfigs)) <= |OrEmpty(misconfigs)|
    ensures Sum(view.misconfigurationPie.data) == |OrEmpty(misconfigs)| <==> "" !in OrEmpty(misconfigs)
  {
    PieTotalBound(vulnerabilities, vt);
    PieTotalBound(misconfigs, mt);
    ChartsView(["Vulnerabilities", "Misconfigurations"],
               [|OrEmpty(vulnerabilities)|, |OrEmpty(misconfigs)|],
               GenerateChartData(CountSeveritiesByCategory(vulnerabilities, vt)),
               GenerateChartData(CountSeveritiesByCategory(misconfigs, mt)))
  }

  /** `ReportPieCharts({vulnerabilities, misconfigs})` against the category
      tables `vt` and `mt`: nothing is rendered exactly when both lists hold
      only empty names (or are absent), otherwise the charts. */
  function RenderChartsWith(vulnerabilities: Option<seq<string>>, misconfigs: Option<seq<string>>,
                            vt: CategoryTable, mt: CategoryTable): (r: Option<ChartsView>)
    ensures r.None? <==> (
      (forall i :: 0 <= i < |OrEmpty(vulnerabilities)| ==> OrEmpty(vulnerabilities)[i] == "") &&
      (forall i :: 0 <= i < |OrEmpty(misconfigs)| ==> OrEmpty(misconfigs)[i] == ""))
    ensures r.Some? ==> r.value == ChartsOf(vulnerabilities, misconfigs, vt, mt)
  {
    TallyZeroIffNoNames(vulnerabilities, vt);
    TallyZeroIffNoNames(misconfigs, mt);
    if CountSeveritiesByCategory(vulnerabilities, vt).AllZero() && CountSeveritiesByCategory(misconfigs, mt).AllZero()
    then None
    else Some(ChartsOf(vulnerabilities, misconfigs, vt, mt))
  }

  /** The component as shipped, classifying against the two static tables. */
  function RenderCharts(vulnerabilities: Option<seq<string>>, misconfigs: Option<seq<string>>): Option<ChartsView> {
    RenderChartsWith(vulnerabilities, misconfigs, Vulnerabilities, Misconfigurations)
  }
}
