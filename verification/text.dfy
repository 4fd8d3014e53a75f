/** The string operations the front end and the repair script rely on, stated over
    `seq<char>`: case conversion, substring search, `Array.prototype.join`,
    number-to-string conversion, JavaScript's `String.prototype.replace` and
    `split(" ")[0]`, and Python's `str.replace`. */
module Text {

  // ---------------------------------------------------------------------------
  // Case conversion (ASCII letters only)
  // ---------------------------------------------------------------------------

  function LowerChar(c: char): char {
    if 'A' <= c <= 'Z' then (c as int + 32) as char else c
  }

  function UpperChar(c: char): char {
    if 'a' <= c <= 'z' then (c as int - 32) as char else c
  }

  /** `s.toLowerCase()` */
  function Lower(s: string): string {
    seq(|s|, i requires 0 <= i < |s| => LowerChar(s[i]))
  }

  /** `s.toUpperCase()` */
  function Upper(s: string): string {
    seq(|s|, i requires 0 <= i < |s| => UpperChar(s[i]))
  }

  /** Lower-casing twice is lower-casing once. */
  lemma LowerIdempotent(s: string)
    ensures Lower(Lower(s)) == Lower(s)
  {
    assert forall i :: 0 <= i < |s| ==> LowerChar(LowerChar(s[i])) == LowerChar(s[i]);
  }

  /** Lower-casing forgets an earlier upper-casing. */
  lemma LowerOfUpper(s: string)
    ensures Lower(Upper(s)) == Lower(s)
  {
    assert forall i :: 0 <= i < |s| ==> LowerChar(UpperChar(s[i])) == LowerChar(s[i]);
  }

  // ---------------------------------------------------------------------------
  // Substrings
  // ---------------------------------------------------------------------------

  /** `p` occurs somewhere in `s` (the empty pattern occurs everywhere). */
  ghost predicate IsSubstring(p: string, s: string) {
    exists k :: 0 <= k <= |s| && p <= s[k..]
  }

  /** `s.includes(p)`, computed by trying every start position from the left. */
  function Contains(s: string, p: string): bool
    decreases |s|
  {
    p <= s || (s != [] && Contains(s[1..], p))
  }

  lemma {:induction false} ContainsIsSubstring(s: string, p: string)
    ensures Contains(s, p) <==> IsSubstring(p, s)
    decreases |s|
  {
    if p <= s {
      assert p <= s[0..];
    } else if s == [] {
      assert forall k :: 0 <= k <= |s| ==> s[k..] == s;
    } else {
      ContainsIsSubstring(s[1..], p);
      if IsSubstring(p, s) {
        var k :| 0 <= k <= |s| && p <= s[k..];
        assert k != 0;
        assert s[1..][k - 1..] == s[k..];
      }
      if IsSubstring(p, s[1..]) {
        var k :| 0 <= k <= |s[1..]| && p <= s[1..][k..];
        assert s[1..][k..] == s[k + 1..];
      }
    }
  }

  // ---------------------------------------------------------------------------
  // Array.prototype.join
  // ---------------------------------------------------------------------------

  /** `xs.join(sep)` */
  function Join(xs: seq<string>, sep: string): string {
    if |xs| == 0 then ""
    else if |xs| == 1 then xs[0]
    else xs[0] + sep + Join(xs[1..], sep)
  }

  /** With a non-empty separator, a join is empty exactly when there is nothing
      to join or the only element is itself empty. */
  lemma {:induction false} JoinEmpty(xs: seq<string>, sep: string)
    requires sep != ""
    ensures Join(xs, sep) == "" <==> |xs| == 0 || (|xs| == 1 && xs[0] == "")
  {
    if |xs| >= 2 {
      assert |Join(xs, sep)| >= |sep|;
    }
  }

  // ---------------------------------------------------------------------------
  // Number to string
  // ---------------------------------------------------------------------------

  function DigitChar(d: nat): char
    requires d < 10
  {
    ('0' as int + d) as char
  }

  function DigitValue(c: char): nat {
    if '0' <= c <= '9' then c as int - '0' as int else 0
  }

  /** Decimal digits of a natural number, most significant first, no leading zero. */
  function NatToDecimal(n: nat): (r: string)
    ensures |r| >= 1
    ensures forall i :: 0 <= i < |r| ==> '0' <= r[i] <= '9'
    decreases n
  {
    if n < 10 then [DigitChar(n)] else NatToDecimal(n / 10) + [DigitChar(n % 10)]
  }

  /** `String(n)` for an integer-valued JavaScript number. */
  function IntToDecimal(n: int): (r: string)
    ensures r != ""
  {
    if n < 0 then "-" + NatToDecimal(-n) else NatToDecimal(n)
  }

  /** The value of a string of decimal digits. */
  function DecimalValue(s: string): nat
    decreases |s|
  {
    if s == [] then 0 else DecimalValue(s[..|s| - 1]) * 10 + DigitValue(s[|s| - 1])
  }

  /** The value of an optionally '-'-prefixed decimal numeral. */
  function SignedDecimalValue(s: string): int {
    if s != [] && s[0] == '-' then 0 - DecimalValue(s[1..]) as int else DecimalValue(s)
  }

  lemma DigitRoundTrip(d: nat)
    requires d < 10
    ensures DigitValue(DigitChar(d)) == d
  {
  }

  lemma {:induction false} NatToDecimalRoundTrip(n: nat)
    ensures DecimalValue(NatToDecimal(n)) == n
    decreases n
  {
    if n < 10 {
      DigitRoundTrip(n);
      assert NatToDecimal(n)[..0] == [];
    } else {
      var q, d := n / 10, n % 10;
      NatToDecimalRoundTrip(q);
      DigitRoundTrip(d);
      var r := NatToDecimal(n);
      assert r == NatToDecimal(q) + [DigitChar(d)];
      assert r[..|r| - 1] == NatToDecimal(q);
      assert DecimalValue(r) == q * 10 + d;
    }
  }

  lemma SignedDecimalOfNegative(digits: string)
    ensures SignedDecimalValue("-" + digits) == 0 - DecimalValue(digits) as int
  {
    assert ("-" + digits)[1..] == digits;
  }

  lemma SignedDecimalOfDigits(digits: string)
    requires digits != [] && '0' <= digits[0] <= '9'
    ensures SignedDecimalValue(digits) == DecimalValue(digits)
  {
  }

  /** Reading back the decimal text of an integer gives the integer. */
  lemma IntToDecimalRoundTrip(n: int)
    ensures SignedDecimalValue(IntToDecimal(n)) == n
  {
    if n < 0 {
      NatToDecimalRoundTrip(-n);
      SignedDecimalOfNegative(NatToDecimal(-n));
    } else {
      NatToDecimalRoundTrip(n);
      SignedDecimalOfDigits(NatToDecimal(n));
    }
  }

  // ---------------------------------------------------------------------------
  // JavaScript `replace` (first occurrence) and `split(sep)[0]`
  // ---------------------------------------------------------------------------

  /** `s.replace(pat, rep)` with a string pattern and a replacement without `$`
      (JavaScript gives `$&`, `$$` and the like a special meaning in `rep`):
      only the leftmost occurrence is replaced. */
  function ReplaceFirst(s: string, pat: string, rep: string): string
    decreases |s|
  {
    if pat <= s then rep + s[|pat|..]
    else if s == [] then []
    else [s[0]] + ReplaceFirst(s[1..], pat, rep)
  }

  lemma {:induction false} ReplaceFirstAbsent(s: string, pat: string, rep: string)
    requires !IsSubstring(pat, s)
    ensures ReplaceFirst(s, pat, rep) == s
    decreases |s|
  {
    assert s[0..] == s;
    if s != [] {
      assert !IsSubstring(pat, s[1..]) by {
        forall k | 0 <= k <= |s[1..]|
          ensures !(pat <= s[1..][k..])
        {
          assert s[1..][k..] == s[k + 1..];
        }
      }
      ReplaceFirstAbsent(s[1..], pat, rep);
    }
  }

  /** `s.split(sep)[0]`: everything before the first separator. */
  function FirstField(s: string, sep: char): (r: string)
    ensures r <= s && sep !in r
    ensures |r| < |s| ==> s[|r|] == sep
  {
    if s == [] then [] else if s[0] == sep then [] else [s[0]] + FirstField(s[1..], sep)
  }

  // ---------------------------------------------------------------------------
  // Python `str.replace` (every occurrence)
  // ---------------------------------------------------------------------------

  /** `s.replace(pat, rep)` in Python: scan left to right, replace each
      occurrence and resume after it, so occurrences never overlap. */
  function ReplaceAll(s: string, pat: string, rep: string): string
    requires pat != ""
    decreases |s|
  {
    if s == [] then []
    else if pat <= s then rep + ReplaceAll(s[|pat|..], pat, rep)
    else [s[0]] + ReplaceAll(s[1..], pat, rep)
  }

  /** The number of occurrences `ReplaceAll` replaces (`s.count(pat)` in Python). */
  function Occurrences(s: string, pat: string): nat
    requires pat != ""
    decreases |s|
  {
    if s == [] then 0
    else if pat <= s then 1 + Occurrences(s[|pat|..], pat)
    else Occurrences(s[1..], pat)
  }

  lemma MulSuccessor(n: int, d: int)
    ensures (1 + n) * d == d + n * d
  {
  }

  /** Each replaced occurrence changes the length by `|rep| - |pat|`. */
  lemma {:induction false} ReplaceAllLength(s: string, pat: string, rep: string)
    requires pat != ""
    ensures |ReplaceAll(s, pat, rep)| == |s| + Occurrences(s, pat) * (|rep| - |pat|)
    decreases |s|
  {
    if s == [] {
    } else if pat <= s {
      var rest := s[|pat|..];
      ReplaceAllLength(rest, pat, rep);
      MulSuccessor(Occurrences(rest, pat), |rep| - |pat|);
    } else {
      ReplaceAllLength(s[1..], pat, rep);
    }
  }

  /** Replacing a pattern by itself is the identity. */
  lemma {:induction false} ReplaceAllSelf(s: string, p: string)
    requires p != ""
    ensures ReplaceAll(s, p, p) == s
    decreases |s|
  {
    if s == [] {
    } else if p <= s {
      ReplaceAllSelf(s[|p|..], p);
      assert s == p + s[|p|..];
    } else {
      ReplaceAllSelf(s[1..], p);
      assert s == [s[0]] + s[1..];
    }
  }

  /** A pattern is replaced at least once exactly when it occurs. */
  lemma {:induction false} OccurrencesPositive(s: string, pat: string)
    requires pat != ""
    ensures Occurrences(s, pat) > 0 <==> IsSubstring(pat, s)
    decreases |s|
  {
    assert s[0..] == s;
    if s == [] {
      assert forall k :: 0 <= k <= |s| ==> s[k..] == s;
    } else if pat <= s {
    } else {
      OccurrencesPositive(s[1..], pat);
      if IsSubstring(pat, s) {
        var k :| 0 <= k <= |s| && pat <= s[k..];
        assert k != 0;
        assert s[1..][k - 1..] == s[k..];
      }
      if IsSubstring(pat, s[1..]) {
        var k :| 0 <= k <= |s[1..]| && pat <= s[1..][k..];
        assert s[1..][k..] == s[k + 1..];
      }
    }
  }

  /** A string without the pattern comes back unchanged. */
  lemma {:induction false} ReplaceAllAbsent(s: string, pat: string, rep: string)
    requires pat != ""
    requires !IsSubstring(pat, s)
    ensures ReplaceAll(s, pat, rep) == s
    decreases |s|
  {
    assert s[0..] == s;
    if s != [] {
      assert !IsSubstring(pat, s[1..]) by {
        forall k | 0 <= k <= |s[1..]|
          ensures !(pat <= s[1..][k..])
        {
          assert s[1..][k..] == s[k + 1..];
        }
      }
      ReplaceAllAbsent(s[1..], pat, rep);
    }
  }
}
