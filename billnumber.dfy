/** Bill numbers: the prefix "AJ" followed by the counter in decimal, padded
    with '0' to at least three digits (`generateNextBillNumber`), and the
    inverse that `handleDeleteBill` applies: strip the prefix, `parseInt`. */
module BillNumbers {
  import opened Lists
  import opened Strings

  const Prefix: string := "AJ"
  const Padding: nat := 3

  predicate IsDigit(c: char) { '0' <= c <= '9' }

  predicate AllDigits(s: string)
  {
    forall i :: 0 <= i < |s| ==> IsDigit(s[i])
  }

  function DigitChar(d: nat): (c: char)
    requires d < 10
    ensures IsDigit(c)
  {
    "0123456789"[d]
  }

  function DigitValue(c: char): (d: nat)
    requires IsDigit(c)
    ensures d < 10
  {
    c as int - '0' as int
  }

  /** `n.toString()` for a non-negative integer. */
  function Decimal(n: nat): (r: string)
    ensures |r| >= 1 && AllDigits(r)
    ensures n < 10 <==> |r| == 1
  {
    if n < 10 then [DigitChar(n)] else Decimal(n / 10) + [DigitChar(n % 10)]
  }

  /** The number a string of decimal digits denotes. */
  function DigitsValue(s: string): nat
    requires AllDigits(s)
  {
    if s == [] then 0 else DigitsValue(s[..|s| - 1]) * 10 + DigitValue(s[|s| - 1])
  }

  lemma {:induction false} DecimalValue(n: nat)
    ensures DigitsValue(Decimal(n)) == n
  {
    if n >= 10 {
      var d := Decimal(n);
      assert d[..|d| - 1] == Decimal(n / 10);
      DecimalValue(n / 10);
    }
  }

  /** `count` copies of `fill`. */
  function Repeat(fill: char, count: nat): (r: string)
    ensures |r| == count && forall i :: 0 <= i < count ==> r[i] == fill
  {
    seq(count, _ => fill)
  }

  /** Leading zeros do not change the value of a digit string. */
  lemma {:induction false} LeadingZerosValue(k: nat, s: string)
    requires AllDigits(s)
    ensures AllDigits(Repeat('0', k) + s)
    ensures DigitsValue(Repeat('0', k) + s) == DigitsValue(s)
    decreases |s|, k
  {
    var z := Repeat('0', k);
    if s == [] {
      assert z + s == z;
      if k > 0 {
        assert z[..k - 1] == Repeat('0', k - 1);
        LeadingZerosValue(k - 1, s);
        assert Repeat('0', k - 1) + s == z[..k - 1];
      }
    } else {
      assert (z + s)[..|z + s| - 1] == z + s[..|s| - 1];
      LeadingZerosValue(k, s[..|s| - 1]);
    }
  }

  /** `s.padStart(width, fill)`. */
  function PadStart(s: string, width: nat, fill: char): (r: string)
    ensures |r| == if |s| >= width then |s| else width
    ensures r[|r| - |s|..] == s
    ensures forall i :: 0 <= i < |r| - |s| ==> r[i] == fill
  {
    Repeat(fill, if |s| >= width then 0 else width - |s|) + s
  }

  /** The bill number for counter value `n`. */
  function FormatBillNumber(n: nat): (r: string)
    ensures |r| >= |Prefix| + Padding && r[..|Prefix|] == Prefix
    ensures AllDigits(r[|Prefix|..])
  {
    Prefix + PadStart(Decimal(n), Padding, '0')
  }

  /** `pat` occurs in `s` starting at position `j`. */
  predicate OccursAt(s: string, pat: string, j: nat)
  {
    j + |pat| <= |s| && s[j..j + |pat|] == pat
  }

  /** Position of the first occurrence of `pat` in `s`, as `indexOf` finds it. */
  function IndexOf(s: string, pat: string): (r: Option<nat>)
    ensures r.Some? ==> OccursAt(s, pat, r.value)
    ensures r.Some? ==> forall j: nat :: j < r.value ==> !OccursAt(s, pat, j)
    ensures r.None? ==> forall j: nat :: !OccursAt(s, pat, j)
    decreases |s|
  {
    if |pat| <= |s| && s[..|pat|] == pat then Some(0)
    else if s == [] then None
    else
      assert forall j: nat | j >= 1 :: OccursAt(s, pat, j) <==> OccursAt(s[1..], pat, j - 1) by {
        forall j: nat | j >= 1 ensures OccursAt(s, pat, j) <==> OccursAt(s[1..], pat, j - 1) {
          if j + |pat| <= |s| {
            var here, there := s[j..j + |pat|], s[1..][j - 1..j - 1 + |pat|];
            assert here == there by {
              forall k | 0 <= k < |pat| ensures here[k] == there[k] { }
            }
          }
        }
      }
      assert !OccursAt(s, pat, 0);
      match IndexOf(s[1..], pat)
      case None => None
      case Some(i) => Some(i + 1)
  }

  /** `s.replace(pat, rep)` with a string pattern: only the first occurrence. */
  function ReplaceFirst(s: string, pat: string, rep: string): string
  {
    match IndexOf(s, pat)
    case None => s
    case Some(i) => s[..i] + rep + s[i + |pat|..]
  }

  /** The longest prefix of `s` made of decimal digits. */
  function LeadingDigits(s: string): (r: string)
    ensures AllDigits(r) && r <= s
    ensures |r| < |s| ==> !IsDigit(s[|r|])
    decreases |s|
  {
    if s != [] && IsDigit(s[0]) then [s[0]] + LeadingDigits(s[1..]) else []
  }

  /** `parseInt(s)` in base 10: leading white space is skipped, one sign is
      read, then as many digits as follow; None (NaN) when there are none. */
  function ParseInt(s: string): Option<int>
  {
    var t := TrimStart(s);
    var negative := t != [] && t[0] == '-';
    var unsigned := if t != [] && (t[0] == '-' || t[0] == '+') then t[1..] else t;
    var digits := LeadingDigits(unsigned);
    if digits == [] then None
    else
      var magnitude: int := DigitsValue(digits);
      Some(if negative then -magnitude else magnitude)
  }

  /** `parseInt(billNumber.replace("AJ", ""))`. */
  function ParseBillNumber(billNumber: string): Option<int>
  {
    ParseInt(ReplaceFirst(billNumber, Prefix, ""))
  }

  /** Parsing a formatted bill number gives back the counter value. */
  lemma FormatParseRoundTrip(n: nat)
    ensures ParseBillNumber(FormatBillNumber(n)) == Some(n)
  {
    var k := if |Decimal(n)| >= Padding then 0 else Padding - |Decimal(n)|;
    var digits := PadStart(Decimal(n), Padding, '0');
    assert digits == Repeat('0', k) + Decimal(n);
    LeadingZerosValue(k, Decimal(n));
    DecimalValue(n);
    StripPrefix(Prefix, digits);
    ParseDigits(digits);
  }

  /** The prefix is the first occurrence of itself, so `replace` removes it. */
  lemma StripPrefix(p: string, rest: string)
    ensures ReplaceFirst(p + rest, p, "") == rest
  {
    assert (p + rest)[..|p|] == p;
    assert IndexOf(p + rest, p) == Some(0);
    assert (p + rest)[|p|..] == rest;
  }

  /** `parseInt` reads a plain digit string as its value. */
  lemma ParseDigits(d: string)
    requires d != [] && AllDigits(d)
    ensures ParseInt(d) == Some(DigitsValue(d) as int)
  {
    assert IsDigit(d[0]);
    assert !IsWhitespace(d[0]);
    assert TrimStart(d) == d;
    AllDigitsLeading(d);
  }

  lemma {:induction false} AllDigitsLeading(s: string)
    requires AllDigits(s)
    ensures LeadingDigits(s) == s
    decreases |s|
  {
    if s != [] {
      AllDigitsLeading(s[1..]);
    }
  }

  /** Different counter values never share a bill number. */
  lemma FormatInjective(m: nat, n: nat)
    requires FormatBillNumber(m) == FormatBillNumber(n)
    ensures m == n
  {
    FormatParseRoundTrip(m);
    FormatParseRoundTrip(n);
  }

  /** The first numbers issued. */
  lemma FirstBillNumbers()
    ensures FormatBillNumber(1) == "AJ001"
    ensures FormatBillNumber(2) == "AJ002"
    ensures FormatBillNumber(3) == "AJ003"
    ensures FormatBillNumber(4) == "AJ004"
  {
    FormatWithPadding(1, "1");
    FormatWithPadding(2, "2");
    FormatWithPadding(3, "3");
    FormatWithPadding(4, "4");
  }

  /** A two-digit counter gets one leading zero. */
  lemma TwoDigitBillNumber()
    ensures FormatBillNumber(42) == "AJ042"
  {
    assert Decimal(42) == Decimal(4) + [DigitChar(2)];
    FormatWithPadding(42, "42");
  }

  /** A counter wider than the padding is written in full. */
  lemma WideBillNumber()
    ensures FormatBillNumber(1000) == "AJ1000"
  {
    var d := DecimalThousand();
    FormatWithoutPadding(1000, d);
  }

  lemma DecimalThousand() returns (d: string)
    ensures Decimal(1000) == d == "1000"
  {
    assert Decimal(10) == "10" by {
      assert Decimal(10) == Decimal(1) + [DigitChar(0)];
    }
    assert Decimal(100) == "100" by {
      assert Decimal(100) == Decimal(10) + [DigitChar(0)];
    }
    assert Decimal(1000) == Decimal(100) + [DigitChar(0)];
    d := "1000";
  }

  lemma FormatWithoutPadding(n: nat, d: string)
    requires Decimal(n) == d && |d| >= Padding
    ensures FormatBillNumber(n) == Prefix + d
  {
    assert Repeat('0', 0) == [];
  }

  lemma FormatWithPadding(n: nat, d: string)
    requires Decimal(n) == d && |d| < Padding
    ensures FormatBillNumber(n) == Prefix + Repeat('0', Padding - |d|) + d
    ensures |d| == 1 ==> FormatBillNumber(n) == Prefix + "00" + d
    ensures |d| == 2 ==> FormatBillNumber(n) == Prefix + "0" + d
  {
  }
}
