/** Decimal numerals, and Python's ordering of strings of digits. */
module Decimal {

  predicate IsDigit(c: char) {
    '0' <= c <= '9'
  }

  predicate AllDigits(s: string) {
    forall i :: 0 <= i < |s| ==> IsDigit(s[i])
  }

  function Digit(d: int): char
    requires 0 <= d < 10
  {
    '0' + d as char
  }

  /** `str(n)`. */
  function Dec(n: nat): (s: string)
    ensures s != "" && AllDigits(s)
  {
    if n < 10 then [Digit(n)] else Dec(n / 10) + [Digit(n % 10)]
  }

  /** `int(s)` for a string of digits. */
  function Value(s: string): nat
    requires AllDigits(s)
  {
    if s == "" then 0 else Value(s[..|s| - 1]) * 10 + (s[|s| - 1] - '0') as int
  }

  lemma {:induction false} ValueOfDec(n: nat)
    ensures Value(Dec(n)) == n
  {
    if n >= 10 {
      ValueOfDec(n / 10);
      assert Dec(n)[..|Dec(n)| - 1] == Dec(n / 10);
    }
  }

  /** `f"{n:02d}"`. */
  function Pad2(n: nat): (s: string)
    ensures |s| >= 2 && AllDigits(s)
  {
    if n < 10 then "0" + Dec(n) else Dec(n)
  }

  lemma Pad2Value(n: nat)
    ensures Value(Pad2(n)) == n
  {
    ValueOfDec(n);
    if n < 10 {
      assert Pad2(n)[..1] == "0" && "0"[..0] == "";
      assert Value("0") == 0;
    }
  }

  /** `str(n)` for any integer. */
  function Signed(n: int): string {
    if n < 0 then "-" + Dec(-n) else Dec(n)
  }

  /** `int(s)` for an optionally signed string of digits. */
  function SignedValue(s: string): int
    requires s != "" && AllDigits(if s[0] == '-' then s[1..] else s)
  {
    if s[0] == '-' then 0 - Value(s[1..]) else Value(s)
  }

  lemma SignedRoundTrip(n: int)
    ensures var s := Signed(n); s != "" && AllDigits(if s[0] == '-' then s[1..] else s) && SignedValue(s) == n
  {
    if n < 0 {
      ValueOfDec(-n);
      assert Signed(n)[1..] == Dec(-n);
    } else {
      ValueOfDec(n);
      assert IsDigit(Dec(n)[0]);
    }
  }

  /** Python's `a < b` on strings. */
  predicate Less(a: string, b: string) {
    b != "" && (a == "" || a[0] < b[0] || (a[0] == b[0] && Less(a[1..], b[1..])))
  }

  ghost predicate FirstDifference(a: string, b: string, k: int) {
    && 0 <= k <= |a| && k <= |b| && a[..k] == b[..k]
    && k < |b| && (k < |a| ==> a[k] < b[k])
  }

  lemma {:induction false} DifferenceDecides(a: string, b: string, k: int)
    requires AllDigits(a) && AllDigits(b) && |a| == |b| && FirstDifference(a, b, k)
    ensures Value(a) < Value(b)
    decreases |a|
  {
    var n := |a| - 1;
    if k == n {
      assert a[..n] == b[..n];
    } else {
      assert a[..n][..k] == a[..k] && b[..n][..k] == b[..k];
      DifferenceDecides(a[..n], b[..n], k);
    }
  }

  lemma {:induction false} SomeDifference(a: string, b: string) returns (k: int)
    requires |a| == |b| && a != b
    ensures FirstDifference(a, b, k) || FirstDifference(b, a, k)
    decreases |a|
  {
    var n := |a| - 1;
    if a[..n] == b[..n] {
      k := n;
      assert a == a[..n] + [a[n]] && b == b[..n] + [b[n]];
    } else {
      k := SomeDifference(a[..n], b[..n]);
      assert a[..n][..k] == a[..k] && b[..n][..k] == b[..k];
    }
  }

  lemma {:induction false} LessMeansDifference(a: string, b: string) returns (k: int)
    ensures Less(a, b) ==> FirstDifference(a, b, k)
  {
    k := 0;
    if a != "" && b != "" && a[0] == b[0] {
      k := LessMeansDifference(a[1..], b[1..]);
      if Less(a, b) {
        assert a == [a[0]] + a[1..] && b == [b[0]] + b[1..];
        assert a[..k + 1] == [a[0]] + a[1..][..k] && b[..k + 1] == [b[0]] + b[1..][..k];
      }
      k := k + 1;
    }
  }

  lemma {:induction false} DifferenceMeansLess(a: string, b: string, k: int)
    requires FirstDifference(a, b, k)
    ensures Less(a, b)
  {
    if k > 0 {
      assert a[0] == a[..k][0] == b[..k][0] == b[0];
      assert a[1..][..k - 1] == a[..k][1..] && b[1..][..k - 1] == b[..k][1..];
      DifferenceMeansLess(a[1..], b[1..], k - 1);
    }
  }

  /** On digit strings of equal length the string order is the order of the numbers. */
  lemma OrderOfNumerals(a: string, b: string)
    requires AllDigits(a) && AllDigits(b) && |a| == |b|
    ensures Less(a, b) <==> Value(a) < Value(b)
  {
    if Less(a, b) {
      var k := LessMeansDifference(a, b);
      DifferenceDecides(a, b, k);
    } else if a != b {
      var k := SomeDifference(a, b);
      if FirstDifference(a, b, k) {
        DifferenceMeansLess(a, b, k);
      } else {
        DifferenceDecides(b, a, k);
      }
    }
  }

  lemma {:induction false} LessIsTransitive(a: string, b: string, c: string)
    requires Less(a, b) && Less(b, c)
    ensures Less(a, c)
  {
    if a != "" && a[0] == b[0] == c[0] {
      LessIsTransitive(a[1..], b[1..], c[1..]);
    }
  }

  // ---- Length and value -------------------------------------------------------------------

  function Pow10(n: nat): nat {
    if n == 0 then 1 else 10 * Pow10(n - 1)
  }

  /** A numeral as `str` writes it: without leading zeros. */
  predicate Canonical(s: string) {
    s != "" && AllDigits(s) && (|s| > 1 ==> s[0] != '0')
  }

  lemma {:induction false} ValueBounds(s: string)
    requires AllDigits(s)
    ensures Value(s) < Pow10(|s|)
    ensures s != "" && s[0] != '0' ==> Pow10(|s| - 1) <= Value(s)
  {
    if s != "" {
      var n := |s| - 1;
      ValueBounds(s[..n]);
      assert s[..n] != "" ==> s[..n][0] == s[0];
      assert n == 0 ==> Value(s[..n]) == 0;
      assert IsDigit(s[n]);
    }
  }

  lemma {:induction false} Pow10Grows(m: nat, n: nat)
    requires m <= n
    ensures Pow10(m) <= Pow10(n)
  {
    if m < n {
      Pow10Grows(m, n - 1);
    }
  }

  /** Of two canonical numerals the longer is the greater. */
  lemma LongerIsGreater(a: string, b: string)
    requires Canonical(a) && Canonical(b) && |a| < |b|
    ensures Value(a) < Value(b)
  {
    ValueBounds(a);
    ValueBounds(b);
    Pow10Grows(|a|, |b| - 1);
  }
}
