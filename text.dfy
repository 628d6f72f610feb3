/** Text operations the core relies on: `str::contains` and the decimal `{}` format of integers. */
module Text {
  import opened Wrappers

  // ---------------------------------------------------------------------------
  // Substring containment
  // ---------------------------------------------------------------------------

  /** `pattern` appears in `s` starting at position `i`. */
  predicate OccursAt(s: string, pattern: string, i: nat) {
    i + |pattern| <= |s| && s[i..i + |pattern|] == pattern
  }

  /** Reference meaning of containment: some starting position matches. */
  ghost predicate Occurs(s: string, pattern: string) {
    exists i: nat :: OccursAt(s, pattern, i)
  }

  /** Case-sensitive substring search, trying each starting position left to right. */
  predicate Contains(s: string, pattern: string)
    ensures Contains(s, pattern) ==> |pattern| <= |s|
    ensures |pattern| == 0 ==> Contains(s, pattern)
    decreases |s|
  {
    if |s| < |pattern| then false
    else if s[..|pattern|] == pattern then true
    else Contains(s[1..], pattern)
  }

  /** The search finds a match exactly when one exists. */
  lemma {:induction false} ContainsIffOccurs(s: string, pattern: string)
    ensures Contains(s, pattern) <==> Occurs(s, pattern)
    decreases |s|
  {
    if |s| < |pattern| {
      forall i: nat ensures !OccursAt(s, pattern, i) { }
    } else if s[..|pattern|] == pattern {
      assert OccursAt(s, pattern, 0);
    } else {
      var t := s[1..];
      ContainsIffOccurs(t, pattern);
      if Occurs(s, pattern) {
        var i: nat :| OccursAt(s, pattern, i);
        assert i != 0;
        assert t[i - 1..i - 1 + |pattern|] == s[i..i + |pattern|];
        assert OccursAt(t, pattern, i - 1);
      }
      if Occurs(t, pattern) {
        var j: nat :| OccursAt(t, pattern, j);
        assert s[j + 1..j + 1 + |pattern|] == t[j..j + |pattern|];
        assert OccursAt(s, pattern, j + 1);
      }
    }
  }

  // ---------------------------------------------------------------------------
  // Decimal formatting (Rust's `{}` for integers) and its inverse
  // ---------------------------------------------------------------------------

  predicate IsDigit(c: char) {
    '0' <= c <= '9'
  }

  predicate AllDigits(s: string) {
    forall i :: 0 <= i < |s| ==> IsDigit(s[i])
  }

  function DigitChar(d: nat): (c: char)
    requires d < 10
    ensures IsDigit(c)
  {
    (('0' as int) + d) as char
  }

  function DigitValue(c: char): (d: nat)
    requires IsDigit(c)
    ensures d < 10 && DigitChar(d) == c
  {
    c as int - '0' as int
  }

  /** The decimal digits of `n`, most significant first, without leading zeros. */
  function NatToDecimal(n: nat): (s: string)
    ensures |s| > 0 && AllDigits(s)
    ensures |s| > 1 ==> s[0] != '0'
    decreases n
  {
    if n < 10 then [DigitChar(n)] else NatToDecimal(n / 10) + [DigitChar(n % 10)]
  }

  /** Decimal rendering of an integer, with a leading `-` when it is negative. */
  function IntToDecimal(i: int): string {
    if i < 0 then "-" + NatToDecimal(-i) else NatToDecimal(i)
  }

  /** The value of a string of decimal digits. */
  function DecimalValue(s: string): nat
    requires AllDigits(s)
  {
    if s == [] then 0 else DecimalValue(s[..|s| - 1]) * 10 + DigitValue(s[|s| - 1])
  }

  /** Reads back what `IntToDecimal` writes; `None` for any other text. */
  function ParseInt(s: string): Option<int> {
    if |s| > 1 && s[0] == '-' && AllDigits(s[1..]) then Some(-(DecimalValue(s[1..]) as int))
    else if |s| > 0 && AllDigits(s) then Some(DecimalValue(s))
    else None
  }

  lemma {:induction false} DecimalValueOfNatToDecimal(n: nat)
    ensures DecimalValue(NatToDecimal(n)) == n
    decreases n
  {
    if n >= 10 {
      var s := NatToDecimal(n);
      assert s[..|s| - 1] == NatToDecimal(n / 10);
      DecimalValueOfNatToDecimal(n / 10);
    }
  }

  lemma ParseNegativeDecimal(n: nat)
    requires n > 0
    ensures ParseInt("-" + NatToDecimal(n)) == Some(-(n as int))
  {
    var ds := NatToDecimal(n);
    var s := "-" + ds;
    assert s[1..] == ds;
    DecimalValueOfNatToDecimal(n);
  }

  lemma ParseNonNegativeDecimal(n: nat)
    ensures ParseInt(NatToDecimal(n)) == Some(n)
  {
    var ds := NatToDecimal(n);
    assert IsDigit(ds[0]);
    DecimalValueOfNatToDecimal(n);
  }

  /** Decimal rendering loses nothing: the integer can be read back. */
  lemma ParseIntToDecimal(i: int)
    ensures ParseInt(IntToDecimal(i)) == Some(i)
  {
    if i < 0 {
      ParseNegativeDecimal(-i);
    } else {
      ParseNonNegativeDecimal(i);
    }
  }

  /** Different integers render differently. */
  lemma IntToDecimalInjective(i: int, j: int)
    requires IntToDecimal(i) == IntToDecimal(j)
    ensures i == j
  {
    ParseIntToDecimal(i);
    ParseIntToDecimal(j);
  }

  /** The number of decimal digits at the end of `s`. */
  function TrailingDigits(s: string): (k: nat)
    ensures k <= |s|
    ensures forall i :: |s| - k <= i < |s| ==> IsDigit(s[i])
    ensures k < |s| ==> !IsDigit(s[|s| - k - 1])
  {
    if |s| == 0 || !IsDigit(s[|s| - 1]) then 0 else 1 + TrailingDigits(s[..|s| - 1])
  }

  lemma {:induction false} TrailingDigitsAfter(x: string, ds: string)
    requires |x| > 0 && !IsDigit(x[|x| - 1])
    requires AllDigits(ds)
    ensures TrailingDigits(x + ds) == |ds|
    decreases |ds|
  {
    if ds != [] {
      var y := x + ds;
      assert y[..|y| - 1] == x + ds[..|ds| - 1];
      TrailingDigitsAfter(x, ds[..|ds| - 1]);
    }
  }
}
