/** Decimal numerals, as %d prints them. */
module Decimal {
  const DIGITS := "0123456789"

  function Numeral(n: nat): (r: string)
    ensures r != []
    ensures forall i :: 0 <= i < |r| ==> r[i] in DIGITS
  {
    if n < 10 then [DIGITS[n]] else Numeral(n / 10) + [DIGITS[n % 10]]
  }

  lemma DigitsDiffer(i: nat, j: nat)
    requires i < 10 && j < 10 && DIGITS[i] == DIGITS[j]
    ensures i == j
  {
    assert forall k :: 0 <= k < 10 ==> DIGITS[k] == ('0' as int + k) as char;
  }

  /** Different numbers have different numerals. */
  lemma {:induction false} NumeralIsInjective(m: nat, n: nat)
    requires Numeral(m) == Numeral(n)
    ensures m == n
    decreases m
  {
    var a, b := Numeral(m), Numeral(n);
    assert a[|a| - 1] == DIGITS[m % 10] && b[|b| - 1] == DIGITS[n % 10];
    DigitsDiffer(m % 10, n % 10);
    if m >= 10 && n >= 10 {
      assert a[..|a| - 1] == Numeral(m / 10) && b[..|b| - 1] == Numeral(n / 10);
      NumeralIsInjective(m / 10, n / 10);
    }
  }

  function DigitValue(c: char): int {
    c as int - '0' as int
  }

  function ValueOf(s: string): int {
    if s == [] then 0 else 10 * ValueOf(s[..|s| - 1]) + DigitValue(s[|s| - 1])
  }

  /** Reading a numeral gives the number. */
  lemma {:induction false} NumeralReadsBack(n: nat)
    ensures ValueOf(Numeral(n)) == n
  {
    var s := Numeral(n);
    assert forall k :: 0 <= k < 10 ==> DigitValue(DIGITS[k]) == k;
    if n >= 10 {
      NumeralReadsBack(n / 10);
      assert s[..|s| - 1] == Numeral(n / 10);
    } else {
      assert s[..0] == [];
    }
  }

  lemma LastDash(a: string, n: nat)
    ensures var s := a + "-" + Numeral(n); s[|a|] == '-' && forall i :: |a| < i < |s| ==> s[i] != '-'
  {
    var s := a + "-" + Numeral(n);
    forall i | |a| < i < |s| ensures s[i] != '-' {
      assert s[i] == Numeral(n)[i - |a| - 1];
      assert '-' !in DIGITS;
    }
  }

  /** A numeral after a dash can be read back, whatever is in front of it. */
  lemma SuffixIsReadable(a: string, m: nat, b: string, n: nat)
    requires a + "-" + Numeral(m) == b + "-" + Numeral(n)
    ensures m == n
  {
    var s := a + "-" + Numeral(m);
    LastDash(a, m);
    LastDash(b, n);
    assert |a| == |b|;
    assert s[|a| + 1..] == Numeral(m) && s[|b| + 1..] == Numeral(n);
    NumeralIsInjective(m, n);
  }
}
