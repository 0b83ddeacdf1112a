/**
 * Decimal numerals of non-negative integers: `Number.prototype.toString()`
 * and `parseInt(s, 10)` on the strings that `toString` produces.
 */
module Decimal {
  import opened Text

  function DigitChar(d: nat): (c: char)
    requires d < 10
    ensures IsDigit(c)
  {
    (48 + d) as char
  }

  function DigitValue(c: char): (d: nat)
    requires IsDigit(c)
    ensures d < 10 && DigitChar(d) == c
  {
    c as int - 48
  }

  /** A numeral as `toString` writes it: digits only, no leading zero. */
  predicate IsCanonical(s: string) {
    && |s| > 0
    && (forall i :: 0 <= i < |s| ==> IsDigit(s[i]))
    && (s[0] == '0' ==> |s| == 1)
  }

  /** `n.toString()` */
  function Format(n: nat): (s: string)
    ensures IsCanonical(s)
    ensures s[0] == '0' <==> n == 0
  {
    if n < 10 then [DigitChar(n)] else Format(n / 10) + [DigitChar(n % 10)]
  }

  /** `parseInt(s, 10)` on a string of digits, read left to right. */
  function Parse(s: string): (n: nat)
    requires forall i :: 0 <= i < |s| ==> IsDigit(s[i])
    ensures n == 0 <==> forall i :: 0 <= i < |s| ==> s[i] == '0'
  {
    if s == [] then 0 else 10 * Parse(s[..|s| - 1]) + DigitValue(s[|s| - 1])
  }

  /** Reading back what `toString` wrote gives the number. */
  lemma {:induction false} ParseFormat(n: nat)
    ensures Parse(Format(n)) == n
  {
    var s := Format(n);
    if n >= 10 {
      var prefix := Format(n / 10);
      assert s[..|s| - 1] == prefix;
      ParseFormat(n / 10);
    }
  }

  /** Writing what was parsed from a numeral gives the numeral back. */
  lemma {:induction false} FormatParse(s: string)
    requires IsCanonical(s)
    ensures Format(Parse(s)) == s
  {
    if |s| == 1 {
      assert s[..0] == [];
      assert s == [DigitChar(DigitValue(s[0]))];
    } else {
      var prefix := s[..|s| - 1];
      assert prefix[0] == s[0];
      assert IsCanonical(prefix);
      FormatParse(prefix);
      var p := Parse(prefix);
      assert p != 0;
      var n := Parse(s);
      assert n == 10 * p + DigitValue(s[|s| - 1]);
      assert n / 10 == p && n % 10 == DigitValue(s[|s| - 1]);
      assert s == prefix + [s[|s| - 1]];
    }
  }
}
