/** Decimal rendering of natural numbers, as string interpolation of an
    integer produces it, together with the parser that inverts it. */
module Decimal {
  import opened Options

  predicate IsDigit(c: char) {
    '0' <= c <= '9'
  }

  predicate AllDigits(s: string) {
    forall i :: 0 <= i < |s| ==> IsDigit(s[i])
  }

  function DigitChar(d: nat): (c: char)
    requires d < 10
    ensures IsDigit(c)
    ensures DigitValue(c) == d
  {
    (48 + d) as char
  }

  function DigitValue(c: char): (d: nat)
    requires IsDigit(c)
    ensures d < 10
  {
    c as int - 48
  }

  /** The shortest decimal numeral of `n`: at least one digit, digits only,
      and no leading zero unless `n` is zero itself. */
  function NatToString(n: nat): (r: string)
    ensures |r| >= 1
    ensures AllDigits(r)
    ensures r[0] == '0' ==> n == 0
    ensures n < 10 <==> |r| == 1
    decreases n
  {
    if n < 10 then [DigitChar(n)] else NatToString(n / 10) + [DigitChar(n % 10)]
  }

  /** The value of a non-empty run of digits, most significant first. */
  function DigitsValue(s: string): nat
    requires AllDigits(s)
  {
    if |s| == 0 then 0 else DigitsValue(s[..|s| - 1]) * 10 + DigitValue(s[|s| - 1])
  }

  /** Reads a decimal numeral; anything that is not a non-empty run of digits
      is rejected. */
  function ParseNat(s: string): (r: Option<nat>)
    ensures r.Some? <==> |s| >= 1 && AllDigits(s)
  {
    if |s| >= 1 && AllDigits(s) then Some(DigitsValue(s)) else None
  }

  /** A numeral as integer interpolation writes it: digits only, at least
      one, and no leading zero unless it is the single digit 0. */
  predicate Canonical(s: string) {
    |s| >= 1 && AllDigits(s) && (s[0] == '0' ==> |s| == 1)
  }

  /** A run of digits that does not start with 0 has a positive value. */
  lemma {:induction false} LeadingDigitPositive(s: string)
    requires |s| >= 1 && AllDigits(s) && s[0] != '0'
    ensures DigitsValue(s) >= 1
    decreases |s|
  {
    if |s| > 1 {
      LeadingDigitPositive(s[..|s| - 1]);
    } else {
      assert s[..0] == [];
    }
  }

  /** A canonical numeral is the rendering of the number it denotes: there
      is only one way to write a number without leading zeros. */
  lemma {:induction false} CanonicalUnique(s: string, n: nat)
    requires Canonical(s) && ParseNat(s) == Some(n)
    ensures s == NatToString(n)
    decreases |s|
  {
    var w := s[..|s| - 1];
    var c := s[|s| - 1];
    assert n == DigitsValue(w) * 10 + DigitValue(c);
    if |s| == 1 {
      assert w == [];
    } else {
      assert w[0] == s[0];
      LeadingDigitPositive(w);
      assert n / 10 == DigitsValue(w) && n % 10 == DigitValue(c);
      CanonicalUnique(w, n / 10);
      assert s == w + [c];
    }
  }

  /** Parsing a rendered number gives the number back. */
  lemma {:induction false} ParseNatToString(n: nat)
    ensures ParseNat(NatToString(n)) == Some(n)
    decreases n
  {
    var s := NatToString(n);
    if n >= 10 {
      ParseNatToString(n / 10);
      var a := NatToString(n / 10);
      assert s[..|s| - 1] == a;
      assert DigitsValue(s) == DigitsValue(a) * 10 + n % 10;
    }
  }

  /** Distinct numbers render to distinct numerals. */
  lemma NatToStringInjective(a: nat, b: nat)
    ensures NatToString(a) == NatToString(b) <==> a == b
  {
    if NatToString(a) == NatToString(b) {
      ParseNatToString(a);
      ParseNatToString(b);
    }
  }

  /** A numeral contains no character that is not a digit, so in particular
      none of the separators the manifest uses. */
  lemma DigitsExclude(n: nat, c: char)
    requires !IsDigit(c)
    ensures c !in NatToString(n)
  {
  }
}
