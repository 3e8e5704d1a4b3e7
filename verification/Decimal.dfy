/** Base-ten printing and parsing of integers, as Go's big.Int and JavaScript's template literals do it. */
module Decimal {
  import opened Prelude

  predicate IsDigit(c: char) { '0' <= c <= '9' }

  predicate AllDigits(s: string) { forall i :: 0 <= i < |s| ==> IsDigit(s[i]) }

  function DigitChar(d: nat): (c: char)
    requires d < 10
    ensures IsDigit(c) && c as int - '0' as int == d
  {
    ('0' as int + d) as char
  }

  function Print(n: nat): (s: string)
    ensures s != [] && AllDigits(s)
  {
    if n < 10 then [DigitChar(n)] else Print(n / 10) + [DigitChar(n % 10)]
  }

  function DigitsValue(s: string): nat
    requires AllDigits(s)
  {
    if s == [] then 0
    else DigitsValue(s[..|s| - 1]) * 10 + (s[|s| - 1] as int - '0' as int)
  }

  lemma {:induction false} ValueOfPrint(n: nat)
    ensures DigitsValue(Print(n)) == n
  {
    if n >= 10 {
      ValueOfPrint(n / 10);
      assert Print(n)[..|Print(n)| - 1] == Print(n / 10);
    }
  }

  /** `new(big.Int).SetString(s, 10)`: an optional sign, then at least one digit and nothing else. */
  function ParseInteger(s: string): Option<int> {
    if s == [] then None
    else if s[0] == '-' then
      if |s| > 1 && AllDigits(s[1..]) then (var magnitude: int := DigitsValue(s[1..]); Some(-magnitude)) else None
    else
      var digits := if s[0] == '+' then s[1..] else s;
      if digits != [] && AllDigits(digits) then Some(DigitsValue(digits)) else None
  }

  lemma ParsePrint(n: nat)
    ensures ParseInteger(Print(n)) == Some(n)
  {
    ValueOfPrint(n);
    assert IsDigit(Print(n)[0]);
  }

  /** A sign in front is read as one, and leading zeros change nothing. */
  lemma SignsAndZeros(n: nat)
    ensures ParseInteger("+" + Print(n)) == Some(n) && ParseInteger("0" + Print(n)) == Some(n)
    ensures ParseInteger("-" + Print(n)) == (var value: int := n; Some(-value))
  {
    ValueOfPrint(n);
    assert ("+" + Print(n))[1..] == Print(n) && ("-" + Print(n))[1..] == Print(n);
    LeadingZero(Print(n));
  }

  lemma {:induction false} LeadingZero(s: string)
    requires AllDigits(s)
    ensures AllDigits("0" + s) && DigitsValue("0" + s) == DigitsValue(s)
  {
    if s == "" {
      assert DigitsValue("0") == DigitsValue("") * 10 + 0;
    } else {
      LeadingZero(s[..|s| - 1]);
      assert ("0" + s)[..|s|] == "0" + s[..|s| - 1];
    }
  }

  /** Nothing reads but digits behind at most one sign. */
  lemma ReadsOnlyDigits(s: string)
    ensures ParseInteger(s).Some? <==>
      s != "" && (var digits := if s[0] in "+-" then s[1..] else s; digits != "" && AllDigits(digits))
  {
  }
}
