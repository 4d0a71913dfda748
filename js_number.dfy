/** The two number/text conversions the quiz form relies on: `n.toString()` of an
    integer id (the value of a select item) and `parseInt` of such a value. */
module JsNumber {
  import opened Wrappers

  predicate IsDigit(c: char) {
    '0' <= c <= '9'
  }

  predicate AllDigits(s: string) {
    forall i :: 0 <= i < |s| ==> IsDigit(s[i])
  }

  function DigitChar(d: nat): (c: char)
    requires d < 10
    ensures IsDigit(c)
  {
    ('0' as int + d) as char
  }

  function DigitValue(c: char): (d: nat)
    requires IsDigit(c)
    ensures d < 10
    ensures DigitChar(d) == c
  {
    c as int - '0' as int
  }

  /** Decimal text of a natural number, most significant digit first, no leading zero. */
  function NatText(n: nat): (s: string)
    ensures |s| > 0 && AllDigits(s)
    ensures |s| > 1 ==> s[0] != '0'
  {
    if n < 10 then [DigitChar(n)] else NatText(n / 10) + [DigitChar(n % 10)]
  }

  /** `n.toString()` for an integer n: a minus sign for negative numbers, then the digits. */
  function IdText(n: int): (s: string)
    ensures |s| > 0
    ensures s[0] == '-' <==> n < 0
  {
    if n < 0 then "-" + NatText(-n) else NatText(n)
  }

  /** Value of a non-empty run of decimal digits. */
  function DigitsValue(s: string): nat
    requires |s| > 0 && AllDigits(s)
  {
    if |s| == 1 then DigitValue(s[0])
    else 10 * DigitsValue(s[..|s| - 1]) + DigitValue(s[|s| - 1])
  }

  /** The longest prefix of s made of decimal digits. */
  function LeadingDigits(s: string): (p: string)
    ensures p <= s && AllDigits(p)
    ensures |p| < |s| ==> !IsDigit(s[|p|])
  {
    if |s| == 0 || !IsDigit(s[0]) then "" else [s[0]] + LeadingDigits(s[1..])
  }

  /** `parseInt(s)` with no radix, for text without leading white space or a `0x` prefix:
      an optional sign, then as many decimal digits as follow it; None (NaN) when there
      is no digit there. */
  function ParseInt(s: string): (r: Option<int>)
    ensures var body := if |s| > 0 && (s[0] == '-' || s[0] == '+') then s[1..] else s;
      (r.None? <==> |body| == 0 || !IsDigit(body[0])) &&
      (r.Some? ==> |LeadingDigits(body)| > 0 &&
                   r.value == (if s[0] == '-' then -1 else 1) * DigitsValue(LeadingDigits(body)))
    ensures r.Some? && r.value < 0 ==> s[0] == '-'
  {
    var negative := |s| > 0 && s[0] == '-';
    var body := if |s| > 0 && (s[0] == '-' || s[0] == '+') then s[1..] else s;
    var digits := LeadingDigits(body);
    if digits == "" then None
    else
      var magnitude: int := DigitsValue(digits);
      Some(if negative then -magnitude else magnitude)
  }

  lemma {:induction false} DigitsValueOfNatText(n: nat)
    ensures DigitsValue(NatText(n)) == n
  {
    if n >= 10 {
      var s := NatText(n);
      assert s[..|s| - 1] == NatText(n / 10);
      DigitsValueOfNatText(n / 10);
    }
  }

  lemma LeadingDigitsOfDigits(s: string)
    requires AllDigits(s)
    ensures LeadingDigits(s) == s
  {
  }

  /** parseInt undoes toString on every integer id: the number a select value is parsed
      back to is the id it was rendered from. */
  lemma IdTextRoundTrip(n: int)
    ensures ParseInt(IdText(n)) == Some(n)
  {
    var s := IdText(n);
    var m: nat := if n < 0 then -n else n;
    var body := if n < 0 then s[1..] else s;
    assert body == NatText(m);
    LeadingDigitsOfDigits(body);
    DigitsValueOfNatText(m);
  }

  /** Distinct ids have distinct texts, so a lookup by text finds the id that was chosen. */
  lemma IdTextInjective(a: int, b: int)
    requires IdText(a) == IdText(b)
    ensures a == b
  {
    IdTextRoundTrip(a);
    IdTextRoundTrip(b);
  }
}
