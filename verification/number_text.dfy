/**
 * How the server renders integer-valued JavaScript numbers inside text
 * (template literals such as `every ${interval}ms`): optional minus sign,
 * then decimal digits without leading zeros. Parse is the inverse used to
 * state that no information is lost.
 */
module NumberText {

  predicate IsDigit(c: char) {
    '0' <= c <= '9'
  }

  predicate AllDigits(s: string) {
    forall i :: 0 <= i < |s| ==> IsDigit(s[i])
  }

  function DigitChar(d: nat): (c: char)
    requires d < 10
    ensures IsDigit(c) && (c as int) - ('0' as int) == d
  {
    (d + '0' as int) as char
  }

  /** Decimal digits of a natural number, most significant first. */
  function FormatNat(n: nat): (s: string)
    ensures |s| >= 1 && AllDigits(s)
    ensures s[0] == '0' ==> n == 0
    decreases n
  {
    if n < 10 then [DigitChar(n)] else FormatNat(n / 10) + [DigitChar(n % 10)]
  }

  /** The text JavaScript produces for an integer-valued number. */
  function Format(n: int): (s: string)
    ensures |s| >= 1
    ensures s[0] == '-' <==> n < 0
    ensures n < 0 ==> |s| >= 2 && AllDigits(s[1..]) && s[1] != '0'
    ensures n >= 0 ==> AllDigits(s) && (s[0] == '0' ==> n == 0)
  {
    if n < 0 then "-" + FormatNat(-n) else FormatNat(n)
  }

  function ParseNat(s: string): nat
    requires AllDigits(s)
    decreases |s|
  {
    if s == [] then 0
    else ParseNat(s[..|s| - 1]) * 10 + ((s[|s| - 1] as int) - ('0' as int))
  }

  predicate Parsable(s: string) {
    |s| >= 1 && (if s[0] == '-' then |s| >= 2 && AllDigits(s[1..]) else AllDigits(s))
  }

  function Parse(s: string): (n: int)
    requires Parsable(s)
  {
    if s[0] == '-' then 0 - ParseNat(s[1..]) else ParseNat(s) as int
  }

  lemma {:induction false} ParseFormatNat(n: nat)
    ensures ParseNat(FormatNat(n)) == n
  {
    if n >= 10 {
      var s := FormatNat(n);
      assert s[..|s| - 1] == FormatNat(n / 10);
      ParseFormatNat(n / 10);
    }
  }

  /** Formatting loses nothing: the number can be read back from its text. */
  lemma ParseFormat(n: int)
    ensures Parsable(Format(n)) && Parse(Format(n)) == n
  {
    if n < 0 {
      assert Format(n)[1..] == FormatNat(-n);
      ParseFormatNat(-n);
    } else {
      ParseFormatNat(n);
    }
  }

  /** Distinct numbers are rendered as distinct texts. */
  lemma FormatInjective(a: int, b: int)
    ensures Format(a) == Format(b) ==> a == b
  {
    ParseFormat(a);
    ParseFormat(b);
  }
}
