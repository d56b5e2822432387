/** Decimal numerals, as they are printed and read. */
module Decimal {

  predicate Digit(c: char) {
    '0' <= c <= '9'
  }

  function DigitOf(n: nat): (c: char)
    requires n < 10
    ensures Digit(c)
  {
    ('0' as int + n) as char
  }

  function ValueOf(c: char): (n: nat)
    requires Digit(c)
    ensures n < 10
  {
    c as int - '0' as int
  }

  predicate AllDigits(s: string) {
    forall c <- s :: Digit(c)
  }

  predicate IsNumeral(s: string) {
    s != [] && AllDigits(s)
  }

  /** A number as it is printed: no sign, no leading zero. */
  function Print(n: nat): string {
    if n < 10 then [DigitOf(n)] else Print(n / 10) + [DigitOf(n % 10)]
  }

  /** The number a numeral stands for; leading zeros are read past. */
  function Parse(s: string): nat
    requires AllDigits(s)
  {
    if s == [] then 0 else 10 * Parse(s[..|s| - 1]) + ValueOf(s[|s| - 1])
  }

  lemma {:induction false} PrintIsNumeral(n: nat)
    ensures IsNumeral(Print(n))
  {
    if n >= 10 {
      PrintIsNumeral(n / 10);
    }
  }

  /** Reading undoes printing; so different numbers are printed differently. */
  lemma {:induction false} ParsePrint(n: nat)
    ensures IsNumeral(Print(n)) && Parse(Print(n)) == n
  {
    PrintIsNumeral(n);
    if n < 10 {
      assert Print(n)[..0] == "";
    } else {
      ParsePrint(n / 10);
      assert Print(n)[..|Print(n)| - 1] == Print(n / 10);
      assert n == 10 * (n / 10) + n % 10;
    }
  }
}
