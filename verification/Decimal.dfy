/** Numbers as text; different numbers have different texts. */
module Decimal {
  function Digits(n: nat): string {
    if n < 10 then [(n as char) + '0'] else Digits(n / 10) + [((n % 10) as char) + '0']
  }

  function Front(n: nat): string { if n < 10 then [] else Digits(n / 10) }

  lemma {:induction false} DigitsDiffer(a: nat, b: nat)
    requires Digits(a) == Digits(b)
    ensures a == b
    decreases a
  {
    DigitsNotEmpty(a / 10);
    DigitsNotEmpty(b / 10);
    assert Digits(a) == Front(a) + [((a % 10) as char) + '0'];
    assert Digits(b) == Front(b) + [((b % 10) as char) + '0'];
    assert Front(a) == Digits(a)[..|Digits(a)| - 1] == Front(b);
    if a >= 10 { DigitsDiffer(a / 10, b / 10); }
  }

  lemma DigitsNotEmpty(n: nat)
    ensures Digits(n) != [] && '0' <= Digits(n)[0] <= '9'
  {
  }
}
