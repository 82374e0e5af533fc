/** Integers written in decimal. */
module Decimal {

  function Digit(d: nat): char
    requires d < 10
  {
    ('0' as int + d) as char
  }

  function Digits(n: nat): (s: string)
    ensures s != ""
  {
    if n < 10 then [Digit(n)] else Digits(n / 10) + [Digit(n % 10)]
  }

  function Decimal(n: int): string {
    if n < 0 then "-" + Digits(-n) else Digits(n)
  }

  predicate IsDigit(c: char) {
    '0' <= c <= '9'
  }

  function Number(s: string): int {
    if s == "" then 0 else 10 * Number(s[..|s| - 1]) + (s[|s| - 1] as int - '0' as int)
  }

  lemma {:induction false} DigitsAreDigits(n: nat)
    ensures forall c :: c in Digits(n) ==> IsDigit(c)
  {
    if n >= 10 {
      DigitsAreDigits(n / 10);
    }
  }

  lemma {:induction false} NumberOfDigits(n: nat)
    ensures Number(Digits(n)) == n
  {
    if n < 10 {
      assert [Digit(n)][..0] == "";
    } else {
      NumberOfDigits(n / 10);
      assert Digits(n)[..|Digits(n)| - 1] == Digits(n / 10);
    }
  }

  /** No two integers are written alike, and only digits and a minus sign are written. */
  lemma Injective(n: int, m: int)
    ensures Decimal(n) == Decimal(m) ==> n == m
    ensures forall c :: c in Decimal(n) ==> IsDigit(c) || c == '-'
  {
    var k, l := if n < 0 then -n else n, if m < 0 then -m else m;
    DigitsAreDigits(k);
    DigitsAreDigits(l);
    NumberOfDigits(k);
    NumberOfDigits(l);
    assert Digits(k)[0] in Digits(k) && Digits(l)[0] in Digits(l);
    assert ("-" + Digits(k))[1..] == Digits(k) && ("-" + Digits(l))[1..] == Digits(l);
  }
}
