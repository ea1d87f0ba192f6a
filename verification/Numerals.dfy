/** Decimal numerals, as strconv.Itoa and the %d verb write them. */
module Numerals {
  const DIGITS := "0123456789"

  predicate IsDigit(c: char) { '0' <= c <= '9' }

  function Itoa(n: nat): (s: string)
    ensures s != "" && forall i :: 0 <= i < |s| ==> IsDigit(s[i])
  {
    if n < 10 then [DIGITS[n]] else Itoa(n / 10) + [DIGITS[n % 10]]
  }

  /** The number that a row of digits stands for. */
  function Decimal(s: string): int {
    if s == "" then 0 else 10 * Decimal(s[..|s| - 1]) + (s[|s| - 1] as int - '0' as int)
  }

  /** Read as a decimal number, the numeral is n, and it has no leading zero. */
  lemma {:induction false} ItoaIsDecimal(n: nat)
    ensures Decimal(Itoa(n)) == n
    ensures n > 0 ==> Itoa(n)[0] != '0'
  {
    if n >= 10 {
      ItoaIsDecimal(n / 10);
      assert Itoa(n)[..|Itoa(n)| - 1] == Itoa(n / 10);
    } else {
      assert Itoa(n)[..0] == "";
    }
  }

  lemma LastDigit(a: nat, b: nat)
    requires DIGITS[a % 10] == DIGITS[b % 10]
    ensures a % 10 == b % 10
  {
  }

  lemma {:induction false} ItoaInjective(a: nat, b: nat)
    requires Itoa(a) == Itoa(b)
    ensures a == b
  {
    var x, y := Itoa(a), Itoa(b);
    assert x[|x| - 1] == DIGITS[a % 10] && y[|y| - 1] == DIGITS[b % 10];
    LastDigit(a, b);
    if a >= 10 && b >= 10 {
      assert x[..|x| - 1] == Itoa(a / 10) && y[..|y| - 1] == Itoa(b / 10);
      ItoaInjective(a / 10, b / 10);
    }
  }

  /** A numeral that another one extends belongs to a number at least ten times smaller. */
  lemma {:induction false} ItoaExtends(a: nat, b: nat)
    requires 0 < a && Itoa(a) < Itoa(b)
    ensures 10 * a <= b
  {
    var x, y := Itoa(a), Itoa(b);
    assert b < 10 ==> |y| == 1;
    var init := Itoa(b / 10);
    assert y == init + [DIGITS[b % 10]];
    assert x <= init;
    if x == init { ItoaInjective(a, b / 10); } else { ItoaExtends(a, b / 10); }
  }

  /** Larger numbers do not have shorter numerals. */
  lemma {:induction false} ItoaGrows(a: nat, b: nat)
    requires a <= b
    ensures |Itoa(a)| <= |Itoa(b)|
  {
    if b >= 10 && a >= 10 { ItoaGrows(a / 10, b / 10); }
  }
}
