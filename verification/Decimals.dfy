/** Decimal numerals, as the programs print and read them. */
module Decimals {
  predicate Digit(c: char) {
    '0' <= c <= '9'
  }

  predicate IsDigits(s: string) {
    forall i | 0 <= i < |s| :: Digit(s[i])
  }

  function DigitChar(d: nat): (c: char)
    requires d < 10
    ensures Digit(c) && DigitValue(c) == d
  {
    '0' + d as char
  }

  function DigitValue(c: char): (d: nat)
    requires Digit(c)
    ensures d < 10
  {
    (c - '0') as nat
  }

  function Decimal(n: nat): (s: string)
    ensures s != "" && IsDigits(s)
  {
    if n < 10 then [DigitChar(n)] else Decimal(n / 10) + [DigitChar(n % 10)]
  }

  /** `int(s)`, which also reads leading zeros. */
  function Value(s: string): nat
    requires IsDigits(s)
  {
    if s == "" then 0 else 10 * Value(s[..|s| - 1]) + DigitValue(s[|s| - 1])
  }

  lemma {:induction false} ValueOfDecimal(n: nat)
    ensures Value(Decimal(n)) == n
  {
    if n < 10 {
      assert Decimal(n)[..0] == "";
    } else {
      ValueOfDecimal(n / 10);
      assert Decimal(n)[..|Decimal(n)| - 1] == Decimal(n / 10);
    }
  }

  lemma DecimalInjective(a: nat, b: nat)
    requires Decimal(a) == Decimal(b)
    ensures a == b
  {
    ValueOfDecimal(a);
    ValueOfDecimal(b);
  }

  lemma DecimalWidth(n: nat)
    ensures n < 10 ==> |Decimal(n)| == 1
    ensures 10 <= n < 100 ==> |Decimal(n)| == 2
    ensures 1000 <= n < 10000 ==> |Decimal(n)| == 4
    ensures 10000 <= n < 100000 ==> |Decimal(n)| == 5
  {
    if n >= 10 {
      DecimalUpTo(n / 10);
    }
  }

  lemma DecimalUpTo(n: nat)
    ensures n < 10 ==> |Decimal(n)| == 1
    ensures 100 <= n < 1000 ==> |Decimal(n)| == 3
    ensures 1000 <= n < 10000 ==> |Decimal(n)| == 4
  {
    if n >= 10 {
      var m := n / 10;
      assert Decimal(n) == Decimal(m) + [DigitChar(n % 10)];
      if m >= 10 {
        var k := m / 10;
        assert Decimal(m) == Decimal(k) + [DigitChar(m % 10)];
        if k >= 10 {
          assert Decimal(k) == Decimal(k / 10) + [DigitChar(k % 10)];
        }
      }
    }
  }

  lemma NextDigit(n: nat, d: nat)
    requires 0 < n && d < 10
    ensures Decimal(10 * n + d) == Decimal(n) + [DigitChar(d)]
  {
  }

  lemma OneDigit(a: nat)
    requires a < 10
    ensures Decimal(a) == [DigitChar(a)]
  {
  }

  lemma Decimal2223()
    ensures Decimal(2223) == "2223"
  {
    OneDigit(2);
    NextDigit(2, 2);
    NextDigit(22, 2);
    NextDigit(222, 3);
    hide Decimal;
  }

  lemma Decimal5061()
    ensures Decimal(5061) == "5061"
  {
    OneDigit(5);
    NextDigit(5, 0);
    NextDigit(50, 6);
    NextDigit(506, 1);
    hide Decimal;
  }

  lemma Decimal15061()
    ensures Decimal(15061) == "15061"
  {
    OneDigit(1);
    NextDigit(1, 5);
    NextDigit(15, 0);
    NextDigit(150, 6);
    NextDigit(1506, 1);
    hide Decimal;
  }

}
