/** Decimal text: the printing of correlation ids and the fixed-width fields of a
    timestamp. */
module Decimal {
  import opened Lexical

  function Digit(d: nat): (c: char)
    requires d < 10
    ensures '0' <= c <= '9' && DigitValue(c) == d
  {
    '0' + d as char
  }

  predicate IsDigit(c: char) {
    '0' <= c <= '9'
  }

  function DigitValue(c: char): nat
    requires IsDigit(c)
  {
    c as int - '0' as int
  }

  /** Text made of digits only. */
  predicate AllDigits(s: string) {
    forall i | 0 <= i < |s| :: IsDigit(s[i])
  }

  /** The number a text of digits denotes. */
  function Value(s: string): nat
    requires AllDigits(s)
  {
    if s == [] then 0 else 10 * Value(s[..|s| - 1]) + DigitValue(s[|s| - 1])
  }

  /** strconv.FormatUint(n, 10). */
  function FormatUint(n: nat): (s: string)
    ensures s != [] && AllDigits(s) && Value(s) == n
  {
    if n < 10 then
      assert [Digit(n)][..0] == [];
      [Digit(n)]
    else
      var front := FormatUint(n / 10);
      var s := front + [Digit(n % 10)];
      assert s[..|s| - 1] == front;
      s
  }

  lemma {:induction false} FormatUintInjective(m: nat, n: nat)
    ensures FormatUint(m) == FormatUint(n) <==> m == n
  {
    assert Value(FormatUint(m)) == m && Value(FormatUint(n)) == n;
  }

  function Pow10(width: nat): (p: nat)
    ensures p > 0
  {
    if width == 0 then 1 else 10 * Pow10(width - 1)
  }

  /** The last `width` decimal digits of n, padded with zeros. */
  function Padded(n: nat, width: nat): (s: string)
    ensures |s| == width && AllDigits(s)
    ensures n < Pow10(width) ==> Value(s) == n
  {
    if width == 0 then []
    else
      var front := Padded(n / 10, width - 1);
      var s := front + [Digit(n % 10)];
      assert s[..|s| - 1] == front;
      s
  }

  /** Padding the value of a field gives the field back. */
  lemma {:induction false} PaddedValue(s: string)
    requires AllDigits(s)
    ensures Value(s) < Pow10(|s|) && Padded(Value(s), |s|) == s
  {
    if s != [] {
      PaddedValue(s[..|s| - 1]);
      assert s == s[..|s| - 1] + [s[|s| - 1]];
    }
  }

  lemma {:induction false} DigitOrder(a: nat, b: nat)
    requires a < 10 && b < 10
    ensures LexLess([Digit(a)], [Digit(b)]) <==> a < b
  {
  }

  /** Text order of two fields of the same width is the order of their values. */
  lemma {:induction false} PaddedOrder(m: nat, n: nat, width: nat)
    requires m < Pow10(width) && n < Pow10(width)
    ensures LexLess(Padded(m, width), Padded(n, width)) <==> m < n
    ensures Padded(m, width) == Padded(n, width) <==> m == n
  {
    assert Padded(m, width) == Padded(n, width) ==> m == n by {
      assert Value(Padded(m, width)) == m && Value(Padded(n, width)) == n;
    }
    hide Value;
    if width > 0 {
      var p, q := Padded(m / 10, width - 1), Padded(n / 10, width - 1);
      PaddedOrder(m / 10, n / 10, width - 1);
      DigitOrder(m % 10, n % 10);
      LexFields(p, q, [Digit(m % 10)], [Digit(n % 10)]);
      assert LexLess(Padded(m, width), Padded(n, width))
        <==> m / 10 < n / 10 || (m / 10 == n / 10 && m % 10 < n % 10);
    }
  }
}
