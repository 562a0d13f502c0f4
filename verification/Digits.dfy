/** Natural numbers in decimal notation. */
module Digits {
  predicate IsDigit(c: char) { '0' <= c <= '9' }

  predicate AllDigits(text: string) {
    text != "" && forall i :: 0 <= i < |text| ==> IsDigit(text[i])
  }

  function Number(digits: string): nat
    requires forall i :: 0 <= i < |digits| ==> IsDigit(digits[i])
  {
    if digits == "" then 0
    else
      assert IsDigit(digits[|digits| - 1]);
      10 * Number(digits[..|digits| - 1]) + (digits[|digits| - 1] as int - '0' as int)
  }

  function Decimal(n: nat): (digits: string)
    ensures digits != "" && (n >= 10 ==> |digits| >= 2)
  {
    if n < 10 then [('0' as int + n) as char] else Decimal(n / 10) + [('0' as int + n % 10) as char]
  }

  // ----- what the notation means -----

  function PowerOfTen(exponent: nat): nat {
    if exponent == 0 then 1 else 10 * PowerOfTen(exponent - 1)
  }

  /** The sum of the digits, each times its place value. */
  function Positional(digits: string): int {
    if digits == "" then 0
    else (digits[0] as int - '0' as int) * PowerOfTen(|digits| - 1) + Positional(digits[1..])
  }

  lemma {:induction false} PositionalAppend(front: string, last: char)
    ensures Positional(front + [last]) == 10 * Positional(front) + (last as int - '0' as int)
  {
    if front == "" {
      assert front + [last] == [last] && [last][1..] == "";
    } else {
      assert (front + [last])[1..] == front[1..] + [last];
      PositionalAppend(front[1..], last);
      assert PowerOfTen(|front|) == 10 * PowerOfTen(|front| - 1);
      var digit := front[0] as int - '0' as int;
      assert digit * (10 * PowerOfTen(|front| - 1)) == 10 * (digit * PowerOfTen(|front| - 1));
    }
  }

  /** Reading from the front computes the positional value. */
  lemma {:induction false} NumberIsPositional(digits: string)
    requires forall i :: 0 <= i < |digits| ==> IsDigit(digits[i])
    ensures Number(digits) == Positional(digits)
  {
    if digits != "" {
      var front := digits[..|digits| - 1];
      NumberIsPositional(front);
      PositionalAppend(front, digits[|digits| - 1]);
      assert digits == front + [digits[|digits| - 1]];
    }
  }

  /** The decimal text of a number has digits only, no leading zero, and the number as its value. */
  lemma {:induction false} DecimalMeans(n: nat)
    ensures AllDigits(Decimal(n)) && (Decimal(n)[0] == '0' ==> n == 0) && Positional(Decimal(n)) == n
  {
    if n >= 10 {
      DecimalMeans(n / 10);
      var last := ('0' as int + n % 10) as char;
      PositionalAppend(Decimal(n / 10), last);
    } else {
      assert Decimal(n)[1..] == "" && PowerOfTen(0) == 1;
    }
  }

  lemma {:induction false} DecimalIsInjective(m: nat, n: nat)
    requires Decimal(m) == Decimal(n)
    ensures m == n
  {
    DecimalMeans(m);
    DecimalMeans(n);
  }
}
