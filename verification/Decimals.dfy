/** Decimal numbers as text, as they end submodule names and stand in JSON pointers. */
module Decimals {
  import opened Common

  predicate IsDigit(c: char) {
    '0' <= c <= '9'
  }

  function DigitOf(n: nat): char
    requires n < 10
  {
    '0' + n as char
  }

  function Decimal(n: nat): (s: string)
    ensures s != [] && forall i :: 0 <= i < |s| ==> IsDigit(s[i])
  {
    if n < 10 then [DigitOf(n)] else Decimal(n / 10) + [DigitOf(n % 10)]
  }

  /** The number that digits denote. */
  function DigitsValue(s: string): Option<nat> {
    if s == "" then Some(0)
    else
      var last := s[|s| - 1];
      match DigitsValue(s[..|s| - 1])
      case Some(n) => if IsDigit(last) then Some(10 * n + (last as int - '0' as int)) else None
      case None => None
  }

  lemma DecimalParts(n: nat)
    ensures n < 10 <==> |Decimal(n)| == 1
    ensures Decimal(n)[|Decimal(n)| - 1] == DigitOf(n % 10)
    ensures n >= 10 ==> Decimal(n)[..|Decimal(n)| - 1] == Decimal(n / 10)
  {
    if n >= 10 {
      Split(Decimal(n / 10), [DigitOf(n % 10)]);
    }
  }

  /** Decimal text reads back, and has no leading zero. */
  lemma {:induction false} DecimalReadsBack(n: nat)
    ensures DigitsValue(Decimal(n)) == Some(n)
    ensures Decimal(n)[0] == '0' <==> n == 0
    ensures Decimal(0) == "0"
  {
    DecimalParts(n);
    var s := Decimal(n);
    if n < 10 {
      assert s == [DigitOf(n)] && s[..0] == "";
    } else {
      DecimalReadsBack(n / 10);
      assert s[0] == Decimal(n / 10)[0];
    }
  }

  lemma DecimalInjective(m: nat, n: nat)
    requires Decimal(m) == Decimal(n)
    ensures m == n
  {
    DecimalReadsBack(m);
    DecimalReadsBack(n);
  }

  lemma {:induction false} LeadingDigit(s: string)
    requires s != "" && DigitsValue(s).Some? && s[0] != '0'
    ensures DigitsValue(s).value > 0
  {
    if |s| > 1 {
      LeadingDigit(s[..|s| - 1]);
    } else {
      assert s[..0] == "";
    }
  }

  /** Digits without a leading zero are the decimal text of their value. */
  lemma {:induction false} DigitsAreDecimal(s: string)
    requires s != "" && DigitsValue(s).Some? && (s[0] == '0' ==> |s| == 1)
    ensures Decimal(DigitsValue(s).value) == s
  {
    var n := DigitsValue(s).value;
    if |s| == 1 {
      assert s[..0] == "" && s == [s[0]];
    } else {
      var front := s[..|s| - 1];
      LeadingDigit(front);
      DigitsAreDecimal(front);
      assert n / 10 == DigitsValue(front).value && DigitOf(n % 10) == s[|s| - 1];
      assert s == front + [s[|s| - 1]];
    }
  }
}
