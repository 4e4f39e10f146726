/** Decimal numerals as Python writes and reads them. */
module Decimals {

  predicate IsDigit(c: char) {
    '0' <= c <= '9'
  }

  predicate IsDigits(s: string) {
    s != "" && forall c :: c in s ==> IsDigit(c)
  }

  function DigitChar(d: nat): char
    requires d < 10
  {
    '0' + d as char
  }

  function Decimal(n: nat): (s: string)
    ensures IsDigits(s)
  {
    if n < 10 then [DigitChar(n)] else Decimal(n / 10) + [DigitChar(n % 10)]
  }

  /** Python's `int` on ASCII digits. */
  function Number(s: string): nat
    requires forall c :: c in s ==> IsDigit(c)
  {
    if s == "" then 0
    else
      assert IsDigit(s[|s| - 1]);
      10 * Number(s[..|s| - 1]) + (s[|s| - 1] as int - '0' as int)
  }

  lemma {:induction false} DecimalRoundTrip(n: nat)
    ensures Number(Decimal(n)) == n
  {
    if n >= 10 {
      DecimalRoundTrip(n / 10);
      var s := Decimal(n);
      assert s[..|s| - 1] == Decimal(n / 10) && s[|s| - 1] == DigitChar(n % 10);
    } else {
      assert Decimal(n)[..0] == "";
    }
  }

  function Power10(k: nat): nat {
    if k == 0 then 1 else 10 * Power10(k - 1)
  }

  /** A number takes at most `k` digits exactly when it is below the k-th power of ten. */
  lemma {:induction false} DecimalLength(n: nat, k: nat)
    requires k > 0
    ensures |Decimal(n)| <= k <==> n < Power10(k)
  {
    if n >= 10 && k > 1 {
      DecimalLength(n / 10, k - 1);
    } else if n >= 10 {
      assert Power10(1) == 10 * Power10(0) && |Decimal(n / 10)| > 0;
    } else if k > 1 {
      PowerIsPositive(k - 1);
    }
  }

  lemma {:induction false} PowerIsPositive(k: nat)
    ensures Power10(k) >= 1
  {
    if k > 0 {
      PowerIsPositive(k - 1);
    }
  }
}
