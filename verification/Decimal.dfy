/** Decimal notation of natural numbers, as digits. */
module Decimal {

  type digit = d: nat | d < 10

  function Digits(n: nat): (ds: seq<digit>)
    ensures ds != []
    ensures n < 10 ==> |ds| == 1
  {
    if n < 10 then [n] else Digits(n / 10) + [n % 10]
  }

  function Value(ds: seq<digit>): nat {
    if ds == [] then 0 else 10 * Value(ds[..|ds| - 1]) + ds[|ds| - 1]
  }

  /** Reading back what was written gives the number again. */
  lemma {:induction false} ValueOfDigits(n: nat)
    ensures Value(Digits(n)) == n
  {
    if n < 10 {
      assert [n][..0] == [];
      assert Value([n][..0]) == 0;
    } else {
      ValueOfDigits(n / 10);
      assert Digits(n)[..|Digits(n)| - 1] == Digits(n / 10);
    }
  }
}
