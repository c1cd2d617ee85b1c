/** Decimal numerals, as the %d verb prints them. */
module Decimal {

  function Digit(d: nat): char
    requires d < 10
  {
    '0' + (d as char)
  }

  function Numeral(n: nat): (s: string)
    ensures s != []
  {
    if n < 10 then [Digit(n)] else Numeral(n / 10) + [Digit(n % 10)]
  }

  lemma {:induction false} NumeralInjective(m: nat, n: nat)
    requires Numeral(m) == Numeral(n)
    ensures m == n
  {
    var s := Numeral(m);
    if m < 10 || n < 10 {
      assert |s| == 1;
    } else {
      assert s[..|s| - 1] == Numeral(m / 10) == Numeral(n / 10);
      assert s[|s| - 1] == Digit(m % 10) == Digit(n % 10);
      NumeralInjective(m / 10, n / 10);
    }
  }

  /** Reading a numeral in base ten. */
  function ValueOf(s: string): int
  {
    if s == [] then 0 else 10 * ValueOf(s[..|s| - 1]) + (s[|s| - 1] as int - '0' as int)
  }

  /** A numeral is read as the number it was made of, in digits only and with no needless zero in front. */
  lemma {:induction false} NumeralReads(n: nat)
    ensures ValueOf(Numeral(n)) == n
    ensures forall c <- Numeral(n) :: '0' <= c <= '9'
    ensures n > 0 ==> Numeral(n)[0] != '0'
  {
    var s := Numeral(n);
    if n < 10 {
      assert s[..0] == [];
    } else {
      NumeralReads(n / 10);
      assert s[..|s| - 1] == Numeral(n / 10);
    }
  }
}
