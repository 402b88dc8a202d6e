/** Integers in decimal, as fmt prints them. */
module Decimal {
  function Digits(n: nat): (s: string)
    ensures forall k :: 0 <= k < |s| ==> '0' <= s[k] <= '9'
    ensures s != "" && (|s| == 1 <==> n < 10)
  {
    var last := [('0' as int + n % 10) as char];
    if n < 10 then last else Digits(n / 10) + last
  }

  function Print(n: int): string { if n < 0 then "-" + Digits(-n) else Digits(n) }

  lemma {:induction false} DigitsDiffer(m: nat, n: nat)
    requires Digits(m) == Digits(n)
    ensures m == n
  {
    assert Digits(m)[|Digits(m)| - 1] == Digits(n)[|Digits(n)| - 1];
    if m >= 10 && n >= 10 {
      assert Digits(m / 10) == Digits(m)[..|Digits(m)| - 1] && Digits(n / 10) == Digits(n)[..|Digits(n)| - 1];
      DigitsDiffer(m / 10, n / 10);
    }
  }

  lemma PrintDiffers(m: int, n: int)
    requires Print(m) == Print(n)
    ensures m == n
  {
    hide Digits;
    if m < 0 && n < 0 {
      assert Digits(-m) == Print(m)[1..] && Digits(-n) == Print(n)[1..];
      DigitsDiffer(-m, -n);
    } else {
      assert Print(m)[0] == Print(n)[0];
      if m >= 0 && n >= 0 { DigitsDiffer(m, n); }
    }
  }
}
