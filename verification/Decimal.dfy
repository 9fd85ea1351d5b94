/** Decimal printing, with and without zero padding, and the reader that shows it injective. */
module Decimal {

  function DigitChar(d: nat): char
    requires d < 10
  {
    '0' + d as char
  }

  predicate IsDigit(c: char) {
    '0' <= c <= '9'
  }

  function DigitValue(c: char): nat
    requires IsDigit(c)
  {
    c as int - '0' as int
  }

  function Digits(n: nat): (s: string)
    ensures s != [] && forall i :: 0 <= i < |s| ==> IsDigit(s[i])
  {
    if n < 10 then [DigitChar(n)] else Digits(n / 10) + [DigitChar(n % 10)]
  }

  /** Zero padding to a minimum width, as in a %0<width>d format. */
  function Padded(width: nat, n: nat): (s: string)
    ensures s != [] && forall i :: 0 <= i < |s| ==> IsDigit(s[i])
  {
    Zeros(if |Digits(n)| < width then width - |Digits(n)| else 0) + Digits(n)
  }

  function Zeros(k: nat): (s: string)
    ensures |s| == k && forall i :: 0 <= i < k ==> s[i] == '0'
  {
    seq(k, i => '0')
  }

  ghost predicate AllDigits(s: string) {
    forall i :: 0 <= i < |s| ==> IsDigit(s[i])
  }

  function Read(s: string): nat
    requires forall i :: 0 <= i < |s| ==> IsDigit(s[i])
  {
    if s == [] then 0 else 10 * Read(s[..|s| - 1]) + DigitValue(s[|s| - 1])
  }

  lemma {:induction false} ReadDigits(n: nat)
    ensures Read(Digits(n)) == n
  {
    if n >= 10 {
      var s := Digits(n);
      assert s[..|s| - 1] == Digits(n / 10);
      ReadDigits(n / 10);
    }
  }

  lemma {:induction false} ReadZeros(k: nat, s: string)
    requires AllDigits(s)
    ensures AllDigits(Zeros(k) + s) && Read(Zeros(k) + s) == Read(s)
    decreases |s|, k
  {
    var z := Zeros(k) + s;
    if s != [] {
      assert z[..|z| - 1] == Zeros(k) + s[..|s| - 1];
      ReadZeros(k, s[..|s| - 1]);
    } else if k > 0 {
      assert z[..|z| - 1] == Zeros(k - 1) + s;
      ReadZeros(k - 1, s);
    } else {
      assert z == s;
    }
  }

  /** Reading a padded number gives it back, so padding never merges two numbers. */
  lemma ReadPadded(width: nat, n: nat)
    ensures Read(Padded(width, n)) == n
  {
    var k := if |Digits(n)| < width then width - |Digits(n)| else 0;
    ReadZeros(k, Digits(n));
    ReadDigits(n);
  }

  lemma {:induction false} DigitsLead(n: nat)
    ensures |Digits(n)| > 1 ==> Digits(n)[0] != '0'
  {
    if n >= 10 {
      DigitsLead(n / 10);
      if n / 10 < 10 {
        assert Digits(n)[0] == DigitChar(n / 10);
      } else {
        assert |Digits(n / 10)| > 1 && Digits(n)[0] == Digits(n / 10)[0];
      }
    }
  }

  lemma DigitsInjective(m: nat, n: nat)
    ensures Digits(m) == Digits(n) <==> m == n
  {
    ReadDigits(m);
    ReadDigits(n);
  }
}
