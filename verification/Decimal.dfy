/** Decimal numerals in ASCII, as `str(n)` writes them and `int(s)` reads them. */
module Decimal {
  predicate IsDigit(c: int) {
    48 <= c <= 57
  }

  predicate AllDigits(s: seq<int>) {
    forall i :: 0 <= i < |s| ==> IsDigit(s[i])
  }

  /** No leading zero, except in the numeral 0 itself. */
  predicate Numeral(s: seq<int>) {
    s != [] && AllDigits(s) && (s[0] == 48 ==> |s| == 1)
  }

  function Digits(n: nat): (r: seq<int>)
    ensures Numeral(r)
  {
    if n < 10 then [48 + n] else Digits(n / 10) + [48 + n % 10]
  }

  function ValueOf(s: seq<int>): nat
    requires AllDigits(s)
  {
    if s == [] then 0 else 10 * ValueOf(s[..|s| - 1]) + (s[|s| - 1] - 48)
  }

  lemma {:induction false} ValueOfDigits(n: nat)
    ensures ValueOf(Digits(n)) == n
    ensures Digits(n)[0] == 48 ==> n == 0
  {
    if n >= 10 {
      ValueOfDigits(n / 10);
      var s := Digits(n);
      assert s[..|s| - 1] == Digits(n / 10);
    }
  }

  lemma {:induction false} ValueOfAppend(init: seq<int>, d: int)
    requires AllDigits(init) && IsDigit(d)
    ensures AllDigits(init + [d]) && ValueOf(init + [d]) == 10 * ValueOf(init) + (d - 48)
  {
  }

  lemma {:induction false} DigitsOfValue(s: seq<int>)
    requires Numeral(s)
    ensures Digits(ValueOf(s)) == s
    ensures s[0] != 48 ==> ValueOf(s) > 0
    decreases |s|
  {
    var init, d := s[..|s| - 1], s[|s| - 1];
    ValueOfAppend(init, d);
    assert s == init + [d];
    if init != [] {
      assert Numeral(init) && init[0] == s[0] != 48;
      DigitsOfValue(init);
      assert Digits(ValueOf(s)) == Digits(ValueOf(init)) + [d];
    }
  }
}
