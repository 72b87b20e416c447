/** Decimal printing with zero padding, and the provider references built from it. */
module Numbering {

  function DigitChar(d: nat): (c: char)
    requires d < 10
    ensures '0' <= c <= '9'
  {
    '0' + d as char
  }

  predicate AllDigits(s: string) {
    forall i :: 0 <= i < |s| ==> '0' <= s[i] <= '9'
  }

  /** Decimal digits, no padding. */
  function Digits(n: nat): (s: string)
    ensures |s| > 0 && AllDigits(s)
  {
    if n < 10 then [DigitChar(n)] else Digits(n / 10) + [DigitChar(n % 10)]
  }

  function Zeros(k: nat): (s: string)
    ensures |s| == k && forall i :: 0 <= i < k ==> s[i] == '0'
  {
    seq(k, _ => '0')
  }

  /** printf's %0<width>d on a natural number. */
  function Padded(n: nat, width: nat): (s: string)
    ensures |s| >= width && |s| > 0 && AllDigits(s)
  {
    var d := Digits(n);
    if |d| >= width then d else Zeros(width - |d|) + d
  }

  /** The reference of the n-th gateway payment: PAY-%06d. */
  function Reference(n: nat): string {
    "PAY-" + Padded(n, 6)
  }

  /** The number a digit string denotes. */
  function Value(s: string): nat
    requires AllDigits(s)
  {
    if s == [] then 0 else Value(s[..|s| - 1]) * 10 + (s[|s| - 1] - '0') as nat
  }

  lemma {:induction false} ValueOfDigits(n: nat)
    ensures Value(Digits(n)) == n
  {
    var s := Digits(n);
    if n >= 10 {
      ValueOfDigits(n / 10);
      assert s[..|s| - 1] == Digits(n / 10);
    } else {
      assert s[..|s| - 1] == [];
    }
  }

  lemma {:induction false} ValueOfZeros(k: nat, d: string)
    requires AllDigits(d)
    ensures AllDigits(Zeros(k) + d) && Value(Zeros(k) + d) == Value(d)
  {
    var s := Zeros(k) + d;
    if d != [] {
      assert s[..|s| - 1] == Zeros(k) + d[..|d| - 1];
      ValueOfZeros(k, d[..|d| - 1]);
    } else if k > 0 {
      assert s[..|s| - 1] == Zeros(k - 1) + [];
      ValueOfZeros(k - 1, []);
    }
  }

  lemma PaddedIs(n: nat, width: nat)
    ensures var d := Digits(n); Padded(n, width) == (if |d| >= width then d else Zeros(width - |d|) + d)
  {
  }

  lemma ZerosKeepValue(d: string, width: nat, p: string)
    requires AllDigits(d) && p == (if |d| >= width then d else Zeros(width - |d|) + d)
    ensures AllDigits(p) && Value(p) == Value(d)
  {
    if |d| < width { ValueOfZeros(width - |d|, d); }
  }

  /** Padding loses nothing: the printed number reads back. */
  lemma ValueOfPadded(n: nat, width: nat)
    ensures Value(Padded(n, width)) == n
  {
    ValueOfDigits(n);
    PaddedIs(n, width);
    ZerosKeepValue(Digits(n), width, Padded(n, width));
  }

  lemma {:induction false} DigitsLead(n: nat)
    ensures |Digits(n)| > 1 ==> Digits(n)[0] != '0'
  {
    if n >= 10 {
      DigitsLead(n / 10);
      if n < 100 { assert Digits(n / 10) == [DigitChar(n / 10)]; }
    }
  }

  /** What padding prints: the decimal digits of the number, with leading zeros only up to the width. */
  lemma PaddedPrints(n: nat, width: nat)
    ensures var s := Padded(n, width);
      && AllDigits(s) && Value(s) == n && |s| >= width && |s| > 0
      && (|s| > width && |s| > 1 ==> s[0] != '0')
  {
    ValueOfPadded(n, width);
    PaddedIs(n, width);
    DigitsLead(n);
  }

  /** A reference is "PAY-" and at least six decimal digits of the gateway's number; more only when six do not do. */
  lemma ReferencePrints(n: nat)
    ensures var s := Reference(n);
      && |s| >= 10 && s[..4] == "PAY-"
      && AllDigits(s[4..]) && Value(s[4..]) == n && (|s| > 10 ==> s[4] != '0')
  {
    PaddedPrints(n, 6);
    assert Reference(n)[4..] == Padded(n, 6);
  }

  lemma FirstReference()
    ensures Reference(1) == "PAY-000001"
  {
    assert Digits(1) == "1" && Zeros(5) == "00000";
  }

  lemma PaddedInjective(m: nat, n: nat, width: nat)
    ensures Padded(m, width) == Padded(n, width) <==> m == n
  {
    ValueOfPadded(m, width);
    ValueOfPadded(n, width);
  }

  /** References are pairwise distinct for all numbers, also past six digits. */
  lemma ReferenceInjective(m: nat, n: nat)
    ensures Reference(m) == Reference(n) <==> m == n
  {
    PaddedInjective(m, n, 6);
    assert Reference(m)[4..] == Padded(m, 6);
    assert Reference(n)[4..] == Padded(n, 6);
  }
}
