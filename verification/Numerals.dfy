/** Numbers as text in base 10 and 16, as strconv and fmt write and read them. */
module Numerals {
  predicate IsBase(b: nat) { b == 10 || b == 16 }

  function Digit(d: nat): (c: char)
    requires d < 16
    ensures DigitValue(c) == d
  {
    if d < 10 then '0' + d as char else 'a' + (d - 10) as char
  }

  /** The value of a digit in either case; 16 for any other character. */
  function DigitValue(c: char): nat {
    if '0' <= c <= '9' then (c - '0') as nat
    else if 'a' <= c <= 'f' then (c - 'a') as nat + 10
    else if 'A' <= c <= 'F' then (c - 'A') as nat + 10
    else 16
  }

  predicate IsDigit(c: char, b: nat) { DigitValue(c) < b }

  ghost predicate AllDigits(s: string, b: nat) { forall i :: 0 <= i < |s| ==> IsDigit(s[i], b) }

  /** The same, one character after the other. */
  predicate IsNumeral(s: string, b: nat) { s == "" || (IsDigit(s[0], b) && IsNumeral(s[1..], b)) }

  lemma {:induction false} NumeralsAreDigits(s: string, b: nat)
    ensures IsNumeral(s, b) <==> AllDigits(s, b)
  {
    if s != "" {
      NumeralsAreDigits(s[1..], b);
      assert forall i :: 1 <= i < |s| ==> s[i] == s[1..][i - 1];
    }
  }

  function Value(s: string, b: nat): nat {
    if s == [] then 0 else Value(s[..|s| - 1], b) * b + DigitValue(s[|s| - 1])
  }

  /** The shortest numeral of `n`. */
  function Render(n: nat, b: nat): (s: string)
    requires IsBase(b)
    ensures s != []
  {
    if n < b then [Digit(n)] else Render(n / b, b) + [Digit(n % b)]
  }

  function Power(b: nat, k: nat): nat { if k == 0 then 1 else b * Power(b, k - 1) }

  lemma {:induction false} RenderReadsBack(n: nat, b: nat)
    requires IsBase(b)
    ensures AllDigits(Render(n, b), b) && Value(Render(n, b), b) == n
  {
    var s := Render(n, b);
    if n < b {
      assert s[..0] == [];
    } else {
      RenderReadsBack(n / b, b);
      assert s[..|s| - 1] == Render(n / b, b);
    }
  }

  /** A numeral has at most `k` digits exactly when the number is below the power. */
  lemma {:induction false} RenderLength(n: nat, b: nat, k: nat)
    requires IsBase(b) && k > 0
    ensures |Render(n, b)| <= k <==> n < Power(b, k)
  {
    if n < b {
      PowerPositive(b, k - 1);
      assert Power(b, k) >= b * 1;
    } else if k == 1 {
      assert Power(b, 1) == b * Power(b, 0) == b;
    } else {
      RenderLength(n / b, b, k - 1);
      assert n / b < Power(b, k - 1) <==> n < b * Power(b, k - 1);
    }
  }

  lemma {:induction false} PowerPositive(b: nat, k: nat)
    requires b > 0
    ensures Power(b, k) > 0
  {
    if k > 0 { PowerPositive(b, k - 1); }
  }

  /** No leading zero. */
  lemma {:induction false} RenderLeads(n: nat, b: nat)
    requires IsBase(b) && n > 0
    ensures Render(n, b)[0] != '0'
  {
    if n >= b { RenderLeads(n / b, b); }
  }

  function Zeros(k: nat): (s: string)
    ensures |s| == k && forall i :: 0 <= i < k ==> s[i] == '0'
  {
    if k == 0 then [] else ['0'] + Zeros(k - 1)
  }

  lemma {:induction false} ZerosDoNotCount(k: nat, s: string, b: nat)
    ensures Value(Zeros(k) + s, b) == Value(s, b)
    decreases k + |s|
  {
    if s != [] {
      assert (Zeros(k) + s)[..|Zeros(k) + s| - 1] == Zeros(k) + s[..|s| - 1];
      ZerosDoNotCount(k, s[..|s| - 1], b);
    } else if k > 0 {
      assert Zeros(k) + s == Zeros(k) == Zeros(k - 1) + ['0'];
      ZerosDoNotCount(k - 1, [], b);
      assert Zeros(k - 1) + [] == Zeros(k - 1);
    }
  }
}
