/** Decimal digit strings and the numbers they denote. */
module Digits {

  predicate IsDigit(c: char) { '0' <= c <= '9' }

  predicate AllDigits(s: string) { forall i :: 0 <= i < |s| ==> IsDigit(s[i]) }

  function DigitOf(c: char): nat
    requires IsDigit(c)
  {
    c as int - '0' as int
  }

  function CharOf(d: nat): (c: char)
    requires d < 10
    ensures IsDigit(c) && DigitOf(c) == d
  {
    ('0' as int + d) as char
  }

  // The number a digit string denotes; leading zeros and the empty string allowed.
  function Val(s: string): nat
    requires AllDigits(s)
  {
    if s == "" then 0 else 10 * Val(s[..|s| - 1]) + DigitOf(s[|s| - 1])
  }

  function Pow10(n: nat): (p: nat)
    ensures p > 0
  {
    if n == 0 then 1 else 10 * Pow10(n - 1)
  }

  // strconv / fmt %d of a natural number
  function NatStr(n: nat): (s: string)
    ensures s != "" && AllDigits(s)
  {
    if n < 10 then [CharOf(n)] else NatStr(n / 10) + [CharOf(n % 10)]
  }

  function IntStr(n: int): string {
    if n < 0 then "-" + NatStr(-n) else NatStr(n)
  }

  lemma {:induction false} NatStrVal(n: nat)
    ensures Val(NatStr(n)) == n
    ensures NatStr(n)[0] == '0' ==> n == 0
  {
    if n >= 10 {
      NatStrVal(n / 10);
      assert NatStr(n)[..|NatStr(n)| - 1] == NatStr(n / 10);
    } else {
      assert [CharOf(n)][..0] == "";
    }
  }

  lemma NatStrInjective(n: nat, m: nat)
    requires NatStr(n) == NatStr(m)
    ensures n == m
  {
    NatStrVal(n);
    NatStrVal(m);
  }

  lemma {:induction false} Shifted(x: nat, p: nat, y: nat, d: nat, q: nat)
    requires q == 10 * p
    ensures 10 * (x * p + y) + d == x * q + (10 * y + d)
  {
  }

  lemma {:induction false} ValConcat(a: string, b: string)
    requires AllDigits(a) && AllDigits(b)
    ensures AllDigits(a + b)
    ensures Val(a + b) == Val(a) * Pow10(|b|) + Val(b)
  {
    if b == "" {
      assert a + b == a;
    } else {
      var n := |b| - 1;
      ValConcat(a, b[..n]);
      assert (a + b)[..|a + b| - 1] == a + b[..n];
      assert (a + b)[|a + b| - 1] == b[n];
      Shifted(Val(a), Pow10(n), Val(b[..n]), DigitOf(b[n]), Pow10(|b|));
    }
  }

  lemma {:induction false} ValBound(s: string)
    requires AllDigits(s)
    ensures Val(s) < Pow10(|s|)
  {
    if s != "" {
      ValBound(s[..|s| - 1]);
    }
  }

  lemma {:induction false} ValZeros(s: string)
    requires forall i :: 0 <= i < |s| ==> s[i] == '0'
    ensures Val(s) == 0
  {
    if s != "" {
      ValZeros(s[..|s| - 1]);
    }
  }

  lemma {:induction false} ValNines(s: string)
    requires forall i :: 0 <= i < |s| ==> s[i] == '9'
    ensures Val(s) == Pow10(|s|) - 1
  {
    if s != "" {
      ValNines(s[..|s| - 1]);
    }
  }

  // strings.TrimLeft(s, "0")
  function TrimZeros(s: string): (r: string)
    ensures |r| <= |s| && r == s[|s| - |r|..]
    ensures forall i :: 0 <= i < |s| - |r| ==> s[i] == '0'
    ensures r != "" ==> r[0] != '0'
  {
    if s != "" && s[0] == '0' then TrimZeros(s[1..]) else s
  }

  lemma {:induction false} LeadingZero(s: string)
    requires AllDigits(s) && s != "" && s[0] == '0'
    ensures Val(s) == Val(s[1..])
  {
    var n := |s| - 1;
    if n > 0 {
      LeadingZero(s[..n]);
      assert s[..n][1..] == s[1..][..n - 1];
    }
  }

  lemma {:induction false} TrimZerosVal(s: string)
    requires AllDigits(s)
    ensures AllDigits(TrimZeros(s)) && Val(TrimZeros(s)) == Val(s)
  {
    if s != "" && s[0] == '0' {
      TrimZerosVal(s[1..]);
      LeadingZero(s);
    }
  }
}
