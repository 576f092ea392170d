/** The two thousands-grouping algorithms, left to right (aenad/pdf.go) and right to left (ma_deep_cee.go). */
module Thousands {
  import opened Text
  import opened Digits

  // Groups of three from the right, separated by dots.
  function Grouped(d: string): string {
    if |d| <= 3 then d else Grouped(d[..|d| - 3]) + "." + d[|d| - 3..]
  }

  function RemoveDots(s: string): string {
    if s == "" then "" else (if s[0] == '.' then "" else [s[0]]) + RemoveDots(s[1..])
  }

  lemma RemoveDotsConcat(a: string, b: string)
    ensures RemoveDots(a + b) == RemoveDots(a) + RemoveDots(b)
  {
    if a == "" {
      assert a + b == b;
    } else {
      assert (a + b)[1..] == a[1..] + b;
    }
  }

  lemma RemoveDotsDigits(d: string)
    requires AllDigits(d)
    ensures RemoveDots(d) == d
  {
  }

  lemma {:induction false} RemoveDotsJoin(g: string, a: string, b: string)
    requires RemoveDots(g) == a && AllDigits(b)
    ensures RemoveDots(g + "." + b) == a + b
  {
    calc {
      RemoveDots(g + "." + b);
      { RemoveDotsConcat(g + ".", b); }
      RemoveDots(g + ".") + RemoveDots(b);
      { RemoveDotsConcat(g, "."); }
      a + RemoveDots(".") + RemoveDots(b);
      { RemoveDotsDigits(b); assert RemoveDots(".") == ""; }
      a + "" + b;
      a + b;
    }
  }

  // Grouping only inserts dots.
  lemma {:induction false} UngroupGrouped(d: string)
    requires AllDigits(d)
    ensures RemoveDots(Grouped(d)) == d
  {
    if |d| <= 3 {
      RemoveDotsDigits(d);
    } else {
      var a, b := d[..|d| - 3], d[|d| - 3..];
      UngroupGrouped(a);
      RemoveDotsJoin(Grouped(a), a, b);
      assert d == a + b;
    }
  }

  lemma {:induction false} FourMore(n: int, m: nat)
    ensures (n + 4) % 4 == n % 4 && (m + 3) / 3 == m / 3 + 1
  {
  }

  // A dot stands exactly before every third digit from the right, but not in front.
  lemma {:induction false} GroupedShape(d: string)
    requires AllDigits(d) && d != ""
    ensures |Grouped(d)| == |d| + (|d| - 1) / 3
    ensures forall k :: 0 <= k < |Grouped(d)| ==> (Grouped(d)[k] == '.' <==> (|Grouped(d)| - k) % 4 == 0)
    decreases |d|
  {
    if |d| > 3 {
      var a, b := d[..|d| - 3], d[|d| - 3..];
      GroupedShape(a);
      FourMore(0, |a| - 1);
      var g, all := Grouped(a), Grouped(d);
      assert all == g + "." + b && |b| == 3;
      hide Grouped;
      forall k | 0 <= k < |all| ensures all[k] == '.' <==> (|all| - k) % 4 == 0 {
        FourMore(|g| - k, 0);
        if k > |g| { assert all[k] == b[k - |g| - 1] && IsDigit(b[k - |g| - 1]); }
        else if k < |g| { assert all[k] == g[k]; }
      }
    }
  }

  // What the left-to-right loop has written after i of the n digits.
  function Emitted(d: string, i: nat, n: nat): string
    requires i <= n <= |d|
  {
    if i == 0 then ""
    else Emitted(d, i - 1, n) + (if i > 1 && (n - (i - 1)) % 3 == 0 then "." else "") + [d[i - 1]]
  }

  lemma {:induction false} EmittedShift(d: string, i: nat, n: nat)
    requires i + 3 <= n <= |d|
    ensures Emitted(d, i, n) == Emitted(d[..n - 3], i, n - 3)
  {
    if i > 0 {
      EmittedShift(d, i - 1, n);
      assert (n - (i - 1)) % 3 == (n - 3 - (i - 1)) % 3;
    }
  }

  lemma {:induction false} EmittedIsGrouped(d: string)
    ensures Emitted(d, |d|, |d|) == Grouped(d)
    decreases |d|
  {
    var n := |d|;
    if n <= 3 {
      EmittedShort(d);
    } else {
      EmittedShift(d, n - 3, n);
      EmittedIsGrouped(d[..n - 3]);
      EmittedTriple(d);
    }
  }

  lemma {:induction false} EmittedTriple(d: string)
    requires |d| > 3
    ensures Emitted(d, |d|, |d|) == Emitted(d, |d| - 3, |d|) + "." + d[|d| - 3..]
  {
    var n := |d|;
    assert Emitted(d, n - 2, n) == Emitted(d, n - 3, n) + "." + [d[n - 3]];
    assert Emitted(d, n - 1, n) == Emitted(d, n - 2, n) + [d[n - 2]] by {
      assert Emitted(d, n - 2, n) + "" == Emitted(d, n - 2, n);
    }
    assert Emitted(d, n, n) == Emitted(d, n - 1, n) + [d[n - 1]] by {
      assert Emitted(d, n - 1, n) + "" == Emitted(d, n - 1, n);
    }
    hide Emitted;
    assert d[n - 3..] == [d[n - 3]] + [d[n - 2]] + [d[n - 1]];
  }

  lemma {:induction false} EmittedShort(d: string)
    requires |d| <= 3
    ensures Emitted(d, |d|, |d|) == d
  {
    assert Emitted(d, 0, |d|) == "";
    if |d| >= 1 { assert Emitted(d, 1, |d|) == "" + "" + [d[0]] == d[..1]; }
    if |d| >= 2 { assert Emitted(d, 2, |d|) == Emitted(d, 1, |d|) + "" + [d[1]] == d[..2]; }
    if |d| >= 3 { assert Emitted(d, 3, |d|) == Emitted(d, 2, |d|) + "" + [d[2]] == d[..3]; }
  }

  function OrZero(d: string): string {
    if d == "" then "0" else d
  }

  // The first i characters, with a dot before each that starts a multiple of three bytes before the end
  function DottedUpTo(d: string, i: nat): string
    requires i <= |d|
  {
    if i == 0 then ""
    else DottedUpTo(d, i - 1) + DotBefore(d, i - 1) + [d[i - 1]]
  }

  // The grouping of any text: digits count as single bytes, other characters with their bytes.
  function Grouping(d: string): string { DottedUpTo(d, |d|) }

  lemma {:induction false} DigitBytes(d: string)
    requires AllDigits(d)
    ensures ByteLen(d) == |d|
  {
    if d != "" { DigitBytes(d[..|d| - 1]); }
  }

  lemma {:induction false} DottedUpToDigits(d: string, i: nat)
    requires AllDigits(d) && i <= |d|
    ensures DottedUpTo(d, i) == Emitted(d, i, |d|)
  {
    if i > 0 {
      DottedUpToDigits(d, i - 1);
      DigitBytes(d);
      DigitBytes(d[..i - 1]);
    }
  }

  // Digits are grouped by three from the right.
  lemma {:induction false} GroupingOfDigits(d: string)
    requires AllDigits(d)
    ensures Grouping(d) == Grouped(d)
  {
    DottedUpToDigits(d, |d|);
    EmittedIsGrouped(d);
  }

  // Whatever the text, grouping only inserts dots.
  function DotBefore(d: string, k: nat): string
    requires k <= |d|
  {
    if k > 0 && (ByteLen(d) - ByteLen(d[..k])) % 3 == 0 then "." else ""
  }

  lemma {:induction false} DottedStep(d: string, k: nat)
    requires k < |d|
    ensures DottedUpTo(d, k + 1) == DottedUpTo(d, k) + DotBefore(d, k) + [d[k]]
    ensures ByteLen(d[..k + 1]) == ByteLen(d[..k]) + CharBytes(d[k])
  {
    assert d[..k + 1][..k] == d[..k];
  }

  lemma {:induction false} DottedNext(d: string, k: nat)
    requires k < |d|
    ensures var dotted := k > 0 && (ByteLen(d) - ByteLen(d[..k])) % 3 == 0;
            DottedUpTo(d, k + 1) == (if dotted then DottedUpTo(d, k) + "." else DottedUpTo(d, k)) + [d[k]]
    ensures ByteLen(d[..k + 1]) == ByteLen(d[..k]) + CharBytes(d[k])
  {
    DottedStep(d, k);
    hide DottedUpTo;
    assert DottedUpTo(d, k) + "" == DottedUpTo(d, k);
  }

  lemma {:induction false} RemoveDotsThree(a: string, b: string, c: string)
    ensures RemoveDots(a + b + c) == RemoveDots(a) + RemoveDots(b) + RemoveDots(c)
  {
    hide RemoveDots;
    RemoveDotsConcat(a + b, c);
    RemoveDotsConcat(a, b);
  }

  lemma {:induction false} DottedKeeps(d: string, i: nat)
    requires i <= |d|
    ensures RemoveDots(DottedUpTo(d, i)) == RemoveDots(d[..i])
  {
    if i > 0 {
      DottedKeeps(d, i - 1);
      DottedStep(d, i - 1);
      assert RemoveDots(DotBefore(d, i - 1)) == "";
      hide DottedUpTo, RemoveDots, ByteLen, DotBefore;
      RemoveDotsThree(DottedUpTo(d, i - 1), DotBefore(d, i - 1), [d[i - 1]]);
      RemoveDotsConcat(d[..i - 1], [d[i - 1]]);
      assert d[..i] == d[..i - 1] + [d[i - 1]];
      assert RemoveDots(d[..i - 1]) + "" == RemoveDots(d[..i - 1]);
    }
  }

  lemma {:induction false} UngroupGrouping(d: string)
    ensures RemoveDots(Grouping(d)) == RemoveDots(d)
  {
    DottedKeeps(d, |d|);
    assert d[..|d|] == d;
  }

  // b shows the first k characters, i bytes of the text.
  predicate Shown(d: string, b: string, i: nat, k: nat) {
    k <= |d| && i == ByteLen(d[..k]) && (i > 0 <==> k > 0) && b == DottedUpTo(d, k)
  }

  lemma {:induction false} ShownNext(d: string, b: string, i: nat, k: nat)
    requires k < |d| && Shown(d, b, i, k)
    ensures Shown(d, (if i > 0 && (ByteLen(d) - i) % 3 == 0 then b + "." else b) + [d[k]], i + CharBytes(d[k]), k + 1)
  {
    DottedNext(d, k);
    hide DottedUpTo, ByteLen;
  }

  lemma {:induction false} ShownFirst(d: string)
    ensures Shown(d, "", 0, 0)
  {
  }

  // groupThousandsIT: the loop goes over characters, its index counts bytes.
  method GroupThousandsIT(input: string) returns (b: string)
    ensures b == Grouping(OrZero(TrimZeros(input)))
  {
    var digits := TrimZeros(input);
    if digits == "" { digits := "0"; }
    b := "";
    var i: nat, k: nat := 0, 0;
    ShownFirst(digits);
    hide ByteLen, Shown, TrimZeros, CharBytes;
    while k < |digits|
      invariant 0 <= k <= |digits| && Shown(digits, b, i, k)
    {
      ShownNext(digits, b, i, k);
      if i > 0 && (ByteLen(digits) - i) % 3 == 0 {
        b := b + ".";
      }
      b := b + [digits[k]];
      i, k := i + CharBytes(digits[k]), k + 1;
    }
    ShownAll(digits, b, i);
  }

  lemma {:induction false} ShownAll(d: string, b: string, i: nat)
    requires Shown(d, b, i, |d|)
    ensures b == Grouping(d)
  {
  }

  // One round of the insertion loop: the last three digits of the head go behind a dot.
  lemma {:induction false} OneDot(digits: string, i: nat, tail: string)
    requires 0 < i && i + 3 <= |digits|
    ensures var s := digits[..i + 3] + tail;
            && s[..i] + "." + s[i..] == digits[..i] + ("." + digits[i..i + 3] + tail)
            && Grouped(digits[..i + 3]) + tail == Grouped(digits[..i]) + ("." + digits[i..i + 3] + tail)
  {
    var head := digits[..i + 3];
    assert head[..i] == digits[..i] && head[i..] == digits[i..i + 3];
    assert (head + tail)[..i] == digits[..i] && (head + tail)[i..] == digits[i..i + 3] + tail;
    assert Grouped(head) == Grouped(digits[..i]) + "." + digits[i..i + 3];
  }

  // The insertion loop of maFormatEUR
  method InsertDots(digits: string) returns (s: string)
    ensures s == Grouped(digits)
  {
    s := digits;
    var i := |digits| - 3;
    ghost var tail := "";
    assert digits[..i + 3] == digits && digits + tail == digits && Grouped(digits) + tail == Grouped(digits);
    while i > 0
      invariant -3 <= i <= |digits| - 3
      invariant s == digits[..i + 3] + tail
      invariant Grouped(digits) == Grouped(digits[..i + 3]) + tail
    {
      OneDot(digits, i, tail);
      tail := "." + digits[i..i + 3] + tail;
      s := s[..i] + "." + s[i..];
      i := i - 3;
    }
  }

  // math.Round of a magnitude: to the nearest integer, ties away from zero
  function RoundedMagnitude(v: real): (n: nat)
    ensures n as real - 0.5 <= (if v < 0.0 then -v else v) < n as real + 0.5
  {
    var m := if v < 0.0 then -v else v;
    (m + 0.5).Floor
  }

  // maFormatEUR
  method FormatEUR(v: real) returns (r: string)
    ensures r == (if v < 0.0 then "-" else "") + Grouped(NatStr(RoundedMagnitude(v))) + " €"
  {
    var s := InsertDots(NatStr(RoundedMagnitude(v)));
    if v < 0.0 {
      s := "-" + s;
    }
    r := s + " €";
  }

  // Both algorithms write the same grouping of every natural number, and dropping the dots gives
  // back its digits.
  method GroupBothWays(n: nat) returns (leftToRight: string, rightToLeft: string)
    ensures leftToRight == rightToLeft
    ensures RemoveDots(leftToRight) == NatStr(n)
  {
    NatStrVal(n);
    if n == 0 { assert NatStr(0) == "0" && TrimZeros("0") == ""; }
    leftToRight := GroupThousandsIT(NatStr(n));
    GroupingOfDigits(NatStr(n));
    rightToLeft := InsertDots(NatStr(n));
    UngroupGrouped(NatStr(n));
  }
}
