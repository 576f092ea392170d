/** Italian display of numeric strings (aenad/pdf.go): half-up rounding on the digits themselves. */
module DecimalIT {
  import opened Text
  import opened Digits
  import opened Thousands

  /******* Input *******/

  function StripSign(s: string): string {
    if s != "" && s[0] == '-' then s[1..] else s
  }

  predicate Negative(s: string) {
    s != "" && s[0] == '-'
  }

  // strings.Cut at the first separator
  function Before(s: string, c: char): (r: string)
    ensures |r| <= |s| && r == s[..|r|] && c !in r
    ensures |r| < |s| ==> s[|r|] == c
  {
    if s == "" || s[0] == c then "" else [s[0]] + Before(s[1..], c)
  }

  function AfterCut(s: string, c: char): string {
    if |Before(s, c)| < |s| then s[|Before(s, c)| + 1..] else ""
  }

  // The digits before and after the decimal point of a trimmed, unsigned amount.
  function IntDigits(raw: string): string {
    Before(StripSign(TrimSpace(raw)), '.')
  }

  function FracDigits(raw: string): string {
    AfterCut(StripSign(TrimSpace(raw)), '.')
  }

  predicate Accepts(raw: string) {
    AllDigits(IntDigits(raw)) && AllDigits(FracDigits(raw))
  }

  // The amounts accepted: an optional minus, digits, and at most one point with digits after it. Every part
  // may be missing.
  function Amount(neg: bool, ints: string, point: bool, frac: string): string {
    (if neg then "-" else "") + ints + (if point then "." + frac else "")
  }

  lemma {:induction false} AmountSigned(neg: bool, body: string)
    requires body == "" || body[0] != '-'
    ensures StripSign((if neg then "-" else "") + body) == body && Negative((if neg then "-" else "") + body) == neg
  {
    if neg { assert ("-" + body)[1..] == body; } else { assert "" + body == body; }
  }

  lemma {:induction false} AmountCut(ints: string, point: bool, frac: string)
    requires AllDigits(ints)
    ensures var body := ints + (if point then "." + frac else "");
            && Before(body, '.') == ints && AfterCut(body, '.') == (if point then frac else "")
            && (body == "" || body[0] != '-')
  {
    assert ints != "" ==> IsDigit(ints[0]);
    BeforeAppend(ints, '.', frac);
    hide Before;
    if point { assert ints + ("." + frac) == ints + ['.'] + frac; } else { assert ints + "" == ints; }
  }

  lemma {:induction false} AmountRead(t: string, neg: bool, ints: string, point: bool, frac: string)
    requires AllDigits(ints) && t == Amount(neg, ints, point, frac)
    ensures Negative(t) == neg && Before(StripSign(t), '.') == ints
    ensures AfterCut(StripSign(t), '.') == if point then frac else ""
  {
    var sign, tail := if neg then "-" else "", if point then "." + frac else "";
    AmountCut(ints, point, frac);
    AmountSigned(neg, ints + tail);
    hide Before, AfterCut, StripSign, Negative;
    SameText(sign, ints, tail);
  }

  lemma {:induction false} AmountAccepted(raw: string, neg: bool, ints: string, point: bool, frac: string)
    requires AllDigits(ints) && AllDigits(frac) && TrimSpace(raw) == Amount(neg, ints, point, frac)
    ensures Accepts(raw) && Negative(TrimSpace(raw)) == neg
    ensures IntDigits(raw) == ints && FracDigits(raw) == if point then frac else ""
  {
    AmountRead(TrimSpace(raw), neg, ints, point, frac);
    hide Before, AfterCut, StripSign, Negative, TrimSpace, Amount, AllDigits;
    assert point || AllDigits("");
  }

  lemma {:induction false} AmountParts(raw: string) returns (neg: bool, ints: string, point: bool, frac: string)
    requires Accepts(raw)
    ensures AllDigits(ints) && AllDigits(frac) && TrimSpace(raw) == Amount(neg, ints, point, frac)
  {
    var t := TrimSpace(raw);
    var body := StripSign(t);
    neg, ints, point, frac := Negative(t), IntDigits(raw), |IntDigits(raw)| < |body|, FracDigits(raw);
    hide TrimSpace, AllDigits;
    if point { assert body == ints + "." + frac; } else { assert body == ints + ""; }
    if neg { assert t == "-" + body; } else { assert t == body; }
  }

  // Exactly these are accepted.
  lemma {:induction false} AcceptedAmounts(raw: string)
    ensures Accepts(raw)
       <==> exists neg, ints, point, frac ::
              AllDigits(ints) && AllDigits(frac) && TrimSpace(raw) == Amount(neg, ints, point, frac)
  {
    hide Accepts, Amount, AllDigits, TrimSpace;
    if exists neg, ints, point, frac ::
        AllDigits(ints) && AllDigits(frac) && TrimSpace(raw) == Amount(neg, ints, point, frac)
    {
      var neg, ints, point, frac :|
        AllDigits(ints) && AllDigits(frac) && TrimSpace(raw) == Amount(neg, ints, point, frac);
      AmountAccepted(raw, neg, ints, point, frac);
    }
    if Accepts(raw) { var neg, ints, point, frac := AmountParts(raw); }
  }

  /******* Increment *******/

  // incrementDecimalString
  method IncrementDecimalString(digits: string) returns (r: string, overflow: bool)
    requires AllDigits(digits)
    ensures |r| == |digits| && AllDigits(r)
    ensures Val(r) + (if overflow then Pow10(|digits|) else 0) == Val(digits) + 1
  {
    if digits == "" { return "", true; }
    var out := new char[|digits|](i requires 0 <= i < |digits| => digits[i]);
    var i := out.Length - 1;
    while i >= 0
      invariant -1 <= i < out.Length == |digits|
      invariant forall k :: 0 <= k <= i ==> out[k] == digits[k]
      invariant forall k :: i < k < out.Length ==> out[k] == '0' && digits[k] == '9'
    {
      if out[i] < '9' {
        assert IsDigit(digits[i]);
        out[i] := ((out[i] as int) + 1) as char;
        BumpedDigit(digits, out[..], i);
        return out[..], false;
      }
      assert IsDigit(digits[i]);
      out[i] := '0';
      i := i - 1;
    }
    ValNines(digits);
    ValZeros(out[..]);
    r, overflow := out[..], true;
  }

  // Raising digit i and clearing the nines after it adds one.
  lemma {:induction false} BumpedDigit(digits: string, out: string, i: nat)
    requires AllDigits(digits) && i < |digits| == |out| && digits[i] < '9'
    requires out[i] as int == digits[i] as int + 1
    requires forall k :: 0 <= k < i ==> out[k] == digits[k]
    requires forall k :: i < k < |out| ==> out[k] == '0' && digits[k] == '9'
    ensures AllDigits(out) && Val(out) == Val(digits) + 1
  {
    var n := |digits| - 1;
    assert AllDigits(out) by {
      forall k | 0 <= k < |out| ensures IsDigit(out[k]) { assert IsDigit(digits[k]); }
    }
    if i == n {
      assert out[..n] == digits[..n];
    } else {
      BumpedDigit(digits[..n], out[..n], i);
    }
  }

  /******* Rounding *******/

  // digits, read as a number scaled by Pow10(f), lies in [r - 1/2, r + 1/2) units of the d-th place.
  predicate RoundsHalfUp(v: nat, f: nat, r: nat, d: nat) {
    if f <= d then r == v * Pow10(d - f)
    else (2 * r - 1) * Pow10(f - d) <= 2 * v < (2 * r + 1) * Pow10(f - d)
  }

  // The digit after the cut decides: '5' or more is at least half a unit.
  lemma {:induction false} HalfDigit(rest: string)
    requires AllDigits(rest) && rest != ""
    ensures rest[0] >= '5' <==> 2 * Val(rest) >= Pow10(|rest|)
  {
    var tail := rest[1..];
    assert rest == [rest[0]] + tail;
    ValConcat([rest[0]], tail);
    assert [rest[0]][..0] == "";
    ValBound(tail);
    LeadingDigit(DigitOf(rest[0]), Pow10(|tail|), Val(tail));
  }

  lemma {:induction false} LeadingDigit(d: nat, p: nat, v: nat)
    requires v < p
    ensures d >= 5 <==> 2 * (d * p + v) >= 10 * p
  {
    if d >= 5 {
      assert d * p >= 5 * p;
    } else {
      assert d * p <= 4 * p;
    }
  }

  lemma {:induction false} CutValue(ints: string, frac: string, d: nat)
    requires AllDigits(ints) && AllDigits(frac) && d < |frac|
    ensures AllDigits(frac[..d]) && AllDigits(frac[d..]) && AllDigits(ints + frac) && AllDigits(ints + frac[..d])
    ensures Val(ints + frac) == Val(ints + frac[..d]) * Pow10(|frac| - d) + Val(frac[d..])
  {
    assert ints + frac == (ints + frac[..d]) + frac[d..];
    ValConcat(ints + frac[..d], frac[d..]);
  }

  lemma {:induction false} RoundDown(x: nat, rest: nat, p: nat)
    requires 2 * rest < p
    ensures (2 * x - 1) * p <= 2 * (x * p + rest) < (2 * x + 1) * p
  {
    assert (2 * x - 1) * p == 2 * (x * p) - p;
    assert (2 * x + 1) * p == 2 * (x * p) + p;
  }

  lemma {:induction false} RoundUp(x: nat, rest: nat, p: nat)
    requires p <= 2 * rest && rest < p
    ensures (2 * (x + 1) - 1) * p <= 2 * (x * p + rest) < (2 * (x + 1) + 1) * p
  {
    assert (2 * (x + 1) - 1) * p == 2 * (x * p) + p;
    assert (2 * (x + 1) + 1) * p == 2 * (x * p) + 3 * p;
  }

  lemma {:induction false} Padded(ints: string, frac: string, zeros: string)
    requires AllDigits(ints) && AllDigits(frac) && forall k :: 0 <= k < |zeros| ==> zeros[k] == '0'
    ensures AllDigits(ints + frac + zeros) && AllDigits(ints + frac)
    ensures Val(ints + frac + zeros) == Val(ints + frac) * Pow10(|zeros|)
  {
    ValZeros(zeros);
    ValConcat(ints + frac, zeros);
  }

  // A carry out of the fraction goes into the integer part, one digit longer if need be.
  lemma {:induction false} CarryValue(ints: string, keep: string, carriedInts: string, carriedKeep: string,
      overflow: bool)
    requires AllDigits(ints) && AllDigits(keep) && AllDigits(carriedInts) && AllDigits(carriedKeep)
    requires |carriedKeep| == |keep|
    requires Val(carriedKeep) + (if overflow then Pow10(|keep|) else 0) == Val(keep) + 1
    requires Val(carriedInts) == Val(ints) + if overflow then 1 else 0
    ensures AllDigits(carriedInts + carriedKeep) && AllDigits(ints + keep)
    ensures Val(carriedInts + carriedKeep) == Val(ints + keep) + 1
  {
    ValConcat(ints, keep);
    ValConcat(carriedInts, carriedKeep);
    CarrySum(Val(ints), Val(keep), Val(carriedInts), Val(carriedKeep), Pow10(|keep|), overflow);
    hide Val;
  }

  lemma {:induction false} CarrySum(a: nat, k: nat, carriedA: nat, carriedK: nat, p: nat, overflow: bool)
    requires carriedK + (if overflow then p else 0) == k + 1 && carriedA == a + if overflow then 1 else 0
    ensures carriedA * p + carriedK == a * p + k + 1
  {
    assert (a + 1) * p == a * p + p;
  }

  lemma {:induction false} PrefixOne(s: string)
    requires AllDigits(s)
    ensures AllDigits("1" + s) && Val("1" + s) == Pow10(|s|) + Val(s)
  {
    ValConcat("1", s);
    assert "1"[..0] == "";
    assert Val("1") == 1;
  }

  // The rounded digits of an accepted amount: integer part and exactly d decimals.
  method RoundDigits(ints: string, frac: string, d: nat) returns (i: string, keep: string)
    requires AllDigits(ints) && AllDigits(frac)
    ensures AllDigits(i) && AllDigits(keep) && |keep| == d && AllDigits(ints + frac) && AllDigits(i + keep)
    ensures RoundsHalfUp(Val(ints + frac), |frac|, Val(i + keep), d)
  {
    hide Val, Pow10;
    i, keep := ints, frac;
    if |keep| > d {
      var next := keep[d];
      keep := keep[..d];
      CutValue(ints, frac, d);
      HalfDigit(frac[d..]);
      ValBound(frac[d..]);
      ghost var x, rest, p := Val(ints + keep), Val(frac[d..]), Pow10(|frac| - d);
      if next >= '5' {
        var cut := keep;
        var overflow;
        keep, overflow := IncrementDecimalString(keep);
        if overflow {
          var carried, longer := IncrementDecimalString(i);
          PrefixOne(carried);
          i := if longer then "1" + carried else carried;
        }
        CarryValue(ints, cut, i, keep, overflow);
        RoundUp(x, rest, p);
      } else {
        RoundDown(x, rest, p);
      }
    } else {
      ghost var start := keep;
      while |keep| < d
        invariant |frac| <= |keep| <= d && keep[..|frac|] == frac
        invariant forall k :: |frac| <= k < |keep| ==> keep[k] == '0'
      {
        keep := keep + "0";
      }
      assert keep == frac + keep[|frac|..];
      assert ints + keep == ints + frac + keep[|frac|..];
      Padded(ints, frac, keep[|frac|..]);
    }
  }

  /******* Output *******/

  // What a reader makes of the display form: sign, integer digits without dots, decimals.
  function ReadInt(s: string): string {
    RemoveDots(Before(StripSign(s), ','))
  }

  function ReadFrac(s: string): string {
    AfterCut(StripSign(s), ',')
  }

  function Display(neg: bool, ints: string, keep: string): string {
    (if neg then "-" else "") + Grouping(OrZero(TrimZeros(ints))) + (if keep != "" then "," + keep else "")
  }

  lemma {:induction false} GroupedChars(d: string)
    requires AllDigits(d)
    ensures forall k :: 0 <= k < |Grouped(d)| ==> IsDigit(Grouped(d)[k]) || Grouped(d)[k] == '.'
    ensures d != "" ==> Grouped(d) != ""
    decreases |d|
  {
    if |d| > 3 {
      GroupedChars(d[..|d| - 3]);
    }
  }

  lemma {:induction false} BeforeAppend(a: string, c: char, b: string)
    requires c !in a
    ensures Before(a, c) == a
    ensures Before(a + [c] + b, c) == a && AfterCut(a + [c] + b, c) == b
  {
    if a == "" {
      assert a + [c] + b == [c] + b;
    } else {
      BeforeAppend(a[1..], c, b);
      assert (a + [c] + b)[1..] == a[1..] + [c] + b;
    }
  }

  lemma {:induction false} OrZeroVal(ints: string, keep: string)
    requires AllDigits(ints) && AllDigits(keep)
    ensures AllDigits(OrZero(TrimZeros(ints))) && OrZero(TrimZeros(ints)) != ""
    ensures AllDigits(OrZero(TrimZeros(ints)) + keep) && AllDigits(ints + keep)
    ensures Val(OrZero(TrimZeros(ints)) + keep) == Val(ints + keep)
  {
    TrimZerosVal(ints);
    var i := OrZero(TrimZeros(ints));
    assert Val("0") == 0 by { ValZeros("0"); }
    assert Val("") == 0;
    ValConcat(i, keep);
    ValConcat(ints, keep);
  }

  lemma {:induction false} BeforeAt(s: string, c: char, p: nat)
    requires p <= |s| && (p < |s| ==> s[p] == c) && forall i :: 0 <= i < p ==> s[i] != c
    ensures Before(s, c) == s[..p]
  {
    var r := Before(s, c);
    assert forall i :: 0 <= i < |r| ==> r[i] == s[i] && r[i] in r;
  }

  lemma {:induction false} CutDecimals(g: string, keep: string)
    requires ',' !in g
    ensures var body := g + (if keep != "" then "," + keep else "");
            Before(body, ',') == g && AfterCut(body, ',') == keep
  {
    var body := g + (if keep != "" then "," + keep else "");
    assert forall i :: 0 <= i < |g| ==> body[i] == g[i] && g[i] in g;
    assert keep != "" ==> body[|g|] == ',' && body[|g| + 1..] == keep;
    BeforeAt(body, ',', |g|);
  }

  // Splitting sign, grouped digits and decimals apart again.
  lemma {:induction false} SplitDisplay(neg: bool, g: string, keep: string)
    requires g != "" && g[0] != '-' && ',' !in g
    ensures var s := (if neg then "-" else "") + g + (if keep != "" then "," + keep else "");
            && Negative(s) == neg
            && Before(StripSign(s), ',') == g && AfterCut(StripSign(s), ',') == keep
  {
    var sign, tail := if neg then "-" else "", if keep != "" then "," + keep else "";
    CutDecimals(g, keep);
    AmountSigned(neg, g + tail);
    SameText(sign, g, tail);
    hide Before, AfterCut, StripSign, Negative;
  }

  lemma {:induction false} SameText(a: string, b: string, c: string)
    ensures a + b + c == a + (b + c)
  {
  }

  // Reading the display form gives back the digits it was made of.
  lemma {:induction false} ReadDisplay(neg: bool, ints: string, keep: string)
    requires AllDigits(ints) && AllDigits(keep)
    ensures Negative(Display(neg, ints, keep)) == neg
    ensures ReadInt(Display(neg, ints, keep)) == OrZero(TrimZeros(ints))
    ensures ReadFrac(Display(neg, ints, keep)) == keep
  {
    hide Grouped, Grouping, RemoveDots, TrimZeros, Before;
    var i := OrZero(TrimZeros(ints));
    TrimZerosVal(ints);
    GroupingOfDigits(i);
    GroupedChars(i);
    UngroupGrouped(i);
    SplitDisplay(neg, Grouped(i), keep);
  }

  // An amount of the documents as it is displayed
  lemma {:induction false} DisplayExample()
    ensures Display(false, "24276", "13") == "24.276,13"
  {
    GroupingOfDigits("24276");
    GroupedExample();
    assert TrimZeros("24276") == "24276";
    hide TrimZeros, Grouping, Grouped;
    assert "" + "24.276" + ("," + "13") == "24.276,13";
  }

  lemma {:induction false} GroupedExample()
    ensures Grouped("24276") == "24.276"
  {
    assert "24276"[..2] == "24" && "24276"[2..] == "276";
    assert Grouped("24") + "." + "276" == "24.276";
  }

  // out shows amount raw with d decimals: same sign, grouped digits without leading zeros, and the
  // number read back is the amount rounded half-up.
  ghost predicate Shows(out: string, raw: string, d: nat) {
    && Accepts(raw)
    && Negative(out) == Negative(TrimSpace(raw))
    && |ReadFrac(out)| == d
    && AllDigits(ReadInt(out)) && AllDigits(ReadFrac(out))
    && AllDigits(IntDigits(raw) + FracDigits(raw)) && AllDigits(ReadInt(out) + ReadFrac(out))
    && RoundsHalfUp(Val(IntDigits(raw) + FracDigits(raw)), |FracDigits(raw)|, Val(ReadInt(out) + ReadFrac(out)), d)
    && out == Display(Negative(TrimSpace(raw)), ReadInt(out), ReadFrac(out))
  }

  lemma {:induction false} DisplayShows(raw: string, i: string, keep: string, d: nat)
    requires Accepts(raw) && AllDigits(i) && AllDigits(keep) && |keep| == d
    requires AllDigits(IntDigits(raw) + FracDigits(raw)) && AllDigits(i + keep)
    requires RoundsHalfUp(Val(IntDigits(raw) + FracDigits(raw)), |FracDigits(raw)|, Val(i + keep), d)
    ensures Shows(Display(Negative(TrimSpace(raw)), i, keep), raw, d)
  {
    hide Display, ReadInt, ReadFrac, IntDigits, FracDigits, TrimZeros, Val, Accepts, TrimSpace;
    var neg := Negative(TrimSpace(raw));
    ReadDisplay(neg, i, keep);
    OrZeroVal(i, keep);
    DisplayCanonical(neg, i, keep);
  }

  method WriteDisplay(neg: bool, ints: string, keep: string) returns (out: string)
    ensures out == Display(neg, ints, keep)
  {
    hide TrimZeros, Grouping;
    out := GroupThousandsIT(ints);
    ghost var g, tail := out, if keep != "" then "," + keep else "";
    if |keep| > 0 {
      out := out + "," + keep;
    }
    assert out == g + tail;
    if neg {
      out := "-" + out;
    }
    SignFirst(neg, g, tail, out);
  }

  lemma {:induction false} SignFirst(neg: bool, g: string, tail: string, out: string)
    requires out == if neg then "-" + (g + tail) else g + tail
    ensures out == (if neg then "-" else "") + g + tail
  {
  }

  // decimalToIT. Main result: it accepts exactly the digit strings with at most one point, keeps the
  // sign, and what it shows reads back as the amount rounded half-up, carry included.
  method DecimalToIT(raw: string, decimals: nat) returns (out: string, ok: bool)
    ensures ok <==> Accepts(raw)
    ensures ok ==> Shows(out, raw, decimals)
  {
    var trimmed := TrimSpace(raw);
    var neg := Negative(trimmed);
    var body := StripSign(trimmed);
    var intPart, fracPart := Before(body, '.'), AfterCut(body, '.');
    assert intPart == IntDigits(raw) && fracPart == FracDigits(raw);
    if !AllDigits(intPart) || !AllDigits(fracPart) { return "", false; }
    hide TrimSpace, Before, AfterCut, Val, IntDigits, FracDigits, StripSign;
    EmptyIsZero(intPart, fracPart);
    if intPart == "" {
      intPart := "0";
    }
    var keep;
    intPart, keep := RoundDigits(intPart, fracPart, decimals);
    DisplayShows(raw, intPart, keep, decimals);
    out := WriteDisplay(neg, intPart, keep);
    ok := true;
  }

  lemma {:induction false} EmptyIsZero(given: string, frac: string)
    requires AllDigits(given) && AllDigits(frac)
    ensures AllDigits(given + frac) && AllDigits((if given == "" then "0" else given) + frac)
    ensures Val((if given == "" then "0" else given) + frac) == Val(given + frac)
  {
    if given == "" {
      ValConcat("0", frac);
      ValZeros("0");
      assert given + frac == frac;
    }
  }

  // Leading zeros do not show.
  lemma {:induction false} DisplayCanonical(neg: bool, ints: string, keep: string)
    requires AllDigits(ints)
    ensures Display(neg, ints, keep) == Display(neg, OrZero(TrimZeros(ints)), keep)
  {
    hide Grouped, TrimZeros;
    OrZeroFixed(TrimZeros(ints));
  }

  lemma {:induction false} OrZeroFixed(t: string)
    requires t == "" || t[0] != '0'
    ensures OrZero(TrimZeros(OrZero(t))) == OrZero(t)
  {
    if t == "" {
      assert "0"[1..] == "";
    }
  }

  /******* Quantities *******/

  // strings.TrimRight(s, "0")
  function TrimTrailingZeros(s: string): (r: string)
    ensures |r| <= |s| && r == s[..|r|]
    ensures forall k :: |r| <= k < |s| ==> s[k] == '0'
    ensures r != "" ==> r[|r| - 1] != '0'
  {
    if s != "" && s[|s| - 1] == '0' then TrimTrailingZeros(s[..|s| - 1]) else s
  }

  // out shows the quantity exactly, with no decimals that do not count.
  ghost predicate ShowsExactly(out: string, raw: string) {
    && Accepts(raw)
    && Negative(out) == Negative(TrimSpace(raw))
    && AllDigits(ReadInt(out)) && AllDigits(ReadFrac(out))
    && AllDigits(IntDigits(raw) + FracDigits(raw)) && AllDigits(ReadInt(out) + ReadFrac(out))
    && |ReadFrac(out)| <= |FracDigits(raw)|
    && Val(ReadInt(out) + ReadFrac(out)) * Pow10(|FracDigits(raw)| - |ReadFrac(out)|)
       == Val(IntDigits(raw) + FracDigits(raw))
    && (ReadFrac(out) != "" ==> ReadFrac(out)[|ReadFrac(out)| - 1] != '0')
  }

  lemma {:induction false} SignBeforeCut(s: string)
    ensures Negative(Before(s, '.')) == Negative(s)
    ensures StripSign(Before(s, '.')) == Before(StripSign(s), '.')
    ensures AfterCut(s, '.') == AfterCut(StripSign(s), '.')
  {
    if Negative(s) {
      assert Before(s, '.') == ['-'] + Before(s[1..], '.');
    }
  }

  lemma {:induction false} ExactlyShown(raw: string, ints: string, frac: string, keep: string)
    requires Accepts(raw) && frac == FracDigits(raw) && keep == TrimTrailingZeros(frac)
    requires ints == if IntDigits(raw) == "" then "0" else IntDigits(raw)
    ensures AllDigits(ints) && AllDigits(keep)
    ensures ShowsExactly(Display(Negative(TrimSpace(raw)), ints, keep), raw)
  {
    hide Display, ReadInt, ReadFrac, IntDigits, FracDigits, TrimZeros, Val, TrimSpace, TrimTrailingZeros;
    var neg, zeros := Negative(TrimSpace(raw)), frac[|keep|..];
    ReadDisplay(neg, ints, keep);
    OrZeroVal(ints, keep);
    EmptyIsZero(IntDigits(raw), frac);
    assert ints + frac == ints + keep + zeros;
    Padded(ints, keep, zeros);
  }

  // formatQtaIT on a present, non-blank value. It does not validate; a numeric quantity is shown
  // exactly, whatever its number of decimals.
  method FormatQtaIT(value: string) returns (out: string)
    ensures TrimSpace(value) == "" ==> out == ""
    ensures TrimSpace(value) != "" && Accepts(value) ==> ShowsExactly(out, value)
    ensures TrimSpace(value) != "" ==>
              out == Display(Negative(TrimSpace(value)), if IntDigits(value) == "" then "0"
                else IntDigits(value), TrimTrailingZeros(FracDigits(value)))
  {
    var raw := TrimSpace(value);
    if raw == "" { return ""; }
    var intPart, frac := Before(raw, '.'), AfterCut(raw, '.');
    SignBeforeCut(raw);
    var keep := TrimTrailingZeros(frac);
    var neg := Negative(intPart);
    intPart := StripSign(intPart);
    assert intPart == IntDigits(value) && frac == FracDigits(value);
    hide TrimSpace, Before, AfterCut, Val, IntDigits, FracDigits, StripSign, TrimTrailingZeros;
    if intPart == "" {
      intPart := "0";
    }
    out := WriteDisplay(neg, intPart, keep);
    if Accepts(value) {
      ExactlyShown(value, intPart, frac, keep);
    }
  }
}
