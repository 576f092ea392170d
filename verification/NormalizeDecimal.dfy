/** Validation of numeric(18,4) payload values (aenad/documents.go). */
module NormalizeDecimal {
  import opened Wrappers
  import opened Text
  import opened Digits
  import opened DecimalIT

  datatype Normalized = Null | Valid(value: string) | Invalid

  // ^-?\d{1,14}(\.\d{1,4})?$
  predicate Pattern(s: string) {
    var body := StripSign(s);
    var ints := Before(body, '.');
    && 1 <= |ints| <= 14 && AllDigits(ints)
    && (|ints| == |body| || (1 <= |body| - |ints| - 1 <= 4 && AllDigits(body[|ints| + 1..])))
  }

  // strings.ReplaceAll(s, ",", ".")
  function Dotted(s: string): (r: string)
    ensures |r| == |s| && forall i :: 0 <= i < |s| ==> r[i] == if s[i] == ',' then '.' else s[i]
  {
    seq(|s|, i requires 0 <= i < |s| => if s[i] == ',' then '.' else s[i])
  }

  function DropFinalDot(s: string): string {
    if s != "" && s[|s| - 1] == '.' then s[..|s| - 1] else s
  }

  function LeadZero(s: string): string {
    if s != "" && s[0] == '.' then "0" + s
    else if |s| >= 2 && s[0] == '-' && s[1] == '.' then "-0" + s[1..]
    else s
  }

  function Normalize(value: Option<string>): Normalized {
    if value.None? || TrimSpace(value.value) == "" then Null
    else
      var n := LeadZero(DropFinalDot(Dotted(TrimSpace(value.value))));
      if Pattern(n) then Valid(n) else Invalid
  }

  // normalizeDecimal
  method NormalizeInPlace(value: Option<string>) returns (r: Normalized)
    ensures r == Normalize(value)
  {
    hide Pattern, TrimSpace;
    if value.None? { return Null; }
    var normalized := TrimSpace(value.value);
    if normalized == "" { return Null; }
    normalized := Dotted(normalized);
    if normalized[|normalized| - 1] == '.' {
      normalized := normalized[..|normalized| - 1];
    }
    assert normalized == DropFinalDot(Dotted(TrimSpace(value.value)));
    hide DropFinalDot, Dotted;
    if normalized != "" && normalized[0] == '.' {
      normalized := "0" + normalized;
    } else if |normalized| >= 2 && normalized[0] == '-' && normalized[1] == '.' {
      normalized := "-0" + normalized[1..];
    }
    if !Pattern(normalized) { return Invalid; }
    r := Valid(normalized);
  }

  /******* The values that pass *******/

  // sign, digits, decimals in at most one group, and possibly one more separator at the end
  function Spelling(neg: bool, ints: string, frac: string, sep: char, trailing: string): string {
    (if neg then "-" else "") + ints + (if frac != "" then [sep] + frac else "") + trailing
  }

  function Canonical(neg: bool, ints: string, frac: string): string {
    (if neg then "-" else "") + (if ints == "" then "0" else ints) + (if frac != "" then "." + frac else "")
  }

  predicate InBounds(ints: string, frac: string) {
    AllDigits(ints) && AllDigits(frac) && |ints| <= 14 && |frac| <= 4 && (ints != "" || frac != "")
  }

  predicate IsSep(c: char) { c == '.' || c == ',' }

  predicate IsTrailing(s: string) { s == "" || s == "." || s == "," }

  lemma {:induction false} StripCanonical(neg: bool, i: string, tail: string)
    requires i != "" && IsDigit(i[0])
    ensures StripSign((if neg then "-" else "") + i + tail) == i + tail
  {
    var c := (if neg then "-" else "") + i + tail;
    if neg {
      assert c == "-" + (i + tail);
    } else {
      assert c == i + tail && c[0] == i[0];
    }
  }

  lemma {:induction false} CutBody(i: string, frac: string)
    requires '.' !in i
    ensures var body := i + (if frac != "" then "." + frac else "");
            Before(body, '.') == i && (frac != "" ==> body[|i| + 1..] == frac)
  {
    BeforeAppend(i, '.', frac);
    hide Before;
    if frac != "" {
      assert i + ("." + frac) == i + ['.'] + frac;
    } else {
      assert i + "" == i;
    }
  }

  lemma {:induction false} CanonicalPattern(neg: bool, ints: string, frac: string)
    requires InBounds(ints, frac)
    ensures Pattern(Canonical(neg, ints, frac))
  {
    hide Before, StripSign;
    var i := if ints == "" then "0" else ints;
    StripCanonical(neg, i, if frac != "" then "." + frac else "");
    CutBody(i, frac);
  }

  lemma {:induction false} DottedSpelling(neg: bool, ints: string, frac: string, sep: char, trailing: string)
    requires InBounds(ints, frac) && IsSep(sep) && IsTrailing(trailing)
    ensures DropFinalDot(Dotted(Spelling(neg, ints, frac, sep, trailing))) == Spelling(neg, ints, frac, '.', "")
  {
    var core := Spelling(neg, ints, frac, '.', "");
    var t := Spelling(neg, ints, frac, sep, trailing);
    assert Dotted(t) == core + (if trailing == "" then "" else ".");
    assert IsDigit(core[|core| - 1]);
  }

  lemma {:induction false} LeadZeroSpelling(neg: bool, ints: string, frac: string)
    requires InBounds(ints, frac)
    ensures LeadZero(Spelling(neg, ints, frac, '.', "")) == Canonical(neg, ints, frac)
  {
    var core := Spelling(neg, ints, frac, '.', "");
    if ints == "" {
      if neg {
        assert core == "-." + frac && core[1..] == "." + frac;
      } else {
        assert core == "." + frac;
      }
    } else {
      assert IsDigit(ints[0]);
      if neg { assert core[0] == '-' && core[1] == ints[0]; } else { assert core[0] == ints[0]; }
    }
  }

  // How a value that reaches the pattern check and passes is spelled.
  lemma {:induction false} PatternParts(n: string) returns (neg: bool, ints: string, frac: string)
    requires Pattern(n)
    ensures InBounds(ints, frac) && ints != "" && n == Canonical(neg, ints, frac)
  {
    var body := StripSign(n);
    neg, ints := Negative(n), Before(body, '.');
    frac := if |ints| == |body| then "" else body[|ints| + 1..];
    assert body == ints + (if frac != "" then "." + frac else "");
  }

  lemma {:induction false} UndoLeadZero(x: string) returns (neg: bool, ints: string, frac: string)
    requires Pattern(LeadZero(x))
    ensures InBounds(ints, frac) && x == Spelling(neg, ints, frac, '.', "") && LeadZero(x) == Canonical(neg, ints, frac)
  {
    neg, ints, frac := PatternParts(LeadZero(x));
    if LeadZero(x) != x {
      var n := LeadZero(x);
      ZeroLed(neg, ints, frac, n, x);
      ints := "";
    }
  }

  // A zero was put in front of the point: the integer part is that zero.
  lemma {:induction false} ZeroLed(neg: bool, ints: string, frac: string, n: string, x: string)
    requires InBounds(ints, frac) && ints != "" && n == Canonical(neg, ints, frac) && n == LeadZero(x) && n != x
    ensures ints == "0" && frac != "" && x == Spelling(neg, "", frac, '.', "")
  {
    var p := if neg then 1 else 0;
    assert n[p] == ints[0];
    assert |ints| > 1 ==> n[p + 1] == ints[1] && IsDigit(ints[1]);
    assert n[p] == '0' && n[p + 1] == '.';
    assert frac != "";
    assert n[p + 1..] == "." + frac;
    if neg {
      assert x == "-" + n[2..];
    } else {
      assert x == n[1..];
    }
  }

  lemma {:induction false} UndoDotted(t: string, neg: bool, ints: string, frac: string)
      returns (sep: char, trailing: string)
    requires InBounds(ints, frac) && t != "" && DropFinalDot(Dotted(t)) == Spelling(neg, ints, frac, '.', "")
    ensures IsSep(sep) && IsTrailing(trailing) && t == Spelling(neg, ints, frac, sep, trailing)
  {
    var core := Spelling(neg, ints, frac, '.', "");
    var p := (if neg then 1 else 0) + |ints|;
    sep := if frac != "" then t[p] else '.';
    trailing := t[|core|..];
    assert forall k :: 0 <= k < |core| ==> Dotted(t)[k] == core[k];
    assert frac != "" ==> core[p] == '.';
    forall k | 0 <= k < |t| ensures t[k] == Spelling(neg, ints, frac, sep, trailing)[k] {
      if k < |core| && k != p {
        SpellingDigit(neg, ints, frac, k);
      }
    }
  }

  lemma {:induction false} SpellingDigit(neg: bool, ints: string, frac: string, k: nat)
    requires InBounds(ints, frac) && k < |Spelling(neg, ints, frac, '.', "")| && k != (if neg then 1 else 0) + |ints|
    ensures Spelling(neg, ints, frac, '.', "")[k] != '.'
  {
    var p := (if neg then 1 else 0) + |ints|;
    var core := Spelling(neg, ints, frac, '.', "");
    if neg && k == 0 {
      assert core[k] == '-';
    } else if k < p {
      assert core[k] == ints[k - (if neg then 1 else 0)];
    } else {
      assert core[k] == frac[k - p - 1];
    }
  }

  // Main result: exactly these spellings pass, and each yields its canonical form. A separator at the
  // very end is forgiven even after decimals.
  lemma {:induction false} AcceptedSpellings(value: string, c: string)
    ensures Normalize(Some(value)) == Valid(c) <==>
              exists neg, ints, frac, sep, trailing ::
                && InBounds(ints, frac) && IsSep(sep) && IsTrailing(trailing)
                && TrimSpace(value) == Spelling(neg, ints, frac, sep, trailing) && c == Canonical(neg, ints, frac)
  {
    var t := TrimSpace(value);
    if exists neg, ints, frac, sep, trailing ::
        InBounds(ints, frac) && IsSep(sep) && IsTrailing(trailing)
        && t == Spelling(neg, ints, frac, sep, trailing) && c == Canonical(neg, ints, frac)
    {
      var neg, ints, frac, sep, trailing :|
        InBounds(ints, frac) && IsSep(sep) && IsTrailing(trailing)
        && t == Spelling(neg, ints, frac, sep, trailing) && c == Canonical(neg, ints, frac);
      SpellingPasses(value, neg, ints, frac, sep, trailing);
    }
    if Normalize(Some(value)) == Valid(c) {
      var neg, ints, frac := UndoLeadZero(DropFinalDot(Dotted(t)));
      var sep, trailing := UndoDotted(t, neg, ints, frac);
    }
  }

  lemma {:induction false} SpellingPasses(value: string, neg: bool, ints: string, frac: string, sep: char,
      trailing: string)
    requires InBounds(ints, frac) && IsSep(sep) && IsTrailing(trailing)
    requires TrimSpace(value) == Spelling(neg, ints, frac, sep, trailing)
    ensures Normalize(Some(value)) == Valid(Canonical(neg, ints, frac))
  {
    DottedSpelling(neg, ints, frac, sep, trailing);
    LeadZeroSpelling(neg, ints, frac);
    CanonicalPattern(neg, ints, frac);
    assert TrimSpace(value) != "";
  }

  // Two separators, one of them at the end: not a number, and accepted all the same.
  lemma {:induction false} TrailingSeparatorPasses()
    ensures Normalize(Some("1.5.")) == Valid("1.5")
  {
    TrimSpaceOfTrimmed("1.5.");
    assert Spelling(false, "1", "5", '.', ".") == "1.5." && Canonical(false, "1", "5") == "1.5";
    SpellingPasses("1.5.", false, "1", "5", '.', ".");
  }

  // Main result: every value handed on is a fixed point, matches the column's pattern and is
  // accepted for display.
  lemma {:induction false} OutputIsFixedPoint(value: Option<string>)
    requires Normalize(value).Valid?
    ensures Normalize(Some(Normalize(value).value)) == Normalize(value)
    ensures Pattern(Normalize(value).value) && Accepts(Normalize(value).value)
  {
    PatternFixed(Normalize(value).value);
  }

  lemma {:induction false} PatternFixed(n: string)
    requires Pattern(n)
    ensures Normalize(Some(n)) == Valid(n) && Accepts(n)
  {
    var neg, ints, frac := PatternParts(n);
    CanonicalTrimmed(neg, ints, frac);
    TrimSpaceOfTrimmed(n);
    PatternAccepted(n);
    hide Pattern, Normalize, Accepts;
    assert n == Spelling(neg, ints, frac, '.', "");
    SpellingPasses(n, neg, ints, frac, '.', "");
  }

  lemma {:induction false} PatternAccepted(n: string)
    requires Pattern(n) && TrimSpace(n) == n
    ensures Accepts(n)
  {
    hide TrimSpace;
  }

  lemma {:induction false} CanonicalTrimmed(neg: bool, ints: string, frac: string)
    requires InBounds(ints, frac)
    ensures Trimmed(Canonical(neg, ints, frac))
  {
    var c := Canonical(neg, ints, frac);
    assert IsDigit(c[|c| - 1]);
    assert c[0] == '-' || IsDigit(c[0]);
  }
}
