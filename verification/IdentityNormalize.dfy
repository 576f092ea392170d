/** The three normal forms of the company identity registry (ma_filing_store.go, ma_service.go). */
module IdentityNormalize {
  import opened Text
  import opened Digits

  // maFiscalNormalizeRe: ASCII white space and dots are removed wherever they stand.
  predicate Stripped(c: char) {
    IsBlank(c) || c == '.'
  }

  function Strip(s: string): (r: string)
    ensures |r| <= |s|
    ensures forall c :: c in r <==> c in s && !Stripped(c)
  {
    if s == "" then ""
    else if Stripped(s[0]) then Strip(s[1..])
    else [s[0]] + Strip(s[1..])
  }

  // A letter case: a map of characters that is idempotent, keeps white space, dots and digits apart from
  // everything else, and fixes digits. unicode.ToUpper is one.
  ghost predicate LetterCase(up: char -> char) {
    forall c ::
      && up(up(c)) == up(c) && (IsSpace(up(c)) <==> IsSpace(c)) && (Stripped(up(c)) <==> Stripped(c))
      && (IsDigit(c) ==> up(c) == c)
  }

  function MapCase(up: char -> char, s: string): (r: string)
    ensures |r| == |s|
    ensures forall i :: 0 <= i < |s| ==> r[i] == up(s[i])
  {
    seq(|s|, i requires 0 <= i < |s| => up(s[i]))
  }

  // normalizeMAFiscalValue, maStableVAT and normalizeMACompanyKey under any letter case
  function FiscalValueBy(up: char -> char, s: string): string {
    Strip(MapCase(up, TrimSpace(s)))
  }

  function StableVATBy(up: char -> char, vat: string): string {
    var clean := FiscalValueBy(up, vat);
    if IsPrefixedVAT(clean) then clean[2..] else clean
  }

  function CompanyKeyBy(up: char -> char, s: string): string {
    MapCase(up, TrimSpace(s))
  }

  function NormalizeFiscalValue(s: string): string {
    Strip(ToUpper(TrimSpace(s)))
  }

  // ^IT[0-9]{11}$
  predicate IsPrefixedVAT(s: string) {
    |s| == 13 && s[0] == 'I' && s[1] == 'T' && forall i :: 2 <= i < 13 ==> IsDigit(s[i])
  }

  function StableVAT(vat: string): string {
    var clean := NormalizeFiscalValue(vat);
    if IsPrefixedVAT(clean) then clean[2..] else clean
  }

  function NormalizeCompanyKey(s: string): string {
    ToUpper(TrimSpace(s))
  }

  lemma StripFixed(s: string)
    requires forall c :: c in s ==> !Stripped(c)
    ensures Strip(s) == s
  {
  }

  // The registry's model uses ASCII upper case, which is a letter case.
  lemma {:induction false} AsciiCase(s: string)
    ensures LetterCase(UpperChar)
    ensures FiscalValueBy(UpperChar, s) == NormalizeFiscalValue(s) && StableVATBy(UpperChar, s) == StableVAT(s)
    ensures CompanyKeyBy(UpperChar, s) == NormalizeCompanyKey(s)
  {
    assert MapCase(UpperChar, TrimSpace(s)) == ToUpper(TrimSpace(s));
  }

  lemma {:induction false} CaseTrimmed(up: char -> char, s: string)
    requires LetterCase(up)
    ensures Trimmed(s) <==> Trimmed(MapCase(up, s))
  {
  }

  lemma {:induction false} CaseIdempotent(up: char -> char, s: string)
    requires LetterCase(up)
    ensures MapCase(up, MapCase(up, s)) == MapCase(up, s)
  {
  }

  lemma {:induction false} CaseCons(up: char -> char, c: char, t: string)
    ensures MapCase(up, [c] + t) == [up(c)] + MapCase(up, t)
  {
  }

  lemma {:induction false} CaseStrip(up: char -> char, s: string)
    requires LetterCase(up)
    ensures Strip(MapCase(up, s)) == MapCase(up, Strip(s))
  {
    if s == "" {
      assert MapCase(up, s) == "";
    } else {
      var c, t := s[0], s[1..];
      assert s == [c] + t && ([up(c)] + MapCase(up, t))[1..] == MapCase(up, t);
      CaseCons(up, c, t);
      CaseCons(up, c, Strip(t));
      CaseStrip(up, t);
      assert Stripped(up(c)) <==> Stripped(c);
      hide LetterCase, MapCase, Stripped;
    }
  }

  lemma {:induction false} UpperSpace(s: string)
    ensures Trimmed(s) <==> Trimmed(ToUpper(s))
  {
  }

  // A key in normal form is its own normal form.
  lemma {:induction false} CompanyKeyIdempotent(up: char -> char, s: string)
    requires LetterCase(up)
    ensures CompanyKeyBy(up, CompanyKeyBy(up, s)) == CompanyKeyBy(up, s)
  {
    TrimSpaceTrimmed(s);
    CaseTrimmed(up, TrimSpace(s));
    TrimSpaceOfTrimmed(CompanyKeyBy(up, s));
    CaseIdempotent(up, TrimSpace(s));
  }

  // Normalizing a value twice is harmless exactly when the characters left after the
  // dots and ASCII blanks are gone do not begin or end with a Unicode-only blank.
  lemma {:induction false} FiscalValueIdempotentIff(up: char -> char, s: string)
    requires LetterCase(up)
    ensures FiscalValueBy(up, FiscalValueBy(up, s)) == FiscalValueBy(up, s) <==> Trimmed(Strip(TrimSpace(s)))
  {
    var v := FiscalValueBy(up, s);
    FiscalValueTrimmed(up, s);
    if Trimmed(v) {
      TrimSpaceOfTrimmed(v);
      CaseStrip(up, TrimSpace(s));
      CaseIdempotent(up, Strip(TrimSpace(s)));
      StripFixed(v);
    } else {
      FiscalValueShrinks(up, v);
    }
  }

  // The comment on maStableVAT promises idempotence; a dot before a no-break space breaks it.
  lemma {:induction false} StableVATNotIdempotent()
    ensures var s := ['.', '\U{00A0}', '7'];
            StableVAT(s) == ['\U{00A0}', '7'] && StableVAT(StableVAT(s)) == ['7']
  {
    var s := ['.', '\U{00A0}', '7'];
    TrimSpaceOfTrimmed(s);
    assert ToUpper(s) == s;
    assert s[1..][1..] == ['7'] && s[1..][1..][1..] == [];
    assert Strip(s[1..][1..]) == ['7'];
    assert Strip(s[1..]) == ['\U{00A0}', '7'];
    assert Strip(s) == ['\U{00A0}', '7'];
    var v := ['\U{00A0}', '7'];
    assert v[1..] == ['7'];
    assert TrimLeft(v) == TrimLeft(['7']) == ['7'];
    assert TrimRight(['7']) == ['7'];
    assert ToUpper(['7']) == ['7'];
    StripFixed(['7']);
  }

  lemma {:induction false} DigitsFixed(up: char -> char, d: string)
    requires LetterCase(up) && d != "" && forall i :: 0 <= i < |d| ==> IsDigit(d[i])
    ensures FiscalValueBy(up, d) == d && StableVATBy(up, d) == d
  {
    TrimSpaceOfTrimmed(d);
    assert MapCase(up, d) == d;
    StripFixed(d);
  }

  lemma {:induction false} StableVATOfDigits(d: string)
    requires |d| == 11 && forall i :: 0 <= i < 11 ==> IsDigit(d[i])
    ensures StableVAT(d) == d
  {
    AsciiCase(d);
    DigitsFixed(UpperChar, d);
  }

  lemma {:induction false} FiscalValueShrinks(up: char -> char, v: string)
    requires LetterCase(up) && !Trimmed(v)
    ensures |FiscalValueBy(up, v)| < |v|
  {
    TrimSpaceShorter(v);
    TrimLeftShape(v);
    TrimRightShape(TrimLeft(v));
    assert TrimSpace(v) != v;
  }

  lemma {:induction false} FiscalValueTrimmed(up: char -> char, s: string)
    requires LetterCase(up)
    ensures Trimmed(FiscalValueBy(up, s)) <==> Trimmed(Strip(TrimSpace(s)))
  {
    CaseStrip(up, TrimSpace(s));
    CaseTrimmed(up, Strip(TrimSpace(s)));
  }

  lemma {:induction false} PrefixedShape(v: string)
    requires IsPrefixedVAT(v)
    ensures Trimmed(v) && v[2..] != "" && forall i :: 0 <= i < |v[2..]| ==> IsDigit(v[2..][i])
  {
  }

  lemma {:induction false} StableVATIdempotentIff(up: char -> char, s: string)
    requires LetterCase(up)
    ensures StableVATBy(up, StableVATBy(up, s)) == StableVATBy(up, s) <==> Trimmed(Strip(TrimSpace(s)))
  {
    var v := FiscalValueBy(up, s);
    FiscalValueIdempotentIff(up, s);
    FiscalValueTrimmed(up, s);
    if IsPrefixedVAT(v) {
      PrefixedShape(v);
    }
    hide FiscalValueBy, LetterCase, TrimSpace, Strip, IsPrefixedVAT, Trimmed;
    if IsPrefixedVAT(v) {
      DigitsFixed(up, v[2..]);
    } else if !Trimmed(v) {
      FiscalValueShrinks(up, v);
    }
  }

  /******* What the identifiers do not depend on *******/

  // Letter case does not matter to any of the three.
  lemma {:induction false} CaseIgnored(s: string, t: string)
    requires SameButCase(s, t)
    ensures NormalizeFiscalValue(s) == NormalizeFiscalValue(t) && StableVAT(s) == StableVAT(t)
    ensures NormalizeCompanyKey(s) == NormalizeCompanyKey(t)
  {
    CaseForgotten(s, t);
    hide ToUpper, TrimSpace;
  }

  lemma {:induction false} StripJoin(a: string, b: string)
    ensures Strip(a + b) == Strip(a) + Strip(b)
  {
    if a == "" {
      assert a + b == b;
    } else {
      assert (a + b)[0] == a[0] && (a + b)[1..] == a[1..] + b;
      StripJoin(a[1..], b);
    }
  }

  lemma {:induction false} StripMiddle(a: string, c: char, b: string)
    requires Stripped(c)
    ensures Strip(a + [c] + b) == Strip(a + b)
  {
    assert Strip([c]) == "";
    hide Strip;
    StripJoin(a + [c], b);
    StripJoin(a, [c]);
    StripJoin(a, b);
    assert Strip(a) + "" == Strip(a);
  }

  lemma {:induction false} UpperAround(u: string, c: char, t: string)
    requires u != "" && t != "" && Trimmed(u + t) && c in {' ', '\t', '\n', '\r', '.'}
    ensures ToUpper(TrimSpace(u + [c] + t)) == ToUpper(u) + [c] + ToUpper(t)
    ensures ToUpper(TrimSpace(u + t)) == ToUpper(u) + ToUpper(t)
  {
    var s := u + [c] + t;
    assert s[0] == (u + t)[0] && s[|s| - 1] == (u + t)[|u + t| - 1];
    TrimSpaceOfTrimmed(s);
    TrimSpaceOfTrimmed(u + t);
  }

  // Neither do ASCII blanks and dots inside an identifier.
  lemma {:induction false} BlanksAndDotsIgnored(u: string, c: char, t: string)
    requires u != "" && t != "" && Trimmed(u + t) && c in {' ', '\t', '\n', '\r', '.'}
    ensures NormalizeFiscalValue(u + [c] + t) == NormalizeFiscalValue(u + t)
    ensures StableVAT(u + [c] + t) == StableVAT(u + t)
  {
    UpperAround(u, c, t);
    StripMiddle(ToUpper(u), c, ToUpper(t));
    hide Strip, TrimSpace, ToUpper;
  }

  // A value of digits and capital letters is its own normal form.
  lemma {:induction false} CapitalsFixed(s: string)
    requires forall i :: 0 <= i < |s| ==> IsDigit(s[i]) || 'A' <= s[i] <= 'Z'
    ensures NormalizeFiscalValue(s) == s && NormalizeCompanyKey(s) == s
  {
    TrimSpaceOfTrimmed(s);
    assert ToUpper(s) == s;
    StripFixed(s);
  }

  // An Italian VAT number is the same with its country prefix, in any letter case, and without it.
  lemma {:induction false} PrefixDropped(prefix: string, d: string)
    requires SameButCase(prefix, "IT") && |d| == 11 && forall i :: 0 <= i < 11 ==> IsDigit(d[i])
    ensures StableVAT(prefix + d) == d == StableVAT(d)
  {
    StableVATOfDigits(d);
    var s := "IT" + d;
    assert SameButCase(prefix + d, s);
    CaseIgnored(prefix + d, s);
    CapitalsFixed(s);
    assert IsPrefixedVAT(s) && s[2..] == d;
    hide NormalizeFiscalValue;
  }
}
