/** Strings as the Go code handles them: Unicode white space is complete, letter case is ASCII only. */
module Text {

  // unicode.IsSpace
  predicate IsSpace(c: char) {
    || IsBlank(c)
    || c == '\U{0085}' || c == '\U{00A0}' || c == '\U{1680}'
    || '\U{2000}' <= c <= '\U{200A}'
    || c == '\U{2028}' || c == '\U{2029}' || c == '\U{202F}' || c == '\U{205F}' || c == '\U{3000}'
  }

  // The regular expression class [[:space:]], which is ASCII only.
  predicate IsBlank(c: char) {
    '\t' <= c <= '\r' || c == ' '
  }

  // Bytes in UTF-8
  function CharBytes(c: char): (n: nat)
    ensures n >= 1
  {
    if c as int < 0x80 then 1 else if c as int < 0x800 then 2 else if c as int < 0x10000 then 3 else 4
  }

  function ByteLen(s: string): nat {
    if s == "" then 0 else ByteLen(s[..|s| - 1]) + CharBytes(s[|s| - 1])
  }

  function TrimLeft(s: string): string {
    if s != "" && IsSpace(s[0]) then TrimLeft(s[1..]) else s
  }

  function TrimRight(s: string): string {
    if s != "" && IsSpace(s[|s| - 1]) then TrimRight(s[..|s| - 1]) else s
  }

  // strings.TrimSpace
  function TrimSpace(s: string): string {
    TrimRight(TrimLeft(s))
  }

  function UpperChar(c: char): char {
    if 'a' <= c <= 'z' then ((c as int) - 32) as char else c
  }

  // strings.ToUpper on ASCII letters
  function ToUpper(s: string): (r: string)
    ensures |r| == |s|
    ensures forall i :: 0 <= i < |s| ==> r[i] == UpperChar(s[i])
  {
    seq(|s|, i requires 0 <= i < |s| => UpperChar(s[i]))
  }

  predicate Trimmed(s: string) {
    s != "" ==> !IsSpace(s[0]) && !IsSpace(s[|s| - 1])
  }

  lemma TrimLeftShape(s: string)
    ensures |TrimLeft(s)| <= |s|
    ensures TrimLeft(s) == s[|s| - |TrimLeft(s)|..]
    ensures TrimLeft(s) != "" ==> !IsSpace(TrimLeft(s)[0])
  {
  }

  lemma TrimRightShape(s: string)
    ensures |TrimRight(s)| <= |s|
    ensures TrimRight(s) == s[..|TrimRight(s)|]
    ensures TrimRight(s) != "" ==> !IsSpace(TrimRight(s)[|TrimRight(s)| - 1])
  {
  }

  lemma TrimSpaceTrimmed(s: string)
    ensures Trimmed(TrimSpace(s))
  {
    TrimLeftShape(s);
    TrimRightShape(TrimLeft(s));
  }

  lemma TrimSpaceOfTrimmed(s: string)
    requires Trimmed(s)
    ensures TrimSpace(s) == s
  {
  }

  lemma TrimSpaceShorter(s: string)
    ensures TrimSpace(s) == s <==> Trimmed(s)
    ensures |TrimSpace(s)| <= |s|
  {
    TrimSpaceTrimmed(s);
    TrimLeftShape(s);
    TrimRightShape(TrimLeft(s));
    if Trimmed(s) {
      TrimSpaceOfTrimmed(s);
    }
  }

  predicate AllSpace(s: string) { forall c :: c in s ==> IsSpace(c) }

  lemma {:induction false} TrimLeftSpaces(l: string, s: string)
    requires AllSpace(l)
    ensures TrimLeft(l + s) == TrimLeft(s)
  {
    if l == "" {
      assert l + s == s;
    } else {
      assert (l + s)[0] == l[0] && (l + s)[1..] == l[1..] + s;
      TrimLeftSpaces(l[1..], s);
    }
  }

  lemma {:induction false} TrimRightSpaces(s: string, r: string)
    requires AllSpace(r)
    ensures TrimRight(s + r) == TrimRight(s)
  {
    if r == "" {
      assert s + r == s;
    } else {
      var n := |r| - 1;
      assert r[n] in r && (s + r)[|s + r| - 1] == r[n] && (s + r)[..|s + r| - 1] == s + r[..n];
      TrimRightSpaces(s, r[..n]);
    }
  }

  // Trimming takes the spaces off both ends and nothing else.
  lemma {:induction false} TrimSpaceIs(l: string, s: string, r: string)
    requires AllSpace(l) && AllSpace(r) && Trimmed(s)
    ensures TrimSpace(l + s + r) == s
  {
    assert l + s + r == l + (s + r);
    TrimLeftSpaces(l, s + r);
    if s == "" {
      assert s + r == r + "" && r + "" == r;
      TrimLeftSpaces(r, "");
    } else {
      assert TrimLeft(s + r) == s + r;
      TrimRightSpaces(s, r);
    }
  }

  // Every text is its trimmed form between spaces.
  lemma {:induction false} TrimSpaceSplit(s: string) returns (l: string, r: string)
    ensures AllSpace(l) && AllSpace(r) && s == l + TrimSpace(s) + r
  {
    l := LeftSpaces(s);
    r := RightSpaces(TrimLeft(s));
  }

  lemma {:induction false} LeftSpaces(s: string) returns (l: string)
    ensures AllSpace(l) && s == l + TrimLeft(s)
  {
    l := "";
    if s != "" && IsSpace(s[0]) {
      l := LeftSpaces(s[1..]);
      l := [s[0]] + l;
    }
  }

  lemma {:induction false} RightSpaces(s: string) returns (r: string)
    ensures AllSpace(r) && s == TrimRight(s) + r
  {
    r := "";
    if s != "" && IsSpace(s[|s| - 1]) {
      r := RightSpaces(s[..|s| - 1]);
      r := r + [s[|s| - 1]];
    }
  }

  // Upper case and trimming commute.
  lemma {:induction false} UpperTrim(s: string)
    ensures TrimSpace(ToUpper(s)) == ToUpper(TrimSpace(s))
  {
    var l, r := TrimSpaceSplit(s);
    var t := TrimSpace(s);
    TrimSpaceTrimmed(s);
    assert ToUpper(s) == ToUpper(l) + ToUpper(t) + ToUpper(r);
    UpperSpaces(l);
    UpperSpaces(r);
    TrimSpaceIs(ToUpper(l), ToUpper(t), ToUpper(r));
  }

  lemma {:induction false} UpperSpaces(s: string)
    ensures AllSpace(s) ==> AllSpace(ToUpper(s))
  {
    if AllSpace(s) {
      forall c | c in ToUpper(s) ensures IsSpace(c) {
        var i :| 0 <= i < |s| && UpperChar(s[i]) == c;
        assert s[i] in s;
      }
    }
  }

  // The same text but for the case of its ASCII letters
  predicate SameButCase(s: string, t: string) {
    && |s| == |t|
    && forall i :: 0 <= i < |s| ==>
         || s[i] == t[i]
         || ('a' <= s[i] <= 'z' && s[i] as int == t[i] as int + 32)
         || ('a' <= t[i] <= 'z' && t[i] as int == s[i] as int + 32)
  }

  lemma {:induction false} CaseForgotten(s: string, t: string)
    requires SameButCase(s, t)
    ensures ToUpper(TrimSpace(s)) == ToUpper(TrimSpace(t))
  {
    UpperTrim(s);
    UpperTrim(t);
    assert ToUpper(s) == ToUpper(t);
  }
}
