/** Line breaks and styled words of a description, in the HTML as it stands. */
module DescLines {
  import opened DescHtml

  /******* Line breaks *******/

  // A CRLF is one line feed, wherever it stands.
  lemma {:induction false} CrlfIsFeed(u: string, t: string)
    ensures ReplaceCRLF(u + "\r\n" + t) == ReplaceCRLF(u) + "\n" + ReplaceCRLF(t)
  {
    var s := u + "\r\n" + t;
    if u == "" {
      assert s == "\r\n" + t && s[2..] == t;
      assert StartsWith(s, "\r\n");
    } else if StartsWith(u, "\r\n") {
      assert StartsWith(s, "\r\n") by { assert s[0] == u[0] && s[1] == u[1]; }
      assert s[2..] == u[2..] + "\r\n" + t;
      CrlfIsFeed(u[2..], t);
    } else {
      NoneStarts(u, t);
      assert s[0] == u[0] && s[1..] == u[1..] + "\r\n" + t;
      CrlfIsFeed(u[1..], t);
    }
  }

  lemma {:induction false} CrlfStart(s: string)
    ensures StartsWith(s, "\r\n") <==> |s| >= 2 && s[0] == '\r' && s[1] == '\n'
  {
    assert "\r\n"[0] == '\r' && "\r\n"[1] == '\n';
  }

  lemma {:induction false} NoneStarts(u: string, t: string)
    requires u != "" && !StartsWith(u, "\r\n")
    ensures !StartsWith(u + "\r\n" + t, "\r\n")
  {
    var s := u + "\r\n" + t;
    CrlfStart(s);
    CrlfStart(u);
    hide StartsWith;
    assert s[0] == u[0] && s[1] == if |u| > 1 then u[1] else '\r';
  }

  // Without a CRLF nothing is replaced: a carriage return alone stays.
  lemma {:induction false} NoCrlfKept(s: string)
    requires forall i :: 0 < i < |s| ==> !(s[i - 1] == '\r' && s[i] == '\n')
    ensures ReplaceCRLF(s) == s
  {
    if s != "" {
      assert "\r\n"[0] == '\r' && "\r\n"[1] == '\n';
      assert !StartsWith(s, "\r\n");
      NoCrlfKept(s[1..]);
      assert s == [s[0]] + s[1..];
    }
  }

  lemma {:induction false} SplitAtFeed(a: string, b: string)
    ensures SplitLines(a + "\n" + b) == SplitLines(a) + SplitLines(b)
  {
    var s := a + "\n" + b;
    if a == "" {
      assert s == "\n" + b && s[1..] == b;
    } else {
      assert s[0] == a[0] && s[1..] == a[1..] + "\n" + b;
      SplitAtFeed(a[1..], b);
    }
  }

  lemma {:induction false} OneLine(s: string)
    requires '\n' !in s
    ensures SplitLines(s) == [s]
  {
    if s != "" {
      OneLine(s[1..]);
      assert s == [s[0]] + s[1..];
    }
  }

  lemma {:induction false} JoinAppend(a: seq<string>, b: seq<string>, sep: string)
    requires a != [] && b != []
    ensures Join(a + b, sep) == Join(a, sep) + sep + Join(b, sep)
  {
    if |a| == 1 {
      assert (a + b)[1..] == b;
    } else {
      assert (a + b)[1..] == a[1..] + b && (a + b)[0] == a[0];
      JoinAppend(a[1..], b, sep);
    }
  }

  lemma {:induction false} HtmlAtFeed(desc: string, u: string, t: string)
    requires ReplaceCRLF(desc) == ReplaceCRLF(u) + "\n" + ReplaceCRLF(t)
    ensures Html(desc) == Html(u) + "<br>" + Html(t)
  {
    SplitAtFeed(ReplaceCRLF(u), ReplaceCRLF(t));
    var a, b := Lines(u), Lines(t);
    assert HtmlLines(a + b) == HtmlLines(a) + HtmlLines(b);
    JoinAppend(HtmlLines(a), HtmlLines(b), "<br>");
  }

  // Main result: a CRLF is exactly one line break in the HTML, between the HTML of what stands before it
  // and the HTML of what stands after it.
  lemma {:induction false} CrlfIsBreak(u: string, t: string)
    ensures Html(u + "\r\n" + t) == Html(u) + "<br>" + Html(t)
  {
    CrlfIsFeed(u, t);
    HtmlAtFeed(u + "\r\n" + t, u, t);
  }

  lemma {:induction false} FeedKept(u: string, t: string)
    requires u == "" || u[|u| - 1] != '\r'
    ensures ReplaceCRLF(u + "\n" + t) == ReplaceCRLF(u) + "\n" + ReplaceCRLF(t)
  {
    var s := u + "\n" + t;
    CrlfStart(s);
    CrlfStart(u);
    hide StartsWith;
    if u == "" {
      assert s[0] == '\n' && s[1..] == t && !StartsWith(s, "\r\n");
    } else if StartsWith(u, "\r\n") {
      assert s[0] == u[0] && s[1] == u[1] && s[2..] == u[2..] + "\n" + t;
      FeedKept(u[2..], t);
    } else {
      assert s[0] == u[0] && s[1..] == u[1..] + "\n" + t && s[1] == if |u| > 1 then u[1] else '\n';
      FeedKept(u[1..], t);
    }
  }

  // The same for a line feed alone.
  lemma {:induction false} FeedIsBreak(u: string, t: string)
    requires u == "" || u[|u| - 1] != '\r'
    ensures Html(u + "\n" + t) == Html(u) + "<br>" + Html(t)
  {
    FeedKept(u, t);
    HtmlAtFeed(u + "\n" + t, u, t);
  }

  // And a description of one line is that line's HTML.
  lemma {:induction false} OneLineHtml(s: string)
    requires '\n' !in s
    ensures Html(s) == LineHtml(s)
  {
    NoCrlfKept(s);
    OneLine(s);
  }

  /******* Styled words *******/

  // A text without markers and without characters to escape
  predicate IsWord(w: string) {
    forall i :: 0 <= i < |w| ==> w[i] !in {'*', '/', '&', '<', '>'}
  }

  function ScanHtml(s: string, colon: bool, bold: bool, italic: bool): string { Render(Scan(s, colon, bold, italic)) }

  lemma {:induction false} WordEscaped(w: string)
    requires IsWord(w)
    ensures Escape(w) == w
  {
    if w != "" {
      WordEscaped(w[1..]);
      assert w == [w[0]] + w[1..];
    }
  }

  lemma {:induction false} MarkersEscaped(m: string, w: string, e: string)
    requires IsWord(w) && m in {"**", "//", "***"} && e in {"", m}
    ensures Escape(m + w + e) == m + w + e
  {
    MarkerEscaped(m);
    MarkerEscaped(e);
    WordEscaped(w);
    EscapeAppend(m + w, e);
    EscapeAppend(m, w);
    hide Escape;
  }

  lemma {:induction false} MarkerEscaped(m: string)
    requires forall i :: 0 <= i < |m| ==> m[i] !in {'&', '<', '>'}
    ensures Escape(m) == m
  {
    if m != "" {
      MarkerEscaped(m[1..]);
      assert m == [m[0]] + m[1..];
    }
  }

  lemma {:induction false} CharScanned(c: char, t: string, colon: bool, bold: bool, italic: bool)
    requires c !in {'*', '/'}
    ensures ScanHtml([c] + t, colon, bold, italic) == [c] + ScanHtml(t, c == ':', bold, italic)
  {
    var s := [c] + t;
    assert s[0] == c && s[1..] == t;
    RenderOne(Lit(c), Scan(t, c == ':', bold, italic));
    assert !Run(s, '*', 2) && !Run(s, '*', 3) && !Run(s, '/', 2);
    hide Render;
  }

  // A word is written as it is, and the scan goes on after it.
  lemma {:induction false} WordScanned(w: string, t: string, colon: bool, bold: bool, italic: bool)
    requires IsWord(w)
    ensures ScanHtml(w + t, colon, bold, italic)
            == w + ScanHtml(t, if w == "" then colon else w[|w| - 1] == ':', bold, italic)
  {
    if w == "" {
      assert w + t == t;
    } else {
      hide ScanHtml;
      assert w + t == [w[0]] + (w[1..] + t) && w == [w[0]] + w[1..];
      CharScanned(w[0], w[1..] + t, colon, bold, italic);
      WordScanned(w[1..], t, w[0] == ':', bold, italic);
    }
  }

  // One marker at the scan position
  lemma {:induction false} MarkerScanned(m: string, t: string, bold: bool, italic: bool)
    requires m in {"**", "//", "***"} && (t == "" || t[0] != m[0])
    ensures ScanHtml(m + t, false, bold, italic)
            == if m == "**" then (if bold then "</b>" else "<b>") + ScanHtml(t, false, !bold, italic)
               else if m == "***" then (if bold then "*</b>" else "<b>*") + ScanHtml(t, false, !bold, italic)
               else (if italic then "</i>" else "<i>") + ScanHtml(t, false, bold, !italic)
  {
    var s := m + t;
    assert s[|m|..] == t && s[..|m|] == m && s[0] == m[0] && s[1] == m[1];
    assert |s| > |m| ==> s[|m|] == t[0];
    TodoStep(s, 0, bold, italic);
    assert s[0..] == s;
    assert "**"[0] == '*' && "***"[2] == '*' && "//"[0] == '/' && |"//"| == 2 && |"***"| == 3;
    if m == "***" {
      assert s[2] == m[2];
      assert Run(s, '*', 3) && !Run(s, '*', 4);
    } else if m == "**" {
      assert Run(s, '*', 2) && !Run(s, '*', 3);
    } else {
      assert Run(s, '/', 2) && !Run(s, '*', 2) && !Run(s, '*', 3);
    }
    hide Render, Scan;
  }

  lemma {:induction false} ScanEnds(colon: bool, bold: bool, italic: bool)
    ensures ScanHtml("", colon, bold, italic) == (if bold then "</b>" else "") + (if italic then "</i>" else "")
  {
    RenderClosing(bold, italic);
  }

  // Main result: two asterisks around a word make it bold and two slashes italic; three asterisks keep one of
  // them on each side inside the bold; and a marker nobody closes is closed at the end of the line.
  lemma {:induction false} WordsStyled(w: string)
    requires IsWord(w) && w != "" && w[|w| - 1] != ':'
    ensures LineHtml(w) == w
    ensures LineHtml("**" + w + "**") == "<b>" + w + "</b>" && LineHtml("**" + w) == "<b>" + w + "</b>"
    ensures LineHtml("//" + w + "//") == "<i>" + w + "</i>" && LineHtml("//" + w) == "<i>" + w + "</i>"
    ensures LineHtml("***" + w + "***") == "<b>*" + w + "*</b>"
  {
    hide LineHtml, ScanHtml;
    PlainWord(w);
    MarkedWord("**", w, "**");
    MarkedWord("**", w, "");
    MarkedWord("//", w, "//");
    MarkedWord("//", w, "");
    MarkedWord("***", w, "***");
    assert "**" + w + "" == "**" + w && "//" + w + "" == "//" + w;
  }

  lemma {:induction false} PlainWord(w: string)
    requires IsWord(w)
    ensures LineHtml(w) == w
  {
    WordEscaped(w);
    WordScanned(w, "", false, false, false);
    ScanEnds(if w == "" then false else w[|w| - 1] == ':', false, false);
    assert w + "" == w;
  }

  // A marker and a word: the tag that opens, the word, and what the scan makes of the rest.
  lemma {:induction false} OpenedWord(m: string, w: string, e: string)
    requires IsWord(w) && w != "" && w[|w| - 1] != ':' && m in {"**", "//", "***"} && e in {"", m}
    ensures LineHtml(m + w + e)
            == (if m == "**" then "<b>" else if m == "//" then "<i>" else "<b>*")
               + (w + ScanHtml(e, false, m != "//", m == "//"))
  {
    assert w[0] !in {'*', '/'} && m[0] in {'*', '/'};
    MarkersEscaped(m, w, e);
    assert m + w + e == m + (w + e) && (w + e)[0] == w[0];
    MarkerScanned(m, w + e, false, false);
    WordScanned(w, e, false, m != "//", m == "//");
    hide Render, Scan, Escape, IsWord;
  }

  lemma {:induction false} ClosedMarker(m: string)
    requires m in {"**", "//", "***"}
    ensures ScanHtml(m, false, m != "//", m == "//")
            == if m == "**" then "</b>" else if m == "//" then "</i>" else "*</b>"
  {
    assert m + "" == m;
    MarkerScanned(m, "", m != "//", m == "//");
    ScanEnds(false, false, false);
    hide ScanHtml;
  }

  lemma {:induction false} MarkedWord(m: string, w: string, e: string)
    requires IsWord(w) && w != "" && w[|w| - 1] != ':' && m in {"**", "//", "***"} && e in {"", m}
    ensures LineHtml(m + w + e)
            == if m == "**" then "<b>" + w + "</b>" else if m == "//" then "<i>" + w + "</i>"
               else "<b>*" + w + if e == "" then "</b>" else "*</b>"
  {
    OpenedWord(m, w, e);
    ClosedMarker(m);
    ScanEnds(false, m != "//", m == "//");
    hide LineHtml, ScanHtml, IsWord;
  }

  lemma {:induction false} Nested(a: string, b: string, w: string, c: string, d: string)
    ensures a + (b + (w + (c + d))) == a + b + w + c + d
  {
  }

  lemma {:induction false} BothScanned(w: string)
    requires IsWord(w) && w != ""
    ensures ScanHtml("**" + ("//" + w), false, false, false) == "<b>" + ("<i>" + (w + ("</b>" + "</i>")))
  {
    assert ("//" + w)[0] == '/' && w[0] !in {'*', '/'} && "**"[0] == '*' && "//"[0] == '/';
    MarkerScanned("**", "//" + w, false, false);
    MarkerScanned("//", w, true, false);
    WordScanned(w, "", false, true, true);
    ScanEnds(w[|w| - 1] == ':', true, true);
    hide ScanHtml, IsWord;
    assert w + "" == w;
  }

  // Styles that are still open at the end of the line are closed there, bold before italic.
  lemma {:induction false} BothClosed(w: string)
    requires IsWord(w) && w != ""
    ensures LineHtml("**" + "//" + w) == "<b>" + "<i>" + w + "</b>" + "</i>"
  {
    MarkerEscaped("**" + "//" + w);
    BothScanned(w);
    Nested("<b>", "<i>", w, "</b>", "</i>");
    hide Render, Scan, Escape, IsWord;
    assert "**" + "//" + w == "**" + ("//" + w);
  }

  // Slashes after a colon are an address and stay.
  lemma {:induction false} AddressKept(scheme: string, rest: string)
    requires IsWord(scheme) && IsWord(rest)
    ensures LineHtml(scheme + "://" + rest) == scheme + "://" + rest
  {
    var s := scheme + "://" + rest;
    MarkerEscaped(s);
    assert s == (scheme + ":") + ("//" + rest);
    WordScanned(scheme + ":", "//" + rest, false, false, false);
    ColonSlashes(rest);
    PlainTail(rest);
    assert scheme + ":" + ("//" + rest) == s;
  }

  lemma {:induction false} ColonSlashes(rest: string)
    requires IsWord(rest)
    ensures ScanHtml("//" + rest, true, false, false) == "//" + ScanHtml(rest, false, false, false)
  {
    var s := "//" + rest;
    assert s[1..] == "/" + rest && s[1..][1..] == rest;
    RenderOne(Lit('/'), Scan("/" + rest, false, false, false));
    RenderOne(Lit('/'), Scan(rest, false, false, false));
    assert !Run("/" + rest, '/', 2) by { if |rest| > 0 { assert ("/" + rest)[1] == rest[0]; } }
    assert ("/" + rest)[0] == '/' && s[0] == '/';
    hide Render;
  }

  lemma {:induction false} PlainTail(rest: string)
    requires IsWord(rest)
    ensures ScanHtml(rest, false, false, false) == rest
  {
    WordScanned(rest, "", false, false, false);
    ScanEnds(if rest == "" then false else rest[|rest| - 1] == ':', false, false);
    assert rest + "" == rest;
  }
}
