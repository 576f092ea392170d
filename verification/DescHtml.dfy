/** Inline markers of a line description turned into HTML (aenad/pdf.go). */
module DescHtml {

  /******* Escaping *******/

  function EscapeChar(c: char): string {
    if c == '&' then "&amp;" else if c == '<' then "&lt;" else if c == '>' then "&gt;" else [c]
  }

  // htmlEscaper
  function Escape(s: string): string {
    if s == "" then "" else EscapeChar(s[0]) + Escape(s[1..])
  }

  predicate StartsWith(s: string, w: string) { |w| <= |s| && forall k :: 0 <= k < |w| ==> s[k] == w[k] }

  // s begins with n times c.
  predicate Run(s: string, c: char, n: nat) { n <= |s| && forall k :: 0 <= k < n ==> s[k] == c }

  function Unescape(s: string): string {
    if s == "" then ""
    else if StartsWith(s, "&amp;") then "&" + Unescape(s[5..])
    else if StartsWith(s, "&lt;") then "<" + Unescape(s[4..])
    else if StartsWith(s, "&gt;") then ">" + Unescape(s[4..])
    else [s[0]] + Unescape(s[1..])
  }

  lemma {:induction false} UnescapeOne(c: char, t: string)
    ensures Unescape(EscapeChar(c) + t) == [c] + Unescape(t)
  {
    var e := EscapeChar(c) + t;
    assert e[|EscapeChar(c)|..] == t;
    if c == '<' { assert "&amp;"[1] != e[1]; }
    if c == '>' { assert "&amp;"[1] != e[1] && "&lt;"[1] != e[1]; }
    if c !in "&<>" { assert e[0] != "&amp;"[0] && e[0] != "&lt;"[0] && e[0] != "&gt;"[0]; }
  }

  lemma {:induction false} UnescapeEscape(s: string)
    ensures Unescape(Escape(s)) == s
  {
    hide Unescape, EscapeChar;
    if s == "" {
      UnescapeEmpty();
    } else {
      UnescapeEscape(s[1..]);
      UnescapeOne(s[0], Escape(s[1..]));
    }
  }

  lemma {:induction false} UnescapeEmpty()
    ensures Unescape("") == ""
  {
  }

  lemma {:induction false} EscapeAppend(s: string, t: string)
    ensures Escape(s + t) == Escape(s) + Escape(t)
  {
    if s == "" {
      assert s + t == t;
    } else {
      assert (s + t)[1..] == s[1..] + t;
      EscapeAppend(s[1..], t);
    }
  }

  lemma {:induction false} SpecialsEscaped(c: char)
    ensures Escape([c]) == if c == '&' then "&amp;" else if c == '<' then "&lt;" else if c == '>' then "&gt;" else [c]
  {
    assert [c][1..] == "" && EscapeChar(c) + "" == EscapeChar(c);
  }

  lemma {:induction false} EscapedPlain(s: string)
    ensures '<' !in Escape(s) && '>' !in Escape(s)
  {
    if s != "" { EscapedPlain(s[1..]); }
  }

  /******* The scan *******/

  datatype Style = Bold | Italic
  datatype Piece = Lit(c: char) | Open(style: Style) | Close(style: Style)

  function Toggle(style: Style, on: bool): Piece { if on then Close(style) else Open(style) }

  function PieceText(p: Piece): string {
    match p
    case Lit(c) => [c]
    case Open(Bold) => "<b>"
    case Close(Bold) => "</b>"
    case Open(Italic) => "<i>"
    case Close(Italic) => "</i>"
  }

  function Render(ps: seq<Piece>): string {
    if ps == [] then "" else PieceText(ps[0]) + Render(ps[1..])
  }

  // The pieces written for the rest s of an escaped line; colon says whether the character before it
  // is a colon, bold and italic which styles are open.
  function Scan(s: string, colon: bool, bold: bool, italic: bool): seq<Piece>
    decreases |s|
  {
    if s == "" then
      (if bold then [Close(Bold)] else []) + (if italic then [Close(Italic)] else [])
    else if Run(s, '*', 3) && !Run(s, '*', 4) then
      (if bold then [Lit('*'), Close(Bold)] else [Open(Bold), Lit('*')]) + Scan(s[3..], false, !bold, italic)
    else if Run(s, '*', 2) then
      [Toggle(Bold, bold)] + Scan(s[2..], false, !bold, italic)
    else if Run(s, '/', 2) && !colon then
      [Toggle(Italic, italic)] + Scan(s[2..], false, bold, !italic)
    else
      [Lit(s[0])] + Scan(s[1..], s[0] == ':', bold, italic)
  }

  function LineHtml(line: string): string { Render(Scan(Escape(line), false, false, false)) }

  lemma {:induction false} RenderOne(p: Piece, qs: seq<Piece>)
    ensures Render([p] + qs) == PieceText(p) + Render(qs)
  {
    assert ([p] + qs)[1..] == qs;
  }

  lemma {:induction false} RenderTwo(p: Piece, q: Piece, qs: seq<Piece>)
    ensures Render([p, q] + qs) == PieceText(p) + PieceText(q) + Render(qs)
  {
    assert [p, q] + qs == [p] + ([q] + qs);
    RenderOne(p, [q] + qs);
    RenderOne(q, qs);
  }

  predicate ColonBefore(line: string, i: nat)
    requires i <= |line|
  {
    i > 0 && line[i - 1] == ':'
  }

  // What is still to be written from index i on
  function Todo(line: string, i: nat, bold: bool, italic: bool): string
    requires i <= |line|
  {
    Render(Scan(line[i..], ColonBefore(line, i), bold, italic))
  }

  lemma {:induction false} TodoStep(line: string, i: nat, bold: bool, italic: bool)
    requires i < |line|
    ensures
      var s := line[i..];
      Todo(line, i, bold, italic) ==
      if Run(s, '*', 3) && !Run(s, '*', 4) then (if bold then "*</b>" else "<b>*") + Todo(line, i + 3, !bold, italic)
      else if Run(s, '*', 2) then (if bold then "</b>" else "<b>") + Todo(line, i + 2, !bold, italic)
      else if Run(s, '/', 2)
        && !ColonBefore(line, i) then (if italic then "</i>" else "<i>") + Todo(line, i + 2, bold, !italic)
      else [line[i]] + Todo(line, i + 1, bold, italic)
  {
    hide Render;
    var s := line[i..];
    if Run(s, '*', 3) && !Run(s, '*', 4) {
      assert s[3..] == line[i + 3..] && s[2] == line[i + 2];
      var tail := Scan(s[3..], false, !bold, italic);
      RenderTwo(Lit('*'), Close(Bold), tail);
      RenderTwo(Open(Bold), Lit('*'), tail);
    } else if Run(s, '*', 2) {
      assert s[2..] == line[i + 2..] && s[1] == line[i + 1];
      RenderOne(Toggle(Bold, bold), Scan(s[2..], false, !bold, italic));
    } else if Run(s, '/', 2) && !ColonBefore(line, i) {
      assert s[2..] == line[i + 2..] && s[1] == line[i + 1];
      RenderOne(Toggle(Italic, italic), Scan(s[2..], false, bold, !italic));
    } else {
      assert s[1..] == line[i + 1..] && s[0] == line[i];
      RenderOne(Lit(s[0]), Scan(s[1..], s[0] == ':', bold, italic));
    }
  }

  lemma {:induction false} TodoEnds(line: string, bold: bool, italic: bool)
    ensures line[0..] == line && Todo(line, 0, false, false) == Render(Scan(line, false, false, false))
    ensures Todo(line, |line|, bold, italic) == (if bold then "</b>" else "") + (if italic then "</i>" else "")
  {
    assert line[0..] == line;
    assert line[|line|..] == "";
    RenderClosing(bold, italic);
  }

  // b followed by what is still to be written is the whole line.
  predicate Written(line: string, b: string, i: nat, bold: bool, italic: bool)
  {
    i <= |line| && b + Todo(line, i, bold, italic) == Render(Scan(line, false, false, false))
  }

  lemma {:induction false} Writing(line: string, b: string, i: nat, bold: bool, italic: bool)
    requires i < |line| && Written(line, b, i, bold, italic)
    ensures
      var s := line[i..];
      if Run(s, '*', 3) && !Run(s, '*', 4) then
        Written(line, b + if bold then "*</b>" else "<b>*", i + 3, !bold, italic)
      else if Run(s, '*', 2) then Written(line, b + if bold then "</b>" else "<b>", i + 2, !bold, italic)
      else if Run(s, '/', 2)
        && !ColonBefore(line, i) then Written(line, b + if italic then "</i>" else "<i>", i + 2, bold, !italic)
      else Written(line, b + [line[i]], i + 1, bold, italic)
  {
    TodoStep(line, i, bold, italic);
    hide Todo, Render, Scan;
    var s := line[i..];
    if Run(s, '*', 3) && !Run(s, '*', 4) {
      Regroup(b, if bold then "*</b>" else "<b>*", Todo(line, i + 3, !bold, italic));
    } else if Run(s, '*', 2) {
      Regroup(b, if bold then "</b>" else "<b>", Todo(line, i + 2, !bold, italic));
    } else if Run(s, '/', 2) && !ColonBefore(line, i) {
      Regroup(b, if italic then "</i>" else "<i>", Todo(line, i + 2, bold, !italic));
    } else {
      Regroup(b, [line[i]], Todo(line, i + 1, bold, italic));
    }
  }

  lemma {:induction false} Regroup(b: string, w: string, rest: string)
    ensures b + (w + rest) == (b + w) + rest
  {
  }

  // The loop over one escaped line
  method ScanLine(line: string) returns (b: string)
    ensures b == Render(Scan(line, false, false, false))
  {
    b := "";
    var bold, italic := false, false;
    var i := 0;
    assert Written(line, b, 0, false, false) by { TodoEnds(line, bold, italic); }
    hide Todo, Written, Render, Scan;
    while i < |line|
      invariant 0 <= i <= |line|
      invariant Written(line, b, i, bold, italic)
    {
      Writing(line, b, i, bold, italic);
      if Run(line[i..], '*', 3) && !Run(line[i..], '*', 4) {
        if bold { b := b + "*</b>"; } else { b := b + "<b>*"; }
        bold := !bold;
        i := i + 3;
        continue;
      }
      if Run(line[i..], '*', 2) {
        if bold { b := b + "</b>"; } else { b := b + "<b>"; }
        bold := !bold;
        i := i + 2;
        continue;
      }
      if Run(line[i..], '/', 2) && (i == 0 || line[i - 1] != ':') {
        if italic { b := b + "</i>"; } else { b := b + "<i>"; }
        italic := !italic;
        i := i + 2;
        continue;
      }
      b := b + [line[i]];
      i := i + 1;
    }
    WrittenAll(line, b, bold, italic);
    if bold { b := b + "</b>"; }
    if italic { b := b + "</i>"; }
  }

  lemma {:induction false} WrittenAll(line: string, b: string, bold: bool, italic: bool)
    requires Written(line, b, |line|, bold, italic)
    ensures b + (if bold then "</b>" else "") + (if italic then "</i>" else "")
        == Render(Scan(line, false, false, false))
  {
    TodoEnds(line, bold, italic);
    Regroup(b, if bold then "</b>" else "", if italic then "</i>" else "");
  }

  lemma {:induction false} RenderClosing(bold: bool, italic: bool)
    ensures forall colon ::
        Render(Scan("", colon, bold, italic)) == (if bold then "</b>" else "") + (if italic then "</i>" else "")
  {
    assert Render([]) == "";
    RenderTwo(Close(Bold), Close(Italic), []);
    RenderOne(Close(Bold), []);
    RenderOne(Close(Italic), []);
    hide Render;
    assert [Close(Bold), Close(Italic)] == [Close(Bold)] + [Close(Italic)] == [Close(Bold), Close(Italic)] + [];
    assert [Close(Bold)] == [Close(Bold)] + [] == [Close(Bold)] + [] + []
        && [Close(Italic)] == [Close(Italic)] + [] == [] + [Close(Italic)];
  }

  /******* Lines *******/

  function ReplaceCRLF(s: string): (r: string)
    ensures s != "" ==> r != ""
  {
    if s == "" then "" else if StartsWith(s, "\r\n") then "\n" + ReplaceCRLF(s[2..]) else [s[0]] + ReplaceCRLF(s[1..])
  }

  // strings.Split at line feeds
  function SplitLines(s: string): (r: seq<string>)
    ensures r != []
  {
    if s == "" then [""]
    else
      var rest := SplitLines(s[1..]);
      if s[0] == '\n' then [""] + rest else [[s[0]] + rest[0]] + rest[1..]
  }

  function Join(lines: seq<string>, sep: string): string {
    if lines == [] then "" else if |lines| == 1 then lines[0] else lines[0] + sep + Join(lines[1..], sep)
  }

  lemma {:induction false} SplitJoin(s: string)
    ensures Join(SplitLines(s), "\n") == s
    ensures forall k :: 0 <= k < |SplitLines(s)| ==> '\n' !in SplitLines(s)[k]
  {
    if s != "" {
      SplitJoin(s[1..]);
      var rest := SplitLines(s[1..]);
      if s[0] == '\n' { assert SplitLines(s)[1..] == rest; } else { assert SplitLines(s)[1..] == rest[1..]; }
    }
  }

  function Lines(desc: string): seq<string> { SplitLines(ReplaceCRLF(desc)) }

  function HtmlLines(lines: seq<string>): (r: seq<string>)
    ensures |r| == |lines| && forall k :: 0 <= k < |lines| ==> r[k] == LineHtml(lines[k])
  {
    seq(|lines|, k requires 0 <= k < |lines| => LineHtml(lines[k]))
  }

  function Html(desc: string): string { Join(HtmlLines(Lines(desc)), "<br>") }

  // descToHTML
  method DescToHTML(desc: string) returns (html: string)
    ensures html == Html(desc)
  {
    if desc == "" {
      assert Lines(desc) == [""] && Scan(Escape(""), false, false, false) == [];
      return "";
    }
    var lines := Lines(desc);
    ghost var source := lines;
    var li := 0;
    while li < |lines|
      invariant 0 <= li <= |lines| == |source|
      invariant forall k :: 0 <= k < li ==> lines[k] == LineHtml(source[k])
      invariant forall k :: li <= k < |lines| ==> lines[k] == source[k]
    {
      var b := ScanLine(Escape(lines[li]));
      lines := lines[li := b];
      li := li + 1;
    }
    assert lines == HtmlLines(source);
    html := Join(lines, "<br>");
  }

  /******* What a reader sees *******/

  // The source text without its markers: a pair of asterisks, or of slashes not after a colon, goes.
  function Kept(s: string, colon: bool): string {
    if s == "" then ""
    else if Run(s, '*', 2) then Kept(s[2..], false)
    else if Run(s, '/', 2) && !colon then Kept(s[2..], false)
    else [s[0]] + Kept(s[1..], s[0] == ':')
  }

  function Literals(ps: seq<Piece>): string {
    if ps == [] then "" else if ps[0].Lit? then [ps[0].c] + Literals(ps[1..]) else Literals(ps[1..])
  }

  lemma {:induction false} LiteralsOne(p: Piece, qs: seq<Piece>)
    ensures Literals([p] + qs) == if p.Lit? then [p.c] + Literals(qs) else Literals(qs)
  {
    assert ([p] + qs)[1..] == qs;
  }

  lemma {:induction false} LiteralsTwo(p: Piece, q: Piece, qs: seq<Piece>)
    ensures Literals([p, q] + qs) == if p.Lit? then [p.c] + Literals([q] + qs) else Literals([q] + qs)
  {
    assert ([p, q] + qs)[1..] == [q] + qs;
  }

  lemma {:induction false} KeptTriple(s: string, colon: bool)
    requires Run(s, '*', 3) && !Run(s, '*', 4)
    ensures Kept(s, colon) == "*" + Kept(s[3..], false)
  {
    assert s[2..][0] == '*' && s[2..][1..] == s[3..];
    assert !Run(s[2..], '*', 2) && !Run(s[2..], '/', 2);
  }

  // The literal characters a line is written with are its kept characters.
  lemma {:induction false} ScanText(s: string, colon: bool, bold: bool, italic: bool)
    ensures Literals(Scan(s, colon, bold, italic)) == Kept(s, colon)
    decreases |s|
  {
    hide Literals;
    if s == "" {
      LiteralsClosing(colon, bold, italic);
    } else if Run(s, '*', 3) && !Run(s, '*', 4) {
      KeptTriple(s, colon);
      hide Kept;
      ScanText(s[3..], false, !bold, italic);
      var tail := Scan(s[3..], false, !bold, italic);
      LiteralsTwo(Lit('*'), Close(Bold), tail);
      LiteralsTwo(Open(Bold), Lit('*'), tail);
      LiteralsOne(Close(Bold), tail);
      LiteralsOne(Lit('*'), tail);
    } else if Run(s, '*', 2) {
      ScanText(s[2..], false, !bold, italic);
      LiteralsOne(Toggle(Bold, bold), Scan(s[2..], false, !bold, italic));
    } else if Run(s, '/', 2) && !colon {
      ScanText(s[2..], false, bold, !italic);
      LiteralsOne(Toggle(Italic, italic), Scan(s[2..], false, bold, !italic));
    } else {
      ScanText(s[1..], s[0] == ':', bold, italic);
      LiteralsOne(Lit(s[0]), Scan(s[1..], s[0] == ':', bold, italic));
    }
  }

  lemma {:induction false} LiteralsClosing(colon: bool, bold: bool, italic: bool)
    ensures Literals(Scan("", colon, bold, italic)) == ""
  {
    LiteralsTwo(Close(Bold), Close(Italic), []);
    assert [Close(Bold)] + [Close(Italic)] == [Close(Bold), Close(Italic)] + [];
    LiteralsOne(Close(Italic), []);
    LiteralsOne(Close(Bold), []);
  }

  function AfterGt(s: string): (r: string)
    ensures |r| <= |s|
  {
    if s == "" then "" else if s[0] == '>' then s[1..] else AfterGt(s[1..])
  }

  // Line breaks become line feeds, every other tag disappears.
  function StripTags(s: string): string
    decreases |s|
  {
    if s == "" then ""
    else if StartsWith(s, "<br>") then "\n" + StripTags(s[4..])
    else if s[0] == '<' then StripTags(AfterGt(s[1..]))
    else [s[0]] + StripTags(s[1..])
  }

  // The plain text of the HTML
  function ReadBack(html: string): string { Unescape(StripTags(html)) }

  lemma {:induction false} AfterTag(w: string, t: string)
    requires '>' !in w
    ensures AfterGt(w + ">" + t) == t
  {
    var s := w + ">" + t;
    if w == "" {
      assert s[1..] == t;
    } else {
      assert s[1..] == w[1..] + ">" + t && s[0] == w[0];
      AfterTag(w[1..], t);
    }
  }

  lemma {:induction false} StripTag(w: string, t: string)
    requires w in {"b", "/b", "i", "/i"}
    ensures StripTags("<" + w + ">" + t) == StripTags(t)
  {
    var s := "<" + w + ">" + t;
    assert s[1..] == w + ">" + t;
    AfterTag(w, t);
    assert s[1] == w[0] && s[2] == if w in {"b", "i"} then '>' else w[1];
    assert "<br>"[1] == 'b' && "<br>"[2] == 'r';
  }

  lemma {:induction false} StripPiece(p: Piece, t: string)
    requires p.Lit? ==> p.c != '<'
    ensures StripTags(PieceText(p) + t) == (if p.Lit? then [p.c] else "") + StripTags(t)
  {
    match p
    case Lit(c) =>
      assert ([c] + t)[1..] == t && "<br>"[0] == '<';
    case Open(Bold) => assert "<" + "b" + ">" == "<b>"; StripTag("b", t);
    case Close(Bold) => assert "<" + "/b" + ">" == "</b>"; StripTag("/b", t);
    case Open(Italic) => assert "<" + "i" + ">" == "<i>"; StripTag("i", t);
    case Close(Italic) => assert "<" + "/i" + ">" == "</i>"; StripTag("/i", t);
  }

  lemma {:induction false} StripBreak(t: string)
    ensures StripTags("<br>" + t) == "\n" + StripTags(t)
  {
    assert ("<br>" + t)[4..] == t;
  }

  lemma {:induction false} StripRender(ps: seq<Piece>, t: string)
    requires '<' !in Literals(ps)
    ensures StripTags(Render(ps) + t) == Literals(ps) + StripTags(t)
  {
    hide StripTags, PieceText;
    if ps == [] {
      assert Render(ps) + t == t;
    } else {
      var rest := Render(ps[1..]) + t;
      assert Render(ps) + t == PieceText(ps[0]) + rest;
      StripPiece(ps[0], rest);
      StripRender(ps[1..], t);
    }
  }

  lemma {:induction false} KeptPlain(w: string, t: string, colon: bool)
    requires '*' !in w && '/' !in w && ':' !in w && w != ""
    ensures Kept(w + t, colon) == w + Kept(t, false)
  {
    var s := w + t;
    assert s[0] == w[0] && w[0] in w && s[1..] == w[1..] + t;
    assert !Run(s, '*', 2) && !Run(s, '/', 2);
    if |w| > 1 { KeptPlain(w[1..], t, false); } else { assert s[1..] == t; }
  }

  // Escaping and dropping the markers commute: no entity holds a marker or a colon.
  lemma {:induction false} KeptEscape(s: string, colon: bool)
    ensures Kept(Escape(s), colon) == Escape(Kept(s, colon))
    decreases |s|
  {
    if s != "" {
      var e, t := Escape(s), Escape(s[1..]);
      if s[0] in "&<>" {
        assert e == EscapeChar(s[0]) + t;
        KeptPlain(EscapeChar(s[0]), t, colon);
        KeptEscape(s[1..], false);
        EscapeAppend([s[0]], Kept(s[1..], false));
      } else {
        assert e == [s[0]] + t && e[1..] == t;
        SameStart(s[1..]);
        if |s| >= 2 { assert s[2..] == s[1..][1..]; }
        RunTwo(e, '*');
        RunTwo(s, '*');
        RunTwo(e, '/');
        RunTwo(s, '/');
        hide Run;
        if Run(s, '*', 2) || (Run(s, '/', 2) && !colon) {
          assert s[1] == s[1..][0] && e[1] == t[0];
          assert t[1..] == Escape(s[2..]) == e[2..];
          KeptEscape(s[2..], false);
        } else {
          KeptEscape(s[1..], s[0] == ':');
          EscapeAppend([s[0]], Kept(s[1..], s[0] == ':'));
        }
      }
    }
  }

  lemma {:induction false} RunTwo(s: string, c: char)
    ensures Run(s, c, 2) <==> |s| >= 2 && s[0] == c && s[1..][0] == c
  {
    if |s| >= 2 { assert s[1..][0] == s[1]; }
  }

  // A marker character stands first in the escaped text exactly when it stands first in the text.
  lemma {:induction false} SameStart(s: string)
    ensures s != "" ==>
              && Escape(s) != ""
              && (s[0] in "*/:" ==> Escape(s)[0] == s[0]) && (Escape(s)[0] in "*/:" ==> s[0] == Escape(s)[0])
    ensures s == "" ==> Escape(s) == ""
  {
  }

  // s starts with a pair that is a marker.
  predicate Marked(s: string, colon: bool) { Run(s, '*', 2) || (Run(s, '/', 2) && !colon) }

  lemma {:induction false} KeptStep(s: string, colon: bool)
    requires s != ""
    ensures Kept(s, colon) == if Marked(s, colon) then Kept(s[2..], false) else [s[0]] + Kept(s[1..], s[0] == ':')
  {
  }

  lemma {:induction false} KeptFeed(t: string, colon: bool)
    requires t != "" && t[0] == '\n'
    ensures Kept(t, colon) == "\n" + Kept(t[1..], false)
  {
  }

  // A line feed ends every marker.
  lemma {:induction false} KeptLine(line: string, t: string, colon: bool)
    requires '\n' !in line && t != "" && t[0] == '\n'
    ensures Kept(line + t, colon) == Kept(line, colon) + Kept(t, false)
    decreases |line|
  {
    if line == "" {
      assert line + t == t;
      KeptFeed(t, colon);
      KeptFeed(t, false);
    } else {
      KeptStep(line + t, colon);
      KeptStep(line, colon);
      SameMarker(line, t, colon);
      hide Kept, Marked;
      if Marked(line, colon) {
        KeptLine(line[2..], t, false);
      } else {
        KeptLine(line[1..], t, line[0] == ':');
        Regroup([line[0]], Kept(line[1..], line[0] == ':'), Kept(t, false));
      }
    }
  }

  lemma {:induction false} SameMarker(line: string, t: string, colon: bool)
    requires line != "" && t != "" && t[0] == '\n'
    ensures Marked(line + t, colon) <==> Marked(line, colon)
    ensures (line + t)[0] == line[0] && (line + t)[1..] == line[1..] + t
    ensures Marked(line, colon) ==> |line| >= 2 && (line + t)[2..] == line[2..] + t
  {
    var s := line + t;
    assert |s| > 1 && s[1..][0] == if |line| > 1 then line[1..][0] else '\n';
    RunTwo(s, '*');
    RunTwo(line, '*');
    RunTwo(s, '/');
    RunTwo(line, '/');
  }

  lemma {:induction false} StripLine(line: string, t: string)
    ensures StripTags(LineHtml(line) + t) == Escape(Kept(line, false)) + StripTags(t)
  {
    hide StripTags, Kept, Escape;
    var e := Escape(line);
    ScanText(e, false, false, false);
    KeptEscape(line, false);
    EscapedPlain(Kept(line, false));
    StripRender(Scan(e, false, false, false), t);
  }

  lemma {:induction false} StripJoin(lines: seq<string>)
    requires forall k :: 0 <= k < |lines| ==> '\n' !in lines[k]
    ensures StripTags(Join(HtmlLines(lines), "<br>")) == Escape(Kept(Join(lines, "\n"), false))
  {
    hide StripTags, Kept, LineHtml, Escape;
    NothingKept();
    if lines != [] {
      var html := HtmlLines(lines);
      assert html[1..] == HtmlLines(lines[1..]);
      if |lines| == 1 {
        StripLine(lines[0], "");
        assert LineHtml(lines[0]) + "" == LineHtml(lines[0]);
      } else {
        var rest := Join(html[1..], "<br>");
        StripLine(lines[0], "<br>" + rest);
        StripBreak(rest);
        StripJoin(lines[1..]);
        var plain := Join(lines[1..], "\n");
        var t := "\n" + plain;
        KeptLine(lines[0], t, false);
        KeptFeed(t, false);
        assert t[1..] == plain && Join(lines, "\n") == lines[0] + t;
        assert Join(html, "<br>") == LineHtml(lines[0]) + ("<br>" + rest);
        EscapeAppend(Kept(lines[0], false), "\n" + Kept(plain, false));
        EscapeAppend("\n", Kept(plain, false));
        EscapeFeed();
      }
    }
  }

  lemma {:induction false} NothingKept()
    ensures StripTags("") == "" && Kept("", false) == "" && Escape("") == ""
  {
  }

  lemma {:induction false} EscapeFeed()
    ensures Escape("\n") == "\n"
  {
  }

  // Main result: the HTML reads as the description without its markers, line by line.
  lemma {:induction false} HtmlReadsBack(desc: string)
    ensures ReadBack(Html(desc)) == Kept(ReplaceCRLF(desc), false)
  {
    var plain := ReplaceCRLF(desc);
    SplitJoin(plain);
    StripJoin(Lines(desc));
    UnescapeEscape(Kept(plain, false));
  }

  /******* The tags *******/

  // Tags of one style open and close in turn, from the given state to closed.
  predicate Alternates(ps: seq<Piece>, style: Style, on: bool) {
    if ps == [] then !on
    else if ps[0] == Open(style) then !on && Alternates(ps[1..], style, true)
    else if ps[0] == Close(style) then on && Alternates(ps[1..], style, false)
    else Alternates(ps[1..], style, on)
  }

  lemma {:induction false} AlternatesOne(p: Piece, qs: seq<Piece>, style: Style, on: bool)
    ensures Alternates([p] + qs, style, on) ==
      if p == Open(style) then !on && Alternates(qs, style, true)
      else if p == Close(style) then on && Alternates(qs, style, false)
      else Alternates(qs, style, on)
  {
    assert ([p] + qs)[1..] == qs;
  }

  // On every line the tags of each style alternate, and none stays open.
  lemma {:induction false} TagsAlternate(s: string, colon: bool, bold: bool, italic: bool, style: Style)
    ensures Alternates(Scan(s, colon, bold, italic), style, if style == Bold then bold else italic)
    decreases |s|
  {
    hide Alternates;
    var on := if style == Bold then bold else italic;
    if s == "" {
      ClosingAlternates(bold, italic, style);
    } else if Run(s, '*', 3) && !Run(s, '*', 4) {
      var tail := Scan(s[3..], false, !bold, italic);
      TagsAlternate(s[3..], false, !bold, italic, style);
      assert [Lit('*'), Close(Bold)] + tail == [Lit('*')] + ([Close(Bold)] + tail);
      assert [Open(Bold), Lit('*')] + tail == [Open(Bold)] + ([Lit('*')] + tail);
      AlternatesOne(Lit('*'), [Close(Bold)] + tail, style, on);
      AlternatesOne(Close(Bold), tail, style, on);
      AlternatesOne(Open(Bold), [Lit('*')] + tail, style, on);
      AlternatesOne(Lit('*'), tail, style, if style == Bold then true else on);
    } else if Run(s, '*', 2) {
      TagsAlternate(s[2..], false, !bold, italic, style);
      AlternatesOne(Toggle(Bold, bold), Scan(s[2..], false, !bold, italic), style, on);
    } else if Run(s, '/', 2) && !colon {
      TagsAlternate(s[2..], false, bold, !italic, style);
      AlternatesOne(Toggle(Italic, italic), Scan(s[2..], false, bold, !italic), style, on);
    } else {
      TagsAlternate(s[1..], s[0] == ':', bold, italic, style);
      AlternatesOne(Lit(s[0]), Scan(s[1..], s[0] == ':', bold, italic), style, on);
    }
  }

  lemma {:induction false} ClosingAlternates(bold: bool, italic: bool, style: Style)
    ensures forall colon :: Alternates(Scan("", colon, bold, italic), style, if style == Bold then bold else italic)
  {
    assert Alternates([], style, false);
    var both := [Close(Bold), Close(Italic)];
    assert both == [Close(Bold)] + [Close(Italic)] && [Close(Italic)] == [Close(Italic)] + []
        && [Close(Bold)] == [Close(Bold)] + [];
    hide Alternates;
    AlternatesOne(Close(Bold), [Close(Italic)], style, true);
    AlternatesOne(Close(Italic), [], style, true);
    AlternatesOne(Close(Italic), [], style, false);
    AlternatesOne(Close(Bold), [], style, true);
    AlternatesOne(Close(Bold), [], style, false);
  }

  /******* Runs of marker characters *******/

  function Tags(ps: seq<Piece>, style: Style): nat {
    if ps == [] then 0 else (if ps[0] == Open(style) || ps[0] == Close(style) then 1 else 0) + Tags(ps[1..], style)
  }

  function Repeat(c: char, n: nat): string { seq(n, _ => c) }

  function StarPieces(n: nat, bold: bool): seq<Piece> {
    if n == 0 then []
    else if n == 1 then [Lit('*')]
    else if n == 3 then (if bold then [Lit('*'), Close(Bold)] else [Open(Bold), Lit('*')])
    else [Toggle(Bold, bold)] + StarPieces(n - 2, !bold)
  }

  function Flip(on: bool, k: nat): bool { if k % 2 == 1 then !on else on }

  lemma {:induction false} RunShift(s: string, c: char, m: nat, k: nat)
    requires Run(s, c, m)
    ensures Run(s[m..], c, k) <==> Run(s, c, m + k)
  {
    var t := s[m..];
    if Run(t, c, k) {
      forall j | 0 <= j < m + k ensures s[j] == c { if j >= m { assert s[j] == t[j - m]; } }
    }
  }

  lemma {:induction false} RunFirst(s: string, c: char, n: nat)
    requires Run(s, c, n) && n >= 1
    ensures s != "" && s[0] == c
    ensures forall d, k :: d != c && k >= 1 ==> !Run(s, d, k)
  {
  }

  lemma {:induction false} RunShorter(s: string, c: char, n: nat)
    ensures forall k, j :: 0 <= k <= j && Run(s, c, j) ==> Run(s, c, k)
  {
  }

  lemma {:induction false} RunOnly(s: string, c: char, n: nat)
    requires Run(s, c, n) && !Run(s, c, n + 1)
    ensures forall k: nat :: Run(s, c, k) <==> k <= n
  {
    RunShorter(s, c, n);
  }

  lemma {:induction false} RunRest(s: string, c: char, n: nat, m: nat)
    requires Run(s, c, n) && !Run(s, c, n + 1) && m <= n
    ensures m <= n <= |s| && Run(s[m..], c, n - m) && !Run(s[m..], c, n - m + 1) && s[m..][n - m..] == s[n..]
  {
    RunShorter(s, c, n);
    RunShift(s, c, m, n - m);
    RunShift(s, c, m, n - m + 1);
  }

  lemma {:induction false} JoinPieces(p: Piece, ps: seq<Piece>, qs: seq<Piece>)
    ensures [p] + (ps + qs) == ([p] + ps) + qs
  {
  }

  lemma {:induction false} StarScan(s: string, n: nat, colon: bool, bold: bool, italic: bool)
    requires Run(s, '*', n) && !Run(s, '*', n + 1) && n >= 1
    ensures n == 1 || n == 3 ==>
        Scan(s, colon, bold, italic) == StarPieces(n, bold) + Scan(s[n..], false, Flip(bold, n / 2), italic)
    ensures n != 1 && n != 3 ==>
        Scan(s, colon, bold, italic) == [Toggle(Bold, bold)] + Scan(s[2..], false, !bold, italic)
  {
    RunFirst(s, '*', n);
    RunOnly(s, '*', n);
    hide Run;
  }

  // A maximal run of n asterisks writes n div 2 bold tags and n mod 2 asterisks.
  lemma {:induction false} StarRun(s: string, n: nat, colon: bool, bold: bool, italic: bool)
    requires Run(s, '*', n) && !Run(s, '*', n + 1) && n >= 1
    ensures Scan(s, colon, bold, italic) == StarPieces(n, bold) + Scan(s[n..], false, Flip(bold, n / 2), italic)
    decreases n
  {
    StarScan(s, n, colon, bold, italic);
    if n == 2 {
      assert StarPieces(2, bold) == [Toggle(Bold, bold)];
    } else if n > 3 {
      assert StarPieces(n, bold) == [Toggle(Bold, bold)] + StarPieces(n - 2, !bold);
      RunRest(s, '*', n, 2);
      FlipTwice(bold, n);
      hide Run, Scan, StarPieces, Flip;
      StarRun(s[2..], n - 2, false, !bold, italic);
      JoinPieces(Toggle(Bold, bold), StarPieces(n - 2, !bold), Scan(s[n..], false, Flip(bold, n / 2), italic));
    }
  }

  lemma {:induction false} FlipTwice(on: bool, n: nat)
    requires n >= 2
    ensures Flip(!on, (n - 2) / 2) == Flip(on, n / 2)
  {
  }

  lemma {:induction false} TagsOne(p: Piece, qs: seq<Piece>, style: Style)
    ensures Tags([p] + qs, style) == (if p.Lit? then 0 else if p.style == style then 1 else 0) + Tags(qs, style)
  {
    assert ([p] + qs)[1..] == qs;
  }

  lemma {:induction false} TriplePieces(bold: bool)
    ensures Tags(StarPieces(3, bold), Bold) == 1 && Tags(StarPieces(3, bold), Italic) == 0
        && Literals(StarPieces(3, bold)) == "*"
  {
    var p, q := if bold then Lit('*') else Open(Bold), if bold then Close(Bold) else Lit('*');
    assert StarPieces(3, bold) == [p, q] + [] && [q] == [q] + [];
    assert [p, q] == [p] + [q];
    TagsOne(p, [q], Bold);
    TagsOne(p, [q], Italic);
    TagsOne(q, [], Bold);
    TagsOne(q, [], Italic);
    LiteralsTwo(p, q, []);
    LiteralsOne(q, []);
  }

  lemma {:induction false} StarPiecesCount(n: nat, bold: bool)
    ensures Tags(StarPieces(n, bold), Bold) == n / 2 && Tags(StarPieces(n, bold), Italic) == 0
    ensures Literals(StarPieces(n, bold)) == Repeat('*', n % 2)
  {
    var ps := StarPieces(n, bold);
    assert Repeat('*', 1) == "*";
    if n == 3 {
      TriplePieces(bold);
    } else if n >= 2 {
      assert ps[1..] == StarPieces(n - 2, !bold);
      StarPiecesCount(n - 2, !bold);
    }
  }

  // Every literal character stands inside bold.
  predicate LiteralsBold(ps: seq<Piece>, on: bool) {
    if ps == [] then true
    else if ps[0].Lit? then on && LiteralsBold(ps[1..], on)
    else LiteralsBold(ps[1..], if ps[0] == Open(Bold) then true else if ps[0] == Close(Bold) then false else on)
  }

  // The odd asterisk of a run of three or more is written in bold.
  lemma {:induction false} OddStarIsBold(n: nat, bold: bool)
    requires n >= 2
    ensures LiteralsBold(StarPieces(n, bold), bold)
  {
    var ps := StarPieces(n, bold);
    if n == 3 {
      assert ps[1..] == [ps[1]] && [ps[1]][1..] == [];
    } else {
      assert ps[1..] == StarPieces(n - 2, !bold);
      if n > 2 { OddStarIsBold(n - 2, !bold); }
    }
  }

  function SlashPieces(n: nat, colon: bool, italic: bool): seq<Piece> {
    if n == 0 then []
    else if colon || n == 1 then [Lit('/')] + SlashPieces(n - 1, false, italic)
    else [Toggle(Italic, italic)] + SlashPieces(n - 2, false, !italic)
  }

  // Slashes of a run that can pair: the first one after a colon cannot.
  function Pairable(n: nat, colon: bool): nat { if colon && n > 0 then n - 1 else n }

  // A maximal run of slashes: after a colon its first slash is literal, the others pair into italic tags.
  lemma {:induction false} SlashRun(s: string, n: nat, colon: bool, bold: bool, italic: bool)
    requires Run(s, '/', n) && !Run(s, '/', n + 1) && n >= 1
    ensures Scan(s, colon, bold, italic)
        == SlashPieces(n, colon, italic) + Scan(s[n..], false, bold, Flip(italic, Pairable(n, colon) / 2))
    decreases n
  {
    var m := if colon || n == 1 then 1 else 2;
    var p := if m == 1 then Lit('/') else Toggle(Italic, italic);
    var italic' := if m == 1 then italic else !italic;
    RunRest(s, '/', n, m);
    SlashScan(s, n, colon, bold, italic);
    SlashStep(n, m, colon, italic);
    hide Run, Scan, Pairable, Flip, SlashPieces;
    if n > m {
      SlashRun(s[m..], n - m, false, bold, italic');
      JoinPieces(p, SlashPieces(n - m, false, italic'),
        Scan(s[n..], false, bold, Flip(italic, Pairable(n, colon) / 2)));
    } else {
      SlashEnd(false, italic');
      assert [p] + [] == [p];
    }
  }

  lemma {:induction false} SlashScan(s: string, n: nat, colon: bool, bold: bool, italic: bool)
    requires Run(s, '/', n) && !Run(s, '/', n + 1) && n >= 1
    ensures Scan(s, colon, bold, italic) == if colon || n == 1 then [Lit('/')] + Scan(s[1..], false, bold, italic)
        else [Toggle(Italic, italic)] + Scan(s[2..], false, bold, !italic)
  {
    RunOnly(s, '/', n);
    RunFirst(s, '/', n);
    hide Run;
  }

  lemma {:induction false} SlashEnd(colon: bool, italic: bool)
    ensures SlashPieces(0, colon, italic) == [] && Flip(italic, Pairable(0, colon) / 2) == italic
  {
  }

  lemma {:induction false} SlashStep(n: nat, m: nat, colon: bool, italic: bool)
    requires n >= 1 && m == if colon || n == 1 then 1 else 2
    ensures var italic' := if m == 1 then italic else !italic;
            && SlashPieces(n, colon, italic)
               == [if m == 1 then Lit('/') else Toggle(Italic, italic)] + SlashPieces(n - m, false, italic')
            && Flip(italic', Pairable(n - m, false) / 2) == Flip(italic, Pairable(n, colon) / 2)
  {
  }

  lemma {:induction false} SlashPiecesCount(n: nat, colon: bool, italic: bool)
    ensures Tags(SlashPieces(n, colon, italic), Italic) == Pairable(n, colon) / 2
        && Tags(SlashPieces(n, colon, italic), Bold) == 0
    ensures Literals(SlashPieces(n, colon, italic)) == Repeat('/', n - 2 * (Pairable(n, colon) / 2))
  {
    if n > 0 {
      var ps := SlashPieces(n, colon, italic);
      if colon || n == 1 {
        assert ps[1..] == SlashPieces(n - 1, false, italic);
        SlashPiecesCount(n - 1, false, italic);
      } else {
        assert ps[1..] == SlashPieces(n - 2, false, !italic);
        SlashPiecesCount(n - 2, false, !italic);
      }
    }
  }

  /******* Runs anywhere in a line *******/

  datatype Flags = Flags(bold: bool, italic: bool)

  // The pieces of a text that something follows: the scan without the closing tags
  function Body(s: string, colon: bool, f: Flags): seq<Piece>
    decreases |s|
  {
    if s == "" then []
    else if Run(s, '*', 3) && !Run(s, '*', 4) then StarPieces(3, f.bold) + Body(s[3..], false, f.(bold := !f.bold))
    else if Run(s, '*', 2) then [Toggle(Bold, f.bold)] + Body(s[2..], false, f.(bold := !f.bold))
    else if Run(s, '/', 2) && !colon then [Toggle(Italic, f.italic)] + Body(s[2..], false, f.(italic := !f.italic))
    else [Lit(s[0])] + Body(s[1..], s[0] == ':', f)
  }

  // The flags it leaves
  function FlagsAfter(s: string, colon: bool, f: Flags): Flags
    decreases |s|
  {
    if s == "" then f
    else if Run(s, '*', 3) && !Run(s, '*', 4) then FlagsAfter(s[3..], false, f.(bold := !f.bold))
    else if Run(s, '*', 2) then FlagsAfter(s[2..], false, f.(bold := !f.bold))
    else if Run(s, '/', 2) && !colon then FlagsAfter(s[2..], false, f.(italic := !f.italic))
    else FlagsAfter(s[1..], s[0] == ':', f)
  }

  function ColonAfter(s: string, colon: bool): bool { if s == "" then colon else s[|s| - 1] == ':' }

  // No run goes on from u into t.
  predicate Separate(u: string, t: string) { u == "" || t == "" || u[|u| - 1] != t[0] }

  lemma {:induction false} RunSeparate(u: string, t: string, c: char, n: nat)
    requires u != "" && Separate(u, t) && n >= 1
    ensures Run(u + t, c, n) <==> Run(u, c, n)
  {
    var s := u + t;
    assert forall k :: 0 <= k < |u| ==> s[k] == u[k];
    if n > |u| && t != "" { assert s[|u| - 1] == u[|u| - 1] && s[|u|] == t[0]; }
  }

  lemma {:induction false} TailSeparate(u: string, t: string, m: nat, colon: bool)
    requires Separate(u, t) && 1 <= m <= |u|
    ensures (u + t)[m..] == u[m..] + t && Separate(u[m..], t)
        && ColonAfter(u[m..], u[m - 1] == ':') == ColonAfter(u, colon)
  {
  }

  lemma {:induction false} Reassociate(a: seq<Piece>, b: seq<Piece>, c: seq<Piece>)
    ensures a + (b + c) == (a + b) + c
  {
  }

  // The scan of a line reaches every place where no run goes on.
  lemma {:induction false} ScanReaches(u: string, t: string, colon: bool, f: Flags)
    requires Separate(u, t)
    ensures var g := FlagsAfter(u, colon, f);
            Scan(u + t, colon, f.bold, f.italic) == Body(u, colon, f) + Scan(t, ColonAfter(u, colon), g.bold, g.italic)
    decreases |u|
  {
    if u == "" {
      assert u + t == t;
    } else {
      RunSeparate(u, t, '*', 2);
      RunSeparate(u, t, '*', 3);
      RunSeparate(u, t, '*', 4);
      RunSeparate(u, t, '/', 2);
      var (m, head, h) := HeadOf(u, colon, f);
      assert TakesHead(u + t, m, head, colon, f, h);
      TailSeparate(u, t, m, colon);
      ScanHead(u + t, m, head, colon, f, h);
      BodyHead(u, m, head, colon, f, h);
      hide Run, Scan, Body, FlagsAfter, StarPieces, Separate, ColonAfter;
      ScanReaches(u[m..], t, u[m - 1] == ':', h);
      var g := FlagsAfter(u, colon, f);
      Reassociate(head, Body(u[m..], u[m - 1] == ':', h), Scan(t, ColonAfter(u, colon), g.bold, g.italic));
    }
  }

  predicate TakesHead(s: string, m: nat, head: seq<Piece>, colon: bool, f: Flags, h: Flags) {
    && 1 <= m <= |s| && (m == 1 || s[m - 1] != ':')
    && if Run(s, '*', 3) && !Run(s, '*', 4) then m == 3 && head == StarPieces(3, f.bold) && h == f.(bold := !f.bold)
       else if Run(s, '*', 2) then m == 2 && head == [Toggle(Bold, f.bold)] && h == f.(bold := !f.bold)
       else if Run(s, '/', 2) && !colon then m == 2 && head == [Toggle(Italic, f.italic)]
         && h == f.(italic := !f.italic)
       else m == 1 && head == [Lit(s[0])] && h == f
  }

  lemma {:induction false} ScanHead(s: string, m: nat, head: seq<Piece>, colon: bool, f: Flags, h: Flags)
    requires TakesHead(s, m, head, colon, f, h)
    ensures Scan(s, colon, f.bold, f.italic) == head + Scan(s[m..], s[m - 1] == ':', h.bold, h.italic)
  {
    hide Run;
  }

  lemma {:induction false} BodyHead(s: string, m: nat, head: seq<Piece>, colon: bool, f: Flags, h: Flags)
    requires TakesHead(s, m, head, colon, f, h)
    ensures Body(s, colon, f) == head + Body(s[m..], s[m - 1] == ':', h)
    ensures FlagsAfter(s, colon, f) == FlagsAfter(s[m..], s[m - 1] == ':', h)
  {
    hide Run;
  }

  // Main result: a maximal run of n asterisks anywhere in a line is written as its n div 2 bold tags and
  // n mod 2 asterisks, between what the text before it and the text after it give.
  lemma {:induction false} StarsInLine(u: string, n: nat, t: string)
    requires n >= 1 && (u == "" || u[|u| - 1] != '*') && (t == "" || t[0] != '*')
    ensures var f := FlagsAfter(u, false, Flags(false, false));
            Scan(u + (Repeat('*', n) + t), false, false, false)
            == Body(u, false, Flags(false, false))
              + (StarPieces(n, f.bold) + Scan(t, false, Flip(f.bold, n / 2), f.italic))
  {
    var s := Repeat('*', n) + t;
    var f := FlagsAfter(u, false, Flags(false, false));
    assert Run(s, '*', n) && !Run(s, '*', n + 1) && s[n..] == t && s[0] == '*';
    ScanReaches(u, s, false, Flags(false, false));
    hide Run, Scan, Body, StarPieces, FlagsAfter;
    StarRun(s, n, ColonAfter(u, false), f.bold, f.italic);
  }

  // Main result: the same for slashes; the first one after a colon is literal.
  lemma {:induction false} SlashesInLine(u: string, n: nat, t: string)
    requires n >= 1 && (u == "" || u[|u| - 1] != '/') && (t == "" || t[0] != '/')
    ensures var f, colon := FlagsAfter(u, false, Flags(false, false)), u != "" && u[|u| - 1] == ':';
            Scan(u + (Repeat('/', n) + t), false, false, false)
            == Body(u, false, Flags(false, false))
               + (SlashPieces(n, colon, f.italic) + Scan(t, false, f.bold, Flip(f.italic, Pairable(n, colon) / 2)))
  {
    var s := Repeat('/', n) + t;
    var f := FlagsAfter(u, false, Flags(false, false));
    assert Run(s, '/', n) && !Run(s, '/', n + 1) && s[n..] == t && s[0] == '/';
    ScanReaches(u, s, false, Flags(false, false));
    hide Run, Scan, Body, SlashPieces, FlagsAfter;
    SlashRun(s, n, ColonAfter(u, false), f.bold, f.italic);
  }

  lemma {:induction false} EscapeRun(c: char, n: nat)
    requires c !in "&<>"
    ensures Escape(Repeat(c, n)) == Repeat(c, n)
  {
    if n > 0 {
      assert Repeat(c, n)[1..] == Repeat(c, n - 1);
      EscapeRun(c, n - 1);
      assert [c] + Repeat(c, n - 1) == Repeat(c, n);
    }
  }

  // A marker character or a colon stands last in the escaped text exactly when it stands last in the text.
  lemma {:induction false} SameEnd(s: string, c: char)
    requires s != "" && c in "*/:"
    ensures Escape(s) != "" && (Escape(s)[|Escape(s)| - 1] == c <==> s[|s| - 1] == c)
  {
    var m := |s| - 1;
    assert s == s[..m] + [s[m]];
    EscapeAppend(s[..m], [s[m]]);
    assert Escape([s[m]]) == EscapeChar(s[m]) + "" == EscapeChar(s[m]);
  }

  lemma {:induction false} RenderAppend(ps: seq<Piece>, qs: seq<Piece>)
    ensures Render(ps + qs) == Render(ps) + Render(qs)
  {
    if ps == [] {
      assert ps + qs == qs;
    } else {
      assert (ps + qs)[1..] == ps[1..] + qs;
      RenderAppend(ps[1..], qs);
    }
  }

  lemma {:induction false} RenderThree(ps: seq<Piece>, qs: seq<Piece>, rs: seq<Piece>)
    ensures Render(ps + (qs + rs)) == Render(ps) + (Render(qs) + Render(rs))
  {
    RenderAppend(ps, qs + rs);
    RenderAppend(qs, rs);
  }

  const CLOSED := Flags(false, false)

  lemma {:induction false} EscapeAround(u: string, c: char, n: nat, t: string)
    requires c in "*/" && (u == "" || u[|u| - 1] != c) && (t == "" || t[0] != c)
    ensures Escape(u + (Repeat(c, n) + t)) == Escape(u) + (Repeat(c, n) + Escape(t))
    ensures Escape(u) == "" || Escape(u)[|Escape(u)| - 1] != c
    ensures Escape(t) == "" || Escape(t)[0] != c
  {
    EscapeAppend(u, Repeat(c, n) + t);
    EscapeAppend(Repeat(c, n), t);
    EscapeRun(c, n);
    if u != "" { SameEnd(u, c); }
    SameStart(t);
  }

  // Main result: in the HTML of a line of the description a maximal run of n asterisks stands as its
  // n div 2 bold tags and n mod 2 asterisks, between the HTML of the text before it and that of the text
  // after it.
  lemma {:induction false} StarsInHtml(u: string, n: nat, t: string)
    requires n >= 1 && (u == "" || u[|u| - 1] != '*') && (t == "" || t[0] != '*')
    ensures var f := FlagsAfter(Escape(u), false, CLOSED);
            LineHtml(u + (Repeat('*', n) + t))
            == Render(Body(Escape(u), false, CLOSED))
               + (Render(StarPieces(n, f.bold)) + Render(Scan(Escape(t), false, Flip(f.bold, n / 2), f.italic)))
  {
    EscapeAround(u, '*', n, t);
    hide Escape, Scan, Body, StarPieces, FlagsAfter, Render, Repeat;
    StarsInLine(Escape(u), n, Escape(t));
    var f := FlagsAfter(Escape(u), false, CLOSED);
    RenderThree(Body(Escape(u), false, CLOSED), StarPieces(n, f.bold),
                Scan(Escape(t), false, Flip(f.bold, n / 2), f.italic));
  }

  // Main result: the same for slashes; the first one after a colon is literal.
  lemma {:induction false} SlashesInHtml(u: string, n: nat, t: string)
    requires n >= 1 && (u == "" || u[|u| - 1] != '/') && (t == "" || t[0] != '/')
    ensures var f, colon := FlagsAfter(Escape(u), false, CLOSED), u != "" && u[|u| - 1] == ':';
            LineHtml(u + (Repeat('/', n) + t))
            == Render(Body(Escape(u), false, CLOSED))
               + (Render(SlashPieces(n, colon, f.italic))
                  + Render(Scan(Escape(t), false, f.bold, Flip(f.italic, Pairable(n, colon) / 2))))
  {
    EscapeAround(u, '/', n, t);
    var colon := u != "" && u[|u| - 1] == ':';
    assert colon <==> Escape(u) != "" && Escape(u)[|Escape(u)| - 1] == ':' by {
      if u != "" { SameEnd(u, ':'); }
    }
    hide Escape, Scan, Body, SlashPieces, FlagsAfter, Render, Repeat, Pairable;
    SlashesInLine(Escape(u), n, Escape(t));
    var f := FlagsAfter(Escape(u), false, CLOSED);
    RenderThree(Body(Escape(u), false, CLOSED), SlashPieces(n, colon, f.italic),
                Scan(Escape(t), false, f.bold, Flip(f.italic, Pairable(n, colon) / 2)));
  }

  lemma {:induction false} TagsAppend(ps: seq<Piece>, qs: seq<Piece>, style: Style)
    ensures Tags(ps + qs, style) == Tags(ps, style) + Tags(qs, style)
  {
    if ps == [] {
      assert ps + qs == qs;
    } else {
      assert (ps + qs)[1..] == ps[1..] + qs;
      TagsAppend(ps[1..], qs, style);
    }
  }

  lemma {:induction false} HeadTags(s: string, m: nat, head: seq<Piece>, colon: bool, f: Flags, h: Flags)
    requires TakesHead(s, m, head, colon, f, h)
    ensures h.bold == Flip(f.bold, Tags(head, Bold)) && h.italic == Flip(f.italic, Tags(head, Italic))
  {
    hide Run;
    TriplePieces(f.bold);
    if m != 3 {
      assert head == [head[0]] + [];
      TagsOne(head[0], [], Bold);
      TagsOne(head[0], [], Italic);
    }
  }

  lemma {:induction false} FlipAdd(on: bool, j: nat, k: nat)
    ensures Flip(Flip(on, j), k) == Flip(on, j + k)
  {
  }

  // The next step of the scan
  function HeadOf(s: string, colon: bool, f: Flags): (r: (nat, seq<Piece>, Flags))
    requires s != ""
    ensures TakesHead(s, r.0, r.1, colon, f, r.2)
  {
    if Run(s, '*', 3) && !Run(s, '*', 4) then (3, StarPieces(3, f.bold), f.(bold := !f.bold))
    else if Run(s, '*', 2) then (2, [Toggle(Bold, f.bold)], f.(bold := !f.bold))
    else if Run(s, '/', 2) && !colon then (2, [Toggle(Italic, f.italic)], f.(italic := !f.italic))
    else (1, [Lit(s[0])], f)
  }

  // A style is open after a text exactly when an odd number of its tags has been written.
  lemma {:induction false} FlagsAreParity(s: string, colon: bool, f: Flags)
    ensures FlagsAfter(s, colon, f).bold == Flip(f.bold, Tags(Body(s, colon, f), Bold))
    ensures FlagsAfter(s, colon, f).italic == Flip(f.italic, Tags(Body(s, colon, f), Italic))
    decreases |s|
  {
    if s != "" {
      var (m, head, h) := HeadOf(s, colon, f);
      BodyHead(s, m, head, colon, f, h);
      HeadTags(s, m, head, colon, f, h);
      hide Body, FlagsAfter, TakesHead, Flip, Tags, HeadOf;
      var rest := Body(s[m..], s[m - 1] == ':', h);
      FlagsAreParity(s[m..], s[m - 1] == ':', h);
      TagsAppend(head, rest, Bold);
      TagsAppend(head, rest, Italic);
      FlipAdd(f.bold, Tags(head, Bold), Tags(rest, Bold));
      FlipAdd(f.italic, Tags(head, Italic), Tags(rest, Italic));
    }
  }
}
