/** From scored knowledge-base concepts to ATECO candidates (ma_ateco_retrieval.go). Cosines are reals. */
module AtecoRetrieval {
  import opened Wrappers
  import opened Text

  datatype Concept = Concept(id: string, inKB: seq<string>, excluded: seq<string>)
  datatype Scored = Scored(concept: Concept, cosine: real)
  datatype Config = Config(relThreshold: real, coreRatio: real, floor: real, cap: nat)
  {
    // The ranges maAtecoRetrievalConfigFromParameters lets through.
    predicate Valid() {
      0.0 < relThreshold <= 1.0 && 0.0 < coreRatio <= 1.0 && 0.0 <= floor < 1.0 && cap >= 1
    }
  }

  predicate Descending(scored: seq<Scored>) {
    forall i, j :: 0 <= i < j < |scored| ==> scored[i].cosine >= scored[j].cosine
  }

  /******* Threshold selection *******/

  // The matched concepts are exactly those at or above the relative cut, best first, up to the cap;
  // below the floor nothing is recognised. The best one is always core.
  method Select(scored: seq<Scored>, cfg: Config) returns (matched: seq<Scored>, coreCut: real, recognised: bool)
    requires scored != [] && Descending(scored) && cfg.Valid()
    ensures recognised <==> scored[0].cosine >= cfg.floor
    ensures !recognised ==> matched == []
    ensures recognised ==>
      && |matched| <= |scored| && matched == scored[..|matched|] && 1 <= |matched| <= cfg.cap
      && (var relCut := scored[0].cosine * cfg.relThreshold;
          && (forall i :: 0 <= i < |matched| ==> scored[i].cosine >= relCut)
          && (|matched| == cfg.cap || forall i :: |matched| <= i < |scored| ==> scored[i].cosine < relCut))
      && coreCut == scored[0].cosine * cfg.coreRatio && matched[0].cosine >= coreCut
  {
    var top := scored[0].cosine;
    matched, coreCut := [], 0.0;
    if top < cfg.floor { return [], 0.0, false; }
    var relCut := top * cfg.relThreshold;
    coreCut := top * cfg.coreRatio;
    ScaledDown(top, cfg.relThreshold);
    ScaledDown(top, cfg.coreRatio);
    matched := TakeBest(scored, relCut, cfg.cap);
    recognised := true;
  }

  method TakeBest(scored: seq<Scored>, relCut: real, cap: nat) returns (matched: seq<Scored>)
    requires scored != [] && Descending(scored) && cap >= 1 && relCut <= scored[0].cosine
    ensures 1 <= |matched| <= |scored| && |matched| <= cap && matched == scored[..|matched|]
    ensures forall i :: 0 <= i < |matched| ==> scored[i].cosine >= relCut
    ensures |matched| == cap || forall i :: |matched| <= i < |scored| ==> scored[i].cosine < relCut
  {
    matched := [];
    var i := 0;
    while i < |scored|
      invariant 0 <= i <= |scored| && matched == scored[..i]
      invariant i < cap
      invariant forall k :: 0 <= k < i ==> scored[k].cosine >= relCut
    {
      if scored[i].cosine < relCut { break; }
      matched := matched + [scored[i]];
      i := i + 1;
      if |matched| >= cap { break; }
    }
  }

  lemma {:induction false} ScaledDown(x: real, r: real)
    requires x >= 0.0 && 0.0 < r <= 1.0
    ensures x * r <= x
  {
    assert x * (1.0 - r) >= 0.0;
  }

  /******* Codes *******/

  function Without(s: string, c: char): (r: string)
    ensures forall d :: d in r <==> d in s && d != c
  {
    if s == "" then "" else (if s[0] == c then "" else [s[0]]) + Without(s[1..], c)
  }

  // normalizeAtecoCode
  function NormalizeCode(raw: string): string { Without(ToUpper(TrimSpace(raw)), ' ') }

  // atecoSearchCode
  function SearchCode(raw: string): string { Without(NormalizeCode(raw), '.') }

  lemma {:induction false} WithoutLast(s: string, c: char)
    requires s != "" && s[|s| - 1] != c
    ensures Without(s, c) != "" && Without(s, c)[|Without(s, c)| - 1] == s[|s| - 1]
  {
    if |s| > 1 { WithoutLast(s[1..], c); }
  }

  lemma {:induction false} WithoutNothing(s: string, c: char)
    requires c !in s
    ensures Without(s, c) == s
  {
    if s != "" { WithoutNothing(s[1..], c); }
  }

  // Normalizing a code again changes nothing, so a normalized code keeps its search code.
  lemma {:induction false} NormalizeCodeIdempotent(raw: string)
    ensures NormalizeCode(NormalizeCode(raw)) == NormalizeCode(raw)
    ensures SearchCode(NormalizeCode(raw)) == SearchCode(raw)
  {
    hide TrimSpace;
    var t := TrimSpace(raw);
    var u := ToUpper(t);
    var n := NormalizeCode(raw);
    TrimSpaceTrimmed(raw);
    if u != "" {
      assert IsSpace(' ') && u[0] != ' ' && u[|u| - 1] != ' ';
      WithoutLast(u, ' ');
      assert n[0] == u[0];
      assert Trimmed(n);
    }
    TrimSpaceOfTrimmed(n);
    assert ToUpper(n) == n by {
      forall i | 0 <= i < |n| ensures UpperChar(n[i]) == n[i] {
        assert n[i] in u;
        var k :| 0 <= k < |u| && u[k] == n[i];
        assert UpperChar(t[k]) == u[k];
      }
    }
    WithoutNothing(n, ' ');
  }

  // One character is dropped wherever it stands, and nothing else.
  lemma {:induction false} WithoutJoin(a: string, b: string, c: char)
    ensures Without(a + b, c) == Without(a, c) + Without(b, c)
  {
    if a == "" {
      assert a + b == b;
    } else {
      assert (a + b)[0] == a[0] && (a + b)[1..] == a[1..] + b;
      WithoutJoin(a[1..], b, c);
    }
  }

  // A code as the catalogue writes it: no blanks, no small letters.
  predicate IsClean(code: string) {
    Trimmed(code) && forall i :: 0 <= i < |code| ==> code[i] != ' ' && !('a' <= code[i] <= 'z')
  }

  // A clean code is kept as it is, dots included, and in any letter case it gives the same code.
  lemma {:induction false} CleanCodeKept(code: string, raw: string)
    requires IsClean(code) && SameButCase(raw, code)
    ensures NormalizeCode(raw) == code
  {
    CaseForgotten(raw, code);
    TrimSpaceOfTrimmed(code);
    assert ToUpper(code) == code;
    assert ' ' !in code;
    WithoutNothing(code, ' ');
    hide TrimSpace, ToUpper, Without;
  }

  // Dots do not matter for a search code.
  lemma {:induction false} DotsIgnored(u: string, t: string)
    requires Trimmed(u + t)
    ensures SearchCode(u + "." + t) == SearchCode(u + t)
  {
    var s := u + "." + t;
    assert s[0] == if u == "" then '.' else (u + t)[0];
    assert s[|s| - 1] == if t == "" then '.' else (u + t)[|u + t| - 1];
    TrimSpaceOfTrimmed(s);
    TrimSpaceOfTrimmed(u + t);
    var x, y := ToUpper(u), ToUpper(t);
    assert ToUpper(s) == x + "." + y && ToUpper(u + t) == x + y;
    DotDropped(x, y);
    hide ToUpper, TrimSpace, Without;
  }

  lemma {:induction false} DotDropped(x: string, y: string)
    ensures Without(Without(x + "." + y, ' '), '.') == Without(Without(x + y, ' '), '.')
  {
    assert Without(".", ' ') == "." && Without(".", '.') == "";
    hide Without;
    WithoutJoin(x + ".", y, ' ');
    WithoutJoin(x, ".", ' ');
    WithoutJoin(x, y, ' ');
    var a, b := Without(x, ' '), Without(y, ' ');
    WithoutJoin(a + ".", b, '.');
    WithoutJoin(a, ".", '.');
    WithoutJoin(a, b, '.');
    assert Without(a, '.') + "" == Without(a, '.');
  }

  lemma {:induction false} Kept6201()
    ensures NormalizeCode("62.01") == "62.01"
  {
    assert IsClean("62.01");
    hide NormalizeCode, IsClean;
    CleanCodeKept("62.01", "62.01");
  }

  // A dotted code is searched for without its dot.
  lemma {:induction false} DottedSearched(u: string, t: string)
    requires IsClean(u + t) && '.' !in u + t
    ensures SearchCode(u + "." + t) == u + t
  {
    assert SameButCase(u + t, u + t);
    DotsIgnored(u, t);
    CleanCodeKept(u + t, u + t);
    WithoutNothing(u + t, '.');
    hide NormalizeCode, Without, IsClean;
  }

  /******* Entries: the code lists of the matched concepts, concept by concept *******/

  datatype Fit = Core | Weak | Excluded
  datatype Side = Include | Exclude
  datatype Entry = Entry(raw: string, fit: Fit, at: nat)

  function Codes(m: Scored, side: Side): seq<string> {
    if side == Include then m.concept.inKB else m.concept.excluded
  }

  function FitOf(m: Scored, side: Side, coreCut: real): Fit {
    if side == Exclude then Excluded else if m.cosine >= coreCut then Core else Weak
  }

  function Listed(raws: seq<string>, fit: Fit, at: nat): (es: seq<Entry>)
    ensures |es| == |raws| && forall i :: 0 <= i < |es| ==> es[i] == Entry(raws[i], fit, at)
  {
    seq(|raws|, i requires 0 <= i < |raws| => Entry(raws[i], fit, at))
  }

  function Entries(ms: seq<Scored>, side: Side, coreCut: real): seq<Entry> {
    if ms == [] then []
    else
      var last := |ms| - 1;
      Entries(ms[..last], side, coreCut) + Listed(Codes(ms[last], side), FitOf(ms[last], side, coreCut), last)
  }

  function CodeSet(es: seq<Entry>): set<string> {
    set x | 0 <= x < |es| :: SearchCode(es[x].raw)
  }

  function CoreSet(es: seq<Entry>): set<string> {
    set x | 0 <= x < |es| && es[x].fit == Core :: SearchCode(es[x].raw)
  }

  // The first entry of every search code, in order, leaving out the codes to skip.
  function Firsts(es: seq<Entry>, skip: set<string>): seq<Entry> {
    if es == [] then []
    else
      var e := es[|es| - 1];
      var sc := SearchCode(e.raw);
      var r := Firsts(es[..|es| - 1], skip);
      if sc == "" || sc in CodeSet(r) || sc in skip then r else r + [e]
  }

  lemma {:induction false} FirstsStep(es: seq<Entry>, e: Entry, skip: set<string>)
    ensures var sc := SearchCode(e.raw);
            var r := Firsts(es, skip);
            if sc == "" || sc in CodeSet(r) || sc in skip then Firsts(es + [e], skip) == r
            else
              && Firsts(es + [e], skip) == r + [e] && CodeSet(r + [e]) == CodeSet(r) + {sc}
              && CoreSet(r + [e]) == if e.fit == Core then CoreSet(r) + {sc} else CoreSet(r)
  {
    hide SearchCode;
    assert (es + [e])[..|es|] == es;
    var r := Firsts(es, skip);
    var r' := r + [e];
    assert r'[|r|] == e && forall x :: 0 <= x < |r| ==> r'[x] == r[x];
  }

  lemma {:induction false} NothingYet(ms: seq<Scored>, side: Side, coreCut: real, skip: set<string>)
    ensures Entries(ms[..0], side, coreCut) == [] && Firsts([], skip) == [] && CodeSet([]) == {} && CoreSet([]) == {}
  {
  }

  lemma {:induction false} EntriesStep(ms: seq<Scored>, side: Side, coreCut: real, i: nat)
    requires i < |ms|
    ensures Entries(ms[..i + 1], side, coreCut)
        == Entries(ms[..i], side, coreCut) + Listed(Codes(ms[i], side), FitOf(ms[i], side, coreCut), i)
  {
    assert ms[..i + 1][..i] == ms[..i];
  }

  // Passes 1 and 2 share this loop: go through the concepts, keep the first entry of each code.
  method Collect(ms: seq<Scored>, side: Side, coreCut: real, skip: set<string>)
      returns (kept: seq<Entry>, seen: set<string>, core: set<string>)
    ensures kept == Firsts(Entries(ms, side, coreCut), skip)
    ensures seen == CodeSet(kept) && core == CoreSet(kept)
  {
    hide SearchCode, FitOf, Codes, Entries, Firsts, CodeSet, CoreSet;
    kept, seen, core := [], {}, {};
    NothingYet(ms, side, coreCut, skip);
    var i := 0;
    while i < |ms|
      invariant 0 <= i <= |ms|
      invariant kept == Firsts(Entries(ms[..i], side, coreCut), skip)
      invariant seen == CodeSet(kept) && core == CoreSet(kept)
    {
      var fit := FitOf(ms[i], side, coreCut);
      var raws := Codes(ms[i], side);
      ghost var done := Entries(ms[..i], side, coreCut);
      ghost var all := Listed(raws, fit, i);
      var j := 0;
      assert done + all[..0] == done;
      while j < |raws|
        invariant 0 <= j <= |raws|
        invariant kept == Firsts(done + all[..j], skip)
        invariant seen == CodeSet(kept) && core == CoreSet(kept)
      {
        var e := Entry(raws[j], fit, i);
        FirstsStep(done + all[..j], e, skip);
        assert done + all[..j] + [e] == done + all[..j + 1];
        var sc := SearchCode(raws[j]);
        if !(sc == "" || sc in seen) && sc !in skip {
          seen := seen + {sc};
          kept := kept + [e];
          if fit == Core { core := core + {sc}; }
        }
        j := j + 1;
      }
      assert all[..j] == all;
      EntriesStep(ms, side, coreCut, i);
      i := i + 1;
    }
    assert ms[..i] == ms;
  }

  /******* Emission *******/

  datatype Lookup = Found(code: string) | NotFound | Broken

  datatype Candidate = Candidate(code: string, fit: Fit, source: nat)

  datatype Emitted = Emitted(candidates: seq<Candidate>, missing: seq<string>)

  // The catalogue answers with the row of the code it was asked for.
  ghost predicate Faithful(lookup: string -> Lookup) {
    forall raw :: lookup(raw).Found? ==> SearchCode(lookup(raw).code) == SearchCode(raw)
  }

  function EmitIncludes(incs: seq<Entry>, excluded: set<string>, lookup: string -> Lookup): Option<Emitted> {
    if incs == [] then Some(Emitted([], []))
    else
      var e := incs[|incs| - 1];
      var rest := EmitIncludes(incs[..|incs| - 1], excluded, lookup);
      if rest.None? || (SearchCode(e.raw) in excluded && e.fit != Core) then rest
      else match lookup(e.raw)
        case Broken => None
        case NotFound => Some(Emitted(rest.value.candidates, rest.value.missing + [e.raw]))
        case Found(code) => Some(Emitted(rest.value.candidates + [Candidate(code, e.fit, e.at)], rest.value.missing))
  }

  function EmitExcludes(excs: seq<Entry>): (cs: seq<Candidate>)
    ensures |cs| == |excs| && forall x ::
        0 <= x < |cs| ==> cs[x] == Candidate(NormalizeCode(excs[x].raw), Excluded, excs[x].at)
  {
    seq(|excs|, x requires 0 <= x < |excs| => Candidate(NormalizeCode(excs[x].raw), Excluded, excs[x].at))
  }

  function Includes(ms: seq<Scored>, coreCut: real): seq<Entry> {
    Firsts(Entries(ms, Include, coreCut), {})
  }

  function Excludes(ms: seq<Scored>, coreCut: real): seq<Entry> {
    Firsts(Entries(ms, Exclude, coreCut), CoreSet(Includes(ms, coreCut)))
  }

  function Resolved(ms: seq<Scored>, coreCut: real, lookup: string -> Lookup): Option<Emitted> {
    var excs := Excludes(ms, coreCut);
    match EmitIncludes(Includes(ms, coreCut), CodeSet(excs), lookup)
    case None => None
    case Some(out) => Some(Emitted(out.candidates + EmitExcludes(excs), out.missing))
  }

  lemma {:induction false} EmitBroken(incs: seq<Entry>, n: nat, excluded: set<string>, lookup: string -> Lookup)
    requires n <= |incs| && EmitIncludes(incs[..n], excluded, lookup) == None
    ensures EmitIncludes(incs, excluded, lookup) == None
    decreases |incs|
  {
    if n < |incs| {
      assert incs[..|incs| - 1][..n] == incs[..n];
      EmitBroken(incs[..|incs| - 1], n, excluded, lookup);
    } else {
      assert incs[..n] == incs;
    }
  }

  // resolveKBFitToCandidates
  method ResolveFit(ms: seq<Scored>, coreCut: real, lookup: string -> Lookup) returns (r: Option<Emitted>)
    ensures r == Resolved(ms, coreCut, lookup)
  {
    hide Firsts, Entries, SearchCode, NormalizeCode, CodeSet, CoreSet;
    var includes, seenInc, coreSearchCodes := Collect(ms, Include, coreCut, {});
    var excludes, seenExc, unused := Collect(ms, Exclude, coreCut, coreSearchCodes);
    var candidates, missing := [], [];
    var i := 0;
    while i < |includes|
      invariant 0 <= i <= |includes|
      invariant EmitIncludes(includes[..i], seenExc, lookup) == Some(Emitted(candidates, missing))
    {
      var inc := includes[i];
      assert includes[..i + 1][..i] == includes[..i];
      i := i + 1;
      if SearchCode(inc.raw) in seenExc && inc.fit != Core { continue; }
      match lookup(inc.raw)
      case NotFound => missing := missing + [inc.raw];
      case Broken =>
        EmitBroken(includes, i, seenExc, lookup);
        return None;
      case Found(code) => candidates := candidates + [Candidate(code, inc.fit, inc.at)];
    }
    assert includes[..i] == includes;
    ghost var included := candidates;
    var j := 0;
    while j < |excludes|
      invariant 0 <= j <= |excludes|
      invariant candidates == included + EmitExcludes(excludes)[..j]
    {
      ExcludeNotEmpty(ms, coreCut, j);
      var code := NormalizeCode(excludes[j].raw);
      if code != "" {
        candidates := candidates + [Candidate(code, Excluded, excludes[j].at)];
      }
      j := j + 1;
    }
    assert EmitExcludes(excludes)[..j] == EmitExcludes(excludes);
    r := Some(Emitted(candidates, missing));
  }

  /******* What the passes keep *******/

  // e is the first entry of search code sc.
  ghost predicate FirstOf(es: seq<Entry>, e: Entry, sc: string) {
    exists i :: 0 <= i < |es| && es[i] == e && SearchCode(e.raw) == sc
      && forall j :: 0 <= j < i ==> SearchCode(es[j].raw) != sc
  }

  lemma {:induction false} FirstOfExtends(es: seq<Entry>, more: seq<Entry>, e: Entry, sc: string)
    requires FirstOf(es, e, sc)
    ensures FirstOf(es + more, e, sc)
  {
    hide SearchCode;
    var i :| 0 <= i < |es| && es[i] == e && SearchCode(e.raw) == sc
        && forall j :: 0 <= j < i ==> SearchCode(es[j].raw) != sc;
    assert (es + more)[i] == e;
  }

  lemma {:induction false} FirstsComplete(es: seq<Entry>, skip: set<string>, i: nat)
    requires i < |es| && SearchCode(es[i].raw) != "" && SearchCode(es[i].raw) !in skip
    ensures SearchCode(es[i].raw) in CodeSet(Firsts(es, skip))
  {
    hide SearchCode;
    var init := es[..|es| - 1];
    assert es == init + [es[|es| - 1]];
    FirstsStep(init, es[|es| - 1], skip);
    if i < |init| { FirstsComplete(init, skip, i); }
  }

  lemma {:induction false} FirstsAre(es: seq<Entry>, skip: set<string>, x: nat)
    requires x < |Firsts(es, skip)|
    ensures var e := Firsts(es, skip)[x];
            var sc := SearchCode(e.raw);
            sc != "" && sc !in skip && FirstOf(es, e, sc)
  {
    hide SearchCode;
    var init := es[..|es| - 1];
    var e := es[|es| - 1];
    assert es == init + [e];
    if x < |Firsts(init, skip)| {
      FirstsAre(init, skip, x);
      FirstOfExtends(init, [e], Firsts(init, skip)[x], SearchCode(Firsts(init, skip)[x].raw));
    } else {
      forall j | 0 <= j < |init| ensures SearchCode(es[j].raw) != SearchCode(e.raw) {
        assert es[j] == init[j];
        if SearchCode(init[j].raw) == SearchCode(e.raw) { FirstsComplete(init, skip, j); }
      }
    }
  }

  lemma {:induction false} FirstsDistinct(es: seq<Entry>, skip: set<string>, x: nat, y: nat)
    requires x < y < |Firsts(es, skip)|
    ensures SearchCode(Firsts(es, skip)[x].raw) != SearchCode(Firsts(es, skip)[y].raw)
  {
    hide SearchCode;
    if y < |Firsts(es[..|es| - 1], skip)| { FirstsDistinct(es[..|es| - 1], skip, x, y); }
  }

  lemma {:induction false} EntryShape(ms: seq<Scored>, side: Side, coreCut: real, i: nat)
    requires i < |Entries(ms, side, coreCut)|
    ensures var e := Entries(ms, side, coreCut)[i];
            e.at < |ms| && e.raw in Codes(ms[e.at], side) && e.fit == FitOf(ms[e.at], side, coreCut)
  {
    if i < |Entries(ms[..|ms| - 1], side, coreCut)| { EntryShape(ms[..|ms| - 1], side, coreCut, i); }
  }

  lemma {:induction false} EntryOrder(ms: seq<Scored>, side: Side, coreCut: real, i: nat, j: nat)
    requires i <= j < |Entries(ms, side, coreCut)|
    ensures Entries(ms, side, coreCut)[i].at <= Entries(ms, side, coreCut)[j].at
  {
    var before := |Entries(ms[..|ms| - 1], side, coreCut)|;
    if j < before { EntryOrder(ms[..|ms| - 1], side, coreCut, i, j); }
    else if i < before { EntryShape(ms[..|ms| - 1], side, coreCut, i); }
  }

  lemma {:induction false} EntryOf(ms: seq<Scored>, side: Side, coreCut: real, a: nat, b: nat) returns (i: nat)
    requires a < |ms| && b < |Codes(ms[a], side)|
    ensures i < |Entries(ms, side, coreCut)|
    ensures Entries(ms, side, coreCut)[i] == Entry(Codes(ms[a], side)[b], FitOf(ms[a], side, coreCut), a)
  {
    var init := ms[..|ms| - 1];
    if a < |init| {
      i := EntryOf(init, side, coreCut, a, b);
    } else {
      i := |Entries(init, side, coreCut)| + b;
    }
  }

  lemma {:induction false} ExcludeNotEmpty(ms: seq<Scored>, coreCut: real, x: nat)
    requires x < |Excludes(ms, coreCut)|
    ensures NormalizeCode(Excludes(ms, coreCut)[x].raw) != ""
  {
    hide NormalizeCode, Firsts, Entries, CoreSet;
    FirstsAre(Entries(ms, Exclude, coreCut), CoreSet(Includes(ms, coreCut)), x);
  }

  /******* The order-free rule *******/

  // Concept a names search code sc on this side.
  ghost predicate Names(ms: seq<Scored>, side: Side, a: nat, sc: string) {
    && a < |ms| && sc != ""
    && if side == Include then exists b: nat :: b < |ms[a].concept.inKB| && SearchCode(ms[a].concept.inKB[b]) == sc
       else exists b: nat :: b < |ms[a].concept.excluded| && SearchCode(ms[a].concept.excluded[b]) == sc
  }

  ghost predicate Claimed(ms: seq<Scored>, side: Side, sc: string) {
    exists a: nat :: Names(ms, side, a, sc)
  }

  ghost predicate CoreClaimed(ms: seq<Scored>, coreCut: real, sc: string) {
    exists a: nat :: Names(ms, Include, a, sc) && ms[a].cosine >= coreCut
  }

  // What becomes of a search code, whatever the order of the passes: a concept at or above the core
  // cut that includes it makes it core, otherwise any exclusion wins, otherwise any inclusion is weak.
  ghost function Verdict(ms: seq<Scored>, coreCut: real, sc: string): Option<Fit> {
    if CoreClaimed(ms, coreCut, sc) then Some(Core)
    else if Claimed(ms, Exclude, sc) then Some(Excluded)
    else if Claimed(ms, Include, sc) then Some(Weak)
    else None
  }

  // The best concept that names the code: no better one does.
  ghost predicate BestFor(ms: seq<Scored>, side: Side, a: nat, sc: string) {
    Names(ms, side, a, sc) && forall c: nat :: Names(ms, side, c, sc) ==> ms[c].cosine <= ms[a].cosine
  }

  lemma {:induction false} FirstIsBest(ms: seq<Scored>, side: Side, coreCut: real, e: Entry, sc: string)
    requires Descending(ms) && sc != "" && FirstOf(Entries(ms, side, coreCut), e, sc)
    ensures BestFor(ms, side, e.at, sc) && e.fit == FitOf(ms[e.at], side, coreCut)
  {
    hide SearchCode, Entries, FitOf;
    var es := Entries(ms, side, coreCut);
    var i: nat :| i < |es| && es[i] == e && SearchCode(e.raw) == sc
        && forall j :: 0 <= j < i ==> SearchCode(es[j].raw) != sc;
    EntryShape(ms, side, coreCut, i);
    var b: nat :| b < |Codes(ms[e.at], side)| && Codes(ms[e.at], side)[b] == e.raw;
    assert Names(ms, side, e.at, sc);
    forall c: nat | Names(ms, side, c, sc) ensures ms[c].cosine <= ms[e.at].cosine {
      var d: nat :| d < |Codes(ms[c], side)| && SearchCode(Codes(ms[c], side)[d]) == sc;
      var j := EntryOf(ms, side, coreCut, c, d);
      EntryOrder(ms, side, coreCut, i, j);
    }
  }

  lemma {:induction false} ClaimedIsKept(ms: seq<Scored>, side: Side, coreCut: real, skip: set<string>, sc: string)
    requires Claimed(ms, side, sc) && sc !in skip
    ensures sc in CodeSet(Firsts(Entries(ms, side, coreCut), skip))
  {
    hide SearchCode, Entries, FitOf, Firsts, CodeSet;
    var a: nat :| Names(ms, side, a, sc);
    var b: nat :| b < |Codes(ms[a], side)| && SearchCode(Codes(ms[a], side)[b]) == sc;
    var i := EntryOf(ms, side, coreCut, a, b);
    FirstsComplete(Entries(ms, side, coreCut), skip, i);
  }

  // Pass 1 keeps one entry per included code, with the best concept's fit.
  lemma {:induction false} IncludeAt(ms: seq<Scored>, coreCut: real, x: nat)
    requires Descending(ms) && x < |Includes(ms, coreCut)|
    ensures var e := Includes(ms, coreCut)[x];
            var sc := SearchCode(e.raw);
            && sc != "" && e.fit != Excluded && BestFor(ms, Include, e.at, sc)
            && (e.fit == Core <==> CoreClaimed(ms, coreCut, sc))
  {
    hide SearchCode, Entries, Firsts;
    var e := Includes(ms, coreCut)[x];
    FirstsAre(Entries(ms, Include, coreCut), {}, x);
    FirstIsBest(ms, Include, coreCut, e, SearchCode(e.raw));
  }

  lemma {:induction false} CoreSetIs(ms: seq<Scored>, coreCut: real, sc: string)
    requires Descending(ms)
    ensures sc in CoreSet(Includes(ms, coreCut)) <==> CoreClaimed(ms, coreCut, sc)
  {
    hide SearchCode, Entries, Firsts, BestFor;
    var incs := Includes(ms, coreCut);
    if sc in CoreSet(incs) {
      var x: nat :| x < |incs| && incs[x].fit == Core && SearchCode(incs[x].raw) == sc;
      IncludeAt(ms, coreCut, x);
    }
    if CoreClaimed(ms, coreCut, sc) {
      assert Claimed(ms, Include, sc);
      ClaimedIsKept(ms, Include, coreCut, {}, sc);
      assert sc in CodeSet(incs);
      var x: nat :| x < |incs| && SearchCode(incs[x].raw) == sc;
      IncludeAt(ms, coreCut, x);
    }
  }

  // Pass 2 keeps one entry per excluded code that is not core.
  lemma {:induction false} ExcludeAt(ms: seq<Scored>, coreCut: real, x: nat)
    requires Descending(ms) && x < |Excludes(ms, coreCut)|
    ensures var e := Excludes(ms, coreCut)[x];
            var sc := SearchCode(e.raw);
            && sc != "" && BestFor(ms, Exclude, e.at, sc) && Verdict(ms, coreCut, sc) == Some(Excluded)
  {
    hide SearchCode, Entries, Firsts, Includes, CoreSet, CoreClaimed;
    var e := Excludes(ms, coreCut)[x];
    FirstsAre(Entries(ms, Exclude, coreCut), CoreSet(Includes(ms, coreCut)), x);
    FirstIsBest(ms, Exclude, coreCut, e, SearchCode(e.raw));
    CoreSetIs(ms, coreCut, SearchCode(e.raw));
    assert Claimed(ms, Exclude, SearchCode(e.raw));
  }

  lemma {:induction false} ExcludedSetIs(ms: seq<Scored>, coreCut: real, sc: string)
    requires Descending(ms)
    ensures sc in CodeSet(Excludes(ms, coreCut)) <==> Verdict(ms, coreCut, sc) == Some(Excluded)
  {
    hide SearchCode, Entries, Firsts, Includes, CoreSet, CoreClaimed, Claimed, BestFor;
    var excs := Excludes(ms, coreCut);
    if sc in CodeSet(excs) {
      var x: nat :| x < |excs| && SearchCode(excs[x].raw) == sc;
      ExcludeAt(ms, coreCut, x);
    }
    if Verdict(ms, coreCut, sc) == Some(Excluded) {
      CoreSetIs(ms, coreCut, sc);
      ClaimedIsKept(ms, Exclude, coreCut, CoreSet(Includes(ms, coreCut)), sc);
    }
  }

  // An include that pass 3 does not skip has the fit of the verdict.
  lemma {:induction false} ShownVerdict(ms: seq<Scored>, coreCut: real, x: nat)
    requires Descending(ms) && x < |Includes(ms, coreCut)|
    ensures var e := Includes(ms, coreCut)[x];
            (SearchCode(e.raw) in CodeSet(Excludes(ms, coreCut)) && e.fit != Core)
              || Verdict(ms, coreCut, SearchCode(e.raw)) == Some(e.fit)
  {
    hide SearchCode, Entries, Firsts, Includes, Excludes, CoreSet, CodeSet, CoreClaimed;
    var e := Includes(ms, coreCut)[x];
    IncludeAt(ms, coreCut, x);
    ExcludedSetIs(ms, coreCut, SearchCode(e.raw));
    assert Claimed(ms, Include, SearchCode(e.raw));
  }

  /******* What is emitted *******/

  predicate Skipped(e: Entry, excluded: set<string>) { SearchCode(e.raw) in excluded && e.fit != Core }

  ghost predicate FromEntry(c: Candidate, e: Entry, excluded: set<string>, lookup: string -> Lookup) {
    !Skipped(e, excluded) && lookup(e.raw).Found? && c == Candidate(lookup(e.raw).code, e.fit, e.at)
  }

  lemma {:induction false} EmittedAt(incs: seq<Entry>, excluded: set<string>, lookup: string -> Lookup, k: nat)
      returns (x: nat)
    requires EmitIncludes(incs, excluded, lookup).Some? && k < |EmitIncludes(incs, excluded, lookup).value.candidates|
    ensures x < |incs| && FromEntry(EmitIncludes(incs, excluded, lookup).value.candidates[k], incs[x], excluded, lookup)
  {
    hide SearchCode;
    var init := incs[..|incs| - 1];
    if k < |EmitIncludes(init, excluded, lookup).value.candidates| {
      x := EmittedAt(init, excluded, lookup, k);
    } else {
      x := |init|;
    }
  }

  lemma {:induction false} EmittedDistinct(incs: seq<Entry>, excluded: set<string>, lookup: string -> Lookup, k: nat,
      l: nat)
    requires EmitIncludes(incs, excluded, lookup).Some? && Faithful(lookup)
    requires forall x, y :: 0 <= x < y < |incs| ==> SearchCode(incs[x].raw) != SearchCode(incs[y].raw)
    requires k < l < |EmitIncludes(incs, excluded, lookup).value.candidates|
    ensures SearchCode(EmitIncludes(incs, excluded, lookup).value.candidates[k].code) != SearchCode(EmitIncludes(incs,
        excluded, lookup).value.candidates[l].code)
  {
    hide SearchCode;
    var init := incs[..|incs| - 1];
    if l < |EmitIncludes(init, excluded, lookup).value.candidates| {
      EmittedDistinct(init, excluded, lookup, k, l);
    } else {
      var x := EmittedAt(init, excluded, lookup, k);
      assert init[x] == incs[x];
    }
  }

  ghost predicate HasCandidate(out: Emitted, sc: string, fit: Fit) {
    exists k :: 0 <= k < |out.candidates| && SearchCode(out.candidates[k].code) == sc && out.candidates[k].fit == fit
  }

  // A code of the knowledge base that the catalogue does not know was reported.
  ghost predicate ReportedMissing(out: Emitted, sc: string, lookup: string -> Lookup) {
    exists m :: 0 <= m < |out.missing| && SearchCode(out.missing[m]) == sc && lookup(out.missing[m]) == NotFound
  }

  lemma {:induction false} EmittedOrMissing(incs: seq<Entry>, excluded: set<string>, lookup: string -> Lookup, x: nat)
    requires EmitIncludes(incs, excluded, lookup).Some? && Faithful(lookup)
    requires x < |incs| && !Skipped(incs[x], excluded)
    ensures var out := EmitIncludes(incs, excluded, lookup).value;
            var sc := SearchCode(incs[x].raw);
            HasCandidate(out, sc, incs[x].fit) || ReportedMissing(out, sc, lookup)
  {
    hide SearchCode;
    var init := incs[..|incs| - 1];
    var out := EmitIncludes(incs, excluded, lookup).value;
    if x < |init| {
      EmittedOrMissing(init, excluded, lookup, x);
      assert init[x] == incs[x];
      var rest := EmitIncludes(init, excluded, lookup).value;
      assert forall k :: 0 <= k < |rest.candidates| ==> out.candidates[k] == rest.candidates[k];
      assert forall m :: 0 <= m < |rest.missing| ==> out.missing[m] == rest.missing[m];
    } else if lookup(incs[x].raw).Found? {
      assert out.candidates[|out.candidates| - 1] == Candidate(lookup(incs[x].raw).code, incs[x].fit, incs[x].at);
    } else {
      assert out.missing[|out.missing| - 1] == incs[x].raw;
    }
  }

  lemma {:induction false} MissingAt(incs: seq<Entry>, excluded: set<string>, lookup: string -> Lookup, m: nat)
      returns (x: nat)
    requires EmitIncludes(incs, excluded, lookup).Some? && m < |EmitIncludes(incs, excluded, lookup).value.missing|
    ensures x < |incs| && !Skipped(incs[x], excluded) && lookup(incs[x].raw) == NotFound
    ensures EmitIncludes(incs, excluded, lookup).value.missing[m] == incs[x].raw
  {
    hide SearchCode;
    var init := incs[..|incs| - 1];
    if m < |EmitIncludes(init, excluded, lookup).value.missing| {
      x := MissingAt(init, excluded, lookup, m);
    } else {
      x := |init|;
    }
  }

  /******* Main results *******/

  function SideOf(fit: Fit): Side { if fit == Excluded then Exclude else Include }

  // Every candidate has the fit of its code's verdict and the best concept that names the code.
  lemma {:induction false} CandidateFollowsVerdict(ms: seq<Scored>, coreCut: real, lookup: string -> Lookup, k: nat)
    requires Descending(ms) && Faithful(lookup) && Resolved(ms, coreCut, lookup).Some?
    requires k < |Resolved(ms, coreCut, lookup).value.candidates|
    ensures var c := Resolved(ms, coreCut, lookup).value.candidates[k];
            var sc := SearchCode(c.code);
            sc != "" && Verdict(ms, coreCut, sc) == Some(c.fit) && BestFor(ms, SideOf(c.fit), c.source, sc)
  {
    hide SearchCode, NormalizeCode, Includes, Excludes, CodeSet, Verdict, BestFor, EmitIncludes, CoreClaimed;
    var incs, excs := Includes(ms, coreCut), Excludes(ms, coreCut);
    var out := EmitIncludes(incs, CodeSet(excs), lookup).value;
    if k < |out.candidates| {
      var x := EmittedAt(incs, CodeSet(excs), lookup, k);
      IncludeAt(ms, coreCut, x);
      ShownVerdict(ms, coreCut, x);
    } else {
      ExcludeAt(ms, coreCut, k - |out.candidates|);
      NormalizeCodeIdempotent(excs[k - |out.candidates|].raw);
    }
  }

  // Where each candidate comes from: the catalogue's code for a code its concept includes, or the code its
  // concept excludes, normalized.
  lemma {:induction false} CandidateSource(ms: seq<Scored>, coreCut: real, lookup: string -> Lookup, k: nat)
    requires Resolved(ms, coreCut, lookup).Some? && k < |Resolved(ms, coreCut, lookup).value.candidates|
    ensures var c := Resolved(ms, coreCut, lookup).value.candidates[k];
            && c.source < |ms|
            && if c.fit == Excluded then
                 exists raw :: raw in ms[c.source].concept.excluded && c.code == NormalizeCode(raw)
               else
                 exists raw :: raw in ms[c.source].concept.inKB && lookup(raw) == Found(c.code)
  {
    hide SearchCode, NormalizeCode, Entries, Firsts, CodeSet, CoreSet, EmitIncludes;
    var incs, excs := Includes(ms, coreCut), Excludes(ms, coreCut);
    var out := EmitIncludes(incs, CodeSet(excs), lookup).value;
    if k < |out.candidates| {
      var x := EmittedAt(incs, CodeSet(excs), lookup, k);
      FirstsAre(Entries(ms, Include, coreCut), {}, x);
      EntryIn(ms, Include, coreCut, incs[x], SearchCode(incs[x].raw));
      assert incs[x].raw in ms[incs[x].at].concept.inKB;
    } else {
      var e := excs[k - |out.candidates|];
      FirstsAre(Entries(ms, Exclude, coreCut), CoreSet(incs), k - |out.candidates|);
      EntryIn(ms, Exclude, coreCut, e, SearchCode(e.raw));
      assert e.raw in ms[e.at].concept.excluded;
    }
  }

  lemma {:induction false} EntryIn(ms: seq<Scored>, side: Side, coreCut: real, e: Entry, sc: string)
    requires FirstOf(Entries(ms, side, coreCut), e, sc)
    ensures e.at < |ms| && e.fit == FitOf(ms[e.at], side, coreCut)
    ensures e.raw in if side == Include then ms[e.at].concept.inKB else ms[e.at].concept.excluded
  {
    hide SearchCode, Entries;
    var i :| 0 <= i < |Entries(ms, side, coreCut)| && Entries(ms, side, coreCut)[i] == e;
    EntryShape(ms, side, coreCut, i);
  }

  predicate Ordered(es: seq<Entry>) {
    forall x, y :: 0 <= x < y < |es| ==> es[x].at <= es[y].at
  }

  lemma {:induction false} FirstsOrdered(es: seq<Entry>, skip: set<string>)
    requires Ordered(es)
    ensures Ordered(Firsts(es, skip))
    ensures es != [] ==> forall x :: 0 <= x < |Firsts(es, skip)| ==> Firsts(es, skip)[x].at <= es[|es| - 1].at
  {
    hide SearchCode, CodeSet;
    if es != [] {
      var init := es[..|es| - 1];
      FirstsOrdered(init, skip);
      assert init != [] ==> init[|init| - 1].at <= es[|es| - 1].at;
    }
  }

  lemma {:induction false} EntriesOrdered(ms: seq<Scored>, side: Side, coreCut: real)
    ensures Ordered(Entries(ms, side, coreCut))
  {
    hide Entries;
    forall x, y | 0 <= x < y < |Entries(ms, side, coreCut)|
      ensures Entries(ms, side, coreCut)[x].at <= Entries(ms, side, coreCut)[y].at
    {
      EntryOrder(ms, side, coreCut, x, y);
    }
  }

  // The candidates of includes come in the includes' order.
  lemma {:induction false} EmitOrdered(incs: seq<Entry>, excluded: set<string>, lookup: string -> Lookup)
    requires Ordered(incs) && EmitIncludes(incs, excluded, lookup).Some?
    ensures var cs := EmitIncludes(incs, excluded, lookup).value.candidates;
            && (forall k, l :: 0 <= k < l < |cs| ==> cs[k].source <= cs[l].source)
            && (incs != [] ==> forall k :: 0 <= k < |cs| ==> cs[k].source <= incs[|incs| - 1].at)
  {
    hide SearchCode;
    if incs != [] {
      var init := incs[..|incs| - 1];
      EmitOrdered(init, excluded, lookup);
      assert init != [] ==> init[|init| - 1].at <= incs[|incs| - 1].at;
    }
  }

  lemma {:induction false} IncludesNotExcluded(ms: seq<Scored>, coreCut: real, x: nat)
    requires x < |Includes(ms, coreCut)|
    ensures Includes(ms, coreCut)[x].fit != Excluded
  {
    hide SearchCode, Entries, Firsts;
    FirstsAre(Entries(ms, Include, coreCut), {}, x);
    EntryIn(ms, Include, coreCut, Includes(ms, coreCut)[x], SearchCode(Includes(ms, coreCut)[x].raw));
  }

  // Included candidates stand before excluded ones, and either kind in the order of the concepts, best first.
  lemma {:induction false} CandidatesOrdered(ms: seq<Scored>, coreCut: real, lookup: string -> Lookup, k: nat, l: nat)
    requires Resolved(ms, coreCut, lookup).Some? && k < l < |Resolved(ms, coreCut, lookup).value.candidates|
    ensures var c, d := Resolved(ms, coreCut, lookup).value.candidates[k],
                        Resolved(ms, coreCut, lookup).value.candidates[l];
            if (c.fit == Excluded) == (d.fit == Excluded) then c.source <= d.source else d.fit == Excluded
  {
    hide SearchCode, NormalizeCode, Entries, Firsts, CodeSet, CoreSet, EmitIncludes;
    var incs, excs := Includes(ms, coreCut), Excludes(ms, coreCut);
    var out := EmitIncludes(incs, CodeSet(excs), lookup).value;
    EntriesOrdered(ms, Include, coreCut);
    EntriesOrdered(ms, Exclude, coreCut);
    FirstsOrdered(Entries(ms, Include, coreCut), {});
    FirstsOrdered(Entries(ms, Exclude, coreCut), CoreSet(incs));
    EmitOrdered(incs, CodeSet(excs), lookup);
    if k < |out.candidates| {
      var x := EmittedAt(incs, CodeSet(excs), lookup, k);
      IncludesNotExcluded(ms, coreCut, x);
    }
    if l < |out.candidates| {
      var y := EmittedAt(incs, CodeSet(excs), lookup, l);
      IncludesNotExcluded(ms, coreCut, y);
    }
  }

  // Nothing is emitted exactly when the catalogue fails for an include that is not skipped.
  lemma {:induction false} BrokenIff(incs: seq<Entry>, excluded: set<string>, lookup: string -> Lookup)
    ensures EmitIncludes(incs, excluded, lookup) == None
       <==> exists x :: 0 <= x < |incs| && (SearchCode(incs[x].raw) !in excluded || incs[x].fit == Core)
                        && lookup(incs[x].raw) == Broken
  {
    hide SearchCode;
    if incs != [] {
      var init := incs[..|incs| - 1];
      BrokenIff(init, excluded, lookup);
      assert forall x :: 0 <= x < |init| ==> incs[x] == init[x];
    }
  }

  lemma {:induction false} IncludesDistinct(ms: seq<Scored>, coreCut: real)
    ensures var incs := Includes(ms, coreCut);
            forall x, y :: 0 <= x < y < |incs| ==> SearchCode(incs[x].raw) != SearchCode(incs[y].raw)
  {
    hide SearchCode, Entries, Firsts;
    forall x: nat, y: nat | x < y < |Includes(ms, coreCut)|
      ensures SearchCode(Includes(ms, coreCut)[x].raw) != SearchCode(Includes(ms, coreCut)[y].raw)
    {
      FirstsDistinct(Entries(ms, Include, coreCut), {}, x, y);
    }
  }

  // No search code is emitted twice, neither within a list nor across the two.
  lemma {:induction false} CandidatesDistinct(ms: seq<Scored>, coreCut: real, lookup: string -> Lookup, k: nat, l: nat)
    requires Descending(ms) && Faithful(lookup) && Resolved(ms, coreCut, lookup).Some?
    requires k < l < |Resolved(ms, coreCut, lookup).value.candidates|
    ensures SearchCode(Resolved(ms, coreCut, lookup).value.candidates[k].code) != SearchCode(Resolved(ms, coreCut,
        lookup).value.candidates[l].code)
  {
    hide SearchCode, NormalizeCode, Includes, CodeSet, Verdict, BestFor, EmitIncludes, CoreClaimed, Firsts, Entries;
    var incs, excs := Includes(ms, coreCut), Excludes(ms, coreCut);
    var out := EmitIncludes(incs, CodeSet(excs), lookup).value;
    if l < |out.candidates| {
      IncludesDistinct(ms, coreCut);
      EmittedDistinct(incs, CodeSet(excs), lookup, k, l);
    } else if k < |out.candidates| {
      CandidateFollowsVerdict(ms, coreCut, lookup, k);
      CandidateFollowsVerdict(ms, coreCut, lookup, l);
      var x := EmittedAt(incs, CodeSet(excs), lookup, k);
      IncludeAt(ms, coreCut, x);
    } else {
      var x, y := k - |out.candidates|, l - |out.candidates|;
      FirstsDistinct(Entries(ms, Exclude, coreCut), CoreSet(incs), x, y);
      NormalizeCodeIdempotent(excs[x].raw);
      NormalizeCodeIdempotent(excs[y].raw);
    }
  }

  // Every code with a verdict is emitted with that fit, unless it is an include the catalogue lacks.
  lemma {:induction false} VerdictIsEmitted(ms: seq<Scored>, coreCut: real, lookup: string -> Lookup, sc: string)
    requires Descending(ms) && Faithful(lookup) && Resolved(ms, coreCut, lookup).Some?
    requires Verdict(ms, coreCut, sc).Some?
    ensures var out := Resolved(ms, coreCut, lookup).value;
            var fit := Verdict(ms, coreCut, sc).value;
            HasCandidate(out, sc, fit) || (fit != Excluded && ReportedMissing(out, sc, lookup))
  {
    hide SearchCode, NormalizeCode, Includes, Excludes, BestFor, EmitIncludes, CoreClaimed, Claimed;
    var incs, excs := Includes(ms, coreCut), Excludes(ms, coreCut);
    var out := Resolved(ms, coreCut, lookup).value;
    var inc := EmitIncludes(incs, CodeSet(excs), lookup).value;
    ExcludedSetIs(ms, coreCut, sc);
    if Verdict(ms, coreCut, sc) == Some(Excluded) {
      var x: nat :| x < |excs| && SearchCode(excs[x].raw) == sc;
      NormalizeCodeIdempotent(excs[x].raw);
      assert out.candidates[|inc.candidates| + x] == EmitExcludes(excs)[x];
    } else {
      IncludedIsKept(ms, coreCut, sc);
      var x: nat :| x < |incs| && SearchCode(incs[x].raw) == sc;
      ShownVerdict(ms, coreCut, x);
      EmittedOrMissing(incs, CodeSet(excs), lookup, x);
      assert forall k :: 0 <= k < |inc.candidates| ==> out.candidates[k] == inc.candidates[k];
    }
  }

  lemma {:induction false} IncludedIsKept(ms: seq<Scored>, coreCut: real, sc: string)
    requires Verdict(ms, coreCut, sc) == Some(Core) || Verdict(ms, coreCut, sc) == Some(Weak)
    ensures sc in CodeSet(Includes(ms, coreCut))
  {
    hide SearchCode, CodeSet, Firsts, Entries;
    if CoreClaimed(ms, coreCut, sc) {
      var a: nat :| Names(ms, Include, a, sc) && ms[a].cosine >= coreCut;
    }
    assert Claimed(ms, Include, sc);
    ClaimedIsKept(ms, Include, coreCut, {}, sc);
  }

  // What is reported missing is an include the catalogue does not have.
  lemma {:induction false} MissingIsIncluded(ms: seq<Scored>, coreCut: real, lookup: string -> Lookup, m: nat)
    requires Descending(ms) && Resolved(ms, coreCut, lookup).Some?
    requires m < |Resolved(ms, coreCut, lookup).value.missing|
    ensures var raw := Resolved(ms, coreCut, lookup).value.missing[m];
            lookup(raw) == NotFound && Verdict(ms, coreCut, SearchCode(raw)) in {Some(Core), Some(Weak)}
  {
    hide SearchCode, NormalizeCode, Includes, Excludes, CodeSet, Verdict, BestFor, EmitIncludes, CoreClaimed;
    var x := MissingAt(Includes(ms, coreCut), CodeSet(Excludes(ms, coreCut)), lookup, m);
    IncludeAt(ms, coreCut, x);
    ShownVerdict(ms, coreCut, x);
  }
}
