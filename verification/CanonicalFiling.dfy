/** The canonical filing of an exercise (ma_deep_adjusted.go). Dates are day and instant numbers. */
module CanonicalFiling {
  import opened Wrappers

  datatype Filing = Filing(id: string, identityStatus: string, closingDay: Option<int>, balanceSheetID: string,
    createdAt: int)

  datatype Digest = Digest(totaleAttivo: Option<real>, totalePassivo: Option<real>, differenzaAB: Option<real>,
    utile: Option<real>, present: bool)

  /******* Aligned filings *******/

  predicate Aligned(f: Filing, exercise: int) {
    && (f.identityStatus == "validated" || f.identityStatus == "override")
    && f.closingDay == Some(exercise)
  }

  function Matching(filings: seq<Filing>, exercise: int): seq<Filing> {
    if filings == [] then []
    else
      var rest := Matching(filings[..|filings| - 1], exercise);
      var f := filings[|filings| - 1];
      if Aligned(f, exercise) then rest + [f] else rest
  }

  // Exactly the validated or overridden filings that close on the exercise's day are kept, each as often as
  // it is listed.
  lemma {:induction false} MatchingCounts(filings: seq<Filing>, exercise: int, f: Filing)
    ensures multiset(Matching(filings, exercise))[f]
            == if f.identityStatus in {"validated", "override"} && f.closingDay.Some? && f.closingDay.value == exercise
               then multiset(filings)[f] else 0
  {
    if filings != [] {
      var init, last := filings[..|filings| - 1], filings[|filings| - 1];
      MatchingCounts(init, exercise, f);
      assert filings == init + [last];
      AlignedIs(last, exercise);
      hide Aligned;
    }
  }

  lemma {:induction false} AlignedIs(f: Filing, exercise: int)
    ensures Aligned(f, exercise)
       <==> f.identityStatus in {"validated", "override"} && f.closingDay.Some? && f.closingDay.value == exercise
  {
  }

  // They stay in the order of the list.
  lemma {:induction false} MatchingInOrder(a: seq<Filing>, b: seq<Filing>, exercise: int)
    ensures Matching(a + b, exercise) == Matching(a, exercise) + Matching(b, exercise)
  {
    hide Aligned;
    if b == [] {
      assert a + b == a;
    } else {
      assert (a + b)[..|a + b| - 1] == a + b[..|b| - 1];
      MatchingInOrder(a, b[..|b| - 1], exercise);
    }
  }

  // selectMACanonicalMatches
  method SelectMatches(filings: seq<Filing>, exercise: int) returns (matches: seq<Filing>)
    ensures matches == Matching(filings, exercise)
  {
    matches := [];
    var i := 0;
    while i < |filings|
      invariant 0 <= i <= |filings| && matches == Matching(filings[..i], exercise)
    {
      var f := filings[i];
      assert filings[..i + 1][..i] == filings[..i];
      i := i + 1;
      if f.identityStatus != "validated" && f.identityStatus != "override" { continue; }
      if f.closingDay == None || f.closingDay.value != exercise { continue; }
      matches := matches + [f];
    }
    assert filings[..i] == filings;
  }

  /******* Same deposit *******/

  predicate Readable(d: Digest) {
    d.present && (d.totaleAttivo.Some? || d.totalePassivo.Some? || d.differenzaAB.Some? || d.utile.Some?)
  }

  // sameMAFloatPtr: a missing figure equals only a missing figure
  predicate SameFigure(a: Option<real>, b: Option<real>) {
    if a.None? || b.None? then a.None? && b.None? else a.value == b.value
  }

  predicate SameDigest(a: Digest, b: Digest) {
    && SameFigure(a.totaleAttivo, b.totaleAttivo) && SameFigure(a.totalePassivo, b.totalePassivo)
    && SameFigure(a.differenzaAB, b.differenzaAB) && SameFigure(a.utile, b.utile)
  }

  // Every extract is readable and any two of them agree.
  ghost predicate OneDeposit(digests: seq<Digest>) {
    && (forall i :: 0 <= i < |digests| ==> Readable(digests[i]))
    && (forall i, j :: 0 <= i < |digests| && 0 <= j < |digests| ==> SameDigest(digests[i], digests[j]))
  }

  // Every extract is present with some figure, and all show the same figures.
  lemma {:induction false} OneDepositIff(digests: seq<Digest>)
    ensures OneDeposit(digests)
       <==> forall i, j :: 0 <= i < |digests| && 0 <= j < |digests| ==>
              var a, b := digests[i], digests[j];
              && a.present && a != Digest(None, None, None, None, true)
              && (a.totaleAttivo, a.totalePassivo, a.differenzaAB, a.utile)
                 == (b.totaleAttivo, b.totalePassivo, b.differenzaAB, b.utile)
  {
  }

  // betterMACanonicalDuplicate
  predicate Better(a: Filing, b: Filing) {
    var aVendor, bVendor := a.balanceSheetID != "", b.balanceSheetID != "";
    if aVendor != bVendor then aVendor else a.createdAt > b.createdAt
  }

  ghost predicate Maximal(cs: seq<Filing>, c: Filing) {
    c in cs && forall k :: 0 <= k < |cs| ==> !Better(cs[k], c)
  }

  // The first of the best candidates
  ghost predicate Elected(cs: seq<Filing>, c: Filing) {
    exists k :: 0 <= k < |cs| && cs[k] == c && Maximal(cs, c) && forall j :: 0 <= j < k ==> Better(c, cs[j])
  }

  // decideMADuplicateCanonical: comparing each digest with the first one only decides whether all
  // agree, and the loop elects the first best candidate.
  method Decide(candidates: seq<Filing>, digests: seq<Digest>) returns (canonical: Option<Filing>)
    ensures canonical.Some? <==> |candidates| >= 2 && |candidates| == |digests| && OneDeposit(digests)
    ensures canonical.Some? ==> Elected(candidates, canonical.value)
  {
    if |candidates| < 2 || |candidates| != |digests| { return None; }
    var i := 0;
    while i < |digests|
      invariant 0 <= i <= |digests| && forall k :: 0 <= k < i ==> Readable(digests[k])
    {
      if !Readable(digests[i]) { return None; }
      i := i + 1;
    }
    i := 1;
    while i < |digests|
      invariant 1 <= i <= |digests| && forall k :: 1 <= k < i ==> SameDigest(digests[0], digests[k])
    {
      if !SameDigest(digests[0], digests[i]) { return None; }
      i := i + 1;
    }
    canonical := Elect(candidates);
  }

  method Elect(candidates: seq<Filing>) returns (canonical: Option<Filing>)
    requires candidates != []
    ensures canonical.Some? && Elected(candidates, canonical.value)
  {
    canonical := None;
    ghost var at := 0;
    var i := 0;
    while i < |candidates|
      invariant 0 <= i <= |candidates| && (i == 0 <==> canonical.None?)
      invariant i > 0 ==> 0 <= at < i && candidates[at] == canonical.value
      invariant i > 0 ==> forall j :: 0 <= j < i ==> !Better(candidates[j], canonical.value)
      invariant i > 0 ==> forall j :: 0 <= j < at ==> Better(canonical.value, candidates[j])
    {
      var c := candidates[i];
      if canonical.None? || Better(c, canonical.value) {
        canonical := Some(c);
        at := i;
      }
      i := i + 1;
    }
    assert Maximal(candidates, canonical.value);
  }

  /******* What the election depends on *******/

  lemma {:induction false} ElectedUnique(cs: seq<Filing>, a: Filing, b: Filing)
    requires Elected(cs, a) && Elected(cs, b)
    ensures a == b
  {
  }

  lemma {:induction false} SomeoneElected(cs: seq<Filing>) returns (c: Filing)
    requires cs != []
    ensures Elected(cs, c)
    decreases |cs|
  {
    if |cs| == 1 {
      c := cs[0];
      assert Maximal(cs, c);
    } else {
      var init, last := cs[..|cs| - 1], cs[|cs| - 1];
      var best := SomeoneElected(init);
      var k :| 0 <= k < |init| && init[k] == best && Maximal(init, best)
          && forall j :: 0 <= j < k ==> Better(best, init[j]);
      assert forall j :: 0 <= j < |init| ==> cs[j] == init[j] && !Better(init[j], best);
      c := if Better(last, best) then last else best;
      assert Maximal(cs, c) by {
        if c == best { assert cs[k] == best; } else { assert cs[|init|] == last; }
      }
      assert cs[if c == best then k else |init|] == c;
    }
  }

  // In full: no candidate has a higher anchoring, then none of the same anchoring is more recent, and none
  // listed earlier is of the same anchoring and instant.
  lemma {:induction false} ElectedIff(cs: seq<Filing>, c: Filing)
    ensures Elected(cs, c)
       <==> exists k :: 0 <= k < |cs| && cs[k] == c && forall j {:trigger cs[j]} :: 0 <= j < |cs| ==>
              if (cs[j].balanceSheetID == "") != (c.balanceSheetID == "") then cs[j].balanceSheetID == ""
              else cs[j].createdAt < c.createdAt || (cs[j].createdAt == c.createdAt && k <= j)
  {
  }

  // Anchoring comes first: an upload is elected only when no candidate is vendor-anchored.
  lemma {:induction false} VendorWins(cs: seq<Filing>, c: Filing)
    requires Elected(cs, c)
    ensures c.balanceSheetID == "" ==> forall k :: 0 <= k < |cs| ==> cs[k].balanceSheetID == ""
    ensures forall k :: 0 <= k < |cs| && (cs[k].balanceSheetID != "" || c.balanceSheetID == "") ==>
        cs[k].createdAt <= c.createdAt
  {
    forall k | 0 <= k < |cs| ensures !Better(cs[k], c) {}
  }

  lemma {:induction false} MaximalPermuted(cs: seq<Filing>, ds: seq<Filing>, c: Filing)
    requires multiset(cs) == multiset(ds) && Maximal(cs, c)
    ensures Maximal(ds, c)
  {
    assert c in multiset(cs);
    forall k | 0 <= k < |ds| ensures !Better(ds[k], c) {
      assert ds[k] in multiset(ds);
      assert ds[k] in cs;
    }
  }

  ghost predicate ElectedInEveryOrder(cs: seq<Filing>, c: Filing) {
    forall ds: seq<Filing> :: multiset(ds) == multiset(cs) ==> Elected(ds, c)
  }

  ghost predicate StrictlyBest(cs: seq<Filing>, c: Filing) {
    forall d :: d in cs && d != c ==> Better(c, d)
  }

  lemma {:induction false} BestInOrder(cs: seq<Filing>, c: Filing, ds: seq<Filing>)
    requires Elected(cs, c) && StrictlyBest(cs, c) && multiset(ds) == multiset(cs)
    ensures Elected(ds, c)
  {
    hide Better;
    MaximalPermuted(cs, ds, c);
    var e := SomeoneElected(ds);
    MaximalPermuted(ds, cs, e);
    var k :| 0 <= k < |cs| && cs[k] == c;
  }

  lemma {:induction false} MovedFirst(cs: seq<Filing>, d: Filing) returns (ds: seq<Filing>)
    requires d in cs
    ensures ds != [] && ds[0] == d && multiset(ds) == multiset(cs)
  {
    var k :| 0 <= k < |cs| && cs[k] == d;
    ds := [d] + cs[..k] + cs[k + 1..];
    assert cs == cs[..k] + [d] + cs[k + 1..];
  }

  // The order of the candidates does not matter exactly when no two different ones share the best rank.
  lemma {:induction false} OrderMattersIff(cs: seq<Filing>, c: Filing)
    requires Elected(cs, c)
    ensures ElectedInEveryOrder(cs, c) <==> StrictlyBest(cs, c)
  {
    hide Better, Maximal;
    if StrictlyBest(cs, c) {
      forall ds: seq<Filing> | multiset(ds) == multiset(cs) ensures Elected(ds, c) { BestInOrder(cs, c, ds); }
    } else {
      var d :| d in cs && d != c && !Better(c, d);
      var ds := MovedFirst(cs, d);
      SameRankMaximal(cs, c, d);
      MaximalPermuted(cs, ds, d);
      assert Elected(ds, d);
      if Elected(ds, c) { ElectedUnique(ds, c, d); }
    }
  }

  lemma {:induction false} SameRankMaximal(cs: seq<Filing>, c: Filing, d: Filing)
    requires Maximal(cs, c) && d in cs && !Better(c, d)
    ensures Maximal(cs, d)
  {
    forall k | 0 <= k < |cs| ensures !Better(cs[k], d) {
      assert !Better(cs[k], c);
      var j :| 0 <= j < |cs| && cs[j] == d;
      assert !Better(d, c);
    }
  }

  // Different creation times are enough.
  lemma {:induction false} DistinctTimesDecide(cs: seq<Filing>, c: Filing)
    requires Elected(cs, c)
    requires forall d, e :: d in cs && e in cs && d != e ==> d.createdAt != e.createdAt
    ensures ElectedInEveryOrder(cs, c)
  {
    OrderMattersIff(cs, c);
    forall d | d in cs && d != c ensures Better(c, d) {
      var k :| 0 <= k < |cs| && cs[k] == d;
      assert !Better(cs[k], c);
    }
  }

  // Two uploads created at the same instant: the one listed first is elected.
  lemma {:induction false} TieGoesToTheFirst(exercise: int, instant: int)
    ensures var a, b := Filing("a", "validated", Some(exercise), "", instant),
        Filing("b", "validated", Some(exercise), "", instant);
            a != b && Elected([a, b], a) && Elected([b, a], b)
  {
    var a, b := Filing("a", "validated", Some(exercise), "", instant),
        Filing("b", "validated", Some(exercise), "", instant);
    assert a.id == "a" && b.id == "b" && "a"[0] != "b"[0];
    var ab, ba := [a, b], [b, a];
    assert ab[0] == a && Maximal(ab, a);
    assert ba[0] == b && Maximal(ba, b);
  }

  // Whether the digests show one deposit does not depend on their order either.
  lemma {:induction false} OneDepositPermuted(ds: seq<Digest>, es: seq<Digest>)
    requires multiset(ds) == multiset(es) && OneDeposit(ds)
    ensures OneDeposit(es)
  {
    forall k | 0 <= k < |es| ensures es[k] in ds { assert es[k] in multiset(ds); }
  }

  /******* The canonical filing *******/

  // resolveMACanonicalFilingDetail: the filings listed for a fiscal key, none for a blank one
  method ResolveCanonical(fiscalKey: string, filings: seq<Filing>, exercise: int, digestOf: Filing -> Digest)
    returns (canonical: Option<Filing>, ambiguous: nat, total: nat)
    ensures fiscalKey == "" ==> canonical == None && ambiguous == 0 && total == 0
    ensures fiscalKey != "" ==>
      var m := Matching(filings, exercise);
      && total == |filings|
      && (|m| == 0 ==> canonical == None && ambiguous == 0)
      && (|m| == 1 ==> canonical == Some(m[0]) && ambiguous == 0)
      && (|m| >= 2 ==>
            if OneDeposit(Digests(m, digestOf)) then canonical.Some? && Elected(m, canonical.value) && ambiguous == 0
            else canonical == None && ambiguous == |m|)
  {
    if fiscalKey == "" { return None, 0, 0; }
    var matches := SelectMatches(filings, exercise);
    total := |filings|;
    if |matches| == 0 { return None, 0, total; }
    if |matches| == 1 { return Some(matches[0]), 0, total; }
    canonical := Decide(matches, Digests(matches, digestOf));
    ambiguous := if canonical.Some? then 0 else |matches|;
  }

  function Digests(m: seq<Filing>, digestOf: Filing -> Digest): (ds: seq<Digest>)
    ensures |ds| == |m| && forall i :: 0 <= i < |m| ==> ds[i] == digestOf(m[i])
  {
    seq(|m|, i requires 0 <= i < |m| => digestOf(m[i]))
  }
}
