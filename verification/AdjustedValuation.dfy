/** The analyst's adjustments folded onto a baseline valuation (ma_deep_adjusted.go), over reals. */
module AdjustedValuation {
  import opened Wrappers

  datatype Row = Row(value: real, provenance: string, note: string)

  datatype Bridge = Bridge(
    pfn: Option<Row>,
    tfr: Option<Row>,
    taxFund: Option<Row>,
    shareholderLoans: Option<Row>,
    equityLow: Option<real>,
    equityHigh: Option<real>)

  datatype Valuation = Valuation(
    method_: string,
    lowMethod: string,
    multiple: real,
    haircutPct: real,
    evLow: real,
    evHigh: real,
    prudentialEbitda: Option<real>,
    bridge: Option<Bridge>,
    pfn: Option<real>,
    equityLow: Option<real>,
    equityHigh: Option<real>)

  datatype Scorecard = Scorecard(turnover: Option<real>, ebitda: Option<real>, pfn: Option<real>)

  datatype Adjustment = Adjustment(treatment: string, amount: real)

  /******* Rounding *******/

  function RoundUpHalf(x: real): real
    requires x >= 0.0
  {
    (x + 0.5).Floor as real
  }

  // math.Round: to the nearest integer, halves away from zero
  function Round(x: real): real { if x >= 0.0 then RoundUpHalf(x) else -RoundUpHalf(-x) }

  // The nearest whole number, the one farther from zero of two equally near.
  lemma {:induction false} RoundIsNearest(x: real, n: int)
    ensures Round(x) == n as real
       <==> -0.5 <= n as real - x <= 0.5 && (n as real - x == 0.5 ==> x >= 0.0) && (n as real - x == -0.5 ==> x < 0.0)
  {
    var k := if x >= 0.0 then (x + 0.5).Floor else (-x + 0.5).Floor;
    assert k as real <= (if x >= 0.0 then x else -x) + 0.5 < (k + 1) as real;
    var m := if x >= 0.0 then k else -k;
    assert Round(x) == m as real;
    if n < m { IntOrder(n + 1, m); } else if m < n { IntOrder(m + 1, n); }
  }

  lemma {:induction false} RoundNear(x: real)
    ensures -0.5 <= Round(x) - x <= 0.5
  {
  }

  lemma {:induction false} FloorMonotone(x: real, y: real)
    requires x <= y
    ensures x.Floor <= y.Floor
  {
    assert x.Floor as real <= x && y < y.Floor as real + 1.0;
    var i, j := x.Floor, y.Floor;
    assert i as real < j as real + 1.0;
  }

  lemma {:induction false} RoundMonotone(x: real, y: real)
    requires x <= y
    ensures Round(x) <= Round(y)
  {
    if x >= 0.0 {
      FloorMonotone(x + 0.5, y + 0.5);
    } else if y < 0.0 {
      FloorMonotone(-y + 0.5, -x + 0.5);
    } else {
      FloorMonotone(0.5, -x + 0.5);
      FloorMonotone(0.5, y + 0.5);
    }
  }

  /******* Sums by treatment *******/

  function Sum(adjustments: seq<Adjustment>, treatment: string): real {
    if adjustments == [] then 0.0
    else
      var a := adjustments[|adjustments| - 1];
      Sum(adjustments[..|adjustments| - 1], treatment) + if a.treatment == treatment then a.amount else 0.0
  }

  // One adjustment counts in full under its own treatment only; lists add up.
  lemma {:induction false} SumOne(a: Adjustment, t: string)
    ensures Sum([a], t) == if a.treatment == t then a.amount else 0.0
  {
    assert [a][..0] == [];
  }

  lemma {:induction false} SumAppend(a: seq<Adjustment>, b: seq<Adjustment>, t: string)
    ensures Sum([], t) == 0.0
    ensures Sum(a + b, t) == Sum(a, t) + Sum(b, t)
  {
    if b == [] {
      assert a + b == a;
    } else {
      assert (a + b)[..|a + b| - 1] == a + b[..|b| - 1];
      SumAppend(a, b[..|b| - 1], t);
    }
  }

  lemma {:induction false} SumWithout(b: seq<Adjustment>, k: nat, t: string)
    requires k < |b|
    ensures multiset(b[..k] + b[k + 1..]) == multiset(b) - multiset{b[k]}
    ensures Sum(b, t) == Sum(b[..k] + b[k + 1..], t) + Sum([b[k]], t)
  {
    assert b == b[..k] + [b[k]] + b[k + 1..];
    SumAppend(b[..k] + [b[k]], b[k + 1..], t);
    SumAppend(b[..k], [b[k]], t);
    SumAppend(b[..k], b[k + 1..], t);
  }

  // The order of the adjustments does not matter.
  lemma {:induction false} SumPermuted(a: seq<Adjustment>, b: seq<Adjustment>, t: string)
    requires multiset(a) == multiset(b)
    ensures Sum(a, t) == Sum(b, t)
    decreases |a|
  {
    hide Sum;
    if a == [] {
      assert |multiset(b)| == |b|;
    } else {
      var last := |a| - 1;
      assert a[last] in multiset(b);
      var k :| 0 <= k < |b| && b[k] == a[last];
      SumWithout(a, last, t);
      SumWithout(b, k, t);
      assert |a[..last] + a[last + 1..]| < |a|;
      SumPermuted(a[..last] + a[last + 1..], b[..k] + b[k + 1..], t);
    }
  }

  /******* The adjusted valuation *******/

  const SPREAD := 0.15

  function Factor(haircutPct: real): real {
    var haircut := haircutPct / 100.0;
    1.0 - (if haircut < 0.0 then 0.0 else if haircut > 0.95 then 0.95 else haircut)
  }

  function PrudentialOf(b: Valuation, ebitda: real): real {
    if b.prudentialEbitda.Some? then b.prudentialEbitda.value else ebitda
  }

  // maAdjustedLowUsesPrudential
  predicate LowUsesPrudential(b: Valuation, sc: Scorecard, fallbackPct: real) {
    sc.ebitda.Some? &&
    var prud := PrudentialOf(b, sc.ebitda.value);
    prud > 0.0 && (sc.turnover.None? || sc.turnover.value <= 0.0 || prud / sc.turnover.value * 100.0 >= fallbackPct)
  }

  // EBITDA times the multiple, the haircut factor and the side of the spread
  function Scaled(ebitda: real, multiple: real, factor: real, side: real): real { ebitda * multiple * factor * side }

  function EVHigh(b: Valuation, sc: Scorecard, ebitda: real): real
    requires sc.ebitda.Some?
  {
    Round(Scaled(sc.ebitda.value + ebitda, b.multiple, Factor(b.haircutPct), 1.0 + SPREAD))
  }

  function EVLow(b: Valuation, sc: Scorecard, ebitda: real, fallbackPct: real): real
    requires sc.ebitda.Some?
  {
    if b.lowMethod == "ev_sales" then b.evLow
    else
      var base := if LowUsesPrudential(b, sc, fallbackPct) then PrudentialOf(b, sc.ebitda.value) else sc.ebitda.value;
      Round(Scaled(base + ebitda, b.multiple, Factor(b.haircutPct), 1.0 - SPREAD))
  }

  predicate Recomputed(b: Valuation, ebitda: real) { b.method_ == "ev_ebitda" && ebitda != 0.0 }

  function Deductions(bridge: Bridge, pfn: real): real {
    pfn + (if bridge.tfr.Some? then bridge.tfr.value.value else 0.0)
      + (if bridge.taxFund.Some? then bridge.taxFund.value.value else 0.0)
  }

  predicate HasBridge(b: Valuation, sc: Scorecard) { b.bridge.Some? && sc.pfn.Some? }

  // What the valuation becomes when the adjustments add up to these sums
  function Adjusted(baseline: Option<Valuation>, scorecard: Option<Scorecard>, ebitda: real, pfn: real,
      fallbackPct: real): Option<Valuation> {
    if baseline.None? || scorecard.None? then None
    else
      var b, sc := baseline.value, scorecard.value;
      if Recomputed(b, ebitda) && sc.ebitda.None? then None
      else
        var low := if Recomputed(b, ebitda) then EVLow(b, sc, ebitda, fallbackPct) else b.evLow;
        var high := if Recomputed(b, ebitda) then EVHigh(b, sc, ebitda) else b.evHigh;
        var adj := b.(evLow := low, evHigh := high,
          prudentialEbitda := if b.prudentialEbitda.Some? then Some(b.prudentialEbitda.value + ebitda) else None);
        Some(if HasBridge(b, sc) then Bridged(adj, b.bridge.value, sc.pfn.value + pfn)
          else adj.(bridge := None, pfn := None, equityLow := None, equityHigh := None))
  }

  function Bridged(adj: Valuation, base: Bridge, pfn: real): Valuation {
    var low := Round(adj.evLow - Deductions(base, pfn));
    var high := Round(adj.evHigh - Deductions(base, pfn));
    var prov := if base.pfn.Some? then base.pfn.value.provenance else "vendor_ratio";
    adj.(bridge := Some(base.(pfn := Some(Row(Round(pfn), prov, "")), equityLow := Some(low),
      equityHigh := Some(high))),
         pfn := Some(pfn), equityLow := Some(low), equityHigh := Some(high))
  }

  // buildMAAdjustedValuation: the result depends on the two sums only. The second result says that an
  // EBITDA adjustment was withheld from an extreme that rests on sales.
  method BuildAdjusted(baseline: Option<Valuation>, scorecard: Option<Scorecard>, adjustments: seq<Adjustment>,
      fallbackPct: real)
    returns (r: Option<Valuation>, notApplied: bool)
    ensures r == Adjusted(baseline, scorecard, Sum(adjustments, "ebitda"), Sum(adjustments, "pfn"), fallbackPct)
    ensures notApplied
       <==> baseline.Some? && scorecard.Some? && Sum(adjustments, "ebitda") != 0.0
            && (baseline.value.method_ == "ev_sales" || baseline.value.lowMethod == "ev_sales")
            && (baseline.value.method_ == "ev_ebitda" ==> scorecard.value.ebitda.Some?)
  {
    hide Round, EVLow, EVHigh;
    if baseline.None? || scorecard.None? { return None, false; }
    var b, sc := baseline.value, scorecard.value;
    var sumEbitda, sumPfn := SumBoth(adjustments);
    var haircut := b.haircutPct / 100.0;
    if haircut < 0.0 { haircut := 0.0; }
    if haircut > 0.95 { haircut := 0.95; }
    var factor := 1.0 - haircut;
    assert factor == Factor(b.haircutPct);
    hide Factor, Sum;

    var adj := b.(bridge := None, pfn := None, equityLow := None, equityHigh := None);
    notApplied := (b.method_ == "ev_sales" || b.lowMethod == "ev_sales") && sumEbitda != 0.0;
    if b.prudentialEbitda.Some? { adj := adj.(prudentialEbitda := Some(b.prudentialEbitda.value + sumEbitda)); }
    if b.method_ == "ev_ebitda" && sumEbitda != 0.0 {
      if sc.ebitda.None? { return None, false; }
      var low, high := Band(b, sc, sumEbitda, factor, fallbackPct);
      adj := adj.(evLow := low, evHigh := high);
    }
    if b.bridge.Some? && sc.pfn.Some? { adj := Rebuild(adj, b.bridge.value, sc.pfn.value + sumPfn); }
    r := Some(adj);
  }

  // The extremes that rest on EBITDA, recomputed; an extreme on sales stays as it is.
  method Band(b: Valuation, sc: Scorecard, sumEbitda: real, factor: real, fallbackPct: real)
      returns (low: real, high: real)
    requires sc.ebitda.Some? && factor == Factor(b.haircutPct)
    ensures low == EVLow(b, sc, sumEbitda, fallbackPct) && high == EVHigh(b, sc, sumEbitda)
  {
    hide Round, LowUsesPrudential, Scaled, Factor;
    var reported := sc.ebitda.value + sumEbitda;
    var evHighBase := reported * b.multiple * factor;
    Scaling(reported, b.multiple, factor, evHighBase);
    low, high := b.evLow, Round(evHighBase * (1.0 + SPREAD));
    if b.lowMethod != "ev_sales" {
      if LowUsesPrudential(b, sc, fallbackPct) {
        var prudBase := sc.ebitda.value;
        if b.prudentialEbitda.Some? { prudBase := b.prudentialEbitda.value; }
        var evLowBase := (prudBase + sumEbitda) * b.multiple * factor;
        Scaling(prudBase + sumEbitda, b.multiple, factor, evLowBase);
        low := Round(evLowBase * (1.0 - SPREAD));
      } else {
        low := Round(evHighBase * (1.0 - SPREAD));
      }
    }
  }

  lemma {:induction false} Scaling(ebitda: real, multiple: real, factor: real, base: real)
    requires base == ebitda * multiple * factor
    ensures Scaled(ebitda, multiple, factor, 1.0 + SPREAD) == base * (1.0 + SPREAD)
    ensures Scaled(ebitda, multiple, factor, 1.0 - SPREAD) == base * (1.0 - SPREAD)
  {
    SameFactor(ebitda * multiple * factor, base, 1.0 + SPREAD);
    SameFactor(ebitda * multiple * factor, base, 1.0 - SPREAD);
  }

  lemma {:induction false} SameFactor(x: real, y: real, s: real)
    requires x == y
    ensures x * s == y * s
  {
  }

  method SumBoth(adjustments: seq<Adjustment>) returns (sumEbitda: real, sumPfn: real)
    ensures sumEbitda == Sum(adjustments, "ebitda") && sumPfn == Sum(adjustments, "pfn")
  {
    sumEbitda, sumPfn := 0.0, 0.0;
    var i := 0;
    while i < |adjustments|
      invariant 0 <= i <= |adjustments|
      invariant sumEbitda == Sum(adjustments[..i], "ebitda") && sumPfn == Sum(adjustments[..i], "pfn")
    {
      var a := adjustments[i];
      assert adjustments[..i + 1][..i] == adjustments[..i];
      if a.treatment == "ebitda" {
        sumEbitda := sumEbitda + a.amount;
      } else if a.treatment == "pfn" {
        sumPfn := sumPfn + a.amount;
      }
      i := i + 1;
    }
    assert adjustments[..i] == adjustments;
  }

  // The bridge is rebuilt row by row.
  method Rebuild(adj: Valuation, base: Bridge, pfnAdj: real) returns (r: Valuation)
    ensures r == Bridged(adj, base, pfnAdj)
  {
    hide Round;
    var bridge := Bridge(None, None, None, None, None, None);
    var prov := "vendor_ratio";
    if base.pfn.Some? { prov := base.pfn.value.provenance; }
    bridge := bridge.(pfn := Some(Row(Round(pfnAdj), prov, "")));
    var deductions := pfnAdj;
    if base.tfr.Some? {
      bridge := bridge.(tfr := base.tfr);
      deductions := deductions + base.tfr.value.value;
    }
    if base.taxFund.Some? {
      bridge := bridge.(taxFund := base.taxFund);
      deductions := deductions + base.taxFund.value.value;
    }
    if base.shareholderLoans.Some? { bridge := bridge.(shareholderLoans := base.shareholderLoans); }
    var low, high := Round(adj.evLow - deductions), Round(adj.evHigh - deductions);
    bridge := bridge.(equityLow := Some(low), equityHigh := Some(high));
    r := adj.(bridge := Some(bridge), pfn := Some(pfnAdj), equityLow := Some(low), equityHigh := Some(high));
  }

  /******* Main results *******/

  // Reordering the adjustments does not change the valuation.
  lemma {:induction false} OrderIrrelevant(baseline: Option<Valuation>, sc: Option<Scorecard>, a: seq<Adjustment>,
      b: seq<Adjustment>, fallbackPct: real)
    requires multiset(a) == multiset(b)
    ensures Adjusted(baseline, sc, Sum(a, "ebitda"), Sum(a, "pfn"), fallbackPct)
        == Adjusted(baseline, sc, Sum(b, "ebitda"), Sum(b, "pfn"), fallbackPct)
  {
    SumPermuted(a, b, "ebitda");
    SumPermuted(a, b, "pfn");
  }

  // A margin is a quotient; without division it is a comparison of products.
  lemma {:induction false} MarginReached(prud: real, turnover: real, pct: real)
    requires turnover > 0.0
    ensures prud / turnover * 100.0 >= pct <==> 100.0 * prud >= pct * turnover
  {
    var margin := prud / turnover * 100.0;
    assert margin * turnover == 100.0 * prud;
    SameSide(pct, margin, turnover);
  }

  // The prudential EBITDA carries the low end: it is positive and, where there is a turnover, it reaches the
  // margin; a comparison of products, without division.
  predicate Carries(prud: real, turnover: Option<real>, fallbackPct: real) {
    prud > 0.0 && (turnover.Some? && turnover.value > 0.0 ==> 100.0 * prud >= fallbackPct * turnover.value)
  }

  lemma {:induction false} LowRestsOn(b: Valuation, sc: Scorecard, fallbackPct: real, prud: real)
    requires sc.ebitda.Some?
    requires prud == if b.prudentialEbitda.Some? then b.prudentialEbitda.value else sc.ebitda.value
    ensures LowBase(b, sc, fallbackPct) == if Carries(prud, sc.turnover, fallbackPct) then prud else sc.ebitda.value
  {
    if sc.turnover.Some? && sc.turnover.value > 0.0 {
      MarginReached(prud, sc.turnover.value, fallbackPct);
    }
  }

  lemma {:induction false} FactorIs(haircutPct: real)
    ensures Factor(haircutPct) == if haircutPct <= 0.0 then 1.0 else if haircutPct >= 95.0 then 0.05
                                  else 1.0 - haircutPct / 100.0
  {
  }

  lemma {:induction false} BandThrough(b: Valuation, sc: Scorecard, ebitda: real, pfn: real, fallbackPct: real)
    requires b.method_ == "ev_ebitda" && ebitda != 0.0 && sc.ebitda.Some?
    ensures var x := Adjusted(Some(b), Some(sc), ebitda, pfn, fallbackPct);
            && x.Some? && x.value.evHigh == Round(UnroundedHigh(b, sc, ebitda))
            && x.value.evLow == if b.lowMethod == "ev_sales" then b.evLow
                                else Round(UnroundedLow(b, sc, ebitda, fallbackPct))
  {
    hide Round, Scaled, Factor, LowUsesPrudential;
  }

  // Main result: both ends of a band on EBITDA, in the figures given. The low end rests on the prudential
  // EBITDA exactly when that carries it; the haircut counts between none and 95 percent.
  lemma {:induction false} EbitdaBand(b: Valuation, sc: Scorecard, ebitda: real, pfn: real, fallbackPct: real,
                                      prud: real, base: real, factor: real)
    requires b.method_ == "ev_ebitda" && ebitda != 0.0 && sc.ebitda.Some?
    requires prud == if b.prudentialEbitda.Some? then b.prudentialEbitda.value else sc.ebitda.value
    requires base == if Carries(prud, sc.turnover, fallbackPct) then prud else sc.ebitda.value
    requires factor == if b.haircutPct <= 0.0 then 1.0 else if b.haircutPct >= 95.0 then 0.05
                       else 1.0 - b.haircutPct / 100.0
    ensures var x := Adjusted(Some(b), Some(sc), ebitda, pfn, fallbackPct);
            && x.Some?
            && x.value.evHigh == Round(Scaled(sc.ebitda.value + ebitda, b.multiple, factor, 1.15))
            && x.value.evLow == if b.lowMethod == "ev_sales" then b.evLow
                                else Round(Scaled(base + ebitda, b.multiple, factor, 0.85))
  {
    hide Round, Scaled, Carries, LowBase, Adjusted, Factor;
    BandThrough(b, sc, ebitda, pfn, fallbackPct);
    LowRestsOn(b, sc, fallbackPct, prud);
    FactorIs(b.haircutPct);
  }

  // Main result: what the bridge deducts and what is left, in the figures given.
  lemma {:induction false} EquityFigures(b: Valuation, sc: Scorecard, ebitda: real, pfn: real, fallbackPct: real)
    requires Adjusted(Some(b), Some(sc), ebitda, pfn, fallbackPct).Some?
    ensures
      var x := Adjusted(Some(b), Some(sc), ebitda, pfn, fallbackPct).value;
      && x.prudentialEbitda == (if b.prudentialEbitda.Some? then Some(b.prudentialEbitda.value + ebitda) else None)
      && if b.bridge.Some? && sc.pfn.Some? then
           var rows, debt := b.bridge.value, sc.pfn.value + pfn;
           var funds := (if rows.tfr.Some? then rows.tfr.value.value else 0.0)
               + (if rows.taxFund.Some? then rows.taxFund.value.value else 0.0);
           var low, high := Round(x.evLow - (debt + funds)), Round(x.evHigh - (debt + funds));
           var prov := if rows.pfn.Some? then rows.pfn.value.provenance else "vendor_ratio";
           && x.pfn == Some(debt) && x.equityLow == Some(low) && x.equityHigh == Some(high)
           && x.bridge == Some(Bridge(Some(Row(Round(debt), prov, "")), rows.tfr, rows.taxFund, rows.shareholderLoans,
                                      Some(low), Some(high)))
         else x.bridge.None? && x.pfn.None? && x.equityLow.None? && x.equityHigh.None?
  {
    hide Round, EVLow, EVHigh;
    if b.bridge.Some? && sc.pfn.Some? {
      var rows, debt := b.bridge.value, sc.pfn.value + pfn;
      var funds := (if rows.tfr.Some? then rows.tfr.value.value else 0.0)
          + (if rows.taxFund.Some? then rows.taxFund.value.value else 0.0);
      assert Deductions(rows, debt) == debt + funds;
    }
  }

  // A margin of 8 percent: above the threshold the low end rests on the prudential 80, less a haircut of 20
  // percent where there is one, and below the threshold on the reported 100.
  lemma {:induction false} ThresholdDecides()
    ensures
      var b := Valuation("ev_ebitda", "", 5.0, 0.0, 340.0, 575.0, Some(80.0), None, None, None, None);
      var sc := Scorecard(Some(1000.0), Some(100.0), None);
      var x, y := Adjusted(Some(b), Some(sc), 10.0, 0.0, 5.0), Adjusted(Some(b), Some(sc), 10.0, 0.0, 9.0);
      var z := Adjusted(Some(b.(haircutPct := 20.0)), Some(sc), 10.0, 0.0, 5.0);
      x.Some? && x.value.evLow == 383.0 && y.Some? && y.value.evLow == 468.0 && z.Some? && z.value.evLow == 306.0
  {
    var b := Valuation("ev_ebitda", "", 5.0, 0.0, 340.0, 575.0, Some(80.0), None, None, None, None);
    var sc := Scorecard(Some(1000.0), Some(100.0), None);
    EbitdaBand(b, sc, 10.0, 0.0, 5.0, 80.0, 80.0, 1.0);
    EbitdaBand(b, sc, 10.0, 0.0, 9.0, 80.0, 100.0, 1.0);
    EbitdaBand(b.(haircutPct := 20.0), sc, 10.0, 0.0, 5.0, 80.0, 80.0, 0.8);
    assert Scaled(90.0, 5.0, 0.8, 0.85) == 306.0;
    RoundIsNearest(306.0, 306);
    assert Scaled(90.0, 5.0, 1.0, 0.85) == 382.5 && Scaled(110.0, 5.0, 1.0, 0.85) == 467.5;
    RoundIsNearest(382.5, 383);
    RoundIsNearest(467.5, 468);
  }

  // Everything the adjustments may not touch: the method, the multiple and the haircut, the staff fund, the
  // tax fund and the shareholder loans; and a valuation on sales keeps its enterprise value.
  ghost predicate Inherited(b: Valuation, sc: Scorecard, adj: Valuation) {
    && adj.method_ == b.method_ && adj.lowMethod == b.lowMethod && adj.multiple == b.multiple
       && adj.haircutPct == b.haircutPct
    && (adj.bridge.Some? <==> HasBridge(b, sc))
    && (adj.bridge.Some? ==>
          var x, y := adj.bridge.value, b.bridge.value;
          && x.tfr == y.tfr && x.taxFund == y.taxFund && x.shareholderLoans == y.shareholderLoans
          && x.equityLow == adj.equityLow && x.equityHigh == adj.equityHigh)
    && (b.method_ != "ev_ebitda" ==> adj.evLow == b.evLow && adj.evHigh == b.evHigh)
    && (b.lowMethod == "ev_sales" ==> adj.evLow == b.evLow)
  }

  lemma {:induction false} AdjustmentsInherit(b: Valuation, sc: Scorecard, ebitda: real, pfn: real, fallbackPct: real)
    requires Adjusted(Some(b), Some(sc), ebitda, pfn, fallbackPct).Some?
    ensures Inherited(b, sc, Adjusted(Some(b), Some(sc), ebitda, pfn, fallbackPct).value)
  {
    hide Round;
  }

  ghost predicate MovedBy(x: real, y: real, d: real) { -1.0 <= y - x - d <= 1.0 }

  lemma {:induction false} RoundMoves(x: real, d: real)
    ensures MovedBy(Round(x), Round(x + d), d)
  {
    RoundNear(x);
    RoundNear(x + d);
  }

  // d more net debt leaves the enterprise value and moves both ends of the equity by -d within 1 euro.
  lemma {:induction false} DebtMovesEquity(b: Valuation, sc: Scorecard, ebitda: real, pfn: real, d: real,
      fallbackPct: real)
    requires Adjusted(Some(b), Some(sc), ebitda, pfn, fallbackPct).Some?
    ensures
      var x := Adjusted(Some(b), Some(sc), ebitda, pfn, fallbackPct).value;
      var next := Adjusted(Some(b), Some(sc), ebitda, pfn + d, fallbackPct);
      next.Some? &&
      var y := next.value;
      && y.evLow == x.evLow && y.evHigh == x.evHigh && y.prudentialEbitda == x.prudentialEbitda
      && (y.equityLow.Some? <==> HasBridge(b, sc)) && (x.equityLow.Some? <==> HasBridge(b, sc))
      && (HasBridge(b, sc) ==>
            && y.pfn == Some(x.pfn.value + d)
            && MovedBy(x.equityLow.value, y.equityLow.value, -d) && MovedBy(x.equityHigh.value, y.equityHigh.value, -d))
  {
    hide Round;
    if HasBridge(b, sc) {
      var x := Adjusted(Some(b), Some(sc), ebitda, pfn, fallbackPct).value;
      var base, p := b.bridge.value, sc.pfn.value + pfn;
      assert Deductions(base, p + d) == Deductions(base, p) + d;
      RoundMoves(x.evLow - Deductions(base, p), -d);
      RoundMoves(x.evHigh - Deductions(base, p), -d);
      assert sc.pfn.value + (pfn + d) == p + d;
    }
  }

  // A valuation on sales of 10 with a bridge and nothing to deduct but the debt
  function SalesBaseline(): Valuation {
    Valuation("ev_sales", "", 1.0, 0.0, 10.0, 10.0, None, Some(Bridge(None, None, None, None, None, None)), None,
      None, None)
  }

  // The euro of slack is needed: with a debt of 9.5, one euro more moves both equity ends by two, from 1 to -1.
  lemma {:induction false} SlackIsReached(fallbackPct: real)
    ensures
      var b, sc := Some(SalesBaseline()), Some(Scorecard(None, None, Some(9.5)));
      var x, y := Adjusted(b, sc, 0.0, 0.0, fallbackPct).value, Adjusted(b, sc, 0.0, 1.0, fallbackPct).value;
      && x.equityLow == x.equityHigh == Some(1.0)
      && y.equityLow == y.equityHigh == Some(-1.0)
  {
    assert Round(0.5) == 1.0 && Round(-0.5) == -1.0;
  }

  // Once an add-back is in, more of it moves both ends that rest on EBITDA by the same amount times the
  // multiple, the haircut factor and the spread, within 1 euro.
  lemma {:induction false} EbitdaMovesBand(b: Valuation, sc: Scorecard, ebitda: real, pfn: real, d: real,
      fallbackPct: real)
    requires b.method_ == "ev_ebitda" && sc.ebitda.Some? && ebitda != 0.0 && ebitda + d != 0.0
    ensures
      var x := Adjusted(Some(b), Some(sc), ebitda, pfn, fallbackPct).value;
      var y := Adjusted(Some(b), Some(sc), ebitda + d, pfn, fallbackPct).value;
      && MovedBy(x.evHigh, y.evHigh, Scaled(d, b.multiple, Factor(b.haircutPct), 1.0 + SPREAD))
      && (b.lowMethod != "ev_sales" ==>
         MovedBy(x.evLow, y.evLow, Scaled(d, b.multiple, Factor(b.haircutPct), 1.0 - SPREAD)))
      && (b.lowMethod == "ev_sales" ==> x.evLow == y.evLow == b.evLow)
  {
    hide Round, LowUsesPrudential, Factor, Scaled, MovedBy;
    var e, p, f := sc.ebitda.value, PrudentialOf(b, sc.ebitda.value), Factor(b.haircutPct);
    Stretch(e, ebitda, d, b.multiple, f, 1.0 + SPREAD);
    Stretch(e, ebitda, d, b.multiple, f, 1.0 - SPREAD);
    Stretch(p, ebitda, d, b.multiple, f, 1.0 - SPREAD);
  }

  lemma {:induction false} Stretch(base: real, x: real, d: real, m: real, f: real, s: real)
    ensures MovedBy(Round(Scaled(base + x, m, f, s)), Round(Scaled(base + (x + d), m, f, s)), Scaled(d, m, f, s))
  {
    assert Scaled(base + (x + d), m, f, s) == Scaled(base + x, m, f, s) + Scaled(d, m, f, s);
    hide Scaled, Round, MovedBy;
    RoundMoves(Scaled(base + x, m, f, s), Scaled(d, m, f, s));
  }

  // The baseline's own figures add up: its debt is the scorecard's, shown rounded and without a note, and
  // each equity end, the same in the valuation and in the bridge, is the enterprise value less the debt,
  // the staff fund and the tax fund, rounded. Without a bridge there is no debt and no equity.
  predicate BridgeAddsUp(b: Valuation, sc: Scorecard) {
    if b.bridge.Some? && sc.pfn.Some? then
      var rows, debt := b.bridge.value, sc.pfn.value;
      var funds := (if rows.tfr.Some? then rows.tfr.value.value else 0.0)
          + (if rows.taxFund.Some? then rows.taxFund.value.value else 0.0);
      && b.pfn == Some(debt)
      && rows.pfn.Some? && rows.pfn.value.value == Round(debt) && rows.pfn.value.note == ""
      && b.equityLow == rows.equityLow == Some(Round(b.evLow - debt - funds))
      && b.equityHigh == rows.equityHigh == Some(Round(b.evHigh - debt - funds))
    else b.bridge.None? && b.pfn.None? && b.equityLow.None? && b.equityHigh.None?
  }

  // Adjustments without a net effect give back the baseline exactly when its own figures add up; otherwise
  // the bridge is put right, or dropped.
  lemma {:induction false} NoEffectIsBaseline(b: Valuation, sc: Scorecard, fallbackPct: real)
    ensures Adjusted(Some(b), Some(sc), 0.0, 0.0, fallbackPct) == Some(b) <==> BridgeAddsUp(b, sc)
    ensures Adjusted(Some(b), Some(sc), 0.0, 0.0, fallbackPct).Some?
        && BridgeAddsUp(Adjusted(Some(b), Some(sc), 0.0, 0.0, fallbackPct).value, sc)
  {
    hide Round;
    assert b.prudentialEbitda == if b.prudentialEbitda.Some? then Some(b.prudentialEbitda.value + 0.0) else None;
    if HasBridge(b, sc) {
      var rows, debt := b.bridge.value, sc.pfn.value;
      var funds := (if rows.tfr.Some? then rows.tfr.value.value else 0.0)
          + (if rows.taxFund.Some? then rows.taxFund.value.value else 0.0);
      assert b.evLow - debt - funds == b.evLow - Deductions(rows, debt + 0.0);
      assert b.evHigh - debt - funds == b.evHigh - Deductions(rows, debt + 0.0);
    }
  }

  lemma {:induction false} FactorPositive(haircutPct: real)
    ensures 0.05 <= Factor(haircutPct) <= 1.0
  {
  }

  // The unrounded ends of a band on EBITDA
  function LowBase(b: Valuation, sc: Scorecard, fallbackPct: real): real
    requires sc.ebitda.Some?
  {
    if LowUsesPrudential(b, sc, fallbackPct) then PrudentialOf(b, sc.ebitda.value) else sc.ebitda.value
  }

  function UnroundedLow(b: Valuation, sc: Scorecard, ebitda: real, fallbackPct: real): real
    requires sc.ebitda.Some?
  {
    Scaled(LowBase(b, sc, fallbackPct) + ebitda, b.multiple, Factor(b.haircutPct), 1.0 - SPREAD)
  }

  function UnroundedHigh(b: Valuation, sc: Scorecard, ebitda: real): real
    requires sc.ebitda.Some?
  {
    Scaled(sc.ebitda.value + ebitda, b.multiple, Factor(b.haircutPct), 1.0 + SPREAD)
  }

  ghost predicate BandInOrder(v: Option<Valuation>) { v.Some? && v.value.evLow <= v.value.evHigh }

  // A band on EBITDA keeps its order exactly when the unrounded low end is not above the high one, or
  // both round to the same euro; above by more than a euro it is inverted.
  lemma {:induction false} BandOrdered(b: Valuation, sc: Scorecard, ebitda: real, pfn: real, fallbackPct: real)
    requires b.method_ == "ev_ebitda" && b.lowMethod != "ev_sales" && sc.ebitda.Some? && ebitda != 0.0
    ensures var low, high := UnroundedLow(b, sc, ebitda, fallbackPct), UnroundedHigh(b, sc, ebitda);
            && (BandInOrder(Adjusted(Some(b), Some(sc), ebitda, pfn, fallbackPct))
               <==> low <= high || Round(low) == Round(high))
            && (low > high + 1.0 ==> !BandInOrder(Adjusted(Some(b), Some(sc), ebitda, pfn, fallbackPct)))
  {
    var low, high := UnroundedLow(b, sc, ebitda, fallbackPct), UnroundedHigh(b, sc, ebitda);
    hide Round, Scaled, LowUsesPrudential, Factor;
    if low <= high { RoundMonotone(low, high); } else { RoundMonotone(high, low); }
    RoundNear(low);
    RoundNear(high);
  }

  // With a positive multiple that is a matter of the two bases alone.
  lemma {:induction false} EndsInOrderIff(b: Valuation, sc: Scorecard, ebitda: real, fallbackPct: real)
    requires sc.ebitda.Some? && b.multiple > 0.0
    ensures UnroundedLow(b, sc, ebitda, fallbackPct) <= UnroundedHigh(b, sc, ebitda)
            <==> (LowBase(b, sc, fallbackPct) + ebitda) * (1.0 - SPREAD) <= (sc.ebitda.value + ebitda) * (1.0 + SPREAD)
  {
    FactorPositive(b.haircutPct);
    hide LowBase, Factor, Scaled;
    var f := Factor(b.haircutPct);
    ScaledSides(LowBase(b, sc, fallbackPct) + ebitda, sc.ebitda.value + ebitda, b.multiple, f, 1.0 - SPREAD,
      1.0 + SPREAD);
  }

  lemma {:induction false} ScaledSides(x: real, y: real, m: real, f: real, s: real, t: real)
    requires m > 0.0 && f > 0.0
    ensures Scaled(x, m, f, s) <= Scaled(y, m, f, t) <==> x * s <= y * t
  {
    var k, p, q := m * f, x * s, y * t;
    assert k > 0.0;
    assert Scaled(x, m, f, s) == p * k && Scaled(y, m, f, t) == q * k;
    SameSide(p, q, k);
  }

  lemma {:induction false} SameSide(p: real, q: real, k: real)
    requires k > 0.0
    ensures p * k <= q * k <==> p <= q
  {
    if p <= q { assert (q - p) * k >= 0.0; } else { assert (p - q) * k > 0.0; }
  }

  // So the band keeps its order while the adjusted EBITDA is not negative and the prudential one is not above it.
  lemma {:induction false} PositiveBandOrdered(b: Valuation, sc: Scorecard, ebitda: real, pfn: real, fallbackPct: real)
    requires b.method_ == "ev_ebitda" && b.lowMethod != "ev_sales" && sc.ebitda.Some? && ebitda != 0.0
        && b.multiple >= 0.0
    requires sc.ebitda.value + ebitda >= 0.0 && PrudentialOf(b, sc.ebitda.value) <= sc.ebitda.value
    ensures BandInOrder(Adjusted(Some(b), Some(sc), ebitda, pfn, fallbackPct))
  {
    BandOrdered(b, sc, ebitda, pfn, fallbackPct);
    FactorPositive(b.haircutPct);
    var e := sc.ebitda.value;
    ScaleOrder(LowBase(b, sc, fallbackPct) + ebitda, e + ebitda, b.multiple, Factor(b.haircutPct), 1.0 - SPREAD,
      1.0 + SPREAD);
    hide Round, LowUsesPrudential, Factor, Scaled;
  }

  // A whole number of euros is reached from half a euro below on, at zero and below only above it.
  lemma {:induction false} RoundAtLeast(y: real, n: int)
    ensures n as real <= Round(y) <==> if n > 0 then n as real - 0.5 <= y else n as real - 0.5 < y
  {
    if y >= 0.0 {
      FloorAtLeast(y + 0.5, n);
      FloorAtLeast(y + 0.5, 0);
    } else {
      FloorAtLeast(-y + 0.5, 1 - n);
      FloorAtLeast(-y + 0.5, 0);
    }
  }

  lemma {:induction false} FloorAtLeast(z: real, m: int)
    ensures m <= z.Floor <==> m as real <= z
    ensures m <= z.Floor <==> m as real <= z.Floor as real
  {
    var f := z.Floor;
    assert f as real <= z < (f + 1) as real;
    if m <= f { IntOrder(m, f); } else { IntOrder(f + 1, m); }
  }

  lemma {:induction false} IntOrder(a: int, b: int)
    requires a <= b
    ensures a as real <= b as real
  {
  }

  // A low end on sales stays while the high end moves: the band keeps its order exactly when the recomputed
  // high end still reaches it, for a stored end in whole euros half a euro before rounding.
  lemma {:induction false} SalesBandOrdered(b: Valuation, sc: Scorecard, ebitda: real, pfn: real, fallbackPct: real)
    requires b.method_ == "ev_ebitda" && b.lowMethod == "ev_sales" && sc.ebitda.Some? && ebitda != 0.0
    ensures BandInOrder(Adjusted(Some(b), Some(sc), ebitda, pfn, fallbackPct)) <==> b.evLow <= EVHigh(b, sc, ebitda)
    ensures b.evLow == b.evLow.Floor as real ==>
      (BandInOrder(Adjusted(Some(b), Some(sc), ebitda, pfn, fallbackPct))
       <==> if b.evLow > 0.0 then b.evLow - 0.5 <= UnroundedHigh(b, sc, ebitda)
         else b.evLow - 0.5 < UnroundedHigh(b, sc, ebitda))
  {
    hide Round, Scaled, Factor;
    RoundAtLeast(UnroundedHigh(b, sc, ebitda), b.evLow.Floor);
  }

  // Inputs that invert the band: a low end on sales above the lowered high end ...
  lemma {:induction false} SalesBandInverts(fallbackPct: real)
    ensures
      var b := Valuation("ev_ebitda", "ev_sales", 5.0, 0.0, 400.0, 575.0, None, None, None, None, None);
      var x := Adjusted(Some(b), Some(Scorecard(None, Some(100.0), None)), -50.0, 0.0, fallbackPct);
      x.Some? && x.value.evLow == 400.0 && x.value.evHigh == 288.0
  {
    assert Scaled(50.0, 5.0, 1.0, 1.15) == 287.5;
    assert Round(287.5) == 288.0;
  }

  // ... and a negative adjusted EBITDA.
  lemma {:induction false} NegativeBandInverts(fallbackPct: real)
    ensures
      var b := Valuation("ev_ebitda", "", 5.0, 0.0, 425.0, 575.0, None, None, None, None, None);
      var x := Adjusted(Some(b), Some(Scorecard(Some(1000.0), Some(100.0), None)), -200.0, 0.0, fallbackPct);
      x.Some? && x.value.evLow == -425.0 && x.value.evHigh == -575.0
  {
    assert Scaled(-100.0, 5.0, 1.0, 0.85) == -425.0 && Scaled(-100.0, 5.0, 1.0, 1.15) == -575.0;
    assert Round(-425.0) == -425.0 && Round(-575.0) == -575.0;
  }

  lemma {:induction false} ProductNonNegative(x: real, y: real)
    requires x >= 0.0 && y >= 0.0
    ensures x * y >= 0.0
  {
  }

  lemma {:induction false} ScaleOrder(x: real, y: real, m: real, f: real, s: real, t: real)
    requires x <= y && y >= 0.0 && m >= 0.0 && f >= 0.0 && 0.0 <= s <= t
    ensures Scaled(x, m, f, s) <= Scaled(y, m, f, t)
  {
    var k := m * f;
    ProductNonNegative(m, f);
    ProductNonNegative(k, s);
    ProductNonNegative(y - x, k * s);
    ProductNonNegative(y, k);
    ProductNonNegative(y * k, t - s);
    assert Scaled(y, m, f, t) - Scaled(x, m, f, s) == (y - x) * (k * s) + (y * k) * (t - s);
  }
}
