/** Nominal weights of the scoring signals (ma_catalog.go), over reals. */
module SignalWeights {
  import opened Text

  datatype Family = Fit | Deal | Economic

  datatype Signal = Signal(id: string, family: Family, base: int)

  // What the computation reads of a strategy: which signals it intends and the overrides it asks for.
  datatype Strategy = Strategy(thesis: string, intended: string -> bool, overrides: map<string, int>)

  const CATALOG: seq<Signal> := [
    Signal("ateco_precision", Fit, 20),
    Signal("turnover_proximity", Fit, 15),
    Signal("keyword_match", Fit, 5),
    Signal("ownership_concentration", Deal, 12),
    Signal("company_age", Deal, 10),
    Signal("legal_form", Deal, 8),
    Signal("succession_owner", Deal, 12),
    Signal("turnover_trend", Economic, 12),
    Signal("productivity", Economic, 8),
    Signal("equity_solidity", Economic, 10)
  ]

  predicate ValidCatalog(catalog: seq<Signal>) {
    && (forall i, j :: 0 <= i < j < |catalog| ==> catalog[i].id != catalog[j].id)
    && (forall i :: 0 <= i < |catalog| ==> catalog[i].base > 0)
  }

  lemma {:induction false} CatalogIsValid()
    ensures ValidCatalog(CATALOG)
  {
    var lengths := seq(|CATALOG|, i requires 0 <= i < |CATALOG| => |CATALOG[i].id|);
    assert lengths == [15, 18, 13, 23, 11, 10, 16, 14, 12, 15];
    assert CATALOG[0].id[0] != CATALOG[9].id[0];
  }

  /******* Thesis budgets *******/

  function LowerChar(c: char): char { if 'A' <= c <= 'Z' then ((c as int) + 32) as char else c }

  // strings.ToLower on ASCII letters
  function ToLower(s: string): string { seq(|s|, i requires 0 <= i < |s| => LowerChar(s[i])) }

  datatype Thesis = Succession | Growth | Consolidation | TuckIn | Generic

  // normalizeMAThesis
  function ParseThesis(value: string): Thesis {
    var v := ToLower(TrimSpace(value));
    if v == "successione" then Succession
    else if v == "crescita" then Growth
    else if v == "consolidamento" then Consolidation
    else if v == "tuck_in" || v == "tuckin" || v == "tuck-in" then TuckIn
    else Generic
  }

  // thesisFamilyWeights
  function Budget(thesis: string, f: Family): int {
    match (ParseThesis(thesis), f)
    case (Succession, Fit) => 30
    case (Succession, Deal) => 50
    case (Succession, Economic) => 20
    case (Growth, Fit) => 35
    case (Growth, Deal) => 20
    case (Growth, Economic) => 45
    case (Consolidation, Fit) => 50
    case (Consolidation, Deal) => 25
    case (Consolidation, Economic) => 25
    case (TuckIn, Fit) => 45
    case (TuckIn, Deal) => 30
    case (TuckIn, Economic) => 25
    case (Generic, Fit) => 40
    case (Generic, Deal) => 30
    case (Generic, Economic) => 30
  }

  lemma {:induction false} BudgetsSum(thesis: string)
    ensures Budget(thesis, Fit) + Budget(thesis, Deal) + Budget(thesis, Economic) == 100
    ensures forall f :: Budget(thesis, f) > 0
  {
    hide ToLower, TrimSpace;
  }

  // The budgets of a thesis by its name, as it is written in the catalogue's documents
  function NamedBudgets(name: string): (int, int, int) {
    if name == "successione" then (30, 50, 20)
    else if name == "crescita" then (35, 20, 45)
    else if name == "consolidamento" then (50, 25, 25)
    else if name == "tuck_in" || name == "tuckin" || name == "tuck-in" then (45, 30, 25)
    else (40, 30, 30)
  }

  // The same letters, whatever their case
  predicate LowerOf(text: string, name: string) {
    && |name| == |text|
    && forall i :: 0 <= i < |text| ==>
         name[i] == if 'A' <= text[i] <= 'Z' then ((text[i] as int) + 32) as char else text[i]
  }

  // A thesis has the budgets of its name, with spaces around it and in any letter case; every other text
  // has the generic ones.
  lemma {:induction false} BudgetsNamed(l: string, text: string, r: string, name: string)
    requires AllSpace(l) && AllSpace(r) && Trimmed(text) && LowerOf(text, name)
    ensures var thesis := l + text + r;
            (Budget(thesis, Fit), Budget(thesis, Deal), Budget(thesis, Economic)) == NamedBudgets(name)
  {
    TrimSpaceIs(l, text, r);
    assert ToLower(text) == name;
    hide ToLower, TrimSpace;
  }

  // One of the spellings of a thesis
  lemma {:induction false} TuckInSpelled()
    ensures Budget(" Tuck-In ", Fit) == 45 && Budget(" Tuck-In ", Deal) == 30 && Budget(" Tuck-In ", Economic) == 25
  {
    BudgetsNamed(" ", "Tuck-In", " ", "tuck-in");
    assert " " + "Tuck-In" + " " == " Tuck-In ";
    assert "tuck-in"[0] == 't' && |"tuck-in"| == 7 && |"successione"| == 11 && |"crescita"| == 8;
  }

  /******* Bases and sums *******/

  // Override scaled relative to the default
  function Base(s: Signal, st: Strategy): int {
    if s.id in st.overrides && st.overrides[s.id] > 0 then st.overrides[s.id] else s.base
  }

  predicate Counts(s: Signal, st: Strategy, f: Family) { st.intended(s.id) && s.family == f }

  function FamilySum(catalog: seq<Signal>, st: Strategy, f: Family): real {
    if catalog == [] then 0.0
    else
      var s := catalog[|catalog| - 1];
      FamilySum(catalog[..|catalog| - 1], st, f) + if Counts(s, st, f) then Base(s, st) as real else 0.0
  }

  lemma {:induction false} FamilySumStep(catalog: seq<Signal>, st: Strategy, f: Family, n: nat)
    requires n < |catalog|
    ensures FamilySum(catalog[..n + 1], st, f) == FamilySum(catalog[..n], st, f) + if Counts(catalog[n], st, f) then
        Base(catalog[n], st) as real else 0.0
  {
    assert catalog[..n + 1][..n] == catalog[..n];
  }

  predicate HasFamily(catalog: seq<Signal>, st: Strategy, f: Family) {
    exists i :: 0 <= i < |catalog| && Counts(catalog[i], st, f)
  }

  lemma {:induction false} HasFamilyStep(init: seq<Signal>, s: Signal, st: Strategy, f: Family)
    ensures HasFamily(init + [s], st, f) <==> HasFamily(init, st, f) || Counts(s, st, f)
  {
    hide Counts;
    var catalog := init + [s];
    assert catalog[|init|] == s;
    if HasFamily(init, st, f) {
      var i :| 0 <= i < |init| && Counts(init[i], st, f);
      assert Counts(catalog[i], st, f);
    }
  }

  lemma {:induction false} FamilySumSign(catalog: seq<Signal>, st: Strategy, f: Family)
    requires ValidCatalog(catalog)
    ensures FamilySum(catalog, st, f) >= 0.0
    ensures FamilySum(catalog, st, f) > 0.0 <==> HasFamily(catalog, st, f)
  {
    if catalog != [] {
      var init, s := catalog[..|catalog| - 1], catalog[|catalog| - 1];
      FamilySumSign(init, st, f);
      assert catalog == init + [s];
      HasFamilyStep(init, s, st, f);
      assert Base(s, st) > 0 by { assert s in catalog; }
      hide HasFamily, Base;
    }
  }

  // Budget of the families with an intended signal
  function ActiveBudget(thesis: string, active: set<Family>): int {
    (if Fit in active then Budget(thesis, Fit) else 0)
    + (if Deal in active then Budget(thesis, Deal) else 0)
    + (if Economic in active then Budget(thesis, Economic) else 0)
  }

  ghost function ActiveFamilies(catalog: seq<Signal>, st: Strategy): set<Family> {
    set f: Family | HasFamily(catalog, st, f)
  }

  lemma {:induction false} ActiveBudgetPositive(thesis: string, active: set<Family>)
    ensures active != {} ==> ActiveBudget(thesis, active) > 0
    ensures forall f :: f in active ==> Budget(thesis, f) <= ActiveBudget(thesis, active)
  {
    hide Budget;
    BudgetsSum(thesis);
    assert Budget(thesis, Fit) > 0 && Budget(thesis, Deal) > 0 && Budget(thesis, Economic) > 0;
    forall f | f in active ensures Budget(thesis, f) <= ActiveBudget(thesis, active) {
      match f case Fit => case Deal => case Economic =>
    }
    if active != {} {
      var f :| f in active;
      assert Budget(thesis, f) > 0;
    }
  }

  /******* The weights *******/

  function Apportion(budget: real, b: real, sum: real): real
    requires sum != 0.0
  {
    budget * b / sum
  }

  ghost function FamilyWeight(catalog: seq<Signal>, st: Strategy, f: Family): real
    requires HasFamily(catalog, st, f)
  {
    var active := ActiveFamilies(catalog, st);
    ActiveBudgetPositive(st.thesis, active);
    assert f in active;
    Budget(st.thesis, f) as real * 100.0 / ActiveBudget(st.thesis, active) as real
  }

  ghost function Weight(catalog: seq<Signal>, st: Strategy, s: Signal): real
    requires ValidCatalog(catalog) && s in catalog && st.intended(s.id)
  {
    InFamily(catalog, st, s);
    FamilySumSign(catalog, st, s.family);
    Apportion(FamilyWeight(catalog, st, s.family), Base(s, st) as real, FamilySum(catalog, st, s.family))
  }

  lemma {:induction false} InFamily(catalog: seq<Signal>, st: Strategy, s: Signal)
    requires s in catalog && st.intended(s.id)
    ensures HasFamily(catalog, st, s.family)
  {
    var i :| 0 <= i < |catalog| && catalog[i] == s;
    assert Counts(catalog[i], st, s.family);
  }

  ghost predicate IsNominal(catalog: seq<Signal>, st: Strategy, weights: map<string, real>)
    requires ValidCatalog(catalog)
  {
    && (forall id :: id in weights <==> exists s :: s in catalog && s.id == id && st.intended(id))
    && (forall s :: s in catalog && st.intended(s.id) && s.id in weights ==> weights[s.id] == Weight(catalog, st, s))
  }

  function SumOf(sums: map<Family, real>, f: Family): real { if f in sums then sums[f] else 0.0 }

  ghost predicate BasedUpTo(catalog: seq<Signal>, st: Strategy, base: map<string, real>, n: nat)
    requires n <= |catalog|
  {
    && (forall id :: id in base ==> exists k :: 0 <= k < n && catalog[k].id == id && st.intended(id))
    && (forall k :: 0 <= k < n && st.intended(catalog[k].id) ==>
       catalog[k].id in base && base[catalog[k].id] == Base(catalog[k], st) as real)
  }

  lemma {:induction false} BasedStep(catalog: seq<Signal>, st: Strategy, base: map<string, real>, i: nat, b: real)
    requires ValidCatalog(catalog) && i < |catalog| && BasedUpTo(catalog, st, base, i)
    ensures !st.intended(catalog[i].id) ==> BasedUpTo(catalog, st, base, i + 1)
    ensures st.intended(catalog[i].id) && b == Base(catalog[i], st) as real ==>
        BasedUpTo(catalog, st, base[catalog[i].id := b], i + 1)
  {
    hide Base;
  }

  ghost predicate SumsAre(catalog: seq<Signal>, st: Strategy, sums: map<Family, real>) {
    forall f :: SumOf(sums, f) == FamilySum(catalog, st, f)
  }

  lemma {:induction false} SumsStep(catalog: seq<Signal>, st: Strategy, sums: map<Family, real>, i: nat,
      next: map<Family, real>)
    requires i < |catalog| && SumsAre(catalog[..i], st, sums)
    requires next == if st.intended(catalog[i].id) then
        sums[catalog[i].family := SumOf(sums, catalog[i].family) + Base(catalog[i], st) as real] else sums
    ensures SumsAre(catalog[..i + 1], st, next)
  {
    hide Base, FamilySum;
    forall f ensures SumOf(next, f) == FamilySum(catalog[..i + 1], st, f) {
      FamilySumStep(catalog, st, f, i);
    }
  }

  // First loop: the base of every intended signal and the sums by family
  method Bases(catalog: seq<Signal>, st: Strategy) returns (base: map<string, real>, familyBaseSum: map<Family, real>)
    requires ValidCatalog(catalog)
    ensures BasedUpTo(catalog, st, base, |catalog|)
    ensures SumsAre(catalog, st, familyBaseSum)
  {
    base, familyBaseSum := map[], map[];
    var i := 0;
    assert BasedUpTo(catalog, st, base, 0) && SumsAre(catalog[..0], st, familyBaseSum);
    hide BasedUpTo, SumsAre, ValidCatalog;
    while i < |catalog|
      invariant 0 <= i <= |catalog|
      invariant BasedUpTo(catalog, st, base, i)
      invariant SumsAre(catalog[..i], st, familyBaseSum)
    {
      var signal := catalog[i];
      var b := signal.base as real;
      if signal.id in st.overrides && st.overrides[signal.id] > 0 { b := st.overrides[signal.id] as real; }
      BasedStep(catalog, st, base, i, b);
      ghost var before := familyBaseSum;
      if st.intended(signal.id) {
        base := base[signal.id := b];
        familyBaseSum := familyBaseSum[signal.family := SumOf(familyBaseSum, signal.family) + b];
      }
      SumsStep(catalog, st, before, i, familyBaseSum);
      i := i + 1;
    }
    assert catalog[..i] == catalog;
  }

  lemma {:induction false} AddActive(thesis: string, active: set<Family>, f: Family)
    requires f !in active
    ensures ActiveBudget(thesis, active + {f}) == ActiveBudget(thesis, active) + Budget(thesis, f)
  {
    hide Budget;
    match f case Fit => case Deal => case Economic =>
  }

  lemma {:induction false} NoneActive(thesis: string)
    ensures ActiveBudget(thesis, {}) == 0
  {
  }

  // Second loop, over the families in any order
  method SumActive(catalog: seq<Signal>, st: Strategy, sums: map<Family, real>) returns (activeFamilyBudget: int)
    requires ValidCatalog(catalog) && SumsAre(catalog, st, sums)
    ensures activeFamilyBudget == ActiveBudget(st.thesis, ActiveFamilies(catalog, st))
  {
    hide Budget, ActiveBudget, FamilySum, HasFamily, ValidCatalog;
    ghost var all := ActiveFamilies(catalog, st);
    activeFamilyBudget := 0;
    var left := {Fit, Deal, Economic};
    assert all - left == {} by {
      forall f: Family ensures f in left { match f case Fit => case Deal => case Economic => }
    }
    NoneActive(st.thesis);
    while left != {}
      invariant activeFamilyBudget == ActiveBudget(st.thesis, all - left)
    {
      var f :| f in left;
      FamilySumSign(catalog, st, f);
      var next := left - {f};
      if f in all {
        assert all - next == (all - left) + {f};
        AddActive(st.thesis, all - left, f);
      } else {
        assert all - next == all - left;
      }
      if SumOf(sums, f) > 0.0 { activeFamilyBudget := activeFamilyBudget + Budget(st.thesis, f); }
      left := next;
    }
    assert all - left == all;
  }

  // maSignalNominalWeights
  method NominalWeights(catalog: seq<Signal>, st: Strategy) returns (out: map<string, real>)
    requires ValidCatalog(catalog)
    ensures IsNominal(catalog, st, out)
  {
    hide Budget, ActiveBudget, FamilySum;
    var base, sums := Bases(catalog, st);
    var activeFamilyBudget := SumActive(catalog, st, sums);
    ActiveBudgetPositive(st.thesis, ActiveFamilies(catalog, st));
    if activeFamilyBudget == 0 {
      NoWeights(catalog, st);
      return map[];
    }
    out := map[];
    var i := 0;
    while i < |catalog|
      invariant 0 <= i <= |catalog|
      invariant WeighedUpTo(catalog, st, out, i)
    {
      var signal := catalog[i];
      FamilySumSign(catalog, st, signal.family);
      OwnId(catalog, st, base, i);
      if signal.id !in base || SumOf(sums, signal.family) == 0.0 {
        WeighedSkip(catalog, st, out, i);
      } else {
        var familyWeight := Budget(st.thesis, signal.family) as real * 100.0 / activeFamilyBudget as real;
        var weight := Apportion(familyWeight, base[signal.id], SumOf(sums, signal.family));
        WeighedStep(catalog, st, out, i, weight);
        out := out[signal.id := weight];
      }
      i := i + 1;
    }
    WeighedAll(catalog, st, out);
  }

  ghost predicate WeighedUpTo(catalog: seq<Signal>, st: Strategy, out: map<string, real>, n: nat)
    requires ValidCatalog(catalog) && n <= |catalog|
  {
    && (forall id :: id in out ==> exists k :: 0 <= k < n && catalog[k].id == id && st.intended(id))
    && (forall k :: 0 <= k < n && st.intended(catalog[k].id) ==>
       catalog[k].id in out && out[catalog[k].id] == Weight(catalog, st, catalog[k]))
  }

  lemma {:induction false} OwnId(catalog: seq<Signal>, st: Strategy, base: map<string, real>, i: nat)
    requires ValidCatalog(catalog) && BasedUpTo(catalog, st, base, |catalog|) && i < |catalog|
    ensures catalog[i].id in base <==> st.intended(catalog[i].id)
    ensures st.intended(catalog[i].id) ==>
        HasFamily(catalog, st, catalog[i].family) && base[catalog[i].id] == Base(catalog[i], st) as real
  {
    if st.intended(catalog[i].id) { InFamily(catalog, st, catalog[i]); }
  }

  lemma {:induction false} NoWeights(catalog: seq<Signal>, st: Strategy)
    requires ValidCatalog(catalog) && ActiveFamilies(catalog, st) == {}
    ensures IsNominal(catalog, st, map[])
  {
    forall s | s in catalog && st.intended(s.id) ensures s.family in ActiveFamilies(catalog, st) {
      InFamily(catalog, st, s);
    }
  }

  lemma {:induction false} WeighedSkip(catalog: seq<Signal>, st: Strategy, out: map<string, real>, i: nat)
    requires ValidCatalog(catalog) && i < |catalog| && WeighedUpTo(catalog, st, out, i) && !st.intended(catalog[i].id)
    ensures WeighedUpTo(catalog, st, out, i + 1)
  {
    hide Weight;
  }

  lemma {:induction false} WeighedStep(catalog: seq<Signal>, st: Strategy, out: map<string, real>, i: nat, w: real)
    requires ValidCatalog(catalog) && i < |catalog| && WeighedUpTo(catalog, st, out, i)
    requires st.intended(catalog[i].id) && w == Weight(catalog, st, catalog[i])
    ensures WeighedUpTo(catalog, st, out[catalog[i].id := w], i + 1)
  {
    hide Weight;
  }

  lemma {:induction false} WeighedAll(catalog: seq<Signal>, st: Strategy, out: map<string, real>)
    requires ValidCatalog(catalog) && WeighedUpTo(catalog, st, out, |catalog|)
    ensures IsNominal(catalog, st, out)
  {
    hide Weight;
    forall id | id in out ensures exists s :: s in catalog && s.id == id && st.intended(id) {
      var k :| 0 <= k < |catalog| && catalog[k].id == id && st.intended(id);
      assert catalog[k] in catalog;
    }
    forall s | s in catalog && st.intended(s.id) ensures s.id in out && out[s.id] == Weight(catalog, st, s) {
      var k :| 0 <= k < |catalog| && catalog[k] == s;
    }
  }

  /******* Conservation *******/

  // Fact about real division, kept out of the proofs below
  lemma {:induction false} ApportionSum(budget: real, b: real, c: real, sum: real)
    requires sum > 0.0
    ensures Apportion(budget, b, sum) + Apportion(budget, c, sum) == Apportion(budget, b + c, sum)
    ensures Apportion(budget, sum, sum) == budget && Apportion(budget, 0.0, sum) == 0.0
  {
    assert budget * (b + c) == budget * b + budget * c;
  }

  ghost function FamilyTotal(catalog: seq<Signal>, st: Strategy, f: Family, n: nat): real
    requires ValidCatalog(catalog) && n <= |catalog|
  {
    if n == 0 then 0.0
    else FamilyTotal(catalog, st, f, n - 1) + if Counts(catalog[n - 1], st, f) then
      Weight(catalog, st, catalog[n - 1]) else 0.0
  }

  ghost function Total(catalog: seq<Signal>, st: Strategy, n: nat): real
    requires ValidCatalog(catalog) && n <= |catalog|
  {
    if n == 0 then 0.0
    else Total(catalog, st, n - 1) + if st.intended(catalog[n - 1].id) then Weight(catalog, st, catalog[n - 1]) else 0.0
  }

  lemma {:induction false} FamilyTotalIs(catalog: seq<Signal>, st: Strategy, f: Family, n: nat)
    requires ValidCatalog(catalog) && n <= |catalog| && HasFamily(catalog, st, f)
    ensures FamilySum(catalog, st, f) > 0.0
    ensures FamilyTotal(catalog, st, f, n)
        == Apportion(FamilyWeight(catalog, st, f), FamilySum(catalog[..n], st, f), FamilySum(catalog, st, f))
  {
    FamilySumSign(catalog, st, f);
    var budget, sum := FamilyWeight(catalog, st, f), FamilySum(catalog, st, f);
    if n == 0 {
      ApportionSum(budget, 0.0, 0.0, sum);
    } else {
      FamilyTotalIs(catalog, st, f, n - 1);
      FamilySumStep(catalog, st, f, n - 1);
      hide FamilySum, FamilyWeight, Apportion, HasFamily;
      ApportionSum(budget, FamilySum(catalog[..n - 1], st, f), Base(catalog[n - 1], st) as real, sum);
    }
  }

  lemma {:induction false} TotalByFamily(catalog: seq<Signal>, st: Strategy, n: nat)
    requires ValidCatalog(catalog) && n <= |catalog|
    ensures Total(catalog, st, n)
        == FamilyTotal(catalog, st, Fit, n) + FamilyTotal(catalog, st, Deal, n) + FamilyTotal(catalog, st, Economic, n)
  {
    hide Weight;
    if n > 0 {
      TotalByFamily(catalog, st, n - 1);
      match catalog[n - 1].family case Fit => case Deal => case Economic =>
    }
  }

  lemma {:induction false} NoFamilyTotal(catalog: seq<Signal>, st: Strategy, f: Family, n: nat)
    requires ValidCatalog(catalog) && n <= |catalog| && !HasFamily(catalog, st, f)
    ensures FamilyTotal(catalog, st, f, n) == 0.0
  {
    hide Weight;
    if n > 0 { NoFamilyTotal(catalog, st, f, n - 1); }
  }

  // A family's weights add up to its part of the thesis budget, scaled up for the families that have no
  // intended signal; a family without one gets nothing.
  lemma {:induction false} FamilyShare(catalog: seq<Signal>, st: Strategy, f: Family)
    requires ValidCatalog(catalog)
    ensures var active := ActiveFamilies(catalog, st);
            FamilyTotal(catalog, st, f, |catalog|) * ActiveBudget(st.thesis, active) as real
            == if f in active then Budget(st.thesis, f) as real * 100.0 else 0.0
  {
    hide Budget, ActiveBudget, FamilyTotal, FamilySum;
    var active := ActiveFamilies(catalog, st);
    ActiveBudgetPositive(st.thesis, active);
    if f in active {
      FamilyTotalIs(catalog, st, f, |catalog|);
      assert catalog[..|catalog|] == catalog;
      ApportionSum(FamilyWeight(catalog, st, f), 0.0, 0.0, FamilySum(catalog, st, f));
    } else {
      NoFamilyTotal(catalog, st, f, |catalog|);
    }
  }

  // The weights of a strategy that intends any signal add up to exactly 100.
  lemma {:induction false} TotalIs100(catalog: seq<Signal>, st: Strategy)
    requires ValidCatalog(catalog) && exists s :: s in catalog && st.intended(s.id)
    ensures Total(catalog, st, |catalog|) == 100.0
  {
    hide Budget, FamilyTotal, Total, ValidCatalog, HasFamily;
    var s :| s in catalog && st.intended(s.id);
    InFamily(catalog, st, s);
    var active := ActiveFamilies(catalog, st);
    assert s.family in active;
    ActiveBudgetPositive(st.thesis, active);
    TotalByFamily(catalog, st, |catalog|);
    FamilyShare(catalog, st, Fit);
    FamilyShare(catalog, st, Deal);
    FamilyShare(catalog, st, Economic);
    var m := ActiveBudget(st.thesis, active) as real;
    var x, y, z := FamilyTotal(catalog, st, Fit, |catalog|), FamilyTotal(catalog, st, Deal, |catalog|),
        FamilyTotal(catalog, st, Economic, |catalog|);
    var b := (f: Family) => if f in active then Budget(st.thesis, f) as real else 0.0;
    assert m == b(Fit) + b(Deal) + b(Economic);
    assert x * m == b(Fit) * 100.0;
    assert y * m == b(Deal) * 100.0;
    assert z * m == b(Economic) * 100.0;
    CancelSum(x, y, z, m, b(Fit), b(Deal), b(Economic));
  }

  lemma {:induction false} CancelSum(x: real, y: real, z: real, m: real, a: real, b: real, c: real)
    requires m > 0.0 && m == a + b + c && x * m == a * 100.0 && y * m == b * 100.0 && z * m == c * 100.0
    ensures x + y + z == 100.0
  {
    var t := x + y + z;
    assert t * m == x * m + y * m + z * m;
    CancelFactor(t, 100.0, m);
  }

  lemma {:induction false} CancelFactor(x: real, y: real, m: real)
    requires m > 0.0 && x * m == y * m
    ensures x == y
  {
    assert x == (x * m) / m;
    assert y == (y * m) / m;
  }

  lemma {:induction false} WeightPositive(catalog: seq<Signal>, st: Strategy, s: Signal)
    requires ValidCatalog(catalog) && s in catalog && st.intended(s.id)
    ensures Weight(catalog, st, s) > 0.0
  {
    InFamily(catalog, st, s);
    FamilySumSign(catalog, st, s.family);
    FamilyWeightPositive(catalog, st, s.family);
    BasePositive(catalog, st, s);
    hide FamilySum, Base, ValidCatalog, HasFamily, FamilyWeight;
    PositiveQuotient(FamilyWeight(catalog, st, s.family), Base(s, st) as real, FamilySum(catalog, st, s.family));
  }

  lemma {:induction false} PositiveQuotient(x: real, y: real, z: real)
    requires x > 0.0 && y > 0.0 && z > 0.0
    ensures x * y / z > 0.0
  {
    var p := x * y;
    assert p > 0.0;
    var q := p / z;
    assert q * z == p;
  }

  /******* Raising an override *******/

  function Raise(st: Strategy, id: string, v: int): Strategy { st.(overrides := st.overrides[id := v]) }

  // The same strategy without one signal
  function Dropping(st: Strategy, id: string): Strategy { st.(intended := x => x != id && st.intended(x)) }

  // Another intended signal stands in s's family.
  ghost predicate HasSibling(catalog: seq<Signal>, st: Strategy, s: Signal) {
    HasFamily(catalog, Dropping(st, s.id), s.family)
  }

  lemma {:induction false} SumSplits(catalog: seq<Signal>, st: Strategy, s: Signal, f: Family)
    requires ValidCatalog(catalog) && st.intended(s.id)
    requires forall t :: t in catalog && t.id == s.id ==> t == s
    ensures FamilySum(catalog, st, f) == FamilySum(catalog, Dropping(st, s.id), f) + if s in catalog
        && s.family == f then Base(s, st) as real else 0.0
  {
    if catalog != [] {
      var init, last := catalog[..|catalog| - 1], catalog[|catalog| - 1];
      assert catalog == init + [last];
      SumSplits(init, st, s, f);
      assert last in catalog;
      assert Base(last, Dropping(st, s.id)) == Base(last, st);
      hide Base, ValidCatalog, HasFamily;
      if last.id == s.id { assert forall t :: t in init ==> t.id != s.id; }
    }
  }

  lemma {:induction false} SumIgnores(catalog: seq<Signal>, st: Strategy, id: string, v: int, f: Family)
    ensures FamilySum(catalog, Dropping(Raise(st, id, v), id), f) == FamilySum(catalog, Dropping(st, id), f)
  {
    if catalog != [] { SumIgnores(catalog[..|catalog| - 1], st, id, v, f); }
  }

  lemma {:induction false} SumRaised(catalog: seq<Signal>, st: Strategy, s: Signal, v: int, f: Family)
    requires ValidCatalog(catalog) && s in catalog && st.intended(s.id) && v > 0
    ensures FamilySum(catalog, Raise(st, s.id, v), f) == FamilySum(catalog, st, f) + if s.family == f then
        (v - Base(s, st)) as real else 0.0
    ensures s.family == f ==>
      && FamilySum(catalog, st, f) >= Base(s, st) as real
      && (FamilySum(catalog, st, f) > Base(s, st) as real <==> HasSibling(catalog, st, s))
  {
    var st' := Raise(st, s.id, v);
    SumSplits(catalog, st, s, f);
    SumSplits(catalog, st', s, f);
    SumIgnores(catalog, st, s.id, v, f);
    FamilySumSign(catalog, Dropping(st, s.id), f);
  }

  lemma {:induction false} RaiseKeepsFamilies(catalog: seq<Signal>, st: Strategy, id: string, v: int, f: Family)
    ensures HasFamily(catalog, Raise(st, id, v), f) <==> HasFamily(catalog, st, f)
    ensures HasFamily(catalog, st, f) ==> FamilyWeight(catalog, Raise(st, id, v), f) == FamilyWeight(catalog, st, f)
  {
    hide Budget, ActiveBudget;
    forall g ensures HasFamily(catalog, Raise(st, id, v), g) <==> HasFamily(catalog, st, g) {
      forall i | 0 <= i < |catalog| ensures Counts(catalog[i], Raise(st, id, v), g) == Counts(catalog[i], st, g) {}
    }
    assert ActiveFamilies(catalog, Raise(st, id, v)) == ActiveFamilies(catalog, st);
  }

  // Raising the override of a signal raises its weight exactly when its family has another intended
  // signal; alone in its family it already has the family's whole share, whatever its override.
  lemma {:induction false} RaisedSignal(catalog: seq<Signal>, st: Strategy, s: Signal, v: int)
    requires ValidCatalog(catalog) && s in catalog && st.intended(s.id) && v > Base(s, st)
    ensures Weight(catalog, Raise(st, s.id, v), s) >= Weight(catalog, st, s)
    ensures Weight(catalog, Raise(st, s.id, v), s) > Weight(catalog, st, s) <==> HasSibling(catalog, st, s)
  {
    var f, st' := s.family, Raise(st, s.id, v);
    InFamily(catalog, st, s);
    BasePositive(catalog, st, s);
    SumRaised(catalog, st, s, v, f);
    RaiseKeepsFamilies(catalog, st, s.id, v, f);
    FamilyWeightPositive(catalog, st, f);
    assert Base(s, st') == v;
    hide Base, FamilySum, FamilyWeight, HasSibling, HasFamily, ValidCatalog, Apportion;
    RaiseNumerator(FamilyWeight(catalog, st, f), Base(s, st) as real, FamilySum(catalog, st, f),
      (v - Base(s, st)) as real);
  }

  lemma {:induction false} BasePositive(catalog: seq<Signal>, st: Strategy, s: Signal)
    requires ValidCatalog(catalog) && s in catalog
    ensures Base(s, st) > 0
  {
  }

  lemma {:induction false} FamilyWeightPositive(catalog: seq<Signal>, st: Strategy, f: Family)
    requires HasFamily(catalog, st, f)
    ensures FamilyWeight(catalog, st, f) > 0.0
  {
    BudgetsSum(st.thesis);
    var active := ActiveFamilies(catalog, st);
    ActiveBudgetPositive(st.thesis, active);
    assert f in active;
    assert Budget(st.thesis, f) > 0;
    hide Budget, ActiveBudget;
    PositiveQuotient(Budget(st.thesis, f) as real, 100.0, ActiveBudget(st.thesis, active) as real);
  }

  lemma {:induction false} RaiseNumerator(w: real, b: real, sum: real, d: real)
    requires w > 0.0 && 0.0 < b <= sum && d > 0.0
    ensures Apportion(w, b + d, sum + d) >= Apportion(w, b, sum)
    ensures Apportion(w, b + d, sum + d) > Apportion(w, b, sum) <==> sum > b
  {
    var x, y := Apportion(w, b + d, sum + d), Apportion(w, b, sum);
    assert x * (sum + d) == w * (b + d);
    assert y * sum == w * b;
    // (x - y) (sum + d) sum == w d (sum - b)
    var gap := w * d * (sum - b);
    assert (x - y) * (sum + d) * sum == gap by {
      assert x * (sum + d) * sum == w * (b + d) * sum;
      assert y * (sum + d) * sum == w * b * (sum + d);
    }
    SignOf(x - y, (sum + d) * sum, gap);
    PositiveTimes(w * d, sum - b, gap);
  }

  // A positive factor keeps the sign.
  lemma {:induction false} SignOf(x: real, m: real, p: real)
    requires m > 0.0 && p == x * m
    ensures (p > 0.0 <==> x > 0.0) && (p == 0.0 <==> x == 0.0)
  {
    if x > 0.0 { assert x * m > 0.0; } else if x < 0.0 { assert (-x) * m > 0.0; }
  }

  lemma {:induction false} PositiveTimes(k: real, x: real, p: real)
    requires k > 0.0 && p == k * x
    ensures (p > 0.0 <==> x > 0.0) && (p == 0.0 <==> x == 0.0)
  {
    SignOf(x, k, p);
  }

  // The other signals of the family lose weight, and the other families keep theirs.
  lemma {:induction false} RaisedOthers(catalog: seq<Signal>, st: Strategy, s: Signal, v: int, t: Signal)
    requires ValidCatalog(catalog) && s in catalog && st.intended(s.id) && v > Base(s, st)
    requires t in catalog && t != s && st.intended(t.id)
    ensures t.family == s.family ==> Weight(catalog, Raise(st, s.id, v), t) < Weight(catalog, st, t)
    ensures t.family != s.family ==> Weight(catalog, Raise(st, s.id, v), t) == Weight(catalog, st, t)
  {
    var f, st' := t.family, Raise(st, s.id, v);
    InFamily(catalog, st, t);
    BasePositive(catalog, st, t);
    BasePositive(catalog, st, s);
    SumRaised(catalog, st, s, v, f);
    FamilySumSign(catalog, st, f);
    RaiseKeepsFamilies(catalog, st, s.id, v, f);
    FamilyWeightPositive(catalog, st, f);
    assert Base(t, st') == Base(t, st);
    hide Base, FamilySum, FamilyWeight, HasSibling, HasFamily, ValidCatalog, Apportion;
    if f == s.family {
      RaiseDenominator(FamilyWeight(catalog, st, f), Base(t, st) as real, FamilySum(catalog, st, f),
        (v - Base(s, st)) as real);
    }
  }

  lemma {:induction false} RaiseDenominator(w: real, b: real, sum: real, d: real)
    requires w > 0.0 && 0.0 < b && sum > 0.0 && d > 0.0
    ensures Apportion(w, b, sum + d) < Apportion(w, b, sum)
  {
    var x, y := Apportion(w, b, sum + d), Apportion(w, b, sum);
    assert x * (sum + d) == w * b == y * sum;
    PositiveQuotient(w, b, sum + d);
    var gap := x * d;
    assert (y - x) * sum == gap;
    PositiveTimes(d, x, gap);
    SignOf(y - x, sum, gap);
  }

  // Only the keyword signal
  function KeywordOnly(): Strategy { Strategy("", id => id == "keyword_match", map[]) }

  // With the keyword signal alone in its family, raising its override from 5 to 50 changes nothing.
  lemma {:induction false} LoneSignalStays()
    ensures ValidCatalog(CATALOG) && CATALOG[2] in CATALOG && KeywordOnly().intended(CATALOG[2].id)
    ensures Base(CATALOG[2], KeywordOnly()) == 5
    ensures Weight(CATALOG, Raise(KeywordOnly(), CATALOG[2].id, 50), CATALOG[2])
        == Weight(CATALOG, KeywordOnly(), CATALOG[2])
  {
    CatalogIsValid();
    var s, st := CATALOG[2], KeywordOnly();
    assert forall i :: 0 <= i < |CATALOG| ==> !Counts(CATALOG[i], Dropping(st, s.id), s.family);
    hide ValidCatalog, Weight, CATALOG;
    assert !HasSibling(CATALOG, st, s);
    RaisedSignal(CATALOG, st, s, 50);
  }

  // Within a family the weights are proportional to the bases, an override above zero standing for the default.
  lemma {:induction false} WeightsProportional(catalog: seq<Signal>, st: Strategy, s: Signal, t: Signal)
    requires ValidCatalog(catalog) && s in catalog && t in catalog && s.family == t.family
    requires st.intended(s.id) && st.intended(t.id)
    ensures var a := if s.id in st.overrides && st.overrides[s.id] > 0 then st.overrides[s.id] else s.base;
            var b := if t.id in st.overrides && st.overrides[t.id] > 0 then st.overrides[t.id] else t.base;
            Weight(catalog, st, s) * b as real == Weight(catalog, st, t) * a as real
  {
    InFamily(catalog, st, s);
    FamilySumSign(catalog, st, s.family);
    var a, b := Base(s, st) as real, Base(t, st) as real;
    hide FamilySum, FamilyWeight, HasFamily, ValidCatalog, Apportion;
    Proportion(FamilyWeight(catalog, st, s.family), a, b, FamilySum(catalog, st, s.family));
  }

  lemma {:induction false} Proportion(w: real, a: real, b: real, sum: real)
    requires sum > 0.0
    ensures Apportion(w, a, sum) * b == Apportion(w, b, sum) * a
  {
    var x, y := Apportion(w, a, sum), Apportion(w, b, sum);
    assert x == w / sum * a && y == w / sum * b;
    SameProduct(w / sum, a, b);
  }

  lemma {:induction false} SameProduct(k: real, a: real, b: real)
    ensures k * a * b == k * b * a
  {
  }

  // A generic strategy that intends everything but the succession signal, without overrides
  function Everything(): Strategy { Strategy("", id => id != "succession_owner", map[]) }

  lemma {:induction false} IntendedIn(k: nat, f: Family)
    requires k < 10
    ensures Counts(CATALOG[k], Everything(), f)
            <==> f == (if k <= 2 then Fit else if k <= 6 then Deal else Economic) && k != 6
    ensures Base(CATALOG[k], Everything()) == [20, 15, 5, 12, 10, 8, 12, 12, 8, 10][k]
  {
    CatalogIsValid();
    assert CATALOG[6].id == "succession_owner";
    assert k != 6 ==> CATALOG[k].id != "succession_owner";
  }

  lemma {:induction false} EverythingSums(f: Family, n: nat)
    requires n <= 10
    ensures FamilySum(CATALOG[..n], Everything(), f)
            == match f
               case Fit => [0.0, 20.0, 35.0, 40.0, 40.0, 40.0, 40.0, 40.0, 40.0, 40.0, 40.0][n]
               case Deal => [0.0, 0.0, 0.0, 0.0, 12.0, 22.0, 30.0, 30.0, 30.0, 30.0, 30.0][n]
               case Economic => [0.0, 0.0, 0.0, 0.0, 0.0, 0.0, 0.0, 0.0, 12.0, 20.0, 30.0][n]
  {
    if n > 0 {
      EverythingSums(f, n - 1);
      IntendedIn(n - 1, f);
      FamilySumStep(CATALOG, Everything(), f, n - 1);
      hide FamilySum, Counts, Base, CATALOG;
    }
  }

  lemma {:induction false} CatalogRow(k: nat)
    requires k < 10
    ensures |CATALOG| == 10
    ensures CATALOG[k].id == ["ateco_precision", "turnover_proximity", "keyword_match", "ownership_concentration",
                              "company_age", "legal_form", "succession_owner", "turnover_trend", "productivity",
                              "equity_solidity"][k]
    ensures CATALOG[k].family == if k <= 2 then Fit else if k <= 6 then Deal else Economic
  {
  }

  lemma {:induction false} EverythingTotals(f: Family)
    ensures FamilySum(CATALOG, Everything(), f) == Budget("", f) as real > 0.0
  {
    CatalogRow(0);
    EverythingSums(f, 10);
    EverythingActive();
    assert CATALOG[..10] == CATALOG;
    hide FamilySum, CATALOG, Budget;
  }

  lemma {:induction false} WholeShare(budget: int, b: real)
    requires budget > 0
    ensures Apportion(budget as real * 100.0 / 100 as real, b, budget as real) == b
  {
  }

  lemma {:induction false} IntendsAllButOne(k: nat)
    requires k < 10 && k != 6
    ensures ValidCatalog(CATALOG) && CATALOG[k] in CATALOG && Everything().intended(CATALOG[k].id)
  {
    CatalogIsValid();
    CatalogRow(6);
    assert CATALOG[k].id != CATALOG[6].id;
  }

  lemma {:induction false} EverythingWeight(k: nat)
    requires k < 10 && k != 6
    requires ValidCatalog(CATALOG) && CATALOG[k] in CATALOG && Everything().intended(CATALOG[k].id)
    ensures Weight(CATALOG, Everything(), CATALOG[k]) == Base(CATALOG[k], Everything()) as real
  {
    var st, s := Everything(), CATALOG[k];
    hide FamilySum, Base, CATALOG, ValidCatalog, Budget, ActiveBudget, ActiveFamilies, Apportion, HasFamily;
    EverythingTotals(s.family);
    EverythingActive();
    WholeShare(Budget("", s.family), Base(s, st) as real);
  }

  // The catalogue's bases are the weights of such a strategy, out of 100.
  lemma {:induction false} DefaultWeights(k: nat)
    requires k < 10 && k != 6
    ensures ValidCatalog(CATALOG) && CATALOG[k] in CATALOG && Everything().intended(CATALOG[k].id)
    ensures Weight(CATALOG, Everything(), CATALOG[k]) == [20, 15, 5, 12, 10, 8, 0, 12, 8, 10][k] as real
  {
    hide CATALOG, ValidCatalog, Weight;
    IntendsAllButOne(k);
    EverythingWeight(k);
    IntendedIn(k, Fit);
  }

  lemma {:induction false} EverythingActive()
    ensures ActiveBudget("", ActiveFamilies(CATALOG, Everything())) == 100
    ensures Budget("", Fit) == 40 && Budget("", Deal) == 30 && Budget("", Economic) == 30
  {
    forall f: Family ensures HasFamily(CATALOG, Everything(), f) {
      var k := match f case Fit => 0 case Deal => 3 case Economic => 7;
      IntendedIn(k, f);
    }
  }
}
