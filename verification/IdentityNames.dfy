/** The name a company ends with when nobody else is around: that of the latest row that speaks for it. */
module IdentityNames {
  import opened Wrappers
  import opened Text
  import opened IdentityNormalize
  import opened IdentityPlan
  import opened IdentityClaims
  import opened IdentityComponents
  import opened IdentityWrites
  import opened IdentityRegistry
  import opened IdentityRely
  import opened IdentityGuarantee
  import opened IdentityAttempt
  import opened IdentityResolver
  import opened IdentityHistory
  import opened IdentitySerial

  /******* Rows that speak *******/

  // Row i says how its company is called: it has the key, a real instant and a name that is not blank.
  predicate Speaks(ss: seq<Sighting>, keys: seq<Key>, key: Key, i: nat)
    requires i < |ss| == |keys|
  {
    && keys[i] == key && TrimSpace(ss[i].o.companyName) != ""
    && ss[i].o.observedAt.Some? && ss[i].o.observedAt.value != ZERO_TIME
  }

  predicate Newer(o: Observation, at: Option<Instant>) {
    o.observedAt.Some? && (at.None? || at.value < o.observedAt.value)
  }

  // Of the rows from lo below n that speak, row i has the greatest instant, the first of them on a
  // tie, and it is newer than at.
  predicate Latest(ss: seq<Sighting>, keys: seq<Key>, key: Key, at: Option<Instant>, lo: nat, n: nat, i: nat)
    requires n <= |ss| == |keys|
  {
    && lo <= i < n && Speaks(ss, keys, key, i) && Newer(ss[i].o, at)
    && (forall j :: lo <= j < i && Speaks(ss, keys, key, j) ==> ss[j].o.observedAt.value < ss[i].o.observedAt.value)
    && (forall j :: i <= j < n && Speaks(ss, keys, key, j) ==> ss[j].o.observedAt.value <= ss[i].o.observedAt.value)
  }

  predicate NobodyNewer(ss: seq<Sighting>, keys: seq<Key>, key: Key, at: Option<Instant>, lo: nat, n: nat)
    requires n <= |ss| == |keys|
  {
    forall j :: lo <= j < n && Speaks(ss, keys, key, j) ==> !Newer(ss[j].o, at)
  }

  // The company is called what the row says, since the row's instant, by the row's source.
  predicate CalledBy(c: Company, o: Observation) {
    && c.name == Some(TrimSpace(o.companyName)) && c.nameAt == o.observedAt
    && c.nameSource == if TrimSpace(o.source) == "" then None else Some(TrimSpace(o.source))
  }

  // The name of a company that row o has just created: an untimed row names it without an instant.
  predicate IntroducedBy(c: Company, o: Observation) {
    var named, timed := TrimSpace(o.companyName) != "", o.observedAt.Some?;
    && c.name == (if named then Some(TrimSpace(o.companyName)) else None)
    && c.nameAt == (if named then o.observedAt else None)
    && c.nameSource == if named && timed && TrimSpace(o.source) != "" then Some(TrimSpace(o.source)) else None
  }

  predicate SameName(c: Company, d: Company) {
    d.name == c.name && d.nameAt == c.nameAt && d.nameSource == c.nameSource && d.origin == c.origin
  }

  /******* Rows and name observations *******/

  // The keys the rows got, all in normal form; of the rows with this key those below lo, and only
  // those, coin it.
  ghost predicate KeyedFrom(ctx: Context, ss: seq<Sighting>, keys: seq<Key>, key: Key, lo: nat) {
    && |keys| == |ss| && key != ""
    && (forall i: nat :: i < |ss| ==> keys[i] == KeyAt(ctx, ss, i) && NormalizeCompanyKey(keys[i]) == keys[i])
    && (forall i: nat :: i < |ss| && keys[i] == key ==> (MintsAt(ctx, ss, i) <==> i < lo))
  }

  lemma {:induction false} NamesOfAppend(a: seq<NameObservation>, b: seq<NameObservation>, key: Key)
    ensures NamesOf(a + b, key) == NamesOf(a, key) + NamesOf(b, key)
  {
    if a == [] {
      assert a + b == b;
    } else {
      assert (a + b)[1..] == a[1..] + b;
      NamesOfAppend(a[1..], b, key);
    }
  }

  lemma {:induction false} NameAfterLast(c: Company, ns: seq<NameObservation>, n: NameObservation)
    ensures NameAfter(c, ns + [n]) == NextName(NameAfter(c, ns), n)
  {
    assert (ns + [n])[..|ns|] == ns;
  }

  // The name after the first n rows
  function NameSoFar(c: Company, ctx: Context, ss: seq<Sighting>, n: nat, key: Key): Company
    requires n <= |ss|
  {
    NameAfter(c, NamesOf(RowNames(ctx, ss, n), key))
  }

  lemma {:induction false} OneName(n: NameObservation, key: Key)
    ensures NamesOf([n], key) == if NormalizeCompanyKey(n.key) == key then [n] else []
  {
    assert [n][1..] == [];
  }

  // One row renames its company when it speaks and is newer, and otherwise leaves the name alone.
  lemma {:induction false} NameStep(c: Company, ctx: Context, ss: seq<Sighting>, keys: seq<Key>, key: Key,
                                    lo: nat, n: nat)
    requires n < |ss| && KeyedFrom(ctx, ss, keys, key, lo)
    ensures var d, e := NameSoFar(c, ctx, ss, n, key), NameSoFar(c, ctx, ss, n + 1, key);
            if lo <= n && Speaks(ss, keys, key, n) && Newer(ss[n].o, d.nameAt)
            then CalledBy(e, ss[n].o) && e.origin == d.origin
            else e == d
  {
    hide MintsAt, KeyAt, NormalizeCompanyKey, NameAfter;
    var o, before := ss[n].o, RowNames(ctx, ss, n);
    NamesOfAppend(before, GivenNames(ctx, ss, n), key);
    TrimSpaceTrimmed(o.companyName);
    TrimSpaceOfTrimmed(TrimSpace(o.companyName));
    if Names(ctx, ss, n) {
      var m := NameObservation(keys[n], TrimSpace(o.companyName), o.observedAt.value, o.source);
      assert GivenNames(ctx, ss, n) == [m];
      OneName(m, key);
      assert NamesOf(before, key) + [] == NamesOf(before, key);
      NameAfterLast(c, NamesOf(before, key), m);
    } else {
      assert GivenNames(ctx, ss, n) == [] && before + [] == before;
    }
  }

  lemma CalledSince(c: Company, o: Observation)
    requires CalledBy(c, o)
    ensures c.nameAt == o.observedAt
  {
  }

  lemma {:induction false} NothingNamed(c: Company, ctx: Context, ss: seq<Sighting>, key: Key)
    ensures NameSoFar(c, ctx, ss, 0, key) == c
  {
  }

  lemma {:induction false} LatestStep(ss: seq<Sighting>, keys: seq<Key>, key: Key, at: Option<Instant>, lo: nat, n: nat,
                                      i: nat, found: bool)
    requires n < |ss| == |keys|
    requires if found then Latest(ss, keys, key, at, lo, n, i) else NobodyNewer(ss, keys, key, at, lo, n)
    ensures if lo <= n && Speaks(ss, keys, key, n) && Newer(ss[n].o, if found then ss[i].o.observedAt else at) then
              Latest(ss, keys, key, at, lo, n + 1, n)
            else if found then Latest(ss, keys, key, at, lo, n + 1, i)
            else NobodyNewer(ss, keys, key, at, lo, n + 1)
  {
  }

  lemma {:induction false} RowsDecide(c: Company, ctx: Context, ss: seq<Sighting>, keys: seq<Key>, key: Key,
                                      lo: nat, n: nat)
    returns (i: nat, found: bool)
    requires n <= |ss| && KeyedFrom(ctx, ss, keys, key, lo)
    ensures var d := NameSoFar(c, ctx, ss, n, key);
            && d.origin == c.origin
            && if found then Latest(ss, keys, key, c.nameAt, lo, n, i) && CalledBy(d, ss[i].o)
               else NobodyNewer(ss, keys, key, c.nameAt, lo, n) && d == c
  {
    assert |keys| == |ss|;
    hide KeyedFrom, NamesOf, RowNames, CalledBy;
    if n == 0 {
      i, found := 0, false;
      NothingNamed(c, ctx, ss, key);
    } else {
      i, found := RowsDecide(c, ctx, ss, keys, key, lo, n - 1);
      NameStep(c, ctx, ss, keys, key, lo, n - 1);
      var d := NameSoFar(c, ctx, ss, n - 1, key);
      if found { CalledSince(d, ss[i].o); }
      LatestStep(ss, keys, key, c.nameAt, lo, n - 1, i, found);
      hide NameSoFar, Latest, NobodyNewer;
      if lo <= n - 1 && Speaks(ss, keys, key, n - 1) && Newer(ss[n - 1].o, d.nameAt) {
        i, found := n - 1, true;
      }
    }
  }

  // At most one row is the latest, and then somebody is newer.
  lemma LatestUnique(ss: seq<Sighting>, keys: seq<Key>, key: Key, at: Option<Instant>, lo: nat, n: nat, i: nat, j: nat)
    requires n <= |ss| == |keys| && Latest(ss, keys, key, at, lo, n, i)
    ensures !NobodyNewer(ss, keys, key, at, lo, n)
    ensures Latest(ss, keys, key, at, lo, n, j) ==> i == j
  {
  }

  // The name after all rows is that of the latest row, and the one before when nobody is newer.
  lemma NameDecided(c: Company, ctx: Context, ss: seq<Sighting>, keys: seq<Key>, key: Key, lo: nat)
    requires KeyedFrom(ctx, ss, keys, key, lo)
    ensures var d := NameSoFar(c, ctx, ss, |ss|, key);
            && d.origin == c.origin
            && (forall i: nat :: Latest(ss, keys, key, c.nameAt, lo, |ss|, i) ==> CalledBy(d, ss[i].o))
            && (NobodyNewer(ss, keys, key, c.nameAt, lo, |ss|) ==> d == c)
  {
    var x, found := RowsDecide(c, ctx, ss, keys, key, lo, |ss|);
    hide KeyedFrom, NameSoFar, CalledBy;
    forall i: nat | Latest(ss, keys, key, c.nameAt, lo, |ss|, i) ensures found && x == i {
      LatestUnique(ss, keys, key, c.nameAt, lo, |ss|, i, x);
    }
    if found { LatestUnique(ss, keys, key, c.nameAt, lo, |ss|, x, x); }
  }

  /******* The phases before the names *******/

  lemma {:induction false} InsertKeeps(env: Env, w: World, drafts: seq<EntityDraft>, k: Key)
    requires Quiet(env) && InsertAll(env, w, drafts).Going? && forall d :: d in drafts ==> d.key != k
    ensures var before, after := w.View().companies, InsertAll(env, w, drafts).w.View().companies;
            k in before ==> k in after && after[k] == before[k]
    decreases |drafts|
  {
    hide Quiet, NewCompany;
    if drafts != [] {
      DisturbQuiet(env, w);
      var v, d := Disturb(env, w), drafts[0];
      assert d in drafts && forall e :: e in drafts[1..] ==> e in drafts;
      PutCompanyView(v, d.key, NewCompany(d));
      InsertKeeps(env, PutCompany(v, d.key, NewCompany(d)), drafts[1..], k);
    }
  }

  lemma {:induction false} InsertWrites(env: Env, w: World, drafts: seq<EntityDraft>, x: nat)
    requires Quiet(env) && InsertAll(env, w, drafts).Going? && DistinctDrafts(drafts) && x < |drafts|
    ensures var after := InsertAll(env, w, drafts).w.View().companies;
            drafts[x].key in after && after[drafts[x].key] == NewCompany(drafts[x])
    decreases |drafts|
  {
    hide Quiet, NewCompany;
    DisturbQuiet(env, w);
    var v, d := Disturb(env, w), drafts[0];
    var u := PutCompany(v, d.key, NewCompany(d));
    PutCompanyView(v, d.key, NewCompany(d));
    if x == 0 {
      forall e | e in drafts[1..] ensures e.key != d.key {
        var y :| 0 <= y < |drafts[1..]| && drafts[1..][y] == e;
        assert drafts[y + 1] == e;
      }
      InsertKeeps(env, u, drafts[1..], d.key);
    } else {
      InsertWrites(env, u, drafts[1..], x - 1);
    }
  }

  lemma {:induction false} AttachKeeps(env: Env, now: Instant, w: World, atts: seq<Attachment>)
    requires Quiet(env)
    ensures AttachAll(env, now, w, atts).w.View().companies == w.View().companies
  {
    AttachNoStray(env, now, w, atts);
    QuietAttaches(env, now, w, atts);
    hide AttachAll, Quiet;
  }

  lemma {:induction false} PromoteKeeps(env: Env, w: World, keys: seq<Key>, k: Key)
    requires Quiet(env) && k in w.View().companies
    ensures var after := PromoteAll(env, w, keys).View().companies;
            k in after && SameName(w.View().companies[k], after[k])
    decreases |keys|
  {
    hide Quiet;
    if keys != [] {
      DisturbQuiet(env, w);
      PromoteOneKeeps(Disturb(env, w), keys[0], k);
      PromoteKeeps(env, PromoteCompany(Disturb(env, w), keys[0]), keys[1..], k);
    }
  }

  lemma {:induction false} PromoteOneKeeps(w: World, key: Key, k: Key)
    requires k in w.View().companies
    ensures var after := PromoteCompany(w, key).View().companies;
            k in after && SameName(w.View().companies[k], after[k])
  {
    if PromoteCompany(w, key) != w {
      PutCompanyView(w, key, w.View().companies[key].(state := FiscalState));
    }
  }

  /******* Which rows coin *******/

  // An accepted row finds its company in the registry, or with an earlier row, or coins it.
  lemma {:induction false} CoinsOrFinds(ctx: Context, ss: seq<Sighting>, i: nat)
    requires i < |ss| && Valid(ctx) && KeyAt(ctx, ss, i) != ""
    ensures var k := KeyAt(ctx, ss, i);
            || MintsAt(ctx, ss, i) || k in ctx.known
            || (exists r :: r in ctx.existing && ctx.existing[r] == k)
            || (exists j: nat :: j < i && KeyAt(ctx, ss, j) == k)
    ensures MintsAt(ctx, ss, i) ==> forall j: nat :: j < i ==> KeyAt(ctx, ss, j) != KeyAt(ctx, ss, i)
  {
    var st, s, k := After(ctx, ss, i), ss[i], KeyAt(ctx, ss, i);
    ClaimsGrow(ctx, ss, i);
    StepOutcome(ctx, ss, i);
    Detection(s.ids, st.claimed, s.Seed(ctx), s.o);
    hide Valid, Step, DetectedKey, DetectedConflicts, ClaimAll;
    if MintsAt(ctx, ss, i) {
      Minting(ctx, ss, i);
      forall j: nat | j < i ensures KeyAt(ctx, ss, j) != k {
        MintedMonotone(ctx, ss, j + 1, i);
        KeyIsOld(ctx, ss, j, st.minted);
      }
    } else if k != s.Seed(ctx) {
      var x :| 0 <= x < |s.ids| && s.ids[x].ref in st.claimed && st.claimed[s.ids[x].ref] == k;
      if s.ids[x].ref in ctx.existing {
        assert ctx.existing[s.ids[x].ref] == k;
      } else {
        var j := ClaimOrigin(ctx, ss, i, s.ids[x].ref);
      }
    }
  }

  /******* One resolve *******/

  // A resolve with nobody else around that succeeds
  ghost predicate QuietlyResolved(t: Attempt, keys: seq<Key>) {
    && Quiet(t.env) && t.Ready() && Consistent(t.w.View()) && t.ss != []
    && ResolveBatch(t.env, t.now, t.mint, t.w, t.ss).1 == Resolved(keys)
  }

  function Before(t: Attempt): map<Key, Company> { t.w.View().companies }

  function Afterwards(t: Attempt): map<Key, Company> {
    ResolveBatch(t.env, t.now, t.mint, t.w, t.ss).0.View().companies
  }

  lemma {:induction false} ResolvedQuietly(t: Attempt, keys: seq<Key>)
    requires QuietlyResolved(t, keys)
    ensures Afterwards(t) == t.Final().View().companies && keys == t.ThePlan().keys && t.ThePlan().Clean()
    ensures Valid(t.Ctx()) && t.Inserted().Going? && t.AttachFold().Going?
  {
    QuietFirstAttempt(t);
    ResultShape(t);
    ReadsValid(t);
  }

  // Its rows' keys, and which of them coin.
  lemma {:induction false} ResolvedKeys(t: Attempt, keys: seq<Key>, i: nat)
    requires QuietlyResolved(t, keys) && i < |t.ss|
    ensures |keys| == |t.ss| && keys[i] == KeyAt(t.Ctx(), t.ss, i) != "" && NormalizeCompanyKey(keys[i]) == keys[i]
    ensures MintsAt(t.Ctx(), t.ss, i) <==> keys[i] !in Before(t) && forall j :: 0 <= j < i ==> keys[j] != keys[i]
  {
    ResolvedQuietly(t, keys);
    CleanKeys(t.Ctx(), t.ss);
    RowCompany(t, i);
    InsertedGood(t);
    CoinsOrFinds(t.Ctx(), t.ss, i);
    QuietReads(t);
    ReadsValid(t);
    hide Legal, Quiet, Consistent, ConsistentExcept, Evolves, Valid, NormalizeCompanyKey;
    if MintsAt(t.Ctx(), t.ss, i) {
      Minting(t.Ctx(), t.ss, i);
      ReadsFresh(t, After(t.Ctx(), t.ss, i).minted, 0);
    }
  }

  lemma {:induction false} ResolvedFrom(t: Attempt, keys: seq<Key>, key: Key, lo: nat)
    requires QuietlyResolved(t, keys) && key != ""
    requires forall i :: 0 <= i < |t.ss| && |keys| == |t.ss| && keys[i] == key ==>
               ((key !in Before(t) && forall j :: 0 <= j < i ==> keys[j] != key) <==> i < lo)
    ensures KeyedFrom(t.Ctx(), t.ss, keys, key, lo)
  {
    ResolvedQuietly(t, keys);
    CleanKeys(t.Ctx(), t.ss);
    hide QuietlyResolved, Before, MintsAt, NormalizeCompanyKey, Attempt.Ctx, KeyAt, Valid, Attempt.ThePlan;
    forall i: nat | i < |t.ss|
      ensures keys[i] == KeyAt(t.Ctx(), t.ss, i) && NormalizeCompanyKey(keys[i]) == keys[i]
      ensures keys[i] == key ==> (MintsAt(t.Ctx(), t.ss, i) <==> i < lo)
    {
      ResolvedKeys(t, keys, i);
    }
  }

  // The names a resolve writes, from the row the phases before have left.
  lemma {:induction false} NamesWritten(t: Attempt, keys: seq<Key>, key: Key)
    requires QuietlyResolved(t, keys) && key in t.Promoted().View().companies
    ensures key in Afterwards(t)
    ensures Afterwards(t)[key] == NameSoFar(t.Promoted().View().companies[key], t.Ctx(), t.ss, |t.ss|, key)
  {
    ResolvedQuietly(t, keys);
    PromotedGood(t);
    PlanLists(t.Ctx(), t.ss, |t.ss|);
    hide Legal, Good, Consistent, Evolves, ConsistentExcept, Valid, Quiet, NameAfter, RowNames, ResolveBatch;
    ObserveAllFolds(t.env, t.mint, t.Promoted(), t.ThePlan().names, key);
  }

  lemma {:induction false} FoundKept(t: Attempt, keys: seq<Key>, key: Key)
    requires QuietlyResolved(t, keys) && key in Before(t)
    ensures var c := t.Promoted().View().companies; key in c && SameName(Before(t)[key], c[key])
  {
    ResolvedQuietly(t, keys);
    QuietReads(t);
    PlanInsertable(t);
    hide Legal, Good, Consistent, Quiet, Valid, ResolveBatch, Attempt.ThePlan, SameName;
    InsertKeeps(t.env, t.Planned(), t.ThePlan().newEntities, key);
    AttachKeeps(t.env, t.now, t.Inserted().w, t.ThePlan().attachments);
    PromoteKeeps(t.env, t.AttachFold().w, t.ThePlan().promotions, key);
  }

  // Main result, a company that was there: it is called what the latest newer row says, with that row's
  // instant and source; it keeps its name when no row is newer, and its origin in any case.
  lemma {:induction false} FoundName(t: Attempt, keys: seq<Key>, key: Key)
    requires QuietlyResolved(t, keys) && |keys| == |t.ss| && key in Before(t)
    ensures key in Afterwards(t) && Afterwards(t)[key].origin == Before(t)[key].origin
    ensures forall i: nat :: Latest(t.ss, keys, key, Before(t)[key].nameAt, 0, |t.ss|, i) ==>
              CalledBy(Afterwards(t)[key], t.ss[i].o)
    ensures NobodyNewer(t.ss, keys, key, Before(t)[key].nameAt, 0, |t.ss|) ==>
              SameName(Before(t)[key], Afterwards(t)[key])
  {
    FoundKept(t, keys, key);
    NamesWritten(t, keys, key);
    assert key != "" by { ResolvedSound(t, keys); }
    ResolvedFrom(t, keys, key, 0);
    hide QuietlyResolved, Before, Afterwards, KeyedFrom, NameSoFar, CalledBy, Latest, NobodyNewer, Attempt.Promoted;
    NameDecided(t.Promoted().View().companies[key], t.Ctx(), t.ss, keys, key, 0);
  }

  lemma {:induction false} ResolvedSound(t: Attempt, keys: seq<Key>)
    requires QuietlyResolved(t, keys)
    ensures Sound(t.w.View())
  {
  }

  // The row a coining row adds to its company's table.
  lemma {:induction false} CoinedRow(ctx: Context, ss: seq<Sighting>, i: nat) returns (x: nat)
    requires i < |ss| && Valid(ctx) && MintsAt(ctx, ss, i)
    ensures x < |PlanFor(ctx, ss).newEntities|
    ensures PlanFor(ctx, ss).newEntities[x].key == KeyAt(ctx, ss, i)
    ensures IntroducedBy(NewCompany(PlanFor(ctx, ss).newEntities[x]), ss[i].o)
    ensures NewCompany(PlanFor(ctx, ss).newEntities[x]).origin == Assigned
  {
    StepGives(ctx, ss, i);
    PlanOnlyExtends(ctx, ss, i + 1, |ss|);
    x := |After(ctx, ss, i).plan.newEntities|;
    hide After, KeyAt, Valid, MintsAt;
    assert GivenEntities(ctx, ss, i)[0] == PlanFor(ctx, ss).newEntities[x];
    TrimSpaceTrimmed(ss[i].o.source);
  }

  lemma {:induction false} CreatedStarts(t: Attempt, keys: seq<Key>, i: nat)
    requires QuietlyResolved(t, keys) && i < |t.ss| && MintsAt(t.Ctx(), t.ss, i)
    ensures var c, key := t.Promoted().View().companies, KeyAt(t.Ctx(), t.ss, i);
            key in c && IntroducedBy(c[key], t.ss[i].o) && c[key].origin == Assigned
  {
    ResolvedQuietly(t, keys);
    PlanInsertable(t);
    var x := CoinedRow(t.Ctx(), t.ss, i);
    hide Legal, Good, Consistent, Quiet, Valid, ResolveBatch, Attempt.ThePlan, KeyAt, MintsAt;
    var drafts := t.ThePlan().newEntities;
    InsertWrites(t.env, t.Planned(), drafts, x);
    AttachKeeps(t.env, t.now, t.Inserted().w, t.ThePlan().attachments);
    PromoteKeeps(t.env, t.AttachFold().w, t.ThePlan().promotions, drafts[x].key);
  }

  // Main result, a company that was not there: the first row with its key creates it and names it, and
  // of the rows after that the latest newer one decides.
  lemma {:induction false} CreatedName(t: Attempt, keys: seq<Key>, first: nat)
    requires QuietlyResolved(t, keys) && first < |keys| == |t.ss| && keys[first] !in Before(t)
    requires forall j :: 0 <= j < first ==> keys[j] != keys[first]
    ensures var key, o := keys[first], t.ss[first].o;
            var at := if TrimSpace(o.companyName) != "" then o.observedAt else None;
            && key in Afterwards(t) && Afterwards(t)[key].origin == Assigned
            && (forall i: nat :: Latest(t.ss, keys, key, at, first + 1, |t.ss|, i) ==>
                  CalledBy(Afterwards(t)[key], t.ss[i].o))
            && (NobodyNewer(t.ss, keys, key, at, first + 1, |t.ss|) ==> IntroducedBy(Afterwards(t)[key], t.ss[first].o))
  {
    var key := keys[first];
    ResolvedKeys(t, keys, first);
    CreatedStarts(t, keys, first);
    NamesWritten(t, keys, key);
    ResolvedFrom(t, keys, key, first + 1);
    hide QuietlyResolved, Before, Afterwards, KeyedFrom, NameSoFar, CalledBy, Latest, NobodyNewer, Attempt.Promoted;
    NameDecided(t.Promoted().View().companies[key], t.Ctx(), t.ss, keys, key, first + 1);
  }
}
