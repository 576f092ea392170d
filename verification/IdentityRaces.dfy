/** The bound on lost attempts is sharp: three free identifiers can cost all three attempts. */
module IdentityRaces {
  import opened Wrappers
  import opened Text
  import opened Digits
  import opened IdentityNormalize
  import opened IdentityPlan
  import opened IdentityRegistry
  import opened IdentityRely
  import opened IdentityAttempt
  import opened IdentityOrder
  import opened IdentityResolver
  import opened IdentityReplay

  type Index = k: nat | k < 3

  /******* Three observations, each with one VAT number *******/

  function Vat(k: Index): string { [CharOf(k)] + "1234567890" }

  function VatRef(k: Index): Ref { Ref(Fiscal, Vat(k)) }

  function VatID(k: Index): Identifier { Identifier(VatRef(k), true, false) }

  function Row(k: Index): Sighting { Sighting([VatID(k)], "", Seen(Vat(k), "")) }

  function Observed(): seq<Observation> { [Seen(Vat(0), ""), Seen(Vat(1), ""), Seen(Vat(2), "")] }

  lemma {:induction false} VatsDiffer(j: Index, k: Index)
    requires j != k
    ensures VatRef(j) != VatRef(k)
  {
    assert Vat(j)[0] == CharOf(j) && Vat(k)[0] == CharOf(k);
  }

  lemma {:induction false} RowSighted(k: Index)
    ensures Sight(Seen(Vat(k), "")) == Row(k)
  {
    hide StableVAT, NormalizeCompanyKey, NormalizeFiscalValue;
    BlankForms();
    StableVATOfDigits(Vat(k));
  }

  function Batch(): seq<Sighting> { [Row(0), Row(1), Row(2)] }

  lemma {:induction false} BatchSighted()
    ensures SightAll(Observed()) == Batch()
  {
    hide Sight, Row, Seen, Vat;
    RowSighted(0);
    RowSighted(1);
    RowSighted(2);
  }

  /******* The rival *******/

  function RivalKey(k: Index): Key { ['F', CharOf(k)] }

  const RIVAL := Company(None, None, None, FiscalState, Adopted)

  // A company of the rival's that owns VAT number k
  function Claimed(db: Db, k: Index): Db {
    WithClaim(db, RivalKey(k), VatRef(k))
  }

  // The first VAT number this transaction has not written
  function NextVat(t: Tx): Index {
    if VatRef(0) !in t.own.ids then 0 else if VatRef(1) !in t.own.ids then 1 else 2
  }

  predicate Free(t: Tx, k: Index) {
    && VatRef(k) !in t.committed.ids && VatRef(k) !in t.own.ids
    && RivalKey(k) !in t.committed.companies && RivalKey(k) !in t.own.companies
  }

  // As soon as this transaction has written a company, the rival takes the VAT number it will write next.
  function Rival(n: nat, t: Tx): Db {
    if t.own.companies == map[] || !Free(t, NextVat(t)) then t.committed else Claimed(t.committed, NextVat(t))
  }

  lemma {:induction false} RivalKeyNormal(k: Index)
    ensures RivalKey(k) != "" && NormalizeCompanyKey(RivalKey(k)) == RivalKey(k)
  {
    TrimSpaceOfTrimmed(RivalKey(k));
    hide TrimSpace;
    assert ToUpper(RivalKey(k)) == RivalKey(k);
  }

  lemma {:induction false} RivalKeyApart(k: Index, m: nat)
    ensures RivalKey(k) != Numbered(m)
  {
    assert RivalKey(k)[0] == 'F' && Numbered(m)[0] == 'K';
  }

  lemma {:induction false} RivalKeysDiffer(j: Index, k: Index)
    requires j != k
    ensures RivalKey(j) != RivalKey(k)
  {
    assert RivalKey(j)[1] == CharOf(j) && RivalKey(k)[1] == CharOf(k);
  }

  function WithClaim(db: Db, key: Key, r: Ref): Db {
    Db(db.companies[key := RIVAL], db.ids[r := IdRow(key, true, false, 0, 0)])
  }

  lemma {:induction false} ClaimGrows(db: Db, key: Key, r: Ref)
    requires Sound(db) && r !in db.ids && key !in db.companies && key != "" && NormalizeCompanyKey(key) == key
    ensures DbGrows(db, WithClaim(db, key, r)) && Sound(WithClaim(db, key, r))
  {
    hide Sound, DbGrows, NormalizeCompanyKey;
    DbPutCompany(db, key, RIVAL);
    var half := Db(db.companies[key := RIVAL], db.ids);
    DbPutId(half, r, IdRow(key, true, false, 0, 0));
    DbGrowsTrans(db, half, WithClaim(db, key, r));
  }

  lemma {:induction false} ClaimConsistent(db: Db, key: Key, r: Ref)
    requires Sound(db) && Consistent(db) && r !in db.ids && key !in db.companies && r.ns == Fiscal
    ensures Consistent(WithClaim(db, key, r))
  {
    var next := WithClaim(db, key, r);
    forall c | c in next.companies ensures next.companies[c].state == FiscalState <==> HasFiscalId(next, c) {
      if c == key {
        assert r in next.ids;
      } else {
        assert HasFiscalId(next, c) <==> HasFiscalId(db, c);
      }
    }
  }

  lemma {:induction false} ClaimLocks(t: Tx, key: Key, r: Ref)
    requires r !in t.own.ids && key !in t.own.companies
    ensures LocksKept(t, WithClaim(t.committed, key, r))
  {
  }

  lemma {:induction false} ClaimStep(mint: nat -> Key, t: Tx, key: Key, r: Ref)
    requires GoodTx(t) && r !in t.committed.ids && r !in t.own.ids && r.ns == Fiscal
    requires key !in t.committed.companies && key !in t.own.companies
    requires key != "" && NormalizeCompanyKey(key) == key && forall m :: mint(m) != key
    ensures EnvStep(mint, t, WithClaim(t.committed, key, r))
  {
    assert Sound(t.committed) && Consistent(t.committed);
    hide GoodTx, NormalizeCompanyKey, Sound, Consistent, DbGrows, LocksKept;
    ClaimGrows(t.committed, key, r);
    ClaimConsistent(t.committed, key, r);
    ClaimLocks(t, key, r);
  }

  lemma {:induction false} RivalStep(t: Tx, k: Index)
    requires GoodTx(t) && Free(t, k)
    ensures EnvStep(Numbered, t, Claimed(t.committed, k))
  {
    RivalKeyNormal(k);
    forall m: nat ensures Numbered(m) != RivalKey(k) { RivalKeyApart(k, m); }
    hide GoodTx, EnvStep, Numbered, NormalizeCompanyKey, RivalKey, Vat, WithClaim;
    ClaimStep(Numbered, t, RivalKey(k), VatRef(k));
  }

  lemma {:induction false} RivalLegal()
    ensures Legal(Rival, Numbered)
  {
    hide GoodTx, EnvStep, Numbered, Free, Claimed;
    forall n, t | GoodTx(t) ensures EnvStep(Numbered, t, Rival(n, t)) {
      if Rival(n, t) == t.committed {
        NobodyCommits(Numbered, t);
      } else {
        RivalStep(t, NextVat(t));
      }
    }
  }

  // What is committed after the rival has taken the first k VAT numbers
  function RivalDb(k: nat): Db
    requires k <= 3
  {
    if k == 0 then NoRows() else Claimed(RivalDb(k - 1), k - 1)
  }

  lemma {:induction false} TakenRows(k: nat, j: Index)
    requires k <= 3
    ensures VatRef(j) in RivalDb(k).ids <==> j < k
    ensures j < k ==> RivalDb(k).ids[VatRef(j)].owner == RivalKey(j)
    ensures RivalKey(j) in RivalDb(k).companies <==> j < k
  {
    hide Vat, RivalKey;
    if k > 0 {
      TakenRows(k - 1, j);
      if j != k - 1 {
        VatsDiffer(j, k - 1);
        RivalKeysDiffer(j, k - 1);
      }
    }
  }

  /******* One attempt *******/

  function Try(w: World): Attempt { Attempt(Rival, 0, Numbered, w, Batch()) }

  // The rival has taken k numbers and this transaction has written nothing.
  ghost predicate Before(w: World, k: nat) {
    k <= 3 && w.tx == Tx(RivalDb(k), NoRows()) && Good(Numbered, w) && Consistent(w.View())
  }

  lemma {:induction false} NobodyCarries(db: Db)
    ensures KnownOf(db, Batch()) == {}
  {
    hide Vat;
    forall key ensures !BatchCarries(Batch(), key) {
      assert forall i :: 0 <= i < |Batch()| ==> Batch()[i].prior == "";
    }
  }

  lemma {:induction false} TryReady(w: World, k: nat)
    requires Before(w, k)
    ensures Try(w).Ready() && Consistent(w.View())
  {
    RivalLegal();
  }

  lemma {:induction false} TryReads(w: World, k: nat)
    requires Before(w, k)
    ensures var t := Try(w);
            && t.ReadWorld().tx == w.tx && t.Planned().tx == w.tx
            && t.Ctx().existing == OwnersOf(RivalDb(k), Batch()) && t.Ctx().known == {}
            && forall n :: t.Ctx().mint(n) == Numbered(w.minted + n)
  {
    hide Good, Consistent, Numbered, RivalDb, After, Batch, OwnersOf, KnownOf, Rival;
    NothingWritten(w, k);
    NothingWritten(Disturb(Rival, w), k);
    NobodyCarries(RivalDb(k));
    hide Disturb;
  }

  lemma {:induction false} NothingWritten(w: World, k: nat)
    requires k <= 3 && w.tx == Tx(RivalDb(k), NoRows())
    ensures Disturb(Rival, w).tx == w.tx && Disturb(Rival, w).View() == RivalDb(k) && w.View() == RivalDb(k)
  {
    assert RivalDb(k).ids + map[] == RivalDb(k).ids;
    assert RivalDb(k).companies + map[] == RivalDb(k).companies;
    hide RivalDb, Free, Claimed;
  }

  // What the plan has after n rows: each row's attachment, to the rival for the first k, else to a new company.
  ghost predicate PlannedSoFar(c: Context, st: PlanState, k: nat, n: nat) {
    && st.plan.missing == [] && st.plan.conflicts == [] && |st.plan.attachments| == n
    && (forall i: Index :: i < n ==>
          && st.plan.attachments[i].identifier == VatID(i) && st.plan.attachments[i].observedAt == None
          && if i < k then st.plan.attachments[i].key == RivalKey(i) else exists m ::
             st.plan.attachments[i].key == c.mint(m))
    && (forall i: Index :: VatRef(i) in st.claimed <==> i < k || i < n)
    && (forall i: Index :: i < k ==> VatRef(i) in st.claimed && st.claimed[VatRef(i)] == RivalKey(i))
    && (n > k || st.created != {} ==> st.plan.newEntities != [])
    && (forall d :: d in st.plan.newEntities ==> exists m :: d.key == c.mint(m))
  }

  // A row of one identifier without a known prior key
  lemma {:induction false} OneIdStep(c: Context, st: PlanState, s: Sighting, a: Identifier)
    requires s.ids == [a] && s.Seed(c) == "" && (a.ref in st.claimed ==> st.claimed[a.ref] != "")
    ensures Step(c, st, s) == if a.ref in st.claimed then Accept(st, s, st.claimed[a.ref], false)
                              else Accept(st, s, c.mint(st.minted), true)
    ensures forall key :: ClaimAll(st.claimed, s.ids, key) == st.claimed[a.ref := key]
    ensures forall key, at :: AttachmentsOf(s.ids, key, at) == [Attachment(a, key, at)]
  {
    assert s.ids[1..] == [];
    forall key ensures ClaimAll(st.claimed, s.ids, key) == st.claimed[a.ref := key] {
      assert ClaimAll(st.claimed[a.ref := key], [], key) == st.claimed[a.ref := key];
    }
    var key := if a.ref in st.claimed then st.claimed[a.ref] else "";
    assert DetectedConflicts([], st.claimed, key, s.o) == [] && DetectedKey([], st.claimed, key) == key;
    hide Accept, Sighting.Seed;
  }

  lemma {:induction false} PlannedStep(c: Context, st: PlanState, k: nat, n: Index)
    requires c.known == {} && k <= 3 && PlannedSoFar(c, st, k, n)
    ensures PlannedSoFar(c, Step(c, st, Row(n)), k, n + 1)
  {
    var s, a := Row(n), VatID(n);
    if n < k { assert st.claimed[a.ref] == RivalKey(n); RivalKeyNormal(n); }
    assert s.ids == [a] && s.Seed(c) == "" && s.o.observedAt == None && (a.ref in st.claimed <==> n < k);
    OneIdStep(c, st, s, a);
    forall i: Index | i != n ensures VatRef(i) != VatRef(n) { VatsDiffer(i, n); }
    hide Row, VatRef, RivalKey, Step, ClaimAll, AttachmentsOf, Sighting.Seed, Sighting.HasFiscal, Sighting.Name;
    var key := if n < k then RivalKey(n) else c.mint(st.minted);
    var next := Accept(st, s, key, n >= k);
    assert next.plan.attachments == st.plan.attachments + [Attachment(a, key, None)];
    assert next.claimed == st.claimed[a.ref := key];
    forall i: Index | i < n + 1
      ensures next.plan.attachments[i].identifier == VatID(i) && next.plan.attachments[i].observedAt == None
      ensures if i < k then next.plan.attachments[i].key == RivalKey(i)
              else exists m :: next.plan.attachments[i].key == c.mint(m)
    {
      if i < n { assert next.plan.attachments[i] == st.plan.attachments[i]; }
    }
  }

  lemma {:induction false} PlanStarts(c: Context, k: nat)
    requires k <= 3 && c.existing == OwnersOf(RivalDb(k), Batch())
    ensures PlannedSoFar(c, InitialState(c), k, 0)
  {
    hide RivalDb, VatRef, RivalKey, BatchMentions;
    forall i: Index
      ensures VatRef(i) in c.existing <==> i < k
      ensures i < k ==> c.existing[VatRef(i)] == RivalKey(i)
    {
      TakenRows(k, i);
      BatchHas(i);
    }
  }

  lemma {:induction false} BatchHas(i: Index)
    ensures BatchMentions(Batch(), VatRef(i))
  {
    assert Batch()[i] == Row(i) && Row(i).ids[0].ref == VatRef(i);
    hide Vat;
    assert MentionsRef(Batch()[i].ids, VatRef(i));
  }

  lemma {:induction false} ThreeRows(c: Context, k: nat)
    requires k <= 3 && c.known == {} && c.existing == OwnersOf(RivalDb(k), Batch())
    ensures PlannedSoFar(c, After(c, Batch(), 3), k, 3)
  {
    hide PlannedSoFar, Step, Row, RivalDb, OwnersOf;
    PlanStarts(c, k);
    AfterThree(c, Row(0), Row(1), Row(2));
    PlannedStep(c, InitialState(c), k, 0);
    PlannedStep(c, After(c, Batch(), 1), k, 1);
    PlannedStep(c, After(c, Batch(), 2), k, 2);
  }

  lemma {:induction false} TryPlan(w: World, k: nat)
    requires Before(w, k)
    ensures PlannedSoFar(Try(w).Ctx(), Try(w).State(), k, 3)
  {
    TryReads(w, k);
    BeforeTx(w, k);
    hide Before, Attempt.Ctx, Attempt.ReadWorld, Attempt.Planned, PlannedSoFar, After, RivalDb, OwnersOf;
    ThreeRows(Try(w).Ctx(), k);
  }

  lemma {:induction false} AfterThree(c: Context, x: Sighting, y: Sighting, z: Sighting)
    ensures var ss := [x, y, z];
            && After(c, ss, 1) == Step(c, InitialState(c), x)
            && After(c, ss, 2) == Step(c, After(c, ss, 1), y)
            && After(c, ss, 3) == Step(c, After(c, ss, 2), z)
  {
    hide Step;
    assert After(c, [x, y, z], 0) == InitialState(c);
  }

  // While companies are inserted the rival takes the first VAT number at most.
  lemma {:induction false} InsertsTake(w: World, drafts: seq<EntityDraft>, k: nat)
    requires k < 3 && w.tx.own.ids == map[] && forall d :: d in drafts ==> d.key != RivalKey(k)
    requires RivalKey(k) !in w.tx.own.companies
    requires w.tx.committed == RivalDb(k) || (k == 0 && w.tx.committed == RivalDb(1))
    ensures var v := InsertAll(Rival, w, drafts).w;
            && v.tx.own.ids == map[] && RivalKey(k) !in v.tx.own.companies
            && (v.tx.committed == RivalDb(k) || (k == 0 && v.tx.committed == RivalDb(1)))
    ensures InsertAll(Rival, w, drafts).Going? && (drafts != [] || w.tx.own.companies != map[]) ==>
              InsertAll(Rival, w, drafts).w.tx.own.companies != map[]
    decreases |drafts|
  {
    hide RivalDb, VatRef, RivalKey, NewCompany;
    if drafts != [] {
      RivalTakes(w, k, 0);
      var v := Disturb(Rival, w);
      var u := PutCompany(v, drafts[0].key, NewCompany(drafts[0]));
      assert drafts[0] in drafts && drafts[0].key in u.tx.own.companies;
      InsertsTake(u, drafts[1..], k);
    }
  }

  // What the rival does before a statement of attempt k when the next VAT number to write is number i.
  lemma {:induction false} RivalTakes(w: World, k: nat, i: Index)
    requires i <= k < 3 && NextVat(w.tx) == i && VatRef(i) !in w.tx.own.ids && RivalKey(k) !in w.tx.own.companies
    requires w.tx.committed == RivalDb(k) || (k == i == 0 && w.tx.committed == RivalDb(1))
    ensures var v := Disturb(Rival, w);
            && v.tx.own == w.tx.own
            && v.tx.committed == if w.tx.own.companies == map[] || i < k then w.tx.committed else RivalDb(k + 1)
  {
    TakenRows(k, i);
    TakenRows(1, 0);
    assert RivalDb(k + 1) == Claimed(RivalDb(k), k);
    hide RivalDb, VatRef, RivalKey, Claimed;
  }

  // The attachments run into the VAT number the rival took last.
  lemma {:induction false} AttachesRace(w: World, atts: seq<Attachment>, i: nat, k: Index)
    requires i <= k && |atts| == 3 && w.tx.own.companies != map[] && RivalKey(k) !in w.tx.own.companies
    requires forall j: Index :: atts[j].identifier.ref == VatRef(j)
    requires (forall j: Index :: j < k ==> atts[j].key == RivalKey(j)) && atts[k].key != RivalKey(k)
    requires forall j: Index :: VatRef(j) in w.tx.own.ids <==> j < i
    requires w.tx.committed == RivalDb(k) || (k == i == 0 && w.tx.committed == RivalDb(1))
    ensures var f := AttachAll(Rival, 0, w, atts[i..]);
            f.Stopped? && f.outcome.Raced? && f.w.tx.committed == RivalDb(k + 1)
    decreases k - i
  {
    var v, a := Disturb(Rival, w), atts[i];
    assert NextVat(w.tx) == i;
    RivalTakes(w, k, i);
    TakenRows(k, i);
    TakenRows(k + 1, i);
    hide RivalDb, VatRef, RivalKey, Disturb, MergedRow, InsertedRow;
    assert VatRef(i) in v.View().ids && v.View().ids[VatRef(i)].owner == RivalKey(i);
    assert atts[i..][0] == a && atts[i..][1..] == atts[i + 1..];
    if i < k {
      var u := PutId(v, VatRef(i), MergedRow(v.View().ids[VatRef(i)], a));
      assert AttachIdentifier(v, a, 0) == Attached(u);
      forall j: Index ensures VatRef(j) in u.tx.own.ids <==> j < i + 1 {
        if j != i { VatsDiffer(j, i); }
      }
      AttachesRace(u, atts, i + 1, k);
    } else {
      assert AttachIdentifier(v, a, 0).Lost?;
    }
  }

  lemma {:induction false} TryInserts(w: World, k: nat)
    requires Before(w, k)
    ensures Try(w).Inserted().Going?
  {
    TryReady(w, k);
    hide Before, Good, Legal, Consistent, Attempt.Ready, Attempt.Inserted;
    InsertedGood(Try(w));
  }

  lemma {:induction false} TryRaces(w: World, k: Index)
    requires Before(w, k)
    ensures Try(w).Result().1.Raced? && Try(w).Result().0.tx.committed == RivalDb(k + 1)
  {
    var t := Try(w);
    BeforeTx(w, k);
    TryInserts(w, k);
    TryReads(w, k);
    TryPlan(w, k);
    assert t.env == Rival && t.now == 0;
    hide Before, RivalDb, PlannedSoFar, Try, Attempt.Planned, Attempt.Inserted, Attempt.AttachFold, Attempt.State;
    hide Attempt.Ctx, Attempt.ReadWorld, Attempt.Result, Attempt.ThePlan, Attempt.Final;
    TryWrites(t, k);
    ResultShape(t);
  }

  lemma {:induction false} BeforeTx(w: World, k: nat)
    requires Before(w, k)
    ensures k <= 3 && w.tx == Tx(RivalDb(k), NoRows())
  {
  }

  // Attempt k is lost, and leaves one more VAT number to the rival.
  lemma {:induction false} TryLost(w: World, k: Index)
    requires Before(w, k)
    ensures Try(w).Result().1.Raced? && Before(RollbackTo(Try(w).Result().0, NoRows()), k + 1)
  {
    TryReady(w, k);
    TryRaces(w, k);
    BeforeTx(w, k);
    hide Good, Legal, RivalDb, ResolveOnce, Attempt.Ready, Consistent, Evolves, Batch;
    LostAttempt(Try(w));
  }

  lemma {:induction false} TryWrites(t: Attempt, k: Index)
    requires t.env == Rival && t.now == 0 && t.Inserted().Going? && t.Planned().tx == Tx(RivalDb(k), NoRows())
    requires PlannedSoFar(t.Ctx(), t.State(), k, 3) && forall n :: t.Ctx().mint(n) == Numbered(t.w.minted + n)
    ensures t.ThePlan().missing == [] && t.ThePlan().conflicts == []
    ensures t.AttachFold().Stopped? && t.AttachFold().outcome.Raced? && t.AttachFold().w.tx.committed == RivalDb(k + 1)
  {
    var plan, p := t.ThePlan(), t.Planned();
    forall n ensures t.Ctx().mint(n) != RivalKey(k) { RivalKeyApart(k, t.w.minted + n); }
    assert plan.attachments[k].key != RivalKey(k);
    assert forall d :: d in plan.newEntities ==> d.key != RivalKey(k);
    assert forall j: Index :: plan.attachments[j].identifier.ref == VatRef(j);
    hide RivalDb, VatRef, RivalKey, PlannedSoFar, Numbered, Attempt.Ctx, Attempt.State, Attempt.Planned;
    InsertsTake(p, plan.newEntities, k);
    assert plan.attachments[0..] == plan.attachments;
    AttachesRace(t.Inserted().w, plan.attachments, 0, k);
  }

  lemma {:induction false} StartsBefore()
    ensures Before(EmptyWorld(), 0)
  {
    EmptyWorldGood();
    hide Good, Consistent;
  }

  lemma {:induction false} ThreeFree()
    ensures |BatchRefs(Batch()) - Taken(Batch(), EmptyWorld())| == 3
  {
    VatsDiffer(0, 1);
    VatsDiffer(0, 2);
    VatsDiffer(1, 2);
    hide Vat;
    var all := {VatRef(0), VatRef(1), VatRef(2)};
    forall r ensures r in BatchRefs(Batch()) <==> r in all {
      forall k: Index ensures VatRef(k) in BatchRefs(Batch()) {
        assert Batch()[k] == Row(k) && Row(k).ids[0].ref == VatRef(k);
      }
    }
    assert BatchRefs(Batch()) == all && Taken(Batch(), EmptyWorld()) == {};
  }

  lemma {:induction false} LostThrice(w: World)
    requires Before(w, 0)
    ensures Races(Rival, 0, Numbered, w, Batch(), 3) == 3
    ensures var o := ResolveFrom(Rival, 0, Numbered, w, Batch(), 3, None).1; o.Conflicted? && |o.conflicts| == 1
  {
    hide Before, ResolveOnce, Numbered, Batch, Rival;
    TryLost(w, 0);
    var x := RollbackTo(Try(w).Result().0, NoRows());
    TryLost(x, 1);
    var y := RollbackTo(Try(x).Result().0, NoRows());
    TryLost(y, 2);
    OwnNothing(w, 0);
    OwnNothing(x, 1);
    OwnNothing(y, 2);
    var a, b, c := Try(w).Result().1.conflict, Try(x).Result().1.conflict, Try(y).Result().1.conflict;
    hide ResolveFrom, Races, RollbackTo;
    ResolveFromStep(Try(w), 3, None);
    ResolveFromStep(Try(x), 2, Some(a));
    ResolveFromStep(Try(y), 1, Some(b));
    OutOfAttempts(RollbackTo(Try(y).Result().0, NoRows()), c);
  }

  lemma {:induction false} OwnNothing(w: World, k: nat)
    requires Before(w, k)
    ensures w.tx.own == NoRows()
  {
  }

  lemma {:induction false} OutOfAttempts(w: World, c: Conflict)
    ensures ResolveFrom(Rival, 0, Numbered, w, Batch(), 0, Some(c)) == (w, Conflicted([c]))
    ensures Races(Rival, 0, Numbered, w, Batch(), 0) == 0
  {
  }

  // Main result: on an empty registry and under legal interference, three observations with one VAT number
  // each, all three free, lose all three attempts and end in the conflict of the last race. With fewer than
  // three free identifiers that cannot happen.
  lemma {:induction false} BoundIsSharp()
    ensures Legal(Rival, Numbered) && Good(Numbered, EmptyWorld()) && Consistent(EmptyWorld().View())
    ensures var ss := SightAll(Observed());
            && |BatchRefs(ss) - Taken(ss, EmptyWorld())| == RETRY_ATTEMPTS
            && Races(Rival, 0, Numbered, EmptyWorld(), ss, RETRY_ATTEMPTS) == RETRY_ATTEMPTS
            && var o := ResolveBatch(Rival, 0, Numbered, EmptyWorld(), ss).1; o.Conflicted? && |o.conflicts| == 1
  {
    RivalLegal();
    EmptyWorldGood();
    BatchSighted();
    StartsBefore();
    ThreeFree();
    assert Batch() != [];
    hide Legal, Good, Consistent, Before, ResolveFrom, Races, Batch, Numbered, Rival, SightAll, Observed;
    LostThrice(EmptyWorld());
  }
}
