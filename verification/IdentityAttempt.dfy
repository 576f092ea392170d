/** One attempt of the resolver, from its reads to its last write, under interference. */
module IdentityAttempt {
  import opened Wrappers
  import opened Text
  import opened IdentityNormalize
  import opened IdentityPlan
  import opened IdentityClaims
  import opened IdentityComponents
  import opened IdentityWrites
  import opened IdentityRegistry
  import opened IdentityRely
  import opened IdentityGuarantee

  // Everything an attempt depends on, and the states it goes through.
  datatype Attempt = Attempt(env: Env, now: Instant, mint: nat -> Key, w: World, ss: seq<Sighting>)
  {
    ghost predicate Ready() { Legal(env, mint) && Good(mint, w) }

    function OwnersRead(): Db { Disturb(env, w).View() }
    function ReadWorld(): World { Reads(env, mint, w, ss).0 }
    function Ctx(): Context { Reads(env, mint, w, ss).1 }
    function State(): PlanState { After(Ctx(), ss, |ss|) }
    function ThePlan(): Plan { State().plan }
    function Planned(): World { ReadWorld().(minted := w.minted + State().minted) }
    function Open(): set<Key> { FiscalKeys(ThePlan()) }
    function Inserted(): Fold { InsertAll(env, Planned(), ThePlan().newEntities) }
    function AttachFold(): Fold { AttachAll(env, now, Inserted().w, ThePlan().attachments) }
    function Promoted(): World { PromoteAll(env, AttachFold().w, ThePlan().promotions) }
    function Final(): World { ObserveAll(env, Promoted(), ThePlan().names) }
    function Result(): (World, Outcome) { ResolveOnce(env, now, mint, w, ss) }
  }

  /******* Reading *******/

  lemma ReadsGood(t: Attempt)
    requires t.Ready()
    ensures Good(t.mint, Disturb(t.env, t.w)) && Evolves(t.mint, t.w, Disturb(t.env, t.w))
    ensures Good(t.mint, t.ReadWorld()) && Evolves(t.mint, t.w, t.ReadWorld())
    ensures Evolves(t.mint, Disturb(t.env, t.w), t.ReadWorld())
    ensures t.ReadWorld().tx.own == t.w.tx.own && t.ReadWorld().minted == t.w.minted
  {
    var u := Disturb(t.env, t.w);
    DisturbGood(t.env, t.mint, t.w);
    DisturbGood(t.env, t.mint, u);
    EvolvesTrans(t.mint, t.w, u, Disturb(t.env, u));
  }

  lemma {:induction false} ReadsExisting(t: Attempt)
    requires t.Ready()
    ensures forall r :: r in t.Ctx().existing ==>
              && r in t.OwnersRead().ids && t.OwnersRead().ids[r].owner == t.Ctx().existing[r] != ""
              && t.Ctx().existing[r] in t.ReadWorld().View().companies
  {
    ReadsGood(t);
    hide Legal, Consistent, After, Overlays, FreshMint, BatchMentions;
    var c, u, v := t.Ctx(), Disturb(t.env, t.w), t.ReadWorld();
    forall r | r in c.existing
      ensures c.existing[r] in v.View().companies && c.existing[r] != ""
    {
      assert c.existing[r] == u.View().ids[r].owner;
      assert c.existing[r] in u.View().companies;
    }
  }

  lemma {:induction false} ReadsFresh(t: Attempt, n: nat, m: nat)
    requires t.Ready()
    ensures t.Ctx().mint(n) == t.mint(t.w.minted + n) != "" && t.Ctx().mint(n) !in t.ReadWorld().View().companies
    ensures t.Ctx().mint(n) == t.Ctx().mint(m) ==> n == m
  {
    ReadsGood(t);
    hide GoodTx, Evolves, Legal, Disturb;
  }

  // The mint is fresh for what was read, and what was read is in the visible tables.
  lemma {:induction false} ReadsValid(t: Attempt)
    requires t.Ready()
    ensures Valid(t.Ctx())
    ensures forall k :: k in t.Ctx().known ==> k in t.ReadWorld().View().companies
    ensures forall r :: r in t.Ctx().existing ==>
              && r in t.OwnersRead().ids && t.OwnersRead().ids[r].owner == t.Ctx().existing[r]
              && t.Ctx().existing[r] in t.ReadWorld().View().companies
  {
    ReadsExisting(t);
    assert forall k :: k in t.Ctx().known ==> k in t.ReadWorld().View().companies;
    hide Legal, Good, Reads, Disturb, Attempt.Ctx, Attempt.ReadWorld, Attempt.OwnersRead, Attempt.Ready;
    var c := t.Ctx();
    forall n: nat ensures c.mint(n) != "" && c.mint(n) !in t.ReadWorld().View().companies { ReadsFresh(t, n, n); }
    forall n: nat, m: nat | c.mint(n) == c.mint(m) ensures n == m { ReadsFresh(t, n, m); }
  }

  lemma {:induction false} PlannedGood(t: Attempt)
    requires t.Ready()
    ensures Good(t.mint, t.Planned()) && Evolves(t.mint, t.w, t.Planned())
    ensures t.Planned().tx == t.ReadWorld().tx
  {
    hide Legal, Consistent, Overlays, Sound, NormalizeCompanyKey, Reads, Disturb, After;
    ReadsGood(t);
  }

  lemma PlannedConsistent(t: Attempt)
    requires t.Ready() && Consistent(t.w.View())
    ensures ConsistentExcept(t.Planned().View(), t.Open())
  {
    var u := Disturb(t.env, t.w);
    DisturbGood(t.env, t.mint, t.w);
    DisturbConsistent(t.env, t.mint, t.w, t.Open());
    DisturbConsistent(t.env, t.mint, u, t.Open());
  }

  /******* Writing *******/

  lemma {:induction false} PlanInsertable(t: Attempt)
    requires t.Ready()
    ensures Insertable(t.mint, t.Planned(), t.ThePlan().newEntities, t.Open())
  {
    ReadsValid(t);
    PlannedGood(t);
    ReadsGood(t);
    var c, drafts, p := t.Ctx(), t.ThePlan().newEntities, t.Planned();
    EntitiesAreCoined(c, t.ss, |t.ss|);
    hide Valid, Good, Evolves, Disturb, Reads, After, Legal, Attempt.Ctx, Attempt.ReadWorld, Attempt.OwnersRead,
      Attempt.Ready;
    forall d | d in drafts
      ensures d.key !in p.View().companies && (d.key !in t.Open() ==> d.state == VendorOnly)
      ensures exists n :: 0 <= n < p.minted && t.mint(n) == d.key
    {
      var m :| 0 <= m < |drafts| && drafts[m] == d;
      ReadsFresh(t, m, m);
      assert d.key == c.mint(m) == t.mint(t.w.minted + m);
      FiscalExactly(c, t.ss, d.key);
    }
    forall i, j | 0 <= i < j < |drafts| ensures drafts[i].key != drafts[j].key {
      ReadsFresh(t, i, j);
      assert drafts[i].key == c.mint(i) && drafts[j].key == c.mint(j);
    }
  }

  lemma InsertedGood(t: Attempt)
    requires t.Ready() && Consistent(t.w.View())
    ensures t.Inserted().Going?
    ensures var v := t.Inserted().w;
            && Good(t.mint, v) && Evolves(t.mint, t.w, v) && Evolves(t.mint, t.Planned(), v)
            && ConsistentExcept(v.View(), t.Open())
            && v.tx.own.ids == t.w.tx.own.ids && v.minted == t.Planned().minted
  {
    PlannedGood(t);
    PlannedConsistent(t);
    PlanInsertable(t);
    ReadsGood(t);
    InsertPhase(t.env, t.mint, t.Planned(), t.ThePlan().newEntities, t.Open());
    EvolvesTrans(t.mint, t.w, t.Planned(), t.Inserted().w);
  }

  // The company a row is resolved to exists once the new companies are inserted.
  lemma RowCompany(t: Attempt, i: nat)
    requires t.Ready() && Consistent(t.w.View()) && i < |t.ss| && KeyAt(t.Ctx(), t.ss, i) != ""
    ensures KeyAt(t.Ctx(), t.ss, i) in t.Inserted().w.View().companies
  {
    ReadsValid(t);
    InsertedGood(t);
    KeyGround(t.Ctx(), t.ss, i);
    var k := KeyAt(t.Ctx(), t.ss, i);
    if k !in t.ReadWorld().View().companies {
      var d :| d in t.ThePlan().newEntities && d.key == k;
      PlannedGood(t);
      PlannedConsistent(t);
      PlanInsertable(t);
      InsertPhaseAt(t.env, t.mint, t.Planned(), t.ThePlan().newEntities, t.Open(), d);
    }
  }

  lemma AttachmentSafe(t: Attempt, a: Attachment)
    requires t.Ready() && Consistent(t.w.View()) && a in t.ThePlan().attachments
    ensures a.key in t.Inserted().w.View().companies && (a.identifier.ref.ns == Fiscal ==> a.key in t.Open())
    ensures (a.identifier.ref in t.Inserted().w.View().ids
             && t.Inserted().w.View().ids[a.identifier.ref].owner != a.key) ==>
              a.identifier.ref !in t.OwnersRead().ids && a.identifier.ref in t.Inserted().w.tx.committed.ids
  {
    ReadsValid(t);
    InsertedGood(t);
    var i := AttachmentRow(t.Ctx(), t.ss, |t.ss|, a);
    RowCompany(t, i);
    AttachmentsAgree(t.Ctx(), t.ss, a, a);
    ReadsGood(t);
    var r, v := a.identifier.ref, t.Inserted().w;
    if r in t.OwnersRead().ids {
      assert BatchMentions(t.ss, r);
      assert r in t.Ctx().existing;
      assert r in t.ReadWorld().View().ids && t.ReadWorld().View().ids[r].owner == a.key;
      assert r in v.View().ids && v.View().ids[r].owner == a.key;
    } else {
      assert r !in t.w.View().ids;
    }
  }

  lemma PlanAttachable(t: Attempt)
    requires t.Ready() && Consistent(t.w.View())
    ensures Attachable(t.Inserted().w, t.ThePlan().attachments, t.OwnersRead(), t.Open())
  {
    var atts, v := t.ThePlan().attachments, t.Inserted().w;
    ReadsValid(t);
    forall a, b | a in atts && b in atts && a.identifier.ref == b.identifier.ref ensures a.key == b.key {
      AttachmentsAgree(t.Ctx(), t.ss, a, b);
    }
    forall a | a in atts
      ensures a.key in v.View().companies && (a.identifier.ref.ns == Fiscal ==> a.key in t.Open())
      ensures a.identifier.ref in v.View().ids && v.View().ids[a.identifier.ref].owner != a.key ==>
                a.identifier.ref !in t.OwnersRead().ids && a.identifier.ref in v.tx.committed.ids
    {
      AttachmentSafe(t, a);
    }
    forall r | r in t.OwnersRead().ids ensures r in v.View().ids {
      ReadsGood(t);
      InsertedGood(t);
    }
  }

  lemma AttachedGood(t: Attempt)
    requires t.Ready() && Consistent(t.w.View())
    ensures var r := t.AttachFold();
            && Good(t.mint, r.w) && Evolves(t.mint, t.w, r.w) && Evolves(t.mint, t.Inserted().w, r.w)
            && r.w.minted == t.Planned().minted
            && (r.Going? ==> ConsistentExcept(r.w.View(), t.Open()))
            && (r.Stopped? ==>
                  && r.outcome.Raced? && r.outcome.conflict.ref !in t.OwnersRead().ids
                  && r.outcome.conflict.ref in r.w.tx.committed.ids)
  {
    InsertedGood(t);
    PlanAttachable(t);
    AttachPhase(t.env, t.now, t.mint, t.Inserted().w, t.ThePlan().attachments, t.OwnersRead(), t.Open());
    EvolvesTrans(t.mint, t.w, t.Inserted().w, t.AttachFold().w);
  }

  lemma PromotionReady(t: Attempt, k: Key)
    requires t.Ready() && Consistent(t.w.View()) && k in t.ThePlan().promotions
    ensures k in t.AttachFold().w.View().companies && k in t.Open()
  {
    ReadsValid(t);
    AttachedGood(t);
    var i := PromotionRow(t.Ctx(), t.ss, |t.ss|, k);
    RowCompany(t, i);
    FiscalExactly(t.Ctx(), t.ss, k);
  }

  lemma PromotedGood(t: Attempt)
    requires t.Ready() && Consistent(t.w.View()) && t.AttachFold().Going?
    ensures var v := t.Promoted();
            && Good(t.mint, v) && Evolves(t.mint, t.w, v) && Evolves(t.mint, t.AttachFold().w, v)
            && ConsistentExcept(v.View(), t.Open()) && v.minted == t.Planned().minted
  {
    AttachedGood(t);
    forall k | k in t.ThePlan().promotions ensures k in t.AttachFold().w.View().companies && k in t.Open() {
      PromotionReady(t, k);
    }
    PromotePhase(t.env, t.mint, t.AttachFold().w, t.ThePlan().promotions, t.Open());
    EvolvesTrans(t.mint, t.w, t.AttachFold().w, t.Promoted());
  }

  lemma NameReady(t: Attempt, n: NameObservation)
    requires t.Ready() && Consistent(t.w.View()) && t.AttachFold().Going? && n in t.ThePlan().names
    ensures n.key in t.Promoted().View().companies
  {
    ReadsValid(t);
    AttachedGood(t);
    PromotedGood(t);
    var i := NameRow(t.Ctx(), t.ss, |t.ss|, n);
    RowCompany(t, i);
  }

  lemma FinalGood(t: Attempt)
    requires t.Ready() && Consistent(t.w.View()) && t.AttachFold().Going?
    ensures var v := t.Final();
            && Good(t.mint, v) && Evolves(t.mint, t.w, v) && Evolves(t.mint, t.Promoted(), v)
            && ConsistentExcept(v.View(), t.Open()) && v.minted == t.Planned().minted
  {
    PromotedGood(t);
    forall n | n in t.ThePlan().names ensures n.key in t.Promoted().View().companies { NameReady(t, n); }
    ObservePhase(t.env, t.mint, t.Promoted(), t.ThePlan().names, t.Open());
    EvolvesTrans(t.mint, t.w, t.Promoted(), t.Final());
  }

  /******* What a successful attempt leaves *******/

  lemma FinalCovers(t: Attempt, a: Attachment)
    requires t.Ready() && Consistent(t.w.View()) && t.AttachFold().Going? && a in t.ThePlan().attachments
    ensures Covers(t.Final().View(), a)
  {
    InsertedGood(t);
    PlanAttachable(t);
    AttachPhaseAt(t.env, t.now, t.mint, t.Inserted().w, t.ThePlan().attachments, t.OwnersRead(), t.Open(), a);
    PromotedGood(t);
    FinalGood(t);
    CoversLater(t.AttachFold().w.View(), t.Promoted().View(), a);
    CoversLater(t.Promoted().View(), t.Final().View(), a);
  }

  lemma FinalDraft(t: Attempt, d: EntityDraft)
    requires t.Ready() && Consistent(t.w.View()) && t.AttachFold().Going? && d in t.ThePlan().newEntities
    ensures IdentityGuarantee.Inserted(t.Final().View(), d)
  {
    PlannedGood(t);
    PlannedConsistent(t);
    PlanInsertable(t);
    InsertPhaseAt(t.env, t.mint, t.Planned(), t.ThePlan().newEntities, t.Open(), d);
    AttachedGood(t);
    PromotedGood(t);
    FinalGood(t);
    InsertedLater(t.Inserted().w.View(), t.AttachFold().w.View(), d);
    InsertedLater(t.AttachFold().w.View(), t.Promoted().View(), d);
    InsertedLater(t.Promoted().View(), t.Final().View(), d);
  }

  lemma FinalPromotion(t: Attempt, k: Key)
    requires t.Ready() && Consistent(t.w.View()) && t.AttachFold().Going? && k in t.ThePlan().promotions
    ensures IsFiscal(t.Final().View(), k)
  {
    AttachedGood(t);
    forall k | k in t.ThePlan().promotions ensures k in t.AttachFold().w.View().companies && k in t.Open() {
      PromotionReady(t, k);
    }
    PromotePhaseAt(t.env, t.mint, t.AttachFold().w, t.ThePlan().promotions, t.Open(), k);
    FinalGood(t);
    IsFiscalLater(t.Promoted().View(), t.Final().View(), k);
  }

  lemma FinalName(t: Attempt, n: NameObservation)
    requires t.Ready() && Consistent(t.w.View()) && t.AttachFold().Going? && n in t.ThePlan().names && RealName(n)
    ensures NameCovers(t.Final().View(), n.key, n.observedAt)
  {
    PromotedGood(t);
    forall n | n in t.ThePlan().names ensures n.key in t.Promoted().View().companies { NameReady(t, n); }
    ObservePhaseAt(t.env, t.mint, t.Promoted(), t.ThePlan().names, t.Open(), n);
  }

  // The registry holds all that row s, resolved to key, had to say.
  ghost predicate Settled(db: Db, s: Sighting, key: Key) {
    && key != "" && key in db.companies
    && (forall x :: 0 <= x < |s.ids| ==> Covers(db, Attachment(s.ids[x], key, s.o.observedAt)))
    && (s.HasFiscal() ==> IsFiscal(db, key))
    && (s.o.observedAt.Some? && s.o.observedAt.value != ZERO_TIME && s.Name() != "" ==>
          NameCovers(db, key, s.o.observedAt.value))
    && (s.ids == [] ==> s.prior == key)
  }

  lemma FinalFiscal(t: Attempt, k: Key)
    requires t.Ready() && Consistent(t.w.View()) && t.AttachFold().Going? && k in t.Open()
    ensures IsFiscal(t.Final().View(), k) && HasFiscalId(t.Final().View(), k)
  {
    ReadsValid(t);
    FiscalExactly(t.Ctx(), t.ss, k);
    if k in t.ThePlan().promotions {
      FinalPromotion(t, k);
    } else {
      var d :| d in t.ThePlan().newEntities && d.key == k && d.state == FiscalState;
      FinalDraft(t, d);
    }
    var a :| a in t.ThePlan().attachments && a.identifier.ref.ns == Fiscal && a.key == k;
    FinalCovers(t, a);
  }

  lemma FinalConsistent(t: Attempt)
    requires t.Ready() && Consistent(t.w.View()) && t.AttachFold().Going?
    ensures Consistent(t.Final().View())
  {
    FinalGood(t);
    forall k | k in t.Open() ensures IsFiscal(t.Final().View(), k) && HasFiscalId(t.Final().View(), k) {
      FinalFiscal(t, k);
    }
  }

  lemma FinalRowName(t: Attempt, i: nat)
    requires t.Ready() && Consistent(t.w.View()) && t.AttachFold().Going? && i < |t.ss| && KeyAt(t.Ctx(), t.ss, i) != ""
    requires t.ss[i].o.observedAt.Some? && t.ss[i].o.observedAt.value != ZERO_TIME && t.ss[i].Name() != ""
    ensures NameCovers(t.Final().View(), KeyAt(t.Ctx(), t.ss, i), t.ss[i].o.observedAt.value)
  {
    var s, k := t.ss[i], KeyAt(t.Ctx(), t.ss, i);
    ReadsValid(t);
    RowServed(t.Ctx(), t.ss, i);
    var n := NameObservation(k, s.Name(), s.o.observedAt.value, s.o.source);
    if n in t.ThePlan().names {
      TrimSpaceTrimmed(s.o.companyName);
      TrimSpaceOfTrimmed(s.Name());
      FinalName(t, n);
    } else {
      var d :| d in t.ThePlan().newEntities && d.key == k && d.name == s.Name()
          && d.observedAt == Some(s.o.observedAt.value);
      FinalDraft(t, d);
    }
  }

  lemma FinalSettled(t: Attempt, i: nat)
    requires t.Ready() && Consistent(t.w.View()) && t.AttachFold().Going? && i < |t.ss| && KeyAt(t.Ctx(), t.ss, i) != ""
    ensures Settled(t.Final().View(), t.ss[i], KeyAt(t.Ctx(), t.ss, i))
  {
    var s, k, db := t.ss[i], KeyAt(t.Ctx(), t.ss, i), t.Final().View();
    ReadsValid(t);
    RowServed(t.Ctx(), t.ss, i);
    forall x | 0 <= x < |s.ids| ensures Covers(db, Attachment(s.ids[x], k, s.o.observedAt)) {
      FinalCovers(t, Attachment(s.ids[x], k, s.o.observedAt));
    }
    if s.HasFiscal() {
      FiscalRowKey(t.Ctx(), t.ss, i);
      FinalFiscal(t, k);
    }
    if s.o.observedAt.Some? && s.o.observedAt.value != ZERO_TIME && s.Name() != "" {
      FinalRowName(t, i);
    }
    FinalCompany(t, i);
    if s.ids == [] {
      ClaimsGrow(t.Ctx(), t.ss, i);
      StepOutcome(t.Ctx(), t.ss, i);
    }
  }

  lemma FinalCompany(t: Attempt, i: nat)
    requires t.Ready() && Consistent(t.w.View()) && t.AttachFold().Going? && i < |t.ss| && KeyAt(t.Ctx(), t.ss, i) != ""
    ensures KeyAt(t.Ctx(), t.ss, i) in t.Final().View().companies
  {
    RowCompany(t, i);
    AttachedGood(t);
    PromotedGood(t);
    FinalGood(t);
  }
}
