/** The four writing phases of one attempt under interference. */
module IdentityGuarantee {
  import opened Text
  import opened IdentityNormalize
  import opened IdentityPlan
  import opened IdentityRegistry
  import opened IdentityRely

  // The registry invariant, except for companies still being written.
  ghost predicate ConsistentExcept(db: Db, open: set<Key>) {
    forall k :: k in db.companies && k !in open ==> (db.companies[k].state == FiscalState <==> HasFiscalId(db, k))
  }

  // The identifier is where the attachment wants it, with its roles and its observation time.
  predicate Covers(db: Db, a: Attachment) {
    && a.identifier.ref in db.ids
    && db.ids[a.identifier.ref].owner == a.key
    && (a.identifier.isVAT ==> db.ids[a.identifier.ref].isVAT)
    && (a.identifier.isTax ==> db.ids[a.identifier.ref].isTax)
    && (SeenAt(a.observedAt).Some? ==>
          db.ids[a.identifier.ref].firstSeen <= a.observedAt.value <= db.ids[a.identifier.ref].lastSeen)
  }

  // The company's name is from an observation at least as recent as t.
  predicate NameCovers(db: Db, key: Key, t: Instant) {
    key in db.companies && db.companies[key].nameAt.Some? && t <= db.companies[key].nameAt.value
  }

  predicate IsFiscal(db: Db, key: Key) {
    key in db.companies && db.companies[key].state == FiscalState
  }

  lemma CoversLater(a: Db, b: Db, t: Attachment)
    requires DbGrows(a, b) && Covers(a, t)
    ensures Covers(b, t)
  {
  }

  lemma HasFiscalLater(a: Db, b: Db, k: Key)
    requires DbGrows(a, b) && HasFiscalId(a, k)
    ensures HasFiscalId(b, k)
  {
    var r :| r in a.ids && r.ns == Fiscal && a.ids[r].owner == k;
    assert r in b.ids && b.ids[r].owner == k;
  }

  /******* Interference keeps the invariant *******/

  // A fiscal identifier that appears on a company whose row this transaction has locked.
  lemma LockedStaysVendorOnly(mint: nat -> Key, t: Tx, next: Db, k: Key, r: Ref)
    requires GoodTx(t) && EnvStep(mint, t, next) && k in t.own.companies
    requires r in next.ids && r !in t.own.ids && r.ns == Fiscal && next.ids[r].owner == k
    ensures t.own.companies[k].state == FiscalState
  {
    assert HasFiscalId(next, k);
    assert k in next.companies && k in t.committed.companies;
  }

  lemma DisturbedState(mint: nat -> Key, t: Tx, next: Db, k: Key)
    requires GoodTx(t) && EnvStep(mint, t, next)
    requires k in t.(committed := next).View().companies
    requires k in t.View().companies ==> (t.View().companies[k].state == FiscalState <==> HasFiscalId(t.View(), k))
    ensures t.(committed := next).View().companies[k].state == FiscalState
        <==> HasFiscalId(t.(committed := next).View(), k)
  {
    var v, u := t.View(), t.(committed := next).View();
    EnvStepGrows(mint, t, next);
    if u.companies[k].state == FiscalState {
      if k in t.own.companies {
        assert v.companies[k] == u.companies[k];
        HasFiscalLater(v, u, k);
      } else {
        assert next.companies[k] == u.companies[k] && HasFiscalId(next, k);
        EnvStepOverlays(mint, t, next);
        ViewGrows(t.(committed := next));
        HasFiscalLater(next, u, k);
      }
    }
    if HasFiscalId(u, k) {
      var r :| r in u.ids && r.ns == Fiscal && u.ids[r].owner == k;
      if r in t.own.ids {
        assert v.ids[r] == u.ids[r] && HasFiscalId(v, k) && k in v.companies;
      } else if k in t.own.companies {
        assert next.ids[r] == u.ids[r];
        LockedStaysVendorOnly(mint, t, next, k, r);
      } else {
        assert next.ids[r] == u.ids[r] && HasFiscalId(next, k);
      }
    }
  }

  lemma DisturbConsistent(env: Env, mint: nat -> Key, w: World, open: set<Key>)
    requires Legal(env, mint) && Good(mint, w) && ConsistentExcept(w.View(), open)
    ensures ConsistentExcept(Disturb(env, w).View(), open)
  {
    var next := env(w.tick, w.tx);
    assert EnvStep(mint, w.tx, next);
    var u := Disturb(env, w).View();
    forall k | k in u.companies && k !in open ensures u.companies[k].state == FiscalState <==> HasFiscalId(u, k) {
      DisturbedState(mint, w.tx, next, k);
    }
  }

  /******* New companies *******/

  predicate DistinctDrafts(drafts: seq<EntityDraft>) {
    forall i, j :: 0 <= i < j < |drafts| ==> drafts[i].key != drafts[j].key
  }

  lemma InsertOne(env: Env, mint: nat -> Key, w: World, d: EntityDraft, n: nat, open: set<Key>)
    requires Legal(env, mint) && Good(mint, w) && ConsistentExcept(w.View(), open)
    requires d.key == mint(n) && n < w.minted && d.key !in w.View().companies
    requires d.key !in open ==> d.state == VendorOnly
    ensures var v := Disturb(env, w);
            var u := PutCompany(v, d.key, NewCompany(d));
            && d.key !in v.View().companies
            && Good(mint, u) && Evolves(mint, w, u) && ConsistentExcept(u.View(), open)
            && u.View() == Db(v.View().companies[d.key := NewCompany(d)], v.View().ids)
            && u.tx.own.ids == w.tx.own.ids && u.minted == w.minted
            && (forall m :: m != n && mint(m) !in w.View().companies ==> mint(m) !in u.View().companies)
  {
    var v := Disturb(env, w);
    var u := PutCompany(v, d.key, NewCompany(d));
    DisturbGood(env, mint, w);
    DisturbConsistent(env, mint, w, open);
    forall m | mint(m) !in w.View().companies ensures mint(m) !in v.View().companies { }
    PutCompanyGood(mint, v, d.key, NewCompany(d));
    EvolvesTrans(mint, w, v, u);
    forall k | k in u.View().companies && k !in open
      ensures u.View().companies[k].state == FiscalState <==> HasFiscalId(u.View(), k)
    {
      if k != d.key {
        assert HasFiscalId(u.View(), k) <==> HasFiscalId(v.View(), k);
      }
    }
  }

  // Drafts under distinct coined keys that nobody uses yet; only open companies start fiscal.
  ghost predicate Insertable(mint: nat -> Key, w: World, drafts: seq<EntityDraft>, open: set<Key>) {
    && DistinctDrafts(drafts)
    && (forall d :: d in drafts ==> d.key !in w.View().companies && (d.key !in open ==> d.state == VendorOnly))
    && (forall d :: d in drafts ==> exists n :: 0 <= n < w.minted && mint(n) == d.key)
  }

  ghost predicate Inserted(db: Db, d: EntityDraft) {
    d.key in db.companies && CompanyGrows(NewCompany(d), db.companies[d.key])
  }

  lemma InsertedLater(a: Db, b: Db, d: EntityDraft)
    requires DbGrows(a, b) && Inserted(a, d)
    ensures Inserted(b, d)
  {
  }

  lemma {:induction false} InsertableRest(env: Env, mint: nat -> Key, w: World, drafts: seq<EntityDraft>,
      open: set<Key>)
    requires Legal(env, mint) && Good(mint, w) && ConsistentExcept(w.View(), open)
    requires drafts != [] && Insertable(mint, w, drafts, open)
    ensures var u := PutCompany(Disturb(env, w), drafts[0].key, NewCompany(drafts[0]));
            && drafts[0].key !in Disturb(env, w).View().companies
            && Good(mint, u) && Evolves(mint, w, u) && ConsistentExcept(u.View(), open)
            && u.tx.own.ids == w.tx.own.ids && u.minted == w.minted
            && Inserted(u.View(), drafts[0]) && Insertable(mint, u, drafts[1..], open)
  {
    hide Consistent, ConsistentExcept, Legal, Sound, Overlays;
    var d, rest := drafts[0], drafts[1..];
    assert d in drafts && forall e :: e in rest ==> e in drafts;
    var n :| 0 <= n < w.minted && mint(n) == d.key;
    InsertOne(env, mint, w, d, n, open);
    var u := PutCompany(Disturb(env, w), d.key, NewCompany(d));
    forall e | e in rest ensures e.key !in u.View().companies {
      var j :| 0 <= j < |rest| && rest[j] == e;
      assert drafts[j + 1] == e && e.key != d.key;
      var m :| 0 <= m < w.minted && mint(m) == e.key;
    }
  }

  lemma {:induction false} InsertPhase(env: Env, mint: nat -> Key, w: World, drafts: seq<EntityDraft>, open: set<Key>)
    requires Legal(env, mint) && Good(mint, w) && ConsistentExcept(w.View(), open)
    requires Insertable(mint, w, drafts, open)
    ensures InsertAll(env, w, drafts).Going?
    ensures var v := InsertAll(env, w, drafts).w;
            && Good(mint, v) && Evolves(mint, w, v) && ConsistentExcept(v.View(), open)
            && v.tx.own.ids == w.tx.own.ids && v.minted == w.minted
    decreases |drafts|
  {
    if drafts == [] {
      EvolvesSelf(mint, w);
    } else {
      InsertableRest(env, mint, w, drafts, open);
      var u := PutCompany(Disturb(env, w), drafts[0].key, NewCompany(drafts[0]));
      InsertPhase(env, mint, u, drafts[1..], open);
      EvolvesTrans(mint, w, u, InsertAll(env, u, drafts[1..]).w);
    }
  }

  lemma {:induction false} InsertPhaseAt(env: Env, mint: nat -> Key, w: World, drafts: seq<EntityDraft>,
      open: set<Key>, d: EntityDraft)
    requires Legal(env, mint) && Good(mint, w) && ConsistentExcept(w.View(), open)
    requires Insertable(mint, w, drafts, open) && d in drafts
    ensures InsertAll(env, w, drafts).Going? && Inserted(InsertAll(env, w, drafts).w.View(), d)
    decreases |drafts|
  {
    InsertableRest(env, mint, w, drafts, open);
    var u := PutCompany(Disturb(env, w), drafts[0].key, NewCompany(drafts[0]));
    InsertPhase(env, mint, u, drafts[1..], open);
    if d == drafts[0] {
      InsertedLater(u.View(), InsertAll(env, u, drafts[1..]).w.View(), d);
    } else {
      assert d in drafts[1..];
      InsertPhaseAt(env, mint, u, drafts[1..], open, d);
    }
  }

  /******* Identifiers *******/

  // The attachments agree with each other, their companies exist, and an identifier that somebody
  // else owns by now was free when the registry was read and is committed.
  ghost predicate Attachable(w: World, atts: seq<Attachment>, read: Db, open: set<Key>) {
    && (forall a, b :: a in atts && b in atts && a.identifier.ref == b.identifier.ref ==> a.key == b.key)
    && (forall a :: a in atts ==> a.key in w.View().companies && (a.identifier.ref.ns == Fiscal ==> a.key in open))
    && (forall r :: r in read.ids ==> r in w.View().ids)
    && (forall a :: a in atts && a.identifier.ref in w.View().ids && w.View().ids[a.identifier.ref].owner != a.key ==>
          a.identifier.ref !in read.ids && a.identifier.ref in w.tx.committed.ids)
  }

  lemma DisturbAttachable(env: Env, mint: nat -> Key, w: World, atts: seq<Attachment>, read: Db, open: set<Key>)
    requires Legal(env, mint) && Good(mint, w) && Attachable(w, atts, read, open)
    ensures Attachable(Disturb(env, w), atts, read, open)
  {
    DisturbGood(env, mint, w);
    var v := Disturb(env, w);
    forall a | a in atts && a.identifier.ref in v.View().ids && v.View().ids[a.identifier.ref].owner != a.key
      ensures a.identifier.ref !in read.ids && a.identifier.ref in v.tx.committed.ids
    {
      var r := a.identifier.ref;
      if r in w.View().ids {
        assert v.View().ids[r].owner == w.View().ids[r].owner;
      }
    }
  }

  lemma MergedCovers(row: IdRow, a: Attachment)
    requires row.owner == a.key
    ensures Covers(Db(map[], map[a.identifier.ref := MergedRow(row, a)]), a)
  {
  }

  lemma InsertedCovers(a: Attachment, now: Instant)
    ensures Covers(Db(map[], map[a.identifier.ref := InsertedRow(a, now)]), a)
  {
  }

  lemma AttachedCovers(w: World, a: Attachment, now: Instant)
    requires AttachIdentifier(w, a, now).Attached?
    ensures Covers(AttachIdentifier(w, a, now).w.View(), a)
  {
    var r := a.identifier.ref;
    if r in w.View().ids {
      MergedCovers(w.View().ids[r], a);
      PutIdView(w, r, MergedRow(w.View().ids[r], a));
    } else {
      InsertedCovers(a, now);
      PutIdView(w, r, InsertedRow(a, now));
    }
  }

  lemma AttachConsistent(mint: nat -> Key, w: World, a: Attachment, now: Instant, open: set<Key>)
    requires Good(mint, w) && AttachIdentifier(w, a, now).Attached? && ConsistentExcept(w.View(), open)
    requires a.identifier.ref.ns == Fiscal ==> a.key in open
    ensures ConsistentExcept(AttachIdentifier(w, a, now).w.View(), open)
  {
    AttachGood(mint, w, a, now);
    var u, v := AttachIdentifier(w, a, now).w.View(), w.View();
    forall k | k in u.companies && k !in open ensures HasFiscalId(u, k) <==> HasFiscalId(v, k) {
      if HasFiscalId(u, k) {
        var r :| r in u.ids && r.ns == Fiscal && u.ids[r].owner == k;
        assert r in v.ids && v.ids[r].owner == k;
      }
      if HasFiscalId(v, k) { HasFiscalLater(v, u, k); }
    }
  }

  // One attach statement: it lands, or it loses to a foreign claim made since the read.
  lemma {:induction false} AttachOne(env: Env, now: Instant, mint: nat -> Key, w: World, atts: seq<Attachment>,
      read: Db, open: set<Key>)
    requires Legal(env, mint) && Good(mint, w) && ConsistentExcept(w.View(), open)
    requires atts != [] && Attachable(w, atts, read, open)
    ensures var v := Disturb(env, w);
            && Good(mint, v) && Evolves(mint, w, v)
            && match AttachIdentifier(v, atts[0], now)
               case Attached(u) =>
                 && Good(mint, u) && Evolves(mint, w, u) && ConsistentExcept(u.View(), open)
                 && u.tx.own.companies == w.tx.own.companies && u.minted == w.minted
                 && Covers(u.View(), atts[0]) && Attachable(u, atts[1..], read, open)
               case Lost(c) =>
                 c.ref == atts[0].identifier.ref && c.ref !in read.ids && c.ref in v.tx.committed.ids
               case NoSuchCompany => false
  {
    var v, a := Disturb(env, w), atts[0];
    assert a in atts;
    DisturbGood(env, mint, w);
    DisturbConsistent(env, mint, w, open);
    DisturbAttachable(env, mint, w, atts, read, open);
    if AttachIdentifier(v, a, now).Attached? {
      var u := AttachIdentifier(v, a, now).w;
      AttachGood(mint, v, a, now);
      AttachedCovers(v, a, now);
      AttachConsistent(mint, v, a, now, open);
      EvolvesTrans(mint, w, v, u);
      assert forall b :: b in atts[1..] ==> b in atts;
    }
  }

  lemma {:induction false} AttachPhase(env: Env, now: Instant, mint: nat -> Key, w: World, atts: seq<Attachment>,
      read: Db, open: set<Key>)
    requires Legal(env, mint) && Good(mint, w) && ConsistentExcept(w.View(), open) && Attachable(w, atts, read, open)
    ensures var r := AttachAll(env, now, w, atts);
            && Good(mint, r.w) && Evolves(mint, w, r.w) && r.w.minted == w.minted
            && (r.Going? ==> ConsistentExcept(r.w.View(), open))
            && (r.Stopped? ==>
                  && r.outcome.Raced? && r.outcome.conflict.ref !in read.ids
                  && r.outcome.conflict.ref in r.w.tx.committed.ids)
    decreases |atts|
  {
    if atts == [] {
      EvolvesSelf(mint, w);
    } else {
      AttachOne(env, now, mint, w, atts, read, open);
      var v := Disturb(env, w);
      if AttachIdentifier(v, atts[0], now).Attached? {
        var u := AttachIdentifier(v, atts[0], now).w;
        AttachPhase(env, now, mint, u, atts[1..], read, open);
        EvolvesTrans(mint, w, u, AttachAll(env, now, u, atts[1..]).w);
      }
    }
  }

  lemma {:induction false} AttachPhaseAt(env: Env, now: Instant, mint: nat -> Key, w: World, atts: seq<Attachment>,
      read: Db, open: set<Key>, a: Attachment)
    requires Legal(env, mint) && Good(mint, w) && ConsistentExcept(w.View(), open) && Attachable(w, atts, read, open)
    requires AttachAll(env, now, w, atts).Going? && a in atts
    ensures Covers(AttachAll(env, now, w, atts).w.View(), a)
    decreases |atts|
  {
    AttachOne(env, now, mint, w, atts, read, open);
    var u := AttachIdentifier(Disturb(env, w), atts[0], now).w;
    if a == atts[0] {
      AttachPhase(env, now, mint, u, atts[1..], read, open);
      CoversLater(u.View(), AttachAll(env, now, u, atts[1..]).w.View(), a);
    } else {
      assert a in atts[1..];
      AttachPhaseAt(env, now, mint, u, atts[1..], read, open, a);
    }
  }

  // A race is over an identifier of the batch, between its company and the owner others have given it.
  lemma {:induction false} RaceRef(env: Env, now: Instant, w: World, atts: seq<Attachment>) returns (a: Attachment)
    requires AttachAll(env, now, w, atts).Stopped? && AttachAll(env, now, w, atts).outcome.Raced?
    ensures var c, ids := AttachAll(env, now, w, atts).outcome.conflict, AttachAll(env, now, w, atts).w.View().ids;
            && a in atts && a.identifier.ref in ids && ids[a.identifier.ref].owner != a.key
            && c == Conflict(a.identifier.ref, ids[a.identifier.ref].owner, a.key, "", "", "", "")
    decreases |atts|
  {
    match AttachIdentifier(Disturb(env, w), atts[0], now)
    case Attached(u) => a := RaceRef(env, now, u, atts[1..]);
    case Lost(c) => a := atts[0];
  }

  /******* Promotions and names *******/

  lemma PromoteConsistent(mint: nat -> Key, w: World, key: Key, open: set<Key>)
    requires Good(mint, w) && ConsistentExcept(w.View(), open) && key in open
    ensures ConsistentExcept(PromoteCompany(w, key).View(), open)
  {
    PromoteGood(mint, w, key);
    forall k ensures HasFiscalId(PromoteCompany(w, key).View(), k) <==> HasFiscalId(w.View(), k) { }
  }

  lemma IsFiscalLater(a: Db, b: Db, k: Key)
    requires DbGrows(a, b) && IsFiscal(a, k)
    ensures IsFiscal(b, k)
  {
  }

  lemma PromoteOne(env: Env, mint: nat -> Key, w: World, key: Key, open: set<Key>)
    requires Legal(env, mint) && Good(mint, w) && ConsistentExcept(w.View(), open)
    requires key in w.View().companies && key in open
    ensures var u := PromoteCompany(Disturb(env, w), key);
            Good(mint, u) && Evolves(mint, w, u) && ConsistentExcept(u.View(), open) && u.minted == w.minted
              && IsFiscal(u.View(), key)
  {
    var v := Disturb(env, w);
    DisturbGood(env, mint, w);
    DisturbConsistent(env, mint, w, open);
    PromoteGood(mint, v, key);
    PromoteConsistent(mint, v, key, open);
    EvolvesTrans(mint, w, v, PromoteCompany(v, key));
  }

  lemma {:induction false} PromotePhase(env: Env, mint: nat -> Key, w: World, keys: seq<Key>, open: set<Key>)
    requires Legal(env, mint) && Good(mint, w) && ConsistentExcept(w.View(), open)
    requires forall k :: k in keys ==> k in w.View().companies && k in open
    ensures var v := PromoteAll(env, w, keys);
            Good(mint, v) && Evolves(mint, w, v) && ConsistentExcept(v.View(), open) && v.minted == w.minted
    decreases |keys|
  {
    if keys == [] {
      EvolvesSelf(mint, w);
    } else {
      assert keys[0] in keys;
      PromoteOne(env, mint, w, keys[0], open);
      var u := PromoteCompany(Disturb(env, w), keys[0]);
      PromotePhase(env, mint, u, keys[1..], open);
      EvolvesTrans(mint, w, u, PromoteAll(env, u, keys[1..]));
    }
  }

  lemma {:induction false} PromotePhaseAt(env: Env, mint: nat -> Key, w: World, keys: seq<Key>, open: set<Key>, k: Key)
    requires Legal(env, mint) && Good(mint, w) && ConsistentExcept(w.View(), open) && k in keys
    requires forall k :: k in keys ==> k in w.View().companies && k in open
    ensures IsFiscal(PromoteAll(env, w, keys).View(), k)
    decreases |keys|
  {
    PromoteOne(env, mint, w, keys[0], open);
    var u := PromoteCompany(Disturb(env, w), keys[0]);
    if k == keys[0] {
      PromotePhase(env, mint, u, keys[1..], open);
      IsFiscalLater(u.View(), PromoteAll(env, u, keys[1..]).View(), k);
    } else {
      assert k in keys[1..];
      PromotePhaseAt(env, mint, u, keys[1..], open, k);
    }
  }

  // A name observation that the statement applies: a real name with a real instant.
  predicate RealName(n: NameObservation) {
    TrimSpace(n.name) != "" && n.observedAt != ZERO_TIME
  }

  lemma ObserveCovers(mint: nat -> Key, w: World, n: NameObservation)
    requires Good(mint, w) && n.key in w.View().companies && RealName(n)
    ensures NameCovers(ObserveName(w, n).View(), n.key, n.observedAt)
  {
    assert NormalizeCompanyKey(n.key) == n.key;
    if NameApplies(w.View().companies[n.key], n) {
      PutCompanyView(w, n.key, Renamed(w.View().companies[n.key], n));
    }
  }

  lemma NameCoversLater(a: Db, b: Db, k: Key, t: Instant)
    requires DbGrows(a, b) && NameCovers(a, k, t)
    ensures NameCovers(b, k, t)
  {
  }

  lemma ObserveConsistent(mint: nat -> Key, w: World, n: NameObservation, open: set<Key>)
    requires Good(mint, w) && ConsistentExcept(w.View(), open)
    ensures ConsistentExcept(ObserveName(w, n).View(), open)
  {
    ObserveGood(mint, w, n);
    forall k ensures HasFiscalId(ObserveName(w, n).View(), k) <==> HasFiscalId(w.View(), k) { }
  }

  lemma ObserveOne(env: Env, mint: nat -> Key, w: World, n: NameObservation, open: set<Key>)
    requires Legal(env, mint) && Good(mint, w) && ConsistentExcept(w.View(), open) && n.key in w.View().companies
    ensures var u := ObserveName(Disturb(env, w), n);
            && Good(mint, u) && Evolves(mint, w, u) && ConsistentExcept(u.View(), open) && u.minted == w.minted
            && (RealName(n) ==> NameCovers(u.View(), n.key, n.observedAt))
  {
    var v := Disturb(env, w);
    DisturbGood(env, mint, w);
    DisturbConsistent(env, mint, w, open);
    ObserveGood(mint, v, n);
    ObserveConsistent(mint, v, n, open);
    EvolvesTrans(mint, w, v, ObserveName(v, n));
    if RealName(n) { ObserveCovers(mint, v, n); }
  }

  lemma {:induction false} ObservePhase(env: Env, mint: nat -> Key, w: World, names: seq<NameObservation>,
      open: set<Key>)
    requires Legal(env, mint) && Good(mint, w) && ConsistentExcept(w.View(), open)
    requires forall n :: n in names ==> n.key in w.View().companies
    ensures var v := ObserveAll(env, w, names);
            Good(mint, v) && Evolves(mint, w, v) && ConsistentExcept(v.View(), open) && v.minted == w.minted
    decreases |names|
  {
    if names == [] {
      EvolvesSelf(mint, w);
    } else {
      assert names[0] in names;
      ObserveOne(env, mint, w, names[0], open);
      var u := ObserveName(Disturb(env, w), names[0]);
      ObservePhase(env, mint, u, names[1..], open);
      EvolvesTrans(mint, w, u, ObserveAll(env, u, names[1..]));
    }
  }

  lemma {:induction false} ObservePhaseAt(env: Env, mint: nat -> Key, w: World, names: seq<NameObservation>,
      open: set<Key>, n: NameObservation)
    requires Legal(env, mint) && Good(mint, w) && ConsistentExcept(w.View(), open) && n in names && RealName(n)
    requires forall n :: n in names ==> n.key in w.View().companies
    ensures NameCovers(ObserveAll(env, w, names).View(), n.key, n.observedAt)
    decreases |names|
  {
    ObserveOne(env, mint, w, names[0], open);
    var u := ObserveName(Disturb(env, w), names[0]);
    if n == names[0] {
      ObservePhase(env, mint, u, names[1..], open);
      NameCoversLater(u.View(), ObserveAll(env, u, names[1..]).View(), n.key, n.observedAt);
    } else {
      assert n in names[1..];
      ObservePhaseAt(env, mint, u, names[1..], open, n);
    }
  }
}
