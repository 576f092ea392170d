/** Rely and guarantee: what other transactions may commit while one resolves, and what every
    statement of the resolver keeps. */
module IdentityRely {
  import opened IdentityNormalize
  import opened IdentityPlan
  import opened IdentityRegistry

  /******* Growth *******/

  // Ownership never moves, roles are never lost, the time window only widens.
  predicate RowGrows(a: IdRow, b: IdRow) {
    && b.owner == a.owner
    && (a.isVAT ==> b.isVAT) && (a.isTax ==> b.isTax)
    && b.firstSeen <= a.firstSeen && a.lastSeen <= b.lastSeen
  }

  // The state is never demoted and a name only gives way to a later observation.
  predicate CompanyGrows(a: Company, b: Company) {
    && (a.state == FiscalState ==> b.state == FiscalState)
    && b.origin == a.origin
    && ((b.name == a.name && b.nameAt == a.nameAt && b.nameSource == a.nameSource)
        || (b.nameAt.Some? && (a.nameAt.None? || a.nameAt.value < b.nameAt.value)))
  }

  ghost predicate DbGrows(a: Db, b: Db) {
    && (forall r :: r in a.ids ==> r in b.ids && RowGrows(a.ids[r], b.ids[r]))
    && (forall k :: k in a.companies ==> k in b.companies && CompanyGrows(a.companies[k], b.companies[k]))
  }

  lemma DbGrowsTrans(a: Db, b: Db, c: Db)
    requires DbGrows(a, b) && DbGrows(b, c)
    ensures DbGrows(a, c)
  {
  }

  /******* Soundness *******/

  // Foreign key, no blank key, keys in normal form (upper-cased and trimmed when adopted or coined).
  ghost predicate Sound(db: Db) {
    && (forall r :: r in db.ids ==> db.ids[r].owner in db.companies)
    && (forall k :: k in db.companies ==> k != "" && NormalizeCompanyKey(k) == k)
  }

  ghost predicate HasFiscalId(db: Db, k: Key) {
    exists r :: r in db.ids && r.ns == Fiscal && db.ids[r].owner == k
  }

  // The whole-registry invariant: the state says whether the company owns a fiscal identifier.
  ghost predicate Consistent(db: Db) {
    forall k :: k in db.companies ==> (db.companies[k].state == FiscalState <==> HasFiscalId(db, k))
  }

  // Own rows are later versions of the committed rows they hide.
  ghost predicate Overlays(t: Tx) {
    && (forall r :: r in t.own.ids && r in t.committed.ids ==> RowGrows(t.committed.ids[r], t.own.ids[r]))
    && (forall k :: k in t.own.companies && k in t.committed.companies ==>
          CompanyGrows(t.committed.companies[k], t.own.companies[k]))
  }

  ghost predicate GoodTx(t: Tx) {
    Sound(t.committed) && Consistent(t.committed) && Overlays(t) && Sound(t.View())
  }

  // Keys are coined in normal form, never twice, and never one in use.
  ghost predicate FreshMint(mint: nat -> Key, w: World) {
    && (forall n :: mint(n) != "" && NormalizeCompanyKey(mint(n)) == mint(n))
    && (forall n, m :: mint(n) == mint(m) ==> n == m)
    && (forall n :: w.minted <= n ==> mint(n) !in w.View().companies)
  }

  ghost predicate Good(mint: nat -> Key, w: World) {
    GoodTx(w.tx) && FreshMint(mint, w)
  }

  lemma {:induction false} GoodIsSound(mint: nat -> Key, v: World)
    requires Good(mint, v)
    ensures Sound(v.View()) && Sound(v.tx.committed) && Consistent(v.tx.committed)
  {
  }

  // A transaction that has written nothing
  function StartOf(db: Db): World { World(Tx(db, Db(map[], map[])), 0, 0) }

  lemma {:induction false} StartGood(db: Db, mint: nat -> Key)
    requires Sound(db) && Consistent(db) && FreshMint(mint, StartOf(db))
    ensures Good(mint, StartOf(db)) && StartOf(db).View() == db
  {
  }

  /******* The environment *******/

  // The rows this transaction has written are neither changed nor created by anybody else.
  ghost predicate LocksKept(t: Tx, next: Db) {
    && (forall r :: r in t.own.ids ==> (r in next.ids <==> r in t.committed.ids))
    && (forall r :: r in t.own.ids && r in next.ids ==> next.ids[r] == t.committed.ids[r])
    && (forall k :: k in t.own.companies ==> (k in next.companies <==> k in t.committed.companies))
    && (forall k :: k in t.own.companies && k in next.companies ==> next.companies[k] == t.committed.companies[k])
  }

  // One commit by somebody else: it grows the tables, leaves them sound, respects the rows this
  // transaction has locked, and creates no company under a key of this transaction's mint.
  ghost predicate EnvStep(mint: nat -> Key, t: Tx, next: Db) {
    && DbGrows(t.committed, next) && Sound(next) && Consistent(next)
    && LocksKept(t, next)
    && (forall k, n :: k in next.companies && k !in t.committed.companies ==> k != mint(n))
  }

  ghost predicate Legal(env: Env, mint: nat -> Key) {
    forall n, t :: GoodTx(t) ==> EnvStep(mint, t, env(n, t))
  }

  // Nobody else commits.
  ghost predicate Quiet(env: Env) {
    forall n, t :: env(n, t) == t.committed
  }

  lemma {:induction false} QuietIsLegal(env: Env, mint: nat -> Key)
    requires Quiet(env)
    ensures Legal(env, mint)
  {
    forall n, t | GoodTx(t) ensures EnvStep(mint, t, env(n, t)) {
      DbGrowsSelf(t.committed);
    }
  }

  lemma {:induction false} DisturbQuiet(env: Env, w: World)
    requires Quiet(env)
    ensures Disturb(env, w).tx == w.tx && Disturb(env, w).minted == w.minted
  {
  }

  /******* Evolution of a resolving transaction *******/

  ghost predicate Evolves(mint: nat -> Key, w: World, v: World) {
    && DbGrows(w.View(), v.View())
    && DbGrows(w.tx.committed, v.tx.committed)
    && w.tx.own.ids.Keys <= v.tx.own.ids.Keys
    && w.tx.own.companies.Keys <= v.tx.own.companies.Keys
    && w.minted <= v.minted && w.tick <= v.tick
    && LocksKept(w.tx, v.tx.committed)
    && (forall k, n :: k in v.tx.committed.companies && k !in w.tx.committed.companies ==> k != mint(n))
  }

  lemma EvolvesSelf(mint: nat -> Key, w: World)
    ensures Evolves(mint, w, w)
  {
  }

  lemma EvolvesTrans(mint: nat -> Key, a: World, b: World, c: World)
    requires Evolves(mint, a, b) && Evolves(mint, b, c)
    ensures Evolves(mint, a, c)
  {
    DbGrowsTrans(a.View(), b.View(), c.View());
    DbGrowsTrans(a.tx.committed, b.tx.committed, c.tx.committed);
  }

  lemma EnvStepGrows(mint: nat -> Key, t: Tx, next: Db)
    requires EnvStep(mint, t, next)
    ensures DbGrows(t.View(), t.(committed := next).View())
  {
    var v, u := t.View(), t.(committed := next).View();
    forall r | r in v.ids ensures r in u.ids && RowGrows(v.ids[r], u.ids[r]) {
      if r in t.own.ids { assert u.ids[r] == v.ids[r]; } else { assert u.ids[r] == next.ids[r]; }
    }
    forall k | k in v.companies ensures k in u.companies && CompanyGrows(v.companies[k], u.companies[k]) {
      if k in t.own.companies { assert u.companies[k] == v.companies[k]; } else {
        assert u.companies[k] == next.companies[k];
      }
    }
  }

  lemma EnvStepSound(mint: nat -> Key, t: Tx, next: Db)
    requires GoodTx(t) && EnvStep(mint, t, next)
    ensures Sound(t.(committed := next).View())
  {
    var v, u := t.View(), t.(committed := next).View();
    forall r | r in u.ids ensures u.ids[r].owner in u.companies {
      if r in t.own.ids { assert u.ids[r] == v.ids[r]; } else { assert u.ids[r] == next.ids[r]; }
    }
  }

  lemma EnvStepOverlays(mint: nat -> Key, t: Tx, next: Db)
    requires Overlays(t) && EnvStep(mint, t, next)
    ensures Overlays(t.(committed := next))
  {
  }

  lemma DisturbGood(env: Env, mint: nat -> Key, w: World)
    requires Legal(env, mint) && Good(mint, w)
    ensures Good(mint, Disturb(env, w)) && Evolves(mint, w, Disturb(env, w))
    ensures Disturb(env, w).tx.own == w.tx.own && Disturb(env, w).minted == w.minted
    ensures EnvStep(mint, w.tx, Disturb(env, w).tx.committed)
  {
    var next := env(w.tick, w.tx);
    assert EnvStep(mint, w.tx, next);
    EnvStepGrows(mint, w.tx, next);
    EnvStepSound(mint, w.tx, next);
    EnvStepOverlays(mint, w.tx, next);
  }

  lemma PutCompanyView(w: World, key: Key, c: Company)
    ensures PutCompany(w, key, c).View() == Db(w.View().companies[key := c], w.View().ids)
  {
    assert PutCompany(w, key, c).View().companies == w.View().companies[key := c];
  }

  lemma PutIdView(w: World, r: Ref, row: IdRow)
    ensures PutId(w, r, row).View() == Db(w.View().companies, w.View().ids[r := row])
  {
    assert PutId(w, r, row).View().ids == w.View().ids[r := row];
  }

  lemma PutCompanyOverlays(w: World, key: Key, c: Company)
    requires Overlays(w.tx)
    requires key in w.tx.committed.companies ==> CompanyGrows(w.tx.committed.companies[key], c)
    ensures Overlays(PutCompany(w, key, c).tx)
  {
  }

  lemma PutIdOverlays(w: World, r: Ref, row: IdRow)
    requires Overlays(w.tx)
    requires r in w.tx.committed.ids ==> RowGrows(w.tx.committed.ids[r], row)
    ensures Overlays(PutId(w, r, row).tx)
  {
  }

  // The visible version of a committed row is a later version of it.
  lemma ViewGrows(t: Tx)
    requires Overlays(t)
    ensures DbGrows(t.committed, t.View())
  {
  }

  lemma DbPutCompany(db: Db, key: Key, c: Company)
    requires Sound(db)
    requires if key in db.companies then CompanyGrows(db.companies[key], c)
             else key != "" && NormalizeCompanyKey(key) == key
    ensures var next := Db(db.companies[key := c], db.ids); Sound(next) && DbGrows(db, next)
  {
  }

  lemma DbPutId(db: Db, r: Ref, row: IdRow)
    requires Sound(db)
    requires if r in db.ids then RowGrows(db.ids[r], row) else row.owner in db.companies
    ensures var next := Db(db.companies, db.ids[r := row]); Sound(next) && DbGrows(db, next)
  {
  }

  // An own write whose visible effect is sound growth.
  lemma OwnWriteGood(mint: nat -> Key, w: World, v: World)
    requires Good(mint, w) && v.tx.committed == w.tx.committed && v.minted == w.minted && v.tick == w.tick
    requires w.tx.own.ids.Keys <= v.tx.own.ids.Keys && w.tx.own.companies.Keys <= v.tx.own.companies.Keys
    requires Overlays(v.tx) && Sound(v.View()) && DbGrows(w.View(), v.View())
    requires forall k, n :: k in v.View().companies && k !in w.View().companies && w.minted <= n ==> k != mint(n)
    ensures Good(mint, v) && Evolves(mint, w, v)
  {
    DbGrowsSelf(w.tx.committed);
    forall n | v.minted <= n ensures mint(n) !in v.View().companies {
      assert mint(n) !in w.View().companies;
    }
  }

  lemma DbGrowsSelf(db: Db)
    ensures DbGrows(db, db)
  {
  }

  // A write that grows the row it replaces, or creates a company under an admissible key.
  lemma PutCompanyGood(mint: nat -> Key, w: World, key: Key, c: Company)
    requires Good(mint, w)
    requires if key in w.View().companies then CompanyGrows(w.View().companies[key], c)
             else key != "" && NormalizeCompanyKey(key) == key && forall n :: w.minted <= n ==> key != mint(n)
    ensures Good(mint, PutCompany(w, key, c)) && Evolves(mint, w, PutCompany(w, key, c))
    ensures PutCompany(w, key, c).View() == Db(w.View().companies[key := c], w.View().ids)
  {
    var v := PutCompany(w, key, c);
    PutCompanyView(w, key, c);
    DbPutCompany(w.View(), key, c);
    assert Overlays(v.tx) by {
      assert key in w.tx.committed.companies ==> CompanyGrows(w.tx.committed.companies[key], c) by { ViewGrows(w.tx); }
      PutCompanyOverlays(w, key, c);
    }
    OwnWriteGood(mint, w, v);
  }

  lemma PutIdGood(mint: nat -> Key, w: World, r: Ref, row: IdRow)
    requires Good(mint, w)
    requires if r in w.View().ids then RowGrows(w.View().ids[r], row) else row.owner in w.View().companies
    ensures Good(mint, PutId(w, r, row)) && Evolves(mint, w, PutId(w, r, row))
    ensures PutId(w, r, row).View() == Db(w.View().companies, w.View().ids[r := row])
  {
    var v := PutId(w, r, row);
    PutIdView(w, r, row);
    DbPutId(w.View(), r, row);
    assert Overlays(v.tx) by {
      assert r in w.tx.committed.ids ==> RowGrows(w.tx.committed.ids[r], row) by { ViewGrows(w.tx); }
      PutIdOverlays(w, r, row);
    }
    OwnWriteGood(mint, w, v);
  }

  /******* The statements *******/

  lemma MergedGrows(row: IdRow, a: Attachment)
    requires row.owner == a.key
    ensures RowGrows(row, MergedRow(row, a))
  {
  }

  lemma AttachGood(mint: nat -> Key, w: World, a: Attachment, now: Instant)
    requires Good(mint, w) && AttachIdentifier(w, a, now).Attached?
    ensures var v := AttachIdentifier(w, a, now).w;
            Good(mint, v) && Evolves(mint, w, v) && v.tx.committed == w.tx.committed
              && v.tx.own.companies == w.tx.own.companies
            && a.identifier.ref in v.View().ids && v.View().ids[a.identifier.ref].owner == a.key
            && v.View().companies == w.View().companies
               && v.View().ids == w.View().ids[a.identifier.ref := v.View().ids[a.identifier.ref]]
  {
    var r := a.identifier.ref;
    if r in w.View().ids {
      MergedGrows(w.View().ids[r], a);
      PutIdGood(mint, w, r, MergedRow(w.View().ids[r], a));
    } else {
      PutIdGood(mint, w, r, InsertedRow(a, now));
    }
  }

  lemma PromoteGood(mint: nat -> Key, w: World, key: Key)
    requires Good(mint, w)
    ensures var v := PromoteCompany(w, key);
            Good(mint, v) && Evolves(mint, w, v) && v.tx.committed == w.tx.committed && v.tx.own.ids == w.tx.own.ids
            && (key in v.View().companies ==> v.View().companies[key].state == FiscalState)
            && v.View().companies.Keys == w.View().companies.Keys && v.View().ids == w.View().ids
            && (forall k :: k in w.View().companies && k != key ==> v.View().companies[k] == w.View().companies[k])
  {
    var view := w.View();
    if key in view.companies && view.companies[key].state == VendorOnly {
      PutCompanyGood(mint, w, key, view.companies[key].(state := FiscalState));
    } else {
      EvolvesSelf(mint, w);
    }
  }

  lemma ObserveGood(mint: nat -> Key, w: World, n: NameObservation)
    requires Good(mint, w)
    ensures var v := ObserveName(w, n);
            Good(mint, v) && Evolves(mint, w, v) && v.tx.committed == w.tx.committed && v.tx.own.ids == w.tx.own.ids
            && v.View().companies.Keys == w.View().companies.Keys && v.View().ids == w.View().ids
            && (forall k :: k in w.View().companies ==> v.View().companies[k].state == w.View().companies[k].state)
  {
    var key, view := NormalizeCompanyKey(n.key), w.View();
    if ObserveName(w, n) == w {
      EvolvesSelf(mint, w);
    } else if key in view.companies && NameApplies(view.companies[key], n) {
      PutCompanyGood(mint, w, key, Renamed(view.companies[key], n));
    }
  }
}
