/** Resolving rows that were already resolved: when that changes nothing, exactly, and a replay that conflicts. */
module IdentityReplay {
  import opened Wrappers
  import opened Text
  import opened IdentityNormalize
  import opened IdentityPlan
  import opened IdentityClaims
  import opened IdentityComponents
  import opened IdentityWrites
  import opened IdentityRegistry
  import opened IdentityRely
  import opened IdentityGuarantee
  import opened IdentityAttempt
  import opened IdentityResolver
  import opened IdentityConflicts
  import opened IdentityOrder
  import Digits

  // A supply of keys, and an empty registry to start from: every assumption of the resolver's
  // results holds there.
  function Numbered(n: nat): Key { "K" + Digits.NatStr(n) }

  lemma {:induction false} NumberedKey(n: nat)
    ensures Numbered(n) != "" && NormalizeCompanyKey(Numbered(n)) == Numbered(n)
  {
    var d, k := Digits.NatStr(n), Numbered(n);
    assert forall i :: 1 <= i < |k| ==> Digits.IsDigit(k[i]) by {
      assert forall i :: 1 <= i < |k| ==> k[i] == d[i - 1];
    }
    hide Digits.NatStr;
    TrimSpaceOfTrimmed(k);
    assert ToUpper(k) == k;
  }

  lemma {:induction false} NumberedApart(n: nat, m: nat)
    requires Numbered(n) == Numbered(m)
    ensures n == m
  {
    hide Digits.NatStr;
    assert Numbered(n)[1..] == Digits.NatStr(n) && Numbered(m)[1..] == Digits.NatStr(m);
    Digits.NatStrInjective(n, m);
  }

  lemma {:induction false} EmptyStart(env: Env)
    requires Quiet(env)
    ensures var w := StartOf(Db(map[], map[]));
            Legal(env, Numbered) && Good(Numbered, w) && Consistent(w.View())
  {
    QuietIsLegal(env, Numbered);
    hide Numbered, NormalizeCompanyKey, Legal;
    forall n ensures Numbered(n) != "" && NormalizeCompanyKey(Numbered(n)) == Numbered(n) { NumberedKey(n); }
    forall n, m | Numbered(n) == Numbered(m) ensures n == m { NumberedApart(n, m); }
  }

  // No company is visible under a key that a row carries, other than the row's own.
  predicate PriorsAgree(db: Db, ss: seq<Sighting>, keys: seq<Key>) {
    |keys| == |ss| && forall i :: 0 <= i < |ss| && ss[i].prior in db.companies ==> ss[i].prior == keys[i]
  }

  // Everything the rows had to say is recorded under keys.
  ghost predicate Recorded(t: Attempt, keys: seq<Key>) {
    t.Ready() && AllSettled(t.w.View(), t.ss, keys)
  }

  // And the registry, when the attempt reads it, knows no other company that a row carries.
  ghost predicate Rerun(t: Attempt, keys: seq<Key>) {
    Recorded(t, keys) && PriorsAgree(t.ReadWorld().View(), t.ss, keys)
  }

  lemma {:induction false} SettledRow(t: Attempt, keys: seq<Key>, i: nat)
    requires Recorded(t, keys) && i < |t.ss|
    ensures |keys| == |t.ss| && Settled(t.w.View(), t.ss[i], keys[i])
  {
  }

  // The owners and known keys that are read extend what was recorded.
  lemma {:induction false} RerunReads(t: Attempt)
    requires t.Ready()
    ensures DbGrows(t.w.View(), t.ReadWorld().View()) && t.Ctx().known == KnownOf(t.ReadWorld().View(), t.ss)
    ensures forall r :: r in t.w.View().ids && BatchMentions(t.ss, r) ==>
              r in t.Ctx().existing && t.Ctx().existing[r] == t.w.View().ids[r].owner
  {
    ReadsGood(t);
    hide Good, Legal, BatchMentions, BatchCarries;
  }

  lemma {:induction false} RerunSeed(t: Attempt, keys: seq<Key>, i: nat)
    requires Recorded(t, keys) && i < |t.ss|
    ensures keys[i] != "" && (t.ss[i].ids == [] ==> t.ss[i].Seed(t.Ctx()) == keys[i])
    ensures t.ss[i].prior in t.ReadWorld().View().companies && t.ss[i].prior != "" ==>
        t.ss[i].Seed(t.Ctx()) == t.ss[i].prior
    ensures t.ss[i].prior !in t.ReadWorld().View().companies ==> t.ss[i].Seed(t.Ctx()) == ""
  {
    SettledRow(t, keys, i);
    RerunReads(t);
    hide Recorded, Attempt.ReadWorld, Attempt.Ctx;
    if t.ss[i].prior != "" { assert BatchCarries(t.ss, t.ss[i].prior); }
  }

  lemma {:induction false} RerunOwner(t: Attempt, keys: seq<Key>, i: nat, x: nat)
    requires Recorded(t, keys) && i < |t.ss| && x < |t.ss[i].ids|
    ensures t.ss[i].ids[x].ref in t.Ctx().existing && t.Ctx().existing[t.ss[i].ids[x].ref] == keys[i]
  {
    SettledRow(t, keys, i);
    RerunReads(t);
    hide Recorded, Attempt.ReadWorld, Attempt.Ctx, DbGrows;
    assert Covers(t.w.View(), Attachment(t.ss[i].ids[x], keys[i], t.ss[i].o.observedAt));
    assert MentionsRef(t.ss[i].ids, t.ss[i].ids[x].ref) && BatchMentions(t.ss, t.ss[i].ids[x].ref);
  }

  // Every row finds its own key and coins nothing.
  lemma {:induction false} RerunRow(t: Attempt, keys: seq<Key>, i: nat)
    requires Rerun(t, keys) && i < |t.ss|
    ensures KeyAt(t.Ctx(), t.ss, i) == keys[i] != "" && !MintsAt(t.Ctx(), t.ss, i)
  {
    ReadsValid(t);
    RerunSeed(t, keys, i);
    forall x | 0 <= x < |t.ss[i].ids|
      ensures t.ss[i].ids[x].ref in t.Ctx().existing && t.Ctx().existing[t.ss[i].ids[x].ref] == keys[i]
    {
      RerunOwner(t, keys, i, x);
    }
    hide Valid, Recorded, Attempt.ReadWorld, Attempt.Ctx, Sighting.Seed;
    OwnedRow(t.Ctx(), t.ss, i, keys[i]);
  }

  // A row whose identifiers all belong to the company it expects is resolved to it.
  lemma {:induction false} OwnedRow(c: Context, ss: seq<Sighting>, i: nat, k: Key)
    requires i < |ss| && Valid(c) && k != ""
    requires ss[i].Seed(c) in {"", k} && (ss[i].ids == [] ==> ss[i].Seed(c) == k)
    requires forall x :: 0 <= x < |ss[i].ids| ==> ss[i].ids[x].ref in c.existing && c.existing[ss[i].ids[x].ref] == k
    ensures KeyAt(c, ss, i) == k && !MintsAt(c, ss, i)
  {
    ClaimsGrow(c, ss, i);
    StepOutcome(c, ss, i);
    var claimed := After(c, ss, i).claimed;
    Detection(ss[i].ids, claimed, ss[i].Seed(c), ss[i].o);
    forall x | 0 <= x < |ss[i].ids| ensures ss[i].ids[x].ref in claimed && claimed[ss[i].ids[x].ref] == k { }
    if ss[i].ids != [] { assert ss[i].ids[0].ref in claimed; }
  }

  lemma {:induction false} RerunPlan(t: Attempt, keys: seq<Key>)
    requires Rerun(t, keys)
    ensures t.ThePlan().Clean() && t.ThePlan().keys == keys
    ensures t.State().minted == 0 && t.ThePlan().newEntities == []
  {
    ReadsValid(t);
    assert |keys| == |t.ss|;
    hide Rerun, Valid, KeyAt, MintsAt, Attempt.Ctx, Step;
    var c := t.Ctx();
    forall i | 0 <= i < |t.ss| ensures KeyAt(c, t.ss, i) == keys[i] != "" && !MintsAt(c, t.ss, i) {
      RerunRow(t, keys, i);
    }
    CleanAccepts(c, t.ss, |t.ss|);
    CleanKeys(c, t.ss);
    CountCoiners(c, t.ss, |t.ss|);
    assert CoinersUpTo(c, t.ss, |t.ss|) == {};
    EntitiesAreCoined(c, t.ss, |t.ss|);
  }

  // A row that carries another company than its recorded one is a conflict.
  lemma {:induction false} StrayPrior(t: Attempt, keys: seq<Key>)
    requires Recorded(t, keys) && !PriorsAgree(t.ReadWorld().View(), t.ss, keys)
    ensures t.ThePlan().conflicts != [] && t.ThePlan().missing == []
  {
    ReadsValid(t);
    NothingMissing(t, keys);
    assert |keys| == |t.ss|;
    hide Recorded, Valid, Attempt.Ctx, Attempt.ReadWorld, After, RegistryDisagrees, Settled, Sighting.Seed;
    var i :| 0 <= i < |t.ss| && t.ss[i].prior in t.ReadWorld().View().companies && t.ss[i].prior != keys[i];
    StrayRow(t, keys, i);
    hide MintsAt, MentionsRef, DbGrows, ContributesNothing, ReportsOn;
    ConflictsComplete(t.Ctx(), t.ss, i);
  }

  lemma {:induction false} NothingMissing(t: Attempt, keys: seq<Key>)
    requires Recorded(t, keys)
    ensures t.ThePlan().missing == []
  {
    assert |keys| == |t.ss|;
    hide Attempt.Ctx, Attempt.ReadWorld, Settled, Sighting.Seed;
    var missing := t.ThePlan().missing;
    if missing != [] {
      MissingExactly(t.Ctx(), t.ss, |t.ss|, missing[0]);
      RerunSeed(t, keys, missing[0]);
    }
  }

  lemma {:induction false} StrayRow(t: Attempt, keys: seq<Key>, i: nat)
    requires Recorded(t, keys) && i < |t.ss|
    requires t.ss[i].prior in t.ReadWorld().View().companies && t.ss[i].prior != keys[i]
    ensures RegistryDisagrees(t.Ctx(), t.ss[i])
  {
    ReadsGood(t);
    assert t.ss[i].prior != "";
    hide Good, Evolves, Legal, RegistryDisagrees, Recorded, Attempt.Ctx, Attempt.ReadWorld, Sighting.Seed;
    RerunSeed(t, keys, i);
    RerunOwner(t, keys, i, 0);
    OwnerDisagrees(t.Ctx(), t.ss[i], keys[i]);
  }

  lemma {:induction false} OwnerDisagrees(c: Context, s: Sighting, k: Key)
    requires s.ids != [] && s.ids[0].ref in c.existing && c.existing[s.ids[0].ref] == k && s.Seed(c) !in {"", k}
    ensures RegistryDisagrees(c, s)
  {
    assert MentionsRef(s.ids, s.ids[0].ref);
  }

  /******* The writes are all repetitions *******/

  // Dropping what the transaction wrote since it owned own would change nothing that is visible.
  predicate Unwritten(own: Db, w: World) {
    && own.ids.Keys <= w.tx.own.ids.Keys && own.companies.Keys <= w.tx.own.companies.Keys
    && RollbackTo(w, own).View() == w.View()
  }

  // Own rows that hide nothing stay so: nobody else touches them.
  lemma {:induction false} StillHidden<K, V>(own: map<K, V>, mine: map<K, V>, committed: map<K, V>, next: map<K, V>)
    requires own.Keys <= mine.Keys && committed + own == committed + mine
    requires forall k :: k in mine ==> (k in next <==> k in committed) && (k in next ==> next[k] == committed[k])
    ensures next + own == next + mine
  {
    var a, b := committed + own, committed + mine;
    var x, y := next + own, next + mine;
    forall k | k in mine ensures k in x && x[k] == y[k] {
      assert k in b && k in a && a[k] == b[k] == mine[k];
      if k !in own { assert k in committed && next[k] == committed[k]; }
    }
    assert x.Keys == y.Keys;
  }

  lemma {:induction false} UnwrittenDisturbed(env: Env, mint: nat -> Key, own: Db, w: World)
    requires Legal(env, mint) && Good(mint, w) && Unwritten(own, w)
    ensures Unwritten(own, Disturb(env, w))
  {
    DisturbGood(env, mint, w);
    var next := Disturb(env, w).tx.committed;
    assert LocksKept(w.tx, next);
    hide Legal, Good, Evolves, EnvStep;
    StillHidden(own.ids, w.tx.own.ids, w.tx.committed.ids, next.ids);
    StillHidden(own.companies, w.tx.own.companies, w.tx.committed.companies, next.companies);
  }

  // Writing a visible row again
  lemma {:induction false} UnwrittenAgain(own: Db, w: World, r: Ref, row: IdRow)
    requires Unwritten(own, w) && r in w.View().ids && w.View().ids[r] == row
    ensures Unwritten(own, PutId(w, r, row)) && PutId(w, r, row).View() == w.View()
  {
    PutIdView(w, r, row);
    assert w.View().ids[r := row] == w.View().ids;
  }

  lemma {:induction false} ReattachOne(env: Env, now: Instant, mint: nat -> Key, own: Db, w: World, a: Attachment)
    requires Legal(env, mint) && Good(mint, w) && Unwritten(own, w) && Covers(w.View(), a)
    ensures var v, r := Disturb(env, w), AttachIdentifier(Disturb(env, w), a, now);
            && r.Attached? && Good(mint, r.w) && Evolves(mint, w, r.w) && Unwritten(own, r.w)
            && r.w.minted == w.minted && r.w.tx.own.companies == w.tx.own.companies
  {
    var v, r := Disturb(env, w), a.identifier.ref;
    DisturbGood(env, mint, w);
    UnwrittenDisturbed(env, mint, own, w);
    EvolvesViews(mint, w, v);
    CoversLater(w.View(), v.View(), a);
    MergedSame(v.View().ids[r], a);
    UnwrittenAgain(own, v, r, v.View().ids[r]);
    hide Legal, Good, DbGrows, Evolves, Unwritten, MergedRow;
    assert AttachIdentifier(v, a, now) == Attached(PutId(v, r, v.View().ids[r]));
    AttachGood(mint, v, a, now);
    EvolvesTrans(mint, w, v, PutId(v, r, v.View().ids[r]));
  }

  lemma {:induction false} MergedSame(row: IdRow, a: Attachment)
    requires Covers(Db(map[], map[a.identifier.ref := row]), a)
    ensures MergedRow(row, a) == row
  {
  }

  lemma {:induction false} ReattachSame(env: Env, now: Instant, mint: nat -> Key, own: Db, w: World,
      atts: seq<Attachment>)
    requires Legal(env, mint) && Good(mint, w) && Unwritten(own, w) && forall a :: a in atts ==> Covers(w.View(), a)
    ensures var r := AttachAll(env, now, w, atts);
            && r.Going? && Good(mint, r.w) && Evolves(mint, w, r.w) && Unwritten(own, r.w)
            && r.w.minted == w.minted && r.w.tx.own.companies == w.tx.own.companies
    decreases |atts|
  {
    hide Legal, Good, Evolves, Unwritten, DbGrows, Covers;
    if atts == [] {
      EvolvesSelf(mint, w);
    } else {
      assert atts[0] in atts;
      ReattachOne(env, now, mint, own, w, atts[0]);
      var u := AttachIdentifier(Disturb(env, w), atts[0], now).w;
      forall a | a in atts[1..] ensures Covers(u.View(), a) {
        assert a in atts;
        EvolvesViews(mint, w, u);
        CoversLater(w.View(), u.View(), a);
      }
      ReattachSame(env, now, mint, own, u, atts[1..]);
      EvolvesTrans(mint, w, u, AttachAll(env, now, u, atts[1..]).w);
    }
  }

  lemma {:induction false} EvolvesViews(mint: nat -> Key, a: World, b: World)
    requires Evolves(mint, a, b)
    ensures DbGrows(a.View(), b.View())
  {
  }

  lemma {:induction false} RepromoteSame(env: Env, mint: nat -> Key, own: Db, w: World, keys: seq<Key>)
    requires Legal(env, mint) && Good(mint, w) && Unwritten(own, w) && forall k :: k in keys ==> IsFiscal(w.View(), k)
    ensures var v := PromoteAll(env, w, keys);
            && Good(mint, v) && Evolves(mint, w, v) && Unwritten(own, v)
            && v.minted == w.minted && v.tx.own == w.tx.own
    decreases |keys|
  {
    hide Legal, Good, Evolves, Unwritten, DbGrows;
    if keys == [] {
      EvolvesSelf(mint, w);
    } else {
      assert keys[0] in keys;
      var v := Disturb(env, w);
      DisturbGood(env, mint, w);
      UnwrittenDisturbed(env, mint, own, w);
      EvolvesViews(mint, w, v);
      forall k | k in keys ensures IsFiscal(v.View(), k) { IsFiscalLater(w.View(), v.View(), k); }
      assert PromoteCompany(v, keys[0]) == v;
      RepromoteSame(env, mint, own, v, keys[1..]);
      EvolvesTrans(mint, w, v, PromoteAll(env, v, keys[1..]));
    }
  }

  // The name statement has nothing to do: the name is blank or untimed, or not newer.
  predicate NameHeld(db: Db, n: NameObservation) {
    n.observedAt == ZERO_TIME || (NormalizeCompanyKey(n.key) == n.key && NameCovers(db, n.key, n.observedAt))
  }

  lemma {:induction false} ReobserveSame(env: Env, mint: nat -> Key, own: Db, w: World, names: seq<NameObservation>)
    requires Legal(env, mint) && Good(mint, w) && Unwritten(own, w) && forall n :: n in names ==> NameHeld(w.View(), n)
    ensures var v := ObserveAll(env, w, names);
            && Good(mint, v) && Evolves(mint, w, v) && Unwritten(own, v)
            && v.minted == w.minted && v.tx.own == w.tx.own
    decreases |names|
  {
    hide Legal, Good, Evolves, Unwritten, DbGrows, NormalizeCompanyKey;
    if names == [] {
      EvolvesSelf(mint, w);
    } else {
      assert names[0] in names;
      var v := Disturb(env, w);
      DisturbGood(env, mint, w);
      UnwrittenDisturbed(env, mint, own, w);
      EvolvesViews(mint, w, v);
      forall n | n in names ensures NameHeld(v.View(), n) {
        if n.observedAt != ZERO_TIME { NameCoversLater(w.View(), v.View(), n.key, n.observedAt); }
      }
      assert ObserveName(v, names[0]) == v;
      ReobserveSame(env, mint, own, v, names[1..]);
      EvolvesTrans(mint, w, v, ObserveAll(env, v, names[1..]));
    }
  }

  lemma {:induction false} RerunAttachment(t: Attempt, keys: seq<Key>, a: Attachment)
    requires Rerun(t, keys) && a in t.ThePlan().attachments
    ensures Covers(t.w.View(), a)
  {
    ReadsValid(t);
    hide Rerun, Valid, Attempt.Ctx, After, Covers;
    var i := AttachmentRow(t.Ctx(), t.ss, |t.ss|, a);
    RerunRow(t, keys, i);
    RerunRecorded(t, keys);
    SettledRow(t, keys, i);
    var x :| 0 <= x < |t.ss[i].ids| && t.ss[i].ids[x] == a.identifier;
    assert a == Attachment(t.ss[i].ids[x], keys[i], t.ss[i].o.observedAt);
  }

  lemma {:induction false} RerunRecorded(t: Attempt, keys: seq<Key>)
    requires Rerun(t, keys)
    ensures Recorded(t, keys)
  {
  }

  lemma {:induction false} RerunPromotion(t: Attempt, keys: seq<Key>, k: Key)
    requires Rerun(t, keys) && k in t.ThePlan().promotions
    ensures IsFiscal(t.w.View(), k)
  {
    ReadsValid(t);
    hide Rerun, Valid, Attempt.Ctx, After;
    var i := PromotionRow(t.Ctx(), t.ss, |t.ss|, k);
    RerunRow(t, keys, i);
    RerunRecorded(t, keys);
    SettledRow(t, keys, i);
  }

  lemma {:induction false} RerunName(t: Attempt, keys: seq<Key>, n: NameObservation)
    requires Rerun(t, keys) && n in t.ThePlan().names
    ensures NameHeld(t.w.View(), n)
  {
    ReadsValid(t);
    RerunRecorded(t, keys);
    hide Rerun, Valid, Attempt.Ctx, After;
    var i := NameRow(t.Ctx(), t.ss, |t.ss|, n);
    RerunRow(t, keys, i);
    SettledRow(t, keys, i);
  }

  // The three writing phases of a rerun, one after the other
  ghost predicate Repeated(t: Attempt, v: World) {
    && Good(t.mint, v) && Evolves(t.mint, t.w, v) && DbGrows(t.w.View(), v.View()) && Unwritten(t.w.tx.own, v)
    && v.minted == t.w.minted
  }

  lemma {:induction false} RerunStarts(t: Attempt, keys: seq<Key>)
    requires Rerun(t, keys)
    ensures t.Inserted() == Going(t.Planned()) && Repeated(t, t.Planned())
  {
    RerunPlan(t, keys);
    assert t.Ready();
    hide Rerun, Legal, Good, Evolves, DbGrows, Reads, After, Attempt.Ready, Disturb, Attempt.ReadWorld;
    ReadsGood(t);
    PlannedGood(t);
    EvolvesViews(t.mint, t.w, t.Planned());
    assert InsertAll(t.env, t.Planned(), []) == Going(t.Planned());
  }

  lemma {:induction false} RerunAttaches(t: Attempt, keys: seq<Key>)
    requires Rerun(t, keys)
    ensures t.Inserted().Going? && t.AttachFold().Going? && Repeated(t, t.AttachFold().w)
  {
    RerunStarts(t, keys);
    assert Legal(t.env, t.mint);
    hide Rerun, Legal, Good, Evolves, DbGrows, Unwritten, Covers, Attempt.Planned, Attempt.ThePlan;
    var p, plan := t.Planned(), t.ThePlan();
    forall a | a in plan.attachments ensures Covers(p.View(), a) {
      RerunAttachment(t, keys, a);
      CoversLater(t.w.View(), p.View(), a);
    }
    ReattachSame(t.env, t.now, t.mint, t.w.tx.own, p, plan.attachments);
    var q := t.AttachFold().w;
    EvolvesTrans(t.mint, t.w, p, q);
    EvolvesViews(t.mint, t.w, q);
  }

  lemma {:induction false} RerunPromotes(t: Attempt, keys: seq<Key>)
    requires Rerun(t, keys)
    ensures t.Inserted().Going? && t.AttachFold().Going? && Repeated(t, t.Promoted())
  {
    RerunAttaches(t, keys);
    assert Legal(t.env, t.mint);
    hide Rerun, Legal, Good, Evolves, DbGrows, Unwritten, IsFiscal, Attempt.AttachFold, Attempt.ThePlan;
    var q, plan := t.AttachFold().w, t.ThePlan();
    forall k | k in plan.promotions ensures IsFiscal(q.View(), k) {
      RerunPromotion(t, keys, k);
      IsFiscalLater(t.w.View(), q.View(), k);
    }
    RepromoteSame(t.env, t.mint, t.w.tx.own, q, plan.promotions);
    EvolvesTrans(t.mint, t.w, q, t.Promoted());
    EvolvesViews(t.mint, t.w, t.Promoted());
  }

  lemma {:induction false} RerunWrites(t: Attempt, keys: seq<Key>)
    requires Rerun(t, keys)
    ensures t.Inserted().Going? && t.AttachFold().Going? && Repeated(t, t.Final())
  {
    RerunPromotes(t, keys);
    assert Legal(t.env, t.mint);
    hide Rerun, Legal, Good, Evolves, DbGrows, Unwritten, NameHeld, Attempt.Promoted, Attempt.ThePlan;
    var q, plan := t.Promoted(), t.ThePlan();
    forall n | n in plan.names ensures NameHeld(q.View(), n) {
      RerunName(t, keys, n);
      NameHeldLater(t.w.View(), q.View(), n);
    }
    ReobserveSame(t.env, t.mint, t.w.tx.own, q, plan.names);
    EvolvesTrans(t.mint, t.w, q, t.Final());
    EvolvesViews(t.mint, t.w, t.Final());
  }

  lemma {:induction false} NameHeldLater(a: Db, b: Db, n: NameObservation)
    requires DbGrows(a, b) && NameHeld(a, n)
    ensures NameHeld(b, n)
  {
    if n.observedAt != ZERO_TIME { NameCoversLater(a, b, n.key, n.observedAt); }
  }

  // What a replay ends in: the same keys and no visible write, unless a row carries another company
  // that the registry knows by then; then it is a conflict.
  ghost predicate Replays(t: Attempt, keys: seq<Key>, v: World, o: Outcome) {
    if PriorsAgree(t.ReadWorld().View(), t.ss, keys) then
      o == Resolved(keys) && Unwritten(t.w.tx.own, v) && v.minted == t.w.minted
    else o.Conflicted? && v.tx.own == t.w.tx.own
  }

  // Main result: rows whose content is recorded resolve to their keys under any legal interference, and
  // none of the writes shows, exactly when no other company is visible under a key that a row carries.
  lemma {:induction false} ReplayChangesNothing(env: Env, now: Instant, mint: nat -> Key, w: World, ss: seq<Sighting>,
      keys: seq<Key>)
    requires Legal(env, mint) && Good(mint, w) && AllSettled(w.View(), ss, keys)
    ensures var (v, o) := ResolveBatch(env, now, mint, w, ss);
            Replays(Attempt(env, now, mint, w, ss), keys, v, o)
  {
    var t := Attempt(env, now, mint, w, ss);
    if ss != [] {
      ResolveFromStep(t, RETRY_ATTEMPTS, None);
      assert Recorded(t, keys);
      hide Legal, Good, AllSettled, ResolveOnce, Attempt.ReadWorld, Unwritten, ResolveFrom;
      if PriorsAgree(t.ReadWorld().View(), ss, keys) {
        RerunPlan(t, keys);
        RerunWrites(t, keys);
        ResultShape(t);
      } else {
        StrayPrior(t, keys);
        ConflictResult(t);
      }
    }
  }

  lemma {:induction false} ConflictResult(t: Attempt)
    requires t.Ready() && t.ThePlan().conflicts != [] && t.ThePlan().missing == []
    ensures t.Result() == (t.Planned(), Conflicted(t.ThePlan().conflicts)) && t.Planned().tx.own == t.w.tx.own
  {
    ReadsGood(t);
    hide Good, Legal, Evolves, After, WritePlan;
  }

  function PickedRows(ss: seq<Sighting>, f: seq<nat>): (r: seq<Sighting>)
    requires forall j :: 0 <= j < |f| ==> f[j] < |ss|
    ensures |r| == |f| && forall j :: 0 <= j < |f| ==> r[j] == ss[f[j]]
  {
    seq(|f|, j requires 0 <= j < |f| => ss[f[j]])
  }

  function Picked(keys: seq<Key>, f: seq<nat>): (r: seq<Key>)
    requires forall j :: 0 <= j < |f| ==> f[j] < |keys|
    ensures |r| == |f| && forall j :: 0 <= j < |f| ==> r[j] == keys[f[j]]
  {
    seq(|f|, j requires 0 <= j < |f| => keys[f[j]])
  }

  lemma {:induction false} PickedSettled(db: Db, ss: seq<Sighting>, keys: seq<Key>, f: seq<nat>)
    requires AllSettled(db, ss, keys) && forall j :: 0 <= j < |f| ==> f[j] < |ss|
    ensures AllSettled(db, PickedRows(ss, f), Picked(keys, f))
  {
  }

  lemma {:induction false} SettledLater(a: Db, b: Db, s: Sighting, key: Key)
    requires DbGrows(a, b) && Settled(a, s, key)
    ensures Settled(b, s, key)
  {
    forall x | 0 <= x < |s.ids| ensures Covers(b, Attachment(s.ids[x], key, s.o.observedAt)) {
      CoversLater(a, b, Attachment(s.ids[x], key, s.o.observedAt));
    }
    if s.HasFiscal() { IsFiscalLater(a, b, key); }
    if s.o.observedAt.Some? && s.o.observedAt.value != ZERO_TIME && s.Name() != "" {
      NameCoversLater(a, b, key, s.o.observedAt.value);
    }
  }

  // Main result: after a successful resolve, at any later time and in any transaction that sees at least
  // what the resolve left, under any legal interference then and now, any selection of its rows in any order
  // resolves again to the same keys without a visible write, exactly when no other company is visible by then
  // under a key that one of the rows carries; otherwise it is a conflict.
  lemma {:induction false} LaterReplay(env: Env, now: Instant, mint: nat -> Key, w: World, ss: seq<Sighting>,
                                       again: Env, later: Instant, coin: nat -> Key, x: World, f: seq<nat>)
    requires Legal(env, mint) && Good(mint, w) && Consistent(w.View()) && Legal(again, coin) && Good(coin, x)
    requires forall j :: 0 <= j < |f| ==> f[j] < |ss|
    requires ResolveBatch(env, now, mint, w, ss).1.Resolved?
    requires DbGrows(ResolveBatch(env, now, mint, w, ss).0.View(), x.View())
    ensures var o := ResolveBatch(env, now, mint, w, ss).1;
            var (u, p) := ResolveBatch(again, later, coin, x, PickedRows(ss, f));
            |o.keys| == |ss| && Replays(Attempt(again, later, coin, x, PickedRows(ss, f)), Picked(o.keys, f), u, p)
  {
    hide Legal, Good, Consistent, ResolveBatch, Replays, Settled, DbGrows;
    ResolveContract(env, now, mint, w, ss);
    var (v, o) := ResolveBatch(env, now, mint, w, ss);
    forall i | 0 <= i < |ss| ensures Settled(x.View(), ss[i], o.keys[i]) {
      SettledLater(v.View(), x.View(), ss[i], o.keys[i]);
    }
    PickedSettled(x.View(), ss, o.keys, f);
    ReplayChangesNothing(again, later, coin, x, PickedRows(ss, f), Picked(o.keys, f));
  }

  // The same inside the transaction of the resolve
  lemma {:induction false} ResolveThenReplay(env: Env, now: Instant, mint: nat -> Key, w: World, ss: seq<Sighting>,
                                             again: Env, later: Instant, f: seq<nat>)
    requires Legal(env, mint) && Good(mint, w) && Consistent(w.View()) && Legal(again, mint)
    requires forall j :: 0 <= j < |f| ==> f[j] < |ss|
    requires ResolveBatch(env, now, mint, w, ss).1.Resolved?
    ensures var (v, o) := ResolveBatch(env, now, mint, w, ss);
            var (u, p) := ResolveBatch(again, later, mint, v, PickedRows(ss, f));
            |o.keys| == |ss| && Replays(Attempt(again, later, mint, v, PickedRows(ss, f)), Picked(o.keys, f), u, p)
  {
    ResolveContract(env, now, mint, w, ss);
    hide Legal, Good, Consistent, ResolveBatch, Replays, Settled, DbGrows;
    var v := ResolveBatch(env, now, mint, w, ss).0;
    DbGrowsSelf(v.View());
    LaterReplay(env, now, mint, w, ss, again, later, mint, v, f);
  }

  // And in a new transaction, with its own keys, once the resolve is committed
  lemma {:induction false} CommittedReplay(env: Env, now: Instant, mint: nat -> Key, w: World, ss: seq<Sighting>,
                                           again: Env, later: Instant, coin: nat -> Key, f: seq<nat>)
    requires Legal(env, mint) && Good(mint, w) && Consistent(w.View()) && Legal(again, coin)
    requires FreshMint(coin, StartOf(ResolveBatch(env, now, mint, w, ss).0.View()))
    requires forall j :: 0 <= j < |f| ==> f[j] < |ss|
    requires ResolveBatch(env, now, mint, w, ss).1.Resolved?
    ensures var (v, o) := ResolveBatch(env, now, mint, w, ss);
            var x := StartOf(v.View());
            var (u, p) := ResolveBatch(again, later, coin, x, PickedRows(ss, f));
            |o.keys| == |ss| && Replays(Attempt(again, later, coin, x, PickedRows(ss, f)), Picked(o.keys, f), u, p)
  {
    ResolveContract(env, now, mint, w, ss);
    hide Legal, Good, Consistent, ResolveBatch, Replays, Settled, DbGrows, FreshMint, Sound;
    var v := ResolveBatch(env, now, mint, w, ss).0;
    GoodIsSound(mint, v);
    StartGood(v.View(), coin);
    DbGrowsSelf(v.View());
    LaterReplay(env, now, mint, w, ss, again, later, coin, StartOf(v.View()), f);
  }

  // When nobody else commits, what is visible when the resolve ends decides.
  lemma {:induction false} QuietReplay(env: Env, now: Instant, mint: nat -> Key, w: World, ss: seq<Sighting>,
                                       quiet: Env, later: Instant, f: seq<nat>)
    requires Legal(env, mint) && Good(mint, w) && Consistent(w.View()) && Quiet(quiet)
    requires forall j :: 0 <= j < |f| ==> f[j] < |ss|
    requires ResolveBatch(env, now, mint, w, ss).1.Resolved?
    ensures var (v, o) := ResolveBatch(env, now, mint, w, ss);
            var p := ResolveBatch(quiet, later, mint, v, PickedRows(ss, f)).1;
            && |o.keys| == |ss|
            && (p == Resolved(Picked(o.keys, f)) <==> PriorsAgree(v.View(), PickedRows(ss, f), Picked(o.keys, f)))
            && (p != Resolved(Picked(o.keys, f)) ==> p.Conflicted?)
  {
    QuietIsLegal(quiet, mint);
    ResolveThenReplay(env, now, mint, w, ss, quiet, later, f);
    var v := ResolveBatch(env, now, mint, w, ss).0;
    hide ResolveBatch, Good, Legal, Quiet, PriorsAgree, Unwritten;
    DisturbQuiet(quiet, v);
    DisturbQuiet(quiet, Disturb(quiet, v));
    hide Disturb;
  }

  /******* A replay that conflicts *******/

  const LATE_KEY: Key := "P"

  // Somebody adds a company without identifiers as soon as this transaction has written a company.
  function Latecomer(n: nat, t: Tx): Db {
    if LATE_KEY in t.committed.companies || LATE_KEY in t.own.companies || t.own.companies == map[] then t.committed
    else t.committed.(companies := t.committed.companies[LATE_KEY := LATE_COMPANY])
  }

  lemma {:induction false} LateKeyNormal()
    ensures NormalizeCompanyKey(LATE_KEY) == LATE_KEY
  {
    TrimSpaceOfTrimmed(LATE_KEY);
    hide TrimSpace;
    assert ToUpper(LATE_KEY) == LATE_KEY;
  }

  const LATE_COMPANY := Company(None, None, None, VendorOnly, Adopted)

  lemma {:induction false} AddedCompany(db: Db, key: Key)
    requires Sound(db) && Consistent(db) && key !in db.companies && key != "" && NormalizeCompanyKey(key) == key
    ensures var next := db.(companies := db.companies[key := LATE_COMPANY]);
            DbGrows(db, next) && Sound(next) && Consistent(next)
  {
    hide NormalizeCompanyKey;
    DbPutCompany(db, key, LATE_COMPANY);
    var next := db.(companies := db.companies[key := LATE_COMPANY]);
    forall k | k in next.companies ensures next.companies[k].state == FiscalState <==> HasFiscalId(next, k) {
      assert HasFiscalId(next, k) <==> HasFiscalId(db, k);
    }
  }

  lemma {:induction false} LateKeyApart(m: nat)
    ensures Numbered(m) != LATE_KEY
  {
    assert Numbered(m)[0] == 'K';
  }

  lemma {:induction false} NobodyCommits(mint: nat -> Key, t: Tx)
    requires GoodTx(t)
    ensures EnvStep(mint, t, t.committed)
  {
    DbGrowsSelf(t.committed);
  }

  lemma {:induction false} SomebodyAdds(mint: nat -> Key, t: Tx, key: Key)
    requires GoodTx(t) && key !in t.committed.companies && key !in t.own.companies
    requires key != "" && NormalizeCompanyKey(key) == key && forall n :: mint(n) != key
    ensures EnvStep(mint, t, t.committed.(companies := t.committed.companies[key := LATE_COMPANY]))
  {
    AddedCompany(t.committed, key);
    hide NormalizeCompanyKey, Consistent, DbGrows, Sound, Overlays;
  }

  lemma {:induction false} LatecomerStep(n: nat, t: Tx)
    requires GoodTx(t)
    ensures EnvStep(Numbered, t, Latecomer(n, t))
  {
    hide GoodTx, EnvStep, Numbered, NormalizeCompanyKey;
    if LATE_KEY in t.committed.companies || LATE_KEY in t.own.companies || t.own.companies == map[] {
      NobodyCommits(Numbered, t);
    } else {
      LateKeyNormal();
      forall m: nat ensures Numbered(m) != LATE_KEY { LateKeyApart(m); }
      SomebodyAdds(Numbered, t, LATE_KEY);
    }
  }

  lemma {:induction false} LatecomerLegal()
    ensures Legal(Latecomer, Numbered)
  {
    forall n, t | GoodTx(t) ensures EnvStep(Numbered, t, Latecomer(n, t)) { LatecomerStep(n, t); }
  }

  // One observation with a VAT number that carries the late company's key
  function Carrying(): Observation { Seen(SOME_VAT, "").(priorCompanyKey := LATE_KEY) }

  function NoRows(): Db { Db(map[], map[]) }

  function EmptyWorld(): World { StartOf(NoRows()) }

  function FirstAttempt(): Attempt { Attempt(Latecomer, 0, Numbered, EmptyWorld(), SightAll([Carrying()])) }

  lemma {:induction false} CarryingSighted()
    ensures Sight(Carrying()) == Sighting([FiscalID()], LATE_KEY, Carrying())
  {
    hide StableVAT, NormalizeCompanyKey, NormalizeFiscalValue;
    BlankForms();
    LateKeyNormal();
    StableVATOfDigits(SOME_VAT);
  }

  lemma {:induction false} FirstReads()
    ensures var t := FirstAttempt();
            t.ReadWorld().tx == EmptyWorld().tx && t.Ctx().existing == map[] && t.Ctx().known == {}
  {
    hide SightAll, Numbered;
  }

  // One new untimed row with one identifier: a company and an attachment
  function NewRowPlan(s: Sighting, a: Identifier, key: Key): Plan {
    Plan([key], [DraftOf(s, key)], [Attachment(a, key, None)], [], [], [], [])
  }

  lemma {:induction false} NothingDetected(ids: seq<Identifier>, o: Observation)
    requires |ids| == 1
    ensures DetectedConflicts(ids, map[], "", o) == [] && DetectedKey(ids, map[], "") == ""
  {
    var none: map<Ref, Key> := map[];
    assert ids[1..] == [];
    assert DetectedKey(ids[1..], none, "") == "" && DetectedConflicts(ids[1..], none, "", o) == [];
  }

  lemma {:induction false} OneNewRow(c: Context, s: Sighting, a: Identifier)
    requires c.existing == map[] && s.Seed(c) == "" && s.ids == [a] && s.o.observedAt == None
    ensures After(c, [s], 1).minted == 1 && After(c, [s], 1).plan == NewRowPlan(s, a, c.mint(0))
  {
    var ss, key := [s], c.mint(0);
    assert After(c, ss, 0) == InitialState(c);
    assert s.ids[1..] == [];
    NothingDetected(s.ids, s.o);
    hide DraftOf, Sighting.HasFiscal, Sighting.Seed, Sighting.Name;
    assert Step(c, InitialState(c), s) == Accept(InitialState(c), s, key, true);
    assert AttachmentsOf(s.ids, key, None) == [Attachment(a, key, None)];
  }

  lemma {:induction false} FirstPlan()
    ensures var t := FirstAttempt();
            |t.ss| == 1 && t.State().minted == 1 && t.ThePlan() == NewRowPlan(t.ss[0], FiscalID(), t.Ctx().mint(0))
  {
    CarryingSighted();
    FirstReads();
    var t := FirstAttempt();
    var c, s := t.Ctx(), t.ss[0];
    assert t.ss == [s] && s == Sight(Carrying()) && s.o.observedAt == None && s.Seed(c) == "";
    hide Sight, Attempt.Ctx, FiscalID, Sighting.Seed, After;
    OneNewRow(c, s, FiscalID());
  }

  // The attempt writes its company and its identifier; the late company is there when it ends.
  lemma {:induction false} FirstResult()
    ensures var t := FirstAttempt();
            t.Result().1 == Resolved([Numbered(0)]) && LATE_KEY in t.Result().0.View().companies
  {
    FirstPlan();
    FirstReads();
    var t := FirstAttempt();
    var p, key := t.Planned(), Numbered(0);
    assert t.Ctx().mint(0) == key && key[0] == 'K';
    hide Numbered, Attempt.State, Attempt.ThePlan, FiscalID, SightAll, Carrying;
    var plan := t.ThePlan();
    assert p.View() == NoRows() && p.tx == EmptyWorld().tx;
    WritesOne(p, plan.newEntities[0], plan.attachments[0]);
    assert InsertAll(Latecomer, p, plan.newEntities) == t.Inserted();
    ResultShape(t);
  }

  lemma {:induction false} WritesOne(p: World, d: EntityDraft, a: Attachment)
    requires p.tx == EmptyWorld().tx && a.key == d.key != LATE_KEY
    ensures var f := InsertAll(Latecomer, p, [d]);
            && f.Going?
            && var g := AttachAll(Latecomer, 0, f.w, [a]);
               g.Going? && LATE_KEY in g.w.View().companies
  {
    var v := Disturb(Latecomer, p);
    assert v.tx == p.tx && d.key !in v.View().companies;
    var q := PutCompany(v, d.key, NewCompany(d));
    assert InsertAll(Latecomer, q, []) == Going(q);
    assert [d][1..] == [];
    var u := Disturb(Latecomer, q);
    assert d.key in q.tx.own.companies && LATE_KEY in u.View().companies && d.key in u.View().companies;
    assert a.identifier.ref !in u.View().ids;
    assert AttachIdentifier(u, a, 0).Attached?;
    assert [a][1..] == [];
  }

  lemma {:induction false} EmptyWorldGood()
    ensures Good(Numbered, EmptyWorld()) && Consistent(EmptyWorld().View())
  {
    EmptyStart((n: nat, t: Tx) => t.committed);
  }

  // On an empty registry and under legal interference, an observation that carries a key without a
  // company is resolved to a new company; meanwhile a company appears under that key, and resolving the
  // same observation again, with nobody else around, is a conflict.
  lemma {:induction false} ReplayCanConflict(quiet: Env)
    requires Quiet(quiet)
    ensures Legal(Latecomer, Numbered) && Good(Numbered, EmptyWorld()) && Consistent(EmptyWorld().View())
    ensures var obs := SightAll([Carrying()]);
            var (v, o) := ResolveBatch(Latecomer, 0, Numbered, EmptyWorld(), obs);
            o == Resolved([Numbered(0)]) && ResolveBatch(quiet, 0, Numbered, v, obs).1.Conflicted?
  {
    LatecomerLegal();
    EmptyWorldGood();
    FirstBatch();
    var t, obs := FirstAttempt(), SightAll([Carrying()]);
    assert obs[0].prior == LATE_KEY by { CarryingSighted(); }
    assert Numbered(0)[0] == 'K';
    hide Legal, Good, Consistent, Quiet, EmptyWorld, Numbered, Carrying, ResolveBatch, Latecomer, SightAll;
    StrayReplay(Latecomer, 0, Numbered, EmptyWorld(), obs, quiet, 0);
  }

  lemma {:induction false} FirstBatch()
    ensures var obs := SightAll([Carrying()]);
            var (v, o) := ResolveBatch(Latecomer, 0, Numbered, EmptyWorld(), obs);
            |obs| == 1 && o == Resolved([Numbered(0)]) && LATE_KEY in v.View().companies
  {
    FirstResult();
    var t := FirstAttempt();
    ResolveFromStep(t, RETRY_ATTEMPTS, None);
    hide ResolveFrom, ResolveOnce, Numbered, EmptyWorld, Latecomer, Carrying;
  }

  // One row that carries another company than the one it was resolved to
  lemma {:induction false} StrayReplay(env: Env, now: Instant, mint: nat -> Key, w: World, ss: seq<Sighting>,
      quiet: Env, later: Instant)
    requires Legal(env, mint) && Good(mint, w) && Consistent(w.View()) && Quiet(quiet) && |ss| == 1
    requires var (v, o) := ResolveBatch(env, now, mint, w, ss);
             o.Resolved? && |o.keys| == 1 && ss[0].prior in v.View().companies && ss[0].prior != o.keys[0]
    ensures ResolveBatch(quiet, later, mint, ResolveBatch(env, now, mint, w, ss).0, ss).1.Conflicted?
  {
    hide Legal, Good, Consistent, Quiet, ResolveBatch;
    var (v, o) := ResolveBatch(env, now, mint, w, ss);
    QuietReplay(env, now, mint, w, ss, quiet, later, [0]);
    assert PickedRows(ss, [0]) == ss && Picked(o.keys, [0]) == o.keys;
  }
}
