/** A registry used by one transaction at a time: every identifier's row is the fold of its whole history. */
module IdentitySerial {
  import opened Wrappers
  import opened IdentityPlan
  import opened IdentityRegistry
  import opened IdentityRely
  import opened IdentityGuarantee
  import opened IdentityAttempt
  import opened IdentityResolver
  import opened IdentityHistory

  // One resolve with nobody else around
  datatype Call = Call(env: Env, now: Instant, mint: nat -> Key, ss: seq<Sighting>)

  function AttemptOf(db: Db, c: Call): Attempt { Attempt(c.env, c.now, c.mint, StartOf(db), c.ss) }

  ghost predicate Serial(db: Db, next: Db, c: Call) {
    Quiet(c.env) && Transaction(db, next, c.env, c.now, c.mint, c.ss)
  }

  // What a call does to identifier r: its plan's attachments of r, if it resolves.
  function Applied(db: Db, c: Call, r: Ref): seq<Event> {
    if ResolveBatch(c.env, c.now, c.mint, StartOf(db), c.ss).1.Resolved? then
      EventsOf(AttemptOf(db, c).ThePlan().attachments, r, c.now)
    else []
  }

  /******* The phases that leave identifiers alone *******/

  lemma {:induction false} QuietInserts(env: Env, w: World, drafts: seq<EntityDraft>)
    requires Quiet(env)
    ensures var v := InsertAll(env, w, drafts).w; v.tx.committed == w.tx.committed && v.tx.own.ids == w.tx.own.ids
    decreases |drafts|
  {
    hide Quiet;
    if drafts != [] {
      DisturbQuiet(env, w);
      QuietInserts(env, PutCompany(Disturb(env, w), drafts[0].key, NewCompany(drafts[0])), drafts[1..]);
    }
  }

  lemma {:induction false} QuietAttaches(env: Env, now: Instant, w: World, atts: seq<Attachment>)
    requires Quiet(env)
    ensures AttachAll(env, now, w, atts).w.tx.committed == w.tx.committed
    decreases |atts|
  {
    hide Quiet, MergedRow, InsertedRow;
    if atts != [] {
      DisturbQuiet(env, w);
      var v := Disturb(env, w);
      if AttachIdentifier(v, atts[0], now).Attached? {
        QuietAttaches(env, now, AttachIdentifier(v, atts[0], now).w, atts[1..]);
      }
    }
  }

  lemma {:induction false} QuietPromotes(env: Env, w: World, keys: seq<Key>)
    requires Quiet(env)
    ensures var v := PromoteAll(env, w, keys); v.tx.committed == w.tx.committed && v.tx.own.ids == w.tx.own.ids
    decreases |keys|
  {
    hide Quiet;
    if keys != [] {
      DisturbQuiet(env, w);
      QuietPromotes(env, PromoteCompany(Disturb(env, w), keys[0]), keys[1..]);
    }
  }

  lemma {:induction false} QuietObserves(env: Env, w: World, names: seq<NameObservation>)
    requires Quiet(env)
    ensures var v := ObserveAll(env, w, names); v.tx.committed == w.tx.committed && v.tx.own.ids == w.tx.own.ids
    decreases |names|
  {
    hide Quiet, NameApplies, Renamed;
    if names != [] {
      DisturbQuiet(env, w);
      QuietObserves(env, ObserveName(Disturb(env, w), names[0]), names[1..]);
    }
  }

  /******* One call *******/

  lemma {:induction false} QuietReads(t: Attempt)
    requires Quiet(t.env)
    ensures t.Planned().tx == t.w.tx
  {
    DisturbQuiet(t.env, t.w);
    DisturbQuiet(t.env, Disturb(t.env, t.w));
  }

  // An attempt with nobody else around: its identifiers are those that its attachments leave.
  lemma {:induction false} QuietPhases(t: Attempt)
    requires Quiet(t.env)
    ensures t.Inserted().w.tx.committed == t.w.tx.committed && t.Inserted().w.tx.own.ids == t.w.tx.own.ids
    ensures t.AttachFold().w.tx.committed == t.w.tx.committed
    ensures t.Final().tx.committed == t.w.tx.committed && t.Final().tx.own.ids == t.AttachFold().w.tx.own.ids
  {
    QuietReads(t);
    hide Quiet, Attempt.ThePlan;
    var plan := t.ThePlan();
    QuietInserts(t.env, t.Planned(), plan.newEntities);
    QuietAttaches(t.env, t.now, t.Inserted().w, plan.attachments);
    QuietPromotes(t.env, t.AttachFold().w, plan.promotions);
    QuietObserves(t.env, t.Promoted(), plan.names);
  }

  lemma {:induction false} QuietFirstAttempt(t: Attempt)
    requires Quiet(t.env) && t.Ready() && Consistent(t.w.View()) && t.ss != []
    ensures ResolveBatch(t.env, t.now, t.mint, t.w, t.ss) == t.Result() && !t.Result().1.Raced?
    ensures t.Result().0.tx.committed == t.w.tx.committed
    ensures t.Result().1.Resolved? ==> t.Inserted().Going? && t.AttachFold().Going? && t.Result().0 == t.Final()
  {
    InsertedGood(t);
    ResultShape(t);
    QuietPhases(t);
    QuietReads(t);
    hide Quiet, Good, Legal, Consistent, Evolves, ResolveOnce, ResolveFrom;
    AttachedGood(t);
    QuietAttemptNeverRaces(t);
    ResolveFromStep(t, RETRY_ATTEMPTS, None);
  }

  function RowOf(db: Db, r: Ref): Option<IdRow> { if r in db.ids then Some(db.ids[r]) else None }

  // Main result, one call: each identifier's row is the fold of what the call applies over the row before.
  lemma {:induction false} CallFolds(db: Db, next: Db, c: Call, r: Ref)
    requires Sound(db) && Consistent(db) && Serial(db, next, c)
    ensures Sound(next) && Consistent(next)
    ensures RowOf(next, r) == RowFrom(RowOf(db, r), Applied(db, c, r))
  {
    var t := AttemptOf(db, c);
    StartGood(db, c.mint);
    TransactionKeeps(db, next, c.env, c.now, c.mint, c.ss);
    hide Good, Legal, Sound, Consistent, FreshMint, DbGrows, Quiet, ResolveOnce, Attempt.ThePlan;
    if c.ss == [] {
      NoRowsPlanned(t);
    } else {
      QuietFirstAttempt(t);
      if t.Result().1.Resolved? { ResolvedFolds(t, r); }
    }
  }

  lemma {:induction false} NoRowsPlanned(t: Attempt)
    requires t.ss == []
    ensures t.ThePlan().attachments == []
  {
  }

  lemma {:induction false} ResolvedFolds(t: Attempt, r: Ref)
    requires Quiet(t.env) && t.Ready() && Consistent(t.w.View()) && t.AttachFold().Going?
    ensures VisibleRow(t.Final(), r) == RowFrom(VisibleRow(t.w, r), EventsOf(t.ThePlan().attachments, r, t.now))
  {
    InsertedGood(t);
    QuietPhases(t);
    hide Quiet, Good, Legal, Consistent, Evolves, ConsistentExcept, RowFrom, EventsOf, Attempt.ThePlan;
    FoldsBetween(t.env, t.now, t.mint, t.w, t.Inserted().w, t.Final(), t.ThePlan().attachments, r);
  }

  lemma {:induction false} FoldsBetween(env: Env, now: Instant, mint: nat -> Key, w: World, p: World, f: World,
                                        atts: seq<Attachment>, r: Ref)
    requires Quiet(env) && Legal(env, mint) && Good(mint, p) && AttachAll(env, now, p, atts).Going?
    requires p.View().ids == w.View().ids && f.View().ids == AttachAll(env, now, p, atts).w.View().ids
    ensures VisibleRow(f, r) == RowFrom(VisibleRow(w, r), EventsOf(atts, r, now))
  {
    hide Quiet, Good, Legal, RowFrom, EventsOf, AttachAll;
    var start := AttachAllFolds(env, now, mint, p, atts, r);
  }

  /******* Whole runs *******/

  ghost predicate IsSerialRun(run: seq<Db>, calls: seq<Call>) {
    |run| == |calls| + 1 && forall i :: 0 <= i < |calls| ==> Serial(run[i], run[i + 1], calls[i])
  }

  // Everything the first n calls apply to identifier r
  function History(run: seq<Db>, calls: seq<Call>, n: nat, r: Ref): seq<Event>
    requires |run| == |calls| + 1 && n <= |calls|
  {
    if n == 0 then [] else History(run, calls, n - 1, r) + Applied(run[n - 1], calls[n - 1], r)
  }

  // Main result: after any number of calls each identifier's row is the fold of all that was applied to it.
  lemma {:induction false} RunFolds(run: seq<Db>, calls: seq<Call>, n: nat, r: Ref)
    requires IsSerialRun(run, calls) && n <= |calls| && Sound(run[0]) && Consistent(run[0])
    ensures Sound(run[n]) && Consistent(run[n])
    ensures RowOf(run[n], r) == RowFrom(RowOf(run[0], r), History(run, calls, n, r))
  {
    hide RowFrom, Applied, RowOf, Sound, Consistent, Serial;
    if n > 0 {
      RunFolds(run, calls, n - 1, r);
      var c := calls[n - 1];
      assert Serial(run[n - 1], run[n], c);
      CallFolds(run[n - 1], run[n], c, r);
      RowFromAppend(RowOf(run[0], r), History(run, calls, n - 1, r), Applied(run[n - 1], c, r));
    } else {
      NoHistory(RowOf(run[0], r));
    }
  }

  lemma {:induction false} NoHistory(row: Option<IdRow>)
    ensures RowFrom(row, []) == row
  {
  }

  // So for an identifier that entered during the run the roles are the OR of all observed roles and the
  // window is the least and the greatest instant that counts, over all transactions of the run.
  lemma {:induction false} RunRowHistory(run: seq<Db>, calls: seq<Call>, n: nat, r: Ref)
    requires IsSerialRun(run, calls) && n <= |calls| && Sound(run[0]) && Consistent(run[0]) && r !in run[0].ids
    ensures var h := History(run, calls, n, r);
            && (r in run[n].ids <==> h != [])
            && (r in run[n].ids ==>
                  var row := run[n].ids[r];
                  && (row.isVAT <==> SeenAsVAT(h)) && (row.isTax <==> SeenAsTax(h)) && row.owner == h[0].a.key
                  && Counts(h, row.firstSeen) && Counts(h, row.lastSeen)
                  && forall t :: Counts(h, t) ==> row.firstSeen <= t <= row.lastSeen)
  {
    var h := History(run, calls, n, r);
    RunFolds(run, calls, n, r);
    RowFromNothing(h);
    if h != [] { RowHistory(h); }
    hide SeenAsVAT, SeenAsTax, Counts, History, NextRow;
  }
}
