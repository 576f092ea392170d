/** The guarantees of the resolver: what success, conflict, missing rows and exhausted retries leave behind. */
module IdentityResolver {
  import opened Wrappers
  import opened Sets
  import opened IdentityPlan
  import opened IdentityClaims
  import opened IdentityConflicts
  import opened IdentityComponents
  import opened IdentityWrites
  import opened IdentityRegistry
  import opened IdentityRely
  import opened IdentityGuarantee
  import opened IdentityAttempt

  /******* Companies without identifiers *******/

  // Nothing but a draft, or a row that was visible, becomes an own company row.
  lemma {:induction false} InsertNoStray(env: Env, w: World, drafts: seq<EntityDraft>, k: Key)
    requires k in InsertAll(env, w, drafts).w.tx.own.companies && k !in w.tx.own.companies
    ensures exists d :: d in drafts && d.key == k
    decreases |drafts|
  {
    if drafts != [] {
      var v := Disturb(env, w);
      if drafts[0].key !in v.View().companies && drafts[0].key != k {
        InsertNoStray(env, PutCompany(v, drafts[0].key, NewCompany(drafts[0])), drafts[1..], k);
        var d :| d in drafts[1..] && d.key == k;
        assert d in drafts;
      } else {
        assert drafts[0] in drafts;
      }
    }
  }

  lemma {:induction false} AttachNoStray(env: Env, now: Instant, w: World, atts: seq<Attachment>)
    ensures AttachAll(env, now, w, atts).w.tx.own.companies == w.tx.own.companies
    decreases |atts|
  {
    if atts != [] && AttachIdentifier(Disturb(env, w), atts[0], now).Attached? {
      AttachNoStray(env, now, AttachIdentifier(Disturb(env, w), atts[0], now).w, atts[1..]);
    }
  }

  lemma {:induction false} PromoteNoStray(env: Env, mint: nat -> Key, w: World, keys: seq<Key>, open: set<Key>, k: Key)
    requires Legal(env, mint) && Good(mint, w) && ConsistentExcept(w.View(), open)
    requires forall k :: k in keys ==> k in w.View().companies && k in open
    requires k in PromoteAll(env, w, keys).tx.own.companies && k !in w.tx.own.companies
    ensures k in PromoteAll(env, w, keys).tx.committed.companies
    decreases |keys|
  {
    assert keys[0] in keys;
    PromoteOne(env, mint, w, keys[0], open);
    var u := PromoteCompany(Disturb(env, w), keys[0]);
    PromotePhase(env, mint, u, keys[1..], open);
    if k !in u.tx.own.companies {
      PromoteNoStray(env, mint, u, keys[1..], open, k);
    } else {
      DisturbGood(env, mint, w);
      assert k in u.tx.committed.companies;
    }
  }

  lemma {:induction false} ObserveNoStray(env: Env, mint: nat -> Key, w: World, names: seq<NameObservation>,
      open: set<Key>, k: Key)
    requires Legal(env, mint) && Good(mint, w) && ConsistentExcept(w.View(), open)
    requires forall n :: n in names ==> n.key in w.View().companies
    requires k in ObserveAll(env, w, names).tx.own.companies && k !in w.tx.own.companies
    ensures k in ObserveAll(env, w, names).tx.committed.companies
    decreases |names|
  {
    assert names[0] in names;
    ObserveOne(env, mint, w, names[0], open);
    var u := ObserveName(Disturb(env, w), names[0]);
    ObservePhase(env, mint, u, names[1..], open);
    if k !in u.tx.own.companies {
      ObserveNoStray(env, mint, u, names[1..], open, k);
    } else {
      DisturbGood(env, mint, w);
      assert k in u.tx.committed.companies;
    }
  }

  ghost predicate HasId(db: Db, k: Key) {
    exists r :: r in db.ids && db.ids[r].owner == k
  }

  // A company this transaction created is one of the plan's new entities.
  lemma CreatedIsDraft(t: Attempt, k: Key)
    requires t.Ready() && Consistent(t.w.View()) && t.AttachFold().Going?
    requires k in t.Final().tx.own.companies && k !in t.w.tx.own.companies && k !in t.Final().tx.committed.companies
    ensures exists d :: d in t.ThePlan().newEntities && d.key == k
  {
    PromotedGood(t);
    FinalGood(t);
    forall n | n in t.ThePlan().names ensures n.key in t.Promoted().View().companies { NameReady(t, n); }
    if k !in t.Promoted().tx.own.companies {
      ObserveNoStray(t.env, t.mint, t.Promoted(), t.ThePlan().names, t.Open(), k);
    }
    AttachedGood(t);
    forall q | q in t.ThePlan().promotions ensures q in t.AttachFold().w.View().companies && q in t.Open() {
      PromotionReady(t, q);
    }
    if k !in t.AttachFold().w.tx.own.companies {
      PromoteNoStray(t.env, t.mint, t.AttachFold().w, t.ThePlan().promotions, t.Open(), k);
    }
    AttachNoStray(t.env, t.now, t.Inserted().w, t.ThePlan().attachments);
    InsertedGood(t);
    ReadsGood(t);
    InsertNoStray(t.env, t.Planned(), t.ThePlan().newEntities, k);
  }

  // No orphan: a company the attempt created owns an identifier.
  lemma CreatedHasId(t: Attempt, k: Key)
    requires t.Ready() && Consistent(t.w.View()) && t.AttachFold().Going?
    requires k in t.Final().tx.own.companies && k !in t.w.tx.own.companies && k !in t.Final().tx.committed.companies
    ensures HasId(t.Final().View(), k)
  {
    CreatedIsDraft(t, k);
    ReadsValid(t);
    var d :| d in t.ThePlan().newEntities && d.key == k;
    var i := DraftRow(t.Ctx(), t.ss, |t.ss|, d);
    RowServed(t.Ctx(), t.ss, i);
    var a := Attachment(t.ss[i].ids[0], k, t.ss[i].o.observedAt);
    FinalCovers(t, a);
  }

  /******* One attempt *******/

  ghost predicate AllSettled(db: Db, ss: seq<Sighting>, keys: seq<Key>) {
    |keys| == |ss| && forall i :: 0 <= i < |ss| ==> Settled(db, ss[i], keys[i])
  }

  // The key a row already carries is never replaced.
  predicate PriorsKept(db: Db, ss: seq<Sighting>, keys: seq<Key>) {
    |keys| == |ss| && forall i ::
      0 <= i < |ss| && ss[i].prior != "" && ss[i].prior in db.companies ==> keys[i] == ss[i].prior
  }

  // Companies made by this transaction since w and visible to nobody else yet.
  ghost predicate NoOrphans(w: World, v: World) {
    forall k :: k in v.tx.own.companies && k !in w.tx.own.companies && k !in v.tx.committed.companies ==>
        HasId(v.View(), k)
  }

  // The identifiers of the batch that somebody has committed.
  function Taken(ss: seq<Sighting>, w: World): set<Ref> {
    set r | r in w.tx.committed.ids && BatchMentions(ss, r)
  }

  lemma SucceededRow(t: Attempt, i: nat)
    requires t.Ready() && Consistent(t.w.View()) && t.ThePlan().Clean() && t.AttachFold().Going? && i < |t.ss|
    ensures |t.ThePlan().keys| == |t.ss| && Settled(t.Final().View(), t.ss[i], t.ThePlan().keys[i])
  {
    ReadsValid(t);
    CleanKeys(t.Ctx(), t.ss);
    FinalSettled(t, i);
  }

  lemma SucceededSettled(t: Attempt)
    requires t.Ready() && Consistent(t.w.View()) && t.ThePlan().Clean() && t.AttachFold().Going?
    ensures AllSettled(t.Final().View(), t.ss, t.ThePlan().keys)
  {
    forall i | 0 <= i < |t.ss| ensures Settled(t.Final().View(), t.ss[i], t.ThePlan().keys[i]) { SucceededRow(t, i); }
    assert |t.ThePlan().keys| == |t.ss|;
  }

  lemma SucceededPrior(t: Attempt, i: nat)
    requires t.Ready() && t.ThePlan().Clean() && i < |t.ss| && t.ss[i].prior != ""
        && t.ss[i].prior in t.w.View().companies
    ensures |t.ThePlan().keys| == |t.ss| && t.ThePlan().keys[i] == t.ss[i].prior
  {
    ReadsValid(t);
    ReadsGood(t);
    CleanKeys(t.Ctx(), t.ss);
    assert BatchCarries(t.ss, t.ss[i].prior);
    assert t.ss[i].prior in t.Ctx().known;
    Accepted(t.Ctx(), t.ss, i, |t.ss|);
  }

  lemma SucceededPriors(t: Attempt)
    requires t.Ready() && t.ThePlan().Clean()
    ensures PriorsKept(t.w.View(), t.ss, t.ThePlan().keys)
  {
    forall i | 0 <= i < |t.ss| && t.ss[i].prior != "" && t.ss[i].prior in t.w.View().companies
      ensures t.ThePlan().keys[i] == t.ss[i].prior
    {
      SucceededPrior(t, i);
    }
  }

  lemma SucceededNoOrphans(t: Attempt)
    requires t.Ready() && Consistent(t.w.View()) && t.AttachFold().Going?
    ensures NoOrphans(t.w, t.Final())
  {
    forall k | k in t.Final().tx.own.companies && k !in t.w.tx.own.companies && k !in t.Final().tx.committed.companies
      ensures HasId(t.Final().View(), k)
    {
      CreatedHasId(t, k);
    }
  }

  // A race is a batch identifier that somebody committed during the attempt.
  lemma RaceTakes(t: Attempt)
    requires t.Ready() && Consistent(t.w.View()) && t.AttachFold().Stopped?
    ensures Taken(t.ss, t.w) < Taken(t.ss, t.AttachFold().w)
  {
    AttachedGood(t);
    ReadsGood(t);
    ReadsValid(t);
    var f := t.AttachFold();
    var a := RaceRef(t.env, t.now, t.Inserted().w, t.ThePlan().attachments);
    var i := AttachmentRow(t.Ctx(), t.ss, |t.ss|, a);
    var r := f.outcome.conflict.ref;
    assert BatchMentions(t.ss, r);
    assert r in Taken(t.ss, f.w);
    assert r !in t.w.View().ids;
    assert r !in Taken(t.ss, t.w);
  }

  lemma ResultShape(t: Attempt)
    requires t.Inserted().Going?
    ensures t.Result() ==
      if t.ThePlan().missing != [] then
        (t.Planned(), Missing(t.ss[t.ThePlan().missing[0]].o.companyName, t.ss[t.ThePlan().missing[0]].o.targetID))
      else if t.ThePlan().conflicts != [] then (t.Planned(), Conflicted(t.ThePlan().conflicts))
      else if t.AttachFold().Stopped? then (t.AttachFold().w, t.AttachFold().outcome)
      else (t.Final(), Resolved(t.ThePlan().keys))
  {
  }

  ghost predicate CleanOutcome(t: Attempt, v: World, o: Outcome) {
    match o
    case Resolved(keys) =>
      && AllSettled(v.View(), t.ss, keys) && PriorsKept(t.w.View(), t.ss, keys)
      && Consistent(v.View()) && NoOrphans(t.w, v)
    case Conflicted(cs) => v.tx.own == t.w.tx.own && cs == t.ThePlan().conflicts != []
    case Missing(_, _) => v.tx.own == t.w.tx.own && t.ThePlan().missing != []
    case Raced(_) => Taken(t.ss, t.w) < Taken(t.ss, v)
    case SqlError => false
  }

  // Main result, one attempt: it never hits a constraint; it succeeds completely, or fails without
  // a write, or loses a race to a foreign commit of one of its identifiers.
  lemma AttemptOutcome(t: Attempt)
    requires t.Ready() && Consistent(t.w.View())
    ensures Good(t.mint, t.Result().0) && Evolves(t.mint, t.w, t.Result().0)
    ensures CleanOutcome(t, t.Result().0, t.Result().1)
  {
    InsertedGood(t);
    ResultShape(t);
    if !t.ThePlan().Clean() {
      PlannedGood(t);
      ReadsGood(t);
    } else if t.AttachFold().Going? {
      FinalGood(t);
      SucceededSettled(t);
      SucceededPriors(t);
      FinalConsistent(t);
      SucceededNoOrphans(t);
    } else {
      AttachedGood(t);
      RaceTakes(t);
    }
  }

  // A row without identifiers whose known company the registry does not have.
  predicate Groundless(ctx: Context, s: Sighting) {
    s.ids == [] && (s.prior == "" || s.prior !in ctx.known)
  }

  // What a failed attempt says: the first row without ground, or else every report in order; a race names
  // an identifier of a row, the owner that others have committed, and the row's company.
  ghost predicate FailureNamed(t: Attempt, v: World, o: Outcome) {
    match o
    case Resolved(_) => true
    case Missing(name, target) => exists i ::
      && 0 <= i < |t.ss| && Groundless(t.Ctx(), t.ss[i])
      && name == t.ss[i].o.companyName && target == t.ss[i].o.targetID
      && forall j :: 0 <= j < i ==> !Groundless(t.Ctx(), t.ss[j])
    case Conflicted(cs) =>
      && cs == Reports(t.Ctx(), t.ss, |t.ss|) && forall i :: 0 <= i < |t.ss| ==> !Groundless(t.Ctx(), t.ss[i])
    case Raced(c) => RaceSaid(t, v.View().ids, c)
    case SqlError => false
  }

  ghost predicate RaceSaid(t: Attempt, ids: map<Ref, IdRow>, c: Conflict) {
    && c.ref in ids && ids[c.ref].owner == c.existing != c.incoming
    && c.sessionID == c.runID == c.targetID == c.companyName == ""
    && exists i: nat :: i < |t.ss| && MentionsRef(t.ss[i].ids, c.ref) && KeyAt(t.Ctx(), t.ss, i) == c.incoming
  }

  lemma {:induction false} NobodyGroundless(t: Attempt, i: nat)
    requires i < |t.ss| && t.ThePlan().missing == []
    ensures !Groundless(t.Ctx(), t.ss[i])
  {
    MissingExactly(t.Ctx(), t.ss, |t.ss|, i);
  }

  lemma {:induction false} MissingNamed(t: Attempt) returns (i: nat)
    requires t.ThePlan().missing != []
    ensures i == t.ThePlan().missing[0] < |t.ss|
    ensures Groundless(t.Ctx(), t.ss[i]) && forall j :: 0 <= j < i ==> !Groundless(t.Ctx(), t.ss[j])
  {
    FirstMissing(t.Ctx(), t.ss, |t.ss|);
    i := t.ThePlan().missing[0];
  }

  lemma {:induction false} RaceRow(t: Attempt, a: Attachment, ids: map<Ref, IdRow>, c: Conflict)
    requires t.Ready() && a in t.ThePlan().attachments && a.identifier.ref in ids
    requires ids[a.identifier.ref].owner != a.key
    requires c == Conflict(a.identifier.ref, ids[a.identifier.ref].owner, a.key, "", "", "", "")
    ensures RaceSaid(t, ids, c)
  {
    ReadsValid(t);
    hide Legal, Good, Attempt.Ctx, After, Valid;
    var i := AttachmentRow(t.Ctx(), t.ss, |t.ss|, a);
  }

  lemma {:induction false} RaceNamed(t: Attempt)
    requires t.Ready() && Consistent(t.w.View()) && t.AttachFold().Stopped?
    ensures t.AttachFold().outcome.Raced?
    ensures RaceSaid(t, t.AttachFold().w.View().ids, t.AttachFold().outcome.conflict)
  {
    AttachedGood(t);
    hide Legal, Good, Consistent, ConsistentExcept, Evolves, Attempt.Ready, Attempt.ThePlan, Attempt.Inserted,
      Attempt.OwnersRead, RaceSaid, AttachAll;
    var a := RaceRef(t.env, t.now, t.Inserted().w, t.ThePlan().attachments);
    RaceRow(t, a, t.AttachFold().w.View().ids, t.AttachFold().outcome.conflict);
  }

  lemma {:induction false} FailureSaid(t: Attempt)
    requires t.Ready() && Consistent(t.w.View())
    ensures FailureNamed(t, t.Result().0, t.Result().1)
  {
    InsertedGood(t);
    ResultShape(t);
    ReadsValid(t);
    hide Legal, Good, Consistent, ConsistentExcept, Evolves, Attempt.Ctx, ResolveOnce, After, AttachAll, InsertAll,
      Groundless, Valid, Reports, RaceSaid;
    if t.ThePlan().missing != [] {
      var i := MissingNamed(t);
    } else if t.ThePlan().conflicts != [] {
      forall i | 0 <= i < |t.ss| ensures !Groundless(t.Ctx(), t.ss[i]) { NobodyGroundless(t, i); }
      ConflictsExactly(t.Ctx(), t.ss, |t.ss|);
    } else if t.AttachFold().Stopped? {
      RaceNamed(t);
    }
  }

  /******* The batch *******/

  // Rolling back to the savepoint leaves nothing but other people's commits.
  lemma RollbackGood(mint: nat -> Key, w: World, v: World)
    requires Good(mint, w) && Good(mint, v) && Evolves(mint, w, v)
    ensures EnvStep(mint, w.tx, v.tx.committed)
    ensures Good(mint, RollbackTo(v, w.tx.own)) && Evolves(mint, w, RollbackTo(v, w.tx.own))
  {
    var u := RollbackTo(v, w.tx.own);
    var next := v.tx.committed;
    assert u.tx == w.tx.(committed := next);
    EnvStepGrows(mint, w.tx, next);
    EnvStepSound(mint, w.tx, next);
    EnvStepOverlays(mint, w.tx, next);
    forall n | u.minted <= n ensures mint(n) !in u.View().companies {
      assert mint(n) !in v.View().companies && mint(n) !in w.View().companies;
    }
  }

  lemma RollbackConsistent(mint: nat -> Key, w: World, v: World)
    requires Good(mint, w) && Good(mint, v) && Evolves(mint, w, v) && Consistent(w.View())
    ensures Consistent(RollbackTo(v, w.tx.own).View())
  {
    RollbackGood(mint, w, v);
    var u := RollbackTo(v, w.tx.own).View();
    forall k | k in u.companies ensures u.companies[k].state == FiscalState <==> HasFiscalId(u, k) {
      DisturbedState(mint, w.tx, v.tx.committed, k);
    }
  }

  // How many attempts in a row lose a race before one does not.
  function Races(env: Env, now: Instant, mint: nat -> Key, w: World, ss: seq<Sighting>, left: nat): nat
    decreases left
  {
    if left == 0 then 0
    else
      var (v, o) := ResolveOnce(env, now, mint, w, ss);
      if o.Raced? then 1 + Races(env, now, mint, RollbackTo(v, w.tx.own), ss, left - 1) else 0
  }

  // Success is complete; every failure leaves none of the resolver's own writes.
  ghost predicate BatchOutcome(ss: seq<Sighting>, w: World, v: World, o: Outcome) {
    match o
    case Resolved(keys) =>
      && AllSettled(v.View(), ss, keys) && PriorsKept(w.View(), ss, keys)
      && Consistent(v.View()) && NoOrphans(w, v)
    case Conflicted(cs) => v.tx.own == w.tx.own && cs != []
    case Missing(_, _) => v.tx.own == w.tx.own
    case Raced(_) => false
    case SqlError => false
  }

  // An attempt that ends in a race, rolled back.
  lemma LostAttempt(t: Attempt)
    requires t.Ready() && Consistent(t.w.View()) && t.Result().1.Raced?
    ensures var u := RollbackTo(t.Result().0, t.w.tx.own);
            && Good(t.mint, u) && Evolves(t.mint, t.w, u) && Consistent(u.View())
            && u.tx.own == t.w.tx.own && |Taken(t.ss, t.w)| < |Taken(t.ss, u)|
  {
    AttemptOutcome(t);
    RollbackGood(t.mint, t.w, t.Result().0);
    RollbackConsistent(t.mint, t.w, t.Result().0);
    SubsetCard(Taken(t.ss, t.w), Taken(t.ss, t.Result().0));
  }

  lemma OutcomeCarries(ss: seq<Sighting>, w: World, u: World, v: World, o: Outcome)
    requires DbGrows(w.View(), u.View()) && u.tx.own == w.tx.own && BatchOutcome(ss, u, v, o)
    ensures BatchOutcome(ss, w, v, o)
  {
  }

  lemma UnlostAttempt(t: Attempt)
    requires t.Ready() && Consistent(t.w.View()) && !t.Result().1.Raced?
    ensures Good(t.mint, t.Result().0) && Evolves(t.mint, t.w, t.Result().0)
    ensures BatchOutcome(t.ss, t.w, t.Result().0, t.Result().1)
    ensures |Taken(t.ss, t.w)| <= |Taken(t.ss, t.Result().0)|
  {
    AttemptOutcome(t);
    TakenGrows(t.ss, t.mint, t.w, t.Result().0);
  }

  lemma ResolveFromStep(t: Attempt, left: nat, last: Option<Conflict>)
    requires left > 0
    ensures var (v, o) := t.Result();
            var u := RollbackTo(v, t.w.tx.own);
            if o.Raced? then
              && ResolveFrom(t.env, t.now, t.mint, t.w, t.ss, left, last)
                 == ResolveFrom(t.env, t.now, t.mint, u, t.ss, left - 1, Some(o.conflict))
              && Races(t.env, t.now, t.mint, t.w, t.ss, left) == 1 + Races(t.env, t.now, t.mint, u, t.ss, left - 1)
            else
              && ResolveFrom(t.env, t.now, t.mint, t.w, t.ss, left, last) == (v, o)
              && Races(t.env, t.now, t.mint, t.w, t.ss, left) == 0
  {
  }

  lemma {:induction false} ResolveFromOutcome(t: Attempt, left: nat, last: Option<Conflict>)
    requires t.Ready() && Consistent(t.w.View()) && (left == 0 ==> last.Some?)
    ensures var (v, o) := ResolveFrom(t.env, t.now, t.mint, t.w, t.ss, left, last);
            Good(t.mint, v) && Evolves(t.mint, t.w, v) && BatchOutcome(t.ss, t.w, v, o)
    decreases left
  {
    hide ResolveOnce, RollbackTo, Good, Evolves, Legal, Consistent, DbGrows, AllSettled, PriorsKept, NoOrphans;
    if left == 0 {
      EvolvesSelf(t.mint, t.w);
    } else {
      ResolveFromStep(t, left, last);
      if t.Result().1.Raced? {
        LostAttempt(t);
        var u, c := RollbackTo(t.Result().0, t.w.tx.own), Some(t.Result().1.conflict);
        ResolveFromOutcome(t.(w := u), left - 1, c);
        var (v, o) := ResolveFrom(t.env, t.now, t.mint, u, t.ss, left - 1, c);
        EvolvesTrans(t.mint, t.w, u, v);
        OutcomeCarries(t.ss, t.w, u, v, o);
      } else {
        UnlostAttempt(t);
      }
    }
  }

  lemma {:induction false} RacesCount(t: Attempt, left: nat, last: Option<Conflict>)
    requires t.Ready() && Consistent(t.w.View()) && (left == 0 ==> last.Some?)
    ensures |Taken(t.ss, t.w)| + Races(t.env, t.now, t.mint, t.w, t.ss, left)
            <= |Taken(t.ss, ResolveFrom(t.env, t.now, t.mint, t.w, t.ss, left, last).0)|
    decreases left
  {
    hide ResolveOnce, RollbackTo, Good, Evolves, Legal, Consistent, Taken, DbGrows;
    if left > 0 {
      ResolveFromStep(t, left, last);
      if t.Result().1.Raced? {
        LostAttempt(t);
        RacesCount(t.(w := RollbackTo(t.Result().0, t.w.tx.own)), left - 1, Some(t.Result().1.conflict));
      } else {
        UnlostAttempt(t);
      }
    }
  }

  lemma TakenGrows(ss: seq<Sighting>, mint: nat -> Key, w: World, v: World)
    requires Evolves(mint, w, v)
    ensures |Taken(ss, w)| <= |Taken(ss, v)|
  {
    SubsetCard(Taken(ss, w), Taken(ss, v));
  }

  // Main result: the contract of resolveMACompanyBatchTx under every legal interference.
  lemma ResolveContract(env: Env, now: Instant, mint: nat -> Key, w: World, ss: seq<Sighting>)
    requires Legal(env, mint) && Good(mint, w) && Consistent(w.View())
    ensures var (v, o) := ResolveBatch(env, now, mint, w, ss);
            Good(mint, v) && Evolves(mint, w, v) && BatchOutcome(ss, w, v, o) && (o.Resolved? || Consistent(v.View()))
  {
    var (v, o) := ResolveBatch(env, now, mint, w, ss);
    if ss == [] {
      EvolvesSelf(mint, w);
    } else {
      ResolveFromOutcome(Attempt(env, now, mint, w, ss), RETRY_ATTEMPTS, None);
    }
    if !o.Resolved? {
      assert v == RollbackTo(v, w.tx.own);
      RollbackConsistent(mint, w, v);
    }
  }

  /******* Progress *******/

  function BatchRefs(ss: seq<Sighting>): set<Ref> {
    set i, x | 0 <= i < |ss| && 0 <= x < |ss[i].ids| :: ss[i].ids[x].ref
  }

  lemma TakenWithin(ss: seq<Sighting>, w: World)
    ensures Taken(ss, w) <= BatchRefs(ss)
  {
    forall r | r in Taken(ss, w) ensures r in BatchRefs(ss) {
      var i :| 0 <= i < |ss| && MentionsRef(ss[i].ids, r);
      var x :| 0 <= x < |ss[i].ids| && ss[i].ids[x].ref == r;
    }
  }

  // Main result: every lost attempt is paid for by a different identifier of the batch that others
  // committed meanwhile, so an attempt nobody interferes with is not lost, and a batch with fewer
  // than three identifiers free at the start never runs out of attempts.
  lemma RacesArePaid(env: Env, now: Instant, mint: nat -> Key, w: World, ss: seq<Sighting>)
    requires Legal(env, mint) && Good(mint, w) && Consistent(w.View()) && ss != []
    ensures var v := ResolveBatch(env, now, mint, w, ss).0;
            Races(env, now, mint, w, ss, RETRY_ATTEMPTS) <= |Taken(ss, v)| - |Taken(ss, w)|
    ensures |BatchRefs(ss) - Taken(ss, w)| < RETRY_ATTEMPTS ==>
        Races(env, now, mint, w, ss, RETRY_ATTEMPTS) < RETRY_ATTEMPTS
  {
    RacesCount(Attempt(env, now, mint, w, ss), RETRY_ATTEMPTS, None);
    var v := ResolveBatch(env, now, mint, w, ss).0;
    TakenWithin(ss, w);
    TakenWithin(ss, v);
    SubsetCard(Taken(ss, v), BatchRefs(ss));
    assert |BatchRefs(ss) - Taken(ss, w)| == |BatchRefs(ss)| - |Taken(ss, w)|;
  }

  lemma QuietAttemptNeverRaces(t: Attempt)
    requires t.Ready() && Consistent(t.w.View()) && Taken(t.ss, t.Result().0) <= Taken(t.ss, t.w)
    ensures !t.Result().1.Raced?
  {
    AttemptOutcome(t);
  }

  // The outcome is that of the first attempt that is not lost; only three lost attempts end in the
  // conflict of a race.
  lemma {:induction false} FirstUnlostDecides(t: Attempt, left: nat, last: Option<Conflict>) returns (u: World)
    requires t.Ready() && Consistent(t.w.View()) && (left == 0 ==> last.Some?)
    requires Races(t.env, t.now, t.mint, t.w, t.ss, left) < left
    ensures Good(t.mint, u) && Evolves(t.mint, t.w, u) && Consistent(u.View()) && u.tx.own == t.w.tx.own
    ensures ResolveFrom(t.env, t.now, t.mint, t.w, t.ss, left, last) == ResolveOnce(t.env, t.now, t.mint, u, t.ss)
    ensures !ResolveOnce(t.env, t.now, t.mint, u, t.ss).1.Raced?
    decreases left
  {
    hide ResolveOnce, ResolveFrom, Races, RollbackTo, Good, Evolves, Legal, Consistent, Taken, DbGrows;
    ResolveFromStep(t, left, last);
    if t.Result().1.Raced? {
      LostAttempt(t);
      var r := RollbackTo(t.Result().0, t.w.tx.own);
      u := FirstUnlostDecides(t.(w := r), left - 1, Some(t.Result().1.conflict));
      EvolvesTrans(t.mint, t.w, r, u);
    } else {
      u := t.w;
      EvolvesSelf(t.mint, t.w);
    }
  }

  // When every attempt is lost, the conflict reported is the race of the last one.
  lemma {:induction false} LastRaceReported(t: Attempt, left: nat, last: Option<Conflict>) returns (u: World)
    requires t.Ready() && Consistent(t.w.View()) && left > 0
    requires Races(t.env, t.now, t.mint, t.w, t.ss, left) == left
    ensures Good(t.mint, u) && Evolves(t.mint, t.w, u) && Consistent(u.View()) && u.tx.own == t.w.tx.own
    ensures var (v, o) := ResolveOnce(t.env, t.now, t.mint, u, t.ss);
            && o.Raced?
            && ResolveFrom(t.env, t.now, t.mint, t.w, t.ss, left, last)
               == (RollbackTo(v, t.w.tx.own), Conflicted([o.conflict]))
    decreases left
  {
    hide ResolveOnce, RollbackTo, Good, Evolves, Legal, Consistent, Taken, DbGrows;
    ResolveFromStep(t, left, last);
    LostAttempt(t);
    var r, c := RollbackTo(t.Result().0, t.w.tx.own), Some(t.Result().1.conflict);
    if left == 1 {
      u := t.w;
      EvolvesSelf(t.mint, t.w);
    } else {
      u := LastRaceReported(t.(w := r), left - 1, c);
      EvolvesTrans(t.mint, t.w, r, u);
    }
  }

  /******* Closing the circle *******/

  // Main result: committing a resolved batch is a legal interference for every other resolver that
  // has locked none of the rows written and coins other keys. So the rely is what everybody guarantees.
  lemma CommitIsLegalInterference(mint: nat -> Key, v: World, other: nat -> Key, t: Tx)
    requires Good(mint, v) && Consistent(v.View()) && t.committed == v.tx.committed
    requires t.own.ids.Keys !! v.tx.own.ids.Keys && t.own.companies.Keys !! v.tx.own.companies.Keys
    requires forall k, n :: k in v.tx.own.companies && k !in v.tx.committed.companies ==> k != other(n)
    ensures EnvStep(other, t, v.View())
  {
    ViewGrows(v.tx);
  }
}
