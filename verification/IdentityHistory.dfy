/** What the registry converges to: over the attachments of one identifier, over the name
    observations of one company, and over whole runs of committed resolutions. */
module IdentityHistory {
  import opened Wrappers
  import opened Text
  import opened IdentityNormalize
  import opened IdentityPlan
  import opened IdentityRegistry
  import opened IdentityRely
  import opened IdentityGuarantee
  import opened IdentityResolver

  /******* One identifier *******/

  // A successful attachment and the instant of its transaction.
  datatype Event = Event(a: Attachment, now: Instant)

  function NextRow(row: Option<IdRow>, e: Event): IdRow {
    match row
    case None => InsertedRow(e.a, e.now)
    case Some(r) => MergedRow(r, e.a)
  }

  function RowAfter(h: seq<Event>): Option<IdRow> {
    if h == [] then None else Some(NextRow(RowAfter(h[..|h| - 1]), h[|h| - 1]))
  }

  // The statement does to the identifier's visible row what NextRow says, and touches no other row.
  lemma AttachIsNextRow(w: World, a: Attachment, now: Instant)
    requires AttachIdentifier(w, a, now).Attached?
    ensures var before, after, r := w.View().ids, AttachIdentifier(w, a, now).w.View().ids, a.identifier.ref;
            after == before[r := NextRow(if r in before then Some(before[r]) else None, Event(a, now))]
  {
    var r := a.identifier.ref;
    if r in w.View().ids {
      PutIdView(w, r, MergedRow(w.View().ids[r], a));
    } else {
      PutIdView(w, r, InsertedRow(a, now));
    }
  }

  // The instants that count: every observation time, and now for an identifier that entered without one.
  predicate Counts(h: seq<Event>, t: Instant) {
    || (t != ZERO_TIME && exists x :: 0 <= x < |h| && h[x].a.observedAt == Some(t))
    || (h != [] && h[0].a.observedAt in {None, Some(ZERO_TIME)} && h[0].now == t)
  }

  predicate SeenAsVAT(h: seq<Event>) {
    exists x :: 0 <= x < |h| && h[x].a.identifier.isVAT
  }

  predicate SeenAsTax(h: seq<Event>) {
    exists x :: 0 <= x < |h| && h[x].a.identifier.isTax
  }

  // Main result: roles are the OR of all observed roles, the window is exactly the least and the
  // greatest instant that counts.
  lemma {:induction false} RowHistory(h: seq<Event>)
    requires h != []
    ensures var row := RowAfter(h).value;
            && (row.isVAT <==> SeenAsVAT(h)) && (row.isTax <==> SeenAsTax(h))
            && row.owner == h[0].a.key
            && Counts(h, row.firstSeen) && Counts(h, row.lastSeen)
            && (forall t :: Counts(h, t) ==> row.firstSeen <= t <= row.lastSeen)
  {
    var n := |h| - 1;
    var pre, e := h[..n], h[n];
    if n > 0 {
      RowHistory(pre);
      assert pre[0] == h[0];
      HistoryGrows(h);
    } else {
      assert RowAfter(pre) == None;
      assert e.a.observedAt in {None, Some(ZERO_TIME)} || h[0].a.observedAt == Some(RowAfter(h).value.firstSeen);
    }
  }

  lemma HistoryGrows(h: seq<Event>)
    requires |h| > 1
    ensures var n := |h| - 1;
            && (forall t :: Counts(h, t) <==> Counts(h[..n], t) || (t != ZERO_TIME && h[n].a.observedAt == Some(t)))
            && (SeenAsVAT(h) <==> SeenAsVAT(h[..n]) || h[n].a.identifier.isVAT)
            && (SeenAsTax(h) <==> SeenAsTax(h[..n]) || h[n].a.identifier.isTax)
  {
    var n := |h| - 1;
    assert forall x :: 0 <= x < n ==> h[..n][x] == h[x];
  }

  // Timed attachments commute: the row depends on which observations arrived, not on their order.
  lemma TimedOrderIrrelevant(h: seq<Event>, g: seq<Event>)
    requires h != [] && g != []
    requires forall e :: e in h ==> SeenAt(e.a.observedAt).Some? && e.a.key == h[0].a.key
    requires forall e :: e in h <==> e in g
    ensures RowAfter(h) == RowAfter(g)
  {
    RowHistory(h);
    RowHistory(g);
    assert g[0] in g;
    SameEvents(h, g);
    SameEvents(g, h);
    var r, q := RowAfter(h).value, RowAfter(g).value;
    assert r.firstSeen == q.firstSeen && r.lastSeen == q.lastSeen;
  }

  lemma SameEvents(h: seq<Event>, g: seq<Event>)
    requires h != [] && g != [] && forall e :: e in h ==> SeenAt(e.a.observedAt).Some? && e in g
    ensures forall t :: Counts(h, t) ==> Counts(g, t)
    ensures SeenAsVAT(h) ==> SeenAsVAT(g)
    ensures SeenAsTax(h) ==> SeenAsTax(g)
  {
    assert h[0] in h;
    forall x | 0 <= x < |h| ensures exists y :: 0 <= y < |g| && g[y] == h[x] { assert h[x] in g; }
    forall t | Counts(h, t) ensures Counts(g, t) {
      var x :| 0 <= x < |h| && h[x].a.observedAt == Some(t);
      var y :| 0 <= y < |g| && g[y] == h[x];
    }
  }

  /******* One transaction's attachments *******/

  function RowFrom(row: Option<IdRow>, h: seq<Event>): Option<IdRow> {
    if h == [] then row else Some(NextRow(RowFrom(row, h[..|h| - 1]), h[|h| - 1]))
  }

  lemma {:induction false} RowFromNothing(h: seq<Event>)
    ensures RowFrom(None, h) == RowAfter(h)
  {
    if h != [] { RowFromNothing(h[..|h| - 1]); }
  }

  // Histories add up: what one transaction leaves is what the next starts from.
  lemma {:induction false} RowFromAppend(row: Option<IdRow>, g: seq<Event>, h: seq<Event>)
    ensures RowFrom(row, g + h) == RowFrom(RowFrom(row, g), h)
  {
    var all := g + h;
    if h == [] {
      assert all == g;
    } else {
      assert all[..|all| - 1] == g + h[..|h| - 1];
      RowFromAppend(row, g, h[..|h| - 1]);
    }
  }

  lemma {:induction false} RowFromFirst(row: Option<IdRow>, e: Event, h: seq<Event>)
    ensures RowFrom(row, [e] + h) == RowFrom(Some(NextRow(row, e)), h)
  {
    RowFromAppend(row, [e], h);
    assert [e][..0] == [];
  }

  function VisibleRow(w: World, r: Ref): Option<IdRow> {
    if r in w.View().ids then Some(w.View().ids[r]) else None
  }

  // The attachments of one identifier
  function EventsOf(atts: seq<Attachment>, r: Ref, now: Instant): seq<Event> {
    if atts == [] then []
    else if atts[0].identifier.ref == r then [Event(atts[0], now)] + EventsOf(atts[1..], r, now)
    else EventsOf(atts[1..], r, now)
  }

  // One statement, under interference: the row is what others have made of it, then the event is applied,
  // and from then on nobody else changes it.
  lemma {:induction false} AttachStep(env: Env, now: Instant, mint: nat -> Key, w: World, a: Attachment, r: Ref)
    requires Legal(env, mint) && Good(mint, w) && AttachIdentifier(Disturb(env, w), a, now).Attached?
    ensures var v, u := Disturb(env, w), AttachIdentifier(Disturb(env, w), a, now).w;
            && Good(mint, u) && Evolves(mint, w, v) && w.tx.own.ids.Keys <= u.tx.own.ids.Keys
            && (r in w.tx.own.ids || Quiet(env) ==> VisibleRow(v, r) == VisibleRow(w, r))
            && if a.identifier.ref == r then r in u.tx.own.ids
               && VisibleRow(u, r) == Some(NextRow(VisibleRow(v, r), Event(a, now)))
               else VisibleRow(u, r) == VisibleRow(v, r)
  {
    var v := Disturb(env, w);
    DisturbGood(env, mint, w);
    if r in w.tx.own.ids || Quiet(env) { DisturbedRow(env, w, r); }
    hide Quiet, Legal, DbGrows, NextRow, AttachIdentifier, Good, Disturb;
    AttachGood(mint, v, a, now);
    AttachIsNextRow(v, a, now);
  }

  lemma {:induction false} DisturbedRow(env: Env, w: World, r: Ref)
    requires r in w.tx.own.ids || Quiet(env)
    ensures VisibleRow(Disturb(env, w), r) == VisibleRow(w, r)
  {
  }

  ghost predicate RowKept(row: Option<IdRow>, next: Option<IdRow>) {
    row.Some? ==> next.Some? && RowGrows(row.value, next.value)
  }

  lemma {:induction false} VisibleKept(mint: nat -> Key, w: World, v: World, r: Ref)
    requires Evolves(mint, w, v)
    ensures RowKept(VisibleRow(w, r), VisibleRow(v, r))
  {
  }

  // Main result: attaching a plan leaves each identifier's visible row as the fold of its own attachments
  // over the row that was there: what the transaction started with if it had locked the row or nobody else
  // commits, and at most a grown version of that otherwise.
  lemma {:induction false} AttachAllFolds(env: Env, now: Instant, mint: nat -> Key, w: World, atts: seq<Attachment>,
      r: Ref)
    returns (start: Option<IdRow>)
    requires Legal(env, mint) && Good(mint, w) && AttachAll(env, now, w, atts).Going?
    requires EventsOf(atts, r, now) != [] || r in w.tx.own.ids || Quiet(env)
    ensures VisibleRow(AttachAll(env, now, w, atts).w, r) == RowFrom(start, EventsOf(atts, r, now))
    ensures RowKept(VisibleRow(w, r), start)
    ensures r in w.tx.own.ids || Quiet(env) ==> start == VisibleRow(w, r)
    decreases |atts|
  {
    hide Legal, Good, Evolves, Quiet, VisibleRow, NextRow, AttachIdentifier, RowGrows, Disturb;
    if atts == [] {
      start := VisibleRow(w, r);
      KeptSelf(start);
    } else {
      AttachStep(env, now, mint, w, atts[0], r);
      var v, u := Disturb(env, w), AttachIdentifier(Disturb(env, w), atts[0], now).w;
      VisibleKept(mint, w, v, r);
      if atts[0].identifier.ref == r {
        start := VisibleRow(v, r);
        var next := AttachAllFolds(env, now, mint, u, atts[1..], r);
        RowFromFirst(start, Event(atts[0], now), EventsOf(atts[1..], r, now));
      } else {
        start := AttachAllFolds(env, now, mint, u, atts[1..], r);
        KeptTrans(VisibleRow(w, r), VisibleRow(v, r), start);
      }
    }
  }

  lemma {:induction false} KeptSelf(row: Option<IdRow>)
    ensures RowKept(row, row)
  {
  }

  lemma {:induction false} KeptTrans(a: Option<IdRow>, b: Option<IdRow>, c: Option<IdRow>)
    requires RowKept(a, b) && RowKept(b, c)
    ensures RowKept(a, c)
  {
  }

  /******* One company's name *******/

  function NextName(c: Company, n: NameObservation): Company {
    if RealName(n) && NameApplies(c, n) then Renamed(c, n) else c
  }

  function NameAfter(c: Company, ns: seq<NameObservation>): Company {
    if ns == [] then c else NextName(NameAfter(c, ns[..|ns| - 1]), ns[|ns| - 1])
  }

  // d is company c named by n: the trimmed name, its instant and its source, nothing else changed.
  predicate NamedBy(c: Company, n: NameObservation, d: Company) {
    && d.name == Some(TrimSpace(n.name)) && d.nameAt == Some(n.observedAt)
    && d.nameSource == (if TrimSpace(n.source) == "" then None else Some(TrimSpace(n.source)))
    && d.state == c.state && d.origin == c.origin
  }

  // The statement names the company when the name is real and newer, and touches nothing else.
  lemma ObserveIsNextName(w: World, n: NameObservation)
    requires Sound(w.View()) && n.key in w.View().companies
    ensures var c, after := w.View().companies[n.key], ObserveName(w, n).View().companies;
            && n.key in after && after == w.View().companies[n.key := after[n.key]]
            && after[n.key] == NextName(c, n)
            && if TrimSpace(n.name) != "" && n.observedAt != ZERO_TIME
                  && (c.nameAt.None? || c.nameAt.value < n.observedAt)
               then NamedBy(c, n, after[n.key]) else after[n.key] == c
  {
    if RealName(n) && NameApplies(w.View().companies[n.key], n) {
      PutCompanyView(w, n.key, Renamed(w.View().companies[n.key], n));
    } else {
      assert w.View().companies[n.key := w.View().companies[n.key]] == w.View().companies;
    }
  }

  // Observation x beats the recorded name and everything applied before it, and nothing after beats it.
  predicate Wins(c: Company, ns: seq<NameObservation>, x: nat) {
    && x < |ns| && RealName(ns[x]) && NameApplies(c, ns[x])
    && (forall y :: 0 <= y < x && RealName(ns[y]) ==> ns[y].observedAt < ns[x].observedAt)
    && (forall y :: x <= y < |ns| && RealName(ns[y]) ==> ns[y].observedAt <= ns[x].observedAt)
  }

  predicate NobodyWins(c: Company, ns: seq<NameObservation>) {
    forall y :: 0 <= y < |ns| && RealName(ns[y]) ==> !NameApplies(c, ns[y])
  }

  // Main result: the name is the one with the greatest observation time, the earliest applied on a
  // tie, and the recorded one when nothing is newer; exactly one of these is the case.
  lemma {:induction false} NameHistory(c: Company, ns: seq<NameObservation>)
    ensures NobodyWins(c, ns) ==> NameAfter(c, ns) == c
    ensures forall x: nat :: Wins(c, ns, x) ==> NamedBy(c, ns[x], NameAfter(c, ns))
    ensures NobodyWins(c, ns) <==> !exists x: nat :: Wins(c, ns, x)
  {
    var x, won := Winner(c, ns);
    forall y: nat | Wins(c, ns, y) ensures won && x == y {
      assert !NobodyWins(c, ns);
    }
  }

  lemma {:induction false} Winner(c: Company, ns: seq<NameObservation>) returns (x: nat, won: bool)
    ensures won ==> Wins(c, ns, x) && NameAfter(c, ns) == Renamed(c, ns[x])
    ensures !won ==> NobodyWins(c, ns) && NameAfter(c, ns) == c
  {
    if ns == [] {
      return 0, false;
    }
    var n := |ns| - 1;
    x, won := Winner(c, ns[..n]);
    if won {
      WinnerStands(c, ns, x);
      if !Wins(c, ns, x) { x := n; }
    } else {
      NewcomerWins(c, ns);
      if !NobodyWins(c, ns) { x, won := n, true; }
    }
  }

  lemma {:induction false} WinnerStands(c: Company, ns: seq<NameObservation>, x: nat)
    requires ns != [] && Wins(c, ns[..|ns| - 1], x) && NameAfter(c, ns[..|ns| - 1]) == Renamed(c, ns[x])
    ensures if RealName(ns[|ns| - 1]) && ns[x].observedAt < ns[|ns| - 1].observedAt
            then Wins(c, ns, |ns| - 1) && !Wins(c, ns, x) && NameAfter(c, ns) == Renamed(c, ns[|ns| - 1])
            else Wins(c, ns, x) && NameAfter(c, ns) == Renamed(c, ns[x])
  {
    var n := |ns| - 1;
    assert forall y :: 0 <= y < n ==> ns[..n][y] == ns[y];
  }

  lemma {:induction false} NewcomerWins(c: Company, ns: seq<NameObservation>)
    requires ns != [] && NobodyWins(c, ns[..|ns| - 1]) && NameAfter(c, ns[..|ns| - 1]) == c
    ensures if RealName(ns[|ns| - 1]) && NameApplies(c, ns[|ns| - 1])
            then Wins(c, ns, |ns| - 1) && !NobodyWins(c, ns) && NameAfter(c, ns) == Renamed(c, ns[|ns| - 1])
            else NobodyWins(c, ns) && NameAfter(c, ns) == c
  {
    hide RealName, Renamed;
    var n := |ns| - 1;
    assert forall y :: 0 <= y < n ==> ns[..n][y] == ns[y];
  }

  // The name observations of one company
  function NamesOf(names: seq<NameObservation>, key: Key): seq<NameObservation> {
    if names == [] then []
    else if NormalizeCompanyKey(names[0].key) == key then [names[0]] + NamesOf(names[1..], key)
    else NamesOf(names[1..], key)
  }

  lemma {:induction false} NameAfterFirst(c: Company, n: NameObservation, ns: seq<NameObservation>)
    ensures NameAfter(c, [n] + ns) == NameAfter(NextName(c, n), ns)
  {
    var all := [n] + ns;
    if ns == [] {
      assert all[..0] == [];
    } else {
      assert all[..|all| - 1] == [n] + ns[..|ns| - 1];
      NameAfterFirst(c, n, ns[..|ns| - 1]);
    }
  }

  // One statement, under interference: the company is what others have made of it, then the observation
  // is applied.
  lemma {:induction false} ObserveStep(env: Env, mint: nat -> Key, w: World, n: NameObservation, key: Key)
    requires Legal(env, mint) && Good(mint, w) && key in w.View().companies
    ensures var v, u := Disturb(env, w), ObserveName(Disturb(env, w), n);
            && Good(mint, u) && key in v.View().companies && key in u.View().companies
            && CompanyGrows(w.View().companies[key], v.View().companies[key])
            && w.tx.own.companies.Keys <= u.tx.own.companies.Keys
            && u.View().companies[key]
               == if NormalizeCompanyKey(n.key) == key then NextName(v.View().companies[key], n)
                 else v.View().companies[key]
  {
    var v, k := Disturb(env, w), NormalizeCompanyKey(n.key);
    DisturbGood(env, mint, w);
    ObserveGood(mint, v, n);
    if ObserveName(v, n) != v { PutCompanyView(v, k, Renamed(v.View().companies[k], n)); }
    hide Legal, Good, NormalizeCompanyKey, CompanyGrows;
  }

  lemma {:induction false} DisturbedCompany(env: Env, w: World, key: Key)
    requires key in w.View().companies && (key in w.tx.own.companies || Quiet(env))
    ensures key in Disturb(env, w).View().companies
    ensures Disturb(env, w).View().companies[key] == w.View().companies[key]
  {
  }

  // d comes from c by the name observations ns in this order, with changes by others in between.
  ghost predicate Interleaved(c: Company, ns: seq<NameObservation>, d: Company)
    decreases |ns|
  {
    if ns == [] then CompanyGrows(c, d)
    else exists e :: CompanyGrows(c, e) && Interleaved(NextName(e, ns[0]), ns[1..], d)
  }

  lemma {:induction false} InterleavedEarlier(b: Company, c: Company, ns: seq<NameObservation>, d: Company)
    requires CompanyGrows(b, c) && Interleaved(c, ns, d)
    ensures Interleaved(b, ns, d)
  {
    hide NextName;
    if ns != [] {
      var e :| CompanyGrows(c, e) && Interleaved(NextName(e, ns[0]), ns[1..], d);
      assert CompanyGrows(b, e);
    }
  }

  // Main result: writing the names of a plan applies each company's own name observations in order, with
  // changes by others in between; with none when the transaction has locked its row or nobody else commits,
  // so that the company is the fold of these observations.
  lemma {:induction false} ObserveAllFolds(env: Env, mint: nat -> Key, w: World, names: seq<NameObservation>, key: Key)
    requires Legal(env, mint) && Good(mint, w) && key in w.View().companies
    ensures var v, own := ObserveAll(env, w, names), NamesOf(names, key);
            && key in v.View().companies
            && Interleaved(w.View().companies[key], own, v.View().companies[key])
            && (Quiet(env) || key in w.tx.own.companies ==>
                  v.View().companies[key] == NameAfter(w.View().companies[key], own))
    decreases |names|
  {
    hide Legal, Good, Quiet, NextName, ObserveName, Disturb, NormalizeCompanyKey, CompanyGrows;
    if names == [] {
      CompanyGrowsSelf(w.View().companies[key]);
    } else {
      var v, u, n := Disturb(env, w), ObserveName(Disturb(env, w), names[0]), names[0];
      ObserveStep(env, mint, w, n, key);
      ObserveAllFolds(env, mint, u, names[1..], key);
      var c, e, d := w.View().companies[key], v.View().companies[key], ObserveAll(env, w, names).View().companies[key];
      var rest := NamesOf(names[1..], key);
      if Quiet(env) || key in w.tx.own.companies { DisturbedCompany(env, w, key); }
      if NormalizeCompanyKey(n.key) == key {
        NameAfterFirst(c, n, rest);
        InterleavedFirst(c, e, n, rest, d);
      } else {
        InterleavedEarlier(c, e, rest, d);
      }
    }
  }

  lemma {:induction false} CompanyGrowsSelf(c: Company)
    ensures CompanyGrows(c, c)
  {
  }

  lemma {:induction false} InterleavedFirst(c: Company, e: Company, n: NameObservation, ns: seq<NameObservation>,
                                            d: Company)
    requires CompanyGrows(c, e) && Interleaved(NextName(e, n), ns, d)
    ensures Interleaved(c, [n] + ns, d)
  {
    hide NextName, CompanyGrows;
    assert ([n] + ns)[1..] == ns;
  }

  /******* Whole runs *******/

  // One transaction of the registry's life: it starts from the committed tables, resolves a batch
  // under legal interference, and commits on success or is rolled back otherwise.
  ghost predicate Transaction(db: Db, next: Db, env: Env, now: Instant, mint: nat -> Key, ss: seq<Sighting>) {
    var w := StartOf(db);
    var (v, o) := ResolveBatch(env, now, mint, w, ss);
    Legal(env, mint) && FreshMint(mint, w) && next == if o.Resolved? then v.View() else v.tx.committed
  }

  ghost predicate CanFollow(db: Db, next: Db) {
    exists env, now, mint, ss :: Transaction(db, next, env, now, mint, ss)
  }

  ghost predicate IsRun(run: seq<Db>) {
    forall i :: 0 < i < |run| ==> CanFollow(run[i - 1], run[i])
  }

  lemma {:induction false} TransactionKeeps(db: Db, next: Db, env: Env, now: Instant, mint: nat -> Key,
      ss: seq<Sighting>)
    requires Sound(db) && Consistent(db) && Transaction(db, next, env, now, mint, ss)
    ensures Sound(next) && Consistent(next) && DbGrows(db, next)
  {
    var w := StartOf(db);
    StartGood(db, mint);
    hide Good, ResolveBatch, DbGrows, AllSettled, PriorsKept, NoOrphans, FreshMint, Legal, Sound, Consistent;
    ResolveContract(env, now, mint, w, ss);
    var (v, o) := ResolveBatch(env, now, mint, w, ss);
    GoodIsSound(mint, v);
  }

  // Main result: along every run the state says exactly whether the company owns a fiscal
  // identifier; owners never move, no state is demoted, no role is lost, names only get newer.
  lemma {:induction false} RunInvariant(run: seq<Db>, n: nat)
    requires n < |run| && IsRun(run) && Sound(run[0]) && Consistent(run[0])
    ensures Sound(run[n]) && Consistent(run[n]) && DbGrows(run[0], run[n])
  {
    if n == 0 {
      DbGrowsSelf(run[0]);
    } else {
      RunInvariant(run, n - 1);
      assert CanFollow(run[n - 1], run[n]);
      var env, now, mint, ss :| Transaction(run[n - 1], run[n], env, now, mint, ss);
      TransactionKeeps(run[n - 1], run[n], env, now, mint, ss);
      DbGrowsTrans(run[0], run[n - 1], run[n]);
    }
  }
}
