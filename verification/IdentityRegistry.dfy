/** The transactional half of the registry (ma_company_identity_store.go, migration 120): its two tables,
    its SQL statements as map reads and updates, and the resolver with its savepoints and retries. */
module IdentityRegistry {
  import opened Wrappers
  import opened Text
  import opened IdentityNormalize
  import opened IdentityPlan

  /******* Tables *******/

  datatype Origin = Adopted | Assigned
  datatype Company = Company(
    name: Option<string>, nameAt: Option<Instant>, nameSource: Option<string>, state: IdentityState, origin: Origin)
  datatype IdRow = IdRow(owner: Key, isVAT: bool, isTax: bool, firstSeen: Instant, lastSeen: Instant)
  datatype Db = Db(companies: map<Key, Company>, ids: map<Ref, IdRow>)

  // A transaction sees the committed rows, and over them the rows it has written itself.
  // The rows in own are locked: nobody else can change or create them before it ends.
  datatype Tx = Tx(committed: Db, own: Db)
  {
    function View(): Db { Db(committed.companies + own.companies, committed.ids + own.ids) }
  }

  // Everybody else: what is committed when statement number n is about to run.
  type Env = (nat, Tx) -> Db

  datatype World = World(tx: Tx, tick: nat, minted: nat)
  {
    function View(): Db { tx.View() }
  }

  const ZERO_TIME: Instant := 0

  const RETRY_ATTEMPTS: nat := 3

  /******* Statements *******/

  function Disturb(env: Env, w: World): World {
    w.(tx := w.tx.(committed := env(w.tick, w.tx)), tick := w.tick + 1)
  }

  function NullString(s: string): Option<string> {
    if TrimSpace(s) == "" then None else Some(TrimSpace(s))
  }

  function NewCompany(d: EntityDraft): Company {
    var named := d.observedAt.Some? && d.name != "";
    Company(
      if d.name == "" then None else Some(d.name),
      if named then d.observedAt else None,
      if named then NullString(d.source) else None,
      d.state, Assigned)
  }

  function PutCompany(w: World, key: Key, c: Company): World {
    w.(tx := w.tx.(own := w.tx.own.(companies := w.tx.own.companies[key := c])))
  }

  function PutId(w: World, r: Ref, row: IdRow): World {
    w.(tx := w.tx.(own := w.tx.own.(ids := w.tx.own.ids[r := row])))
  }

  function SeenAt(at: Option<Instant>): Option<Instant> {
    if at.Some? && at.value != ZERO_TIME then at else None
  }

  function Min(a: Instant, b: Instant): Instant { if a <= b then a else b }

  function Max(a: Instant, b: Instant): Instant { if a <= b then b else a }

  function InsertedRow(a: Attachment, now: Instant): IdRow {
    var at := match SeenAt(a.observedAt) case Some(t) => t case None => now;
    IdRow(a.key, a.identifier.isVAT, a.identifier.isTax, at, at)
  }

  // ON CONFLICT DO UPDATE: roles in OR, LEAST and GREATEST of the times.
  function MergedRow(row: IdRow, a: Attachment): IdRow {
    var roles := row.(isVAT := row.isVAT || a.identifier.isVAT, isTax := row.isTax || a.identifier.isTax);
    match SeenAt(a.observedAt)
    case Some(t) => roles.(firstSeen := Min(row.firstSeen, t), lastSeen := Max(row.lastSeen, t))
    case None => roles
  }

  datatype AttachResult = Attached(w: World) | Lost(conflict: Conflict) | NoSuchCompany

  function AttachIdentifier(w: World, a: Attachment, now: Instant): AttachResult {
    var r, view := a.identifier.ref, w.View();
    if r in view.ids then
      if view.ids[r].owner == a.key then Attached(PutId(w, r, MergedRow(view.ids[r], a)))
      else Lost(Conflict(r, view.ids[r].owner, a.key, "", "", "", ""))
    else if a.key in view.companies then Attached(PutId(w, r, InsertedRow(a, now)))
    else NoSuchCompany
  }

  function PromoteCompany(w: World, key: Key): World {
    var view := w.View();
    if key in view.companies && view.companies[key].state == VendorOnly then
      PutCompany(w, key, view.companies[key].(state := FiscalState))
    else w
  }

  function Renamed(c: Company, n: NameObservation): Company {
    c.(name := Some(TrimSpace(n.name)), nameAt := Some(n.observedAt), nameSource := NullString(n.source))
  }

  predicate NameApplies(c: Company, n: NameObservation) {
    c.nameAt.None? || c.nameAt.value < n.observedAt
  }

  function ObserveName(w: World, n: NameObservation): World {
    var key, view := NormalizeCompanyKey(n.key), w.View();
    if key == "" || TrimSpace(n.name) == "" || n.observedAt == ZERO_TIME then w
    else if key in view.companies && NameApplies(view.companies[key], n) then
      PutCompany(w, key, Renamed(view.companies[key], n))
    else w
  }

  /******* One attempt *******/

  datatype Outcome =
    | Resolved(keys: seq<Key>)
    | Conflicted(conflicts: seq<Conflict>)
    | Missing(companyName: string, targetID: string)
    | Raced(conflict: Conflict)
    | SqlError

  datatype Fold = Going(w: World) | Stopped(w: World, outcome: Outcome)

  function InsertAll(env: Env, w: World, drafts: seq<EntityDraft>): Fold
    decreases |drafts|
  {
    if drafts == [] then Going(w)
    else
      var v := Disturb(env, w);
      if drafts[0].key in v.View().companies then Stopped(v, SqlError)
      else InsertAll(env, PutCompany(v, drafts[0].key, NewCompany(drafts[0])), drafts[1..])
  }

  function AttachAll(env: Env, now: Instant, w: World, atts: seq<Attachment>): Fold
    decreases |atts|
  {
    if atts == [] then Going(w)
    else
      var v := Disturb(env, w);
      match AttachIdentifier(v, atts[0], now)
      case Attached(u) => AttachAll(env, now, u, atts[1..])
      case Lost(c) => Stopped(v, Raced(c))
      case NoSuchCompany => Stopped(v, SqlError)
  }

  function PromoteAll(env: Env, w: World, keys: seq<Key>): World
    decreases |keys|
  {
    if keys == [] then w else PromoteAll(env, PromoteCompany(Disturb(env, w), keys[0]), keys[1..])
  }

  function ObserveAll(env: Env, w: World, names: seq<NameObservation>): World
    decreases |names|
  {
    if names == [] then w else ObserveAll(env, ObserveName(Disturb(env, w), names[0]), names[1..])
  }

  predicate BatchMentions(ss: seq<Sighting>, r: Ref) {
    exists i :: 0 <= i < |ss| && MentionsRef(ss[i].ids, r)
  }

  predicate BatchCarries(ss: seq<Sighting>, key: Key) {
    exists i :: 0 <= i < |ss| && ss[i].prior == key != ""
  }

  function OwnersOf(view: Db, ss: seq<Sighting>): map<Ref, Key> {
    map r | r in view.ids && BatchMentions(ss, r) :: view.ids[r].owner
  }

  function KnownOf(view: Db, ss: seq<Sighting>): set<Key> {
    set k | k in view.companies && BatchCarries(ss, k)
  }

  // The two reads: owners first, known keys at the next statement.
  function Reads(env: Env, mint: nat -> Key, w: World, ss: seq<Sighting>): (World, Context) {
    var owners := Disturb(env, w);
    var keys := Disturb(env, owners);
    (keys, Context(OwnersOf(owners.View(), ss), KnownOf(keys.View(), ss), (n: nat) => mint(w.minted + n)))
  }

  function WritePlan(env: Env, now: Instant, w: World, plan: Plan): (World, Outcome) {
    match InsertAll(env, w, plan.newEntities)
    case Stopped(v, o) => (v, o)
    case Going(inserted) =>
      match AttachAll(env, now, inserted, plan.attachments)
      case Stopped(v, o) => (v, o)
      case Going(attached) =>
        (ObserveAll(env, PromoteAll(env, attached, plan.promotions), plan.names), Resolved(plan.keys))
  }

  function ResolveOnce(env: Env, now: Instant, mint: nat -> Key, w: World, ss: seq<Sighting>): (World, Outcome) {
    var (read, ctx) := Reads(env, mint, w, ss);
    var st := After(ctx, ss, |ss|);
    var planned := read.(minted := w.minted + st.minted);
    if st.plan.missing != [] then
      var first := ss[st.plan.missing[0]].o;
      (planned, Missing(first.companyName, first.targetID))
    else if st.plan.conflicts != [] then (planned, Conflicted(st.plan.conflicts))
    else WritePlan(env, now, planned, st.plan)
  }

  /******* The retry loop *******/

  // ROLLBACK TO SAVEPOINT drops the attempt's own writes; what others committed stays.
  function RollbackTo(w: World, own: Db): World {
    w.(tx := w.tx.(own := own))
  }

  function ResolveFrom(env: Env, now: Instant, mint: nat -> Key, w: World, ss: seq<Sighting>,
                       left: nat, last: Option<Conflict>): (World, Outcome)
    requires left == 0 ==> last.Some?
    decreases left
  {
    if left == 0 then (w, Conflicted([last.value]))
    else
      var (v, o) := ResolveOnce(env, now, mint, w, ss);
      if o.Raced? then
        ResolveFrom(env, now, mint, RollbackTo(v, w.tx.own), ss, left - 1, Some(o.conflict))
      else (v, o)
  }

  function ResolveBatch(env: Env, now: Instant, mint: nat -> Key, w: World, ss: seq<Sighting>): (World, Outcome) {
    if ss == [] then (w, Resolved([])) else ResolveFrom(env, now, mint, w, ss, RETRY_ATTEMPTS, None)
  }

  // The caller's transaction: its fields are the tables as the resolver's statements update them.
  class Registry {
    var committed: Db
    var own: Db
    var tick: nat
    var minted: nat
    const env: Env
    const mint: nat -> Key
    const now: Instant

    constructor (db: Db, env: Env, mint: nat -> Key, now: Instant)
      ensures W() == World(Tx(db, Db(map[], map[])), 0, 0)
      ensures this.env == env && this.mint == mint && this.now == now
    {
      committed, own, tick, minted := db, Db(map[], map[]), 0, 0;
      this.env, this.mint, this.now := env, mint, now;
    }

    function W(): World
      reads this
    {
      World(Tx(committed, own), tick, minted)
    }

    method Interfere()
      modifies this`committed, this`tick
      ensures W() == Disturb(env, old(W()))
    {
      committed := env(tick, Tx(committed, own));
      tick := tick + 1;
    }

    method InsertCompany(d: EntityDraft) returns (ok: bool)
      modifies this
      ensures ok == (d.key !in Disturb(env, old(W())).View().companies)
      ensures W() == if ok then PutCompany(Disturb(env, old(W())), d.key, NewCompany(d)) else Disturb(env, old(W()))
    {
      Interfere();
      ok := d.key !in W().View().companies;
      if ok {
        own := own.(companies := own.companies[d.key := NewCompany(d)]);
      }
    }

    // attachMACompanyIdentifierTx
    method Attach(a: Attachment) returns (r: AttachResult)
      modifies this
      ensures r == AttachIdentifier(Disturb(env, old(W())), a, now)
      ensures W() == if r.Attached? then r.w else Disturb(env, old(W()))
    {
      Interfere();
      var ref := a.identifier.ref;
      var view := W().View();
      if ref in view.ids {
        var row := view.ids[ref];
        if row.owner != a.key {
          return Lost(Conflict(ref, row.owner, a.key, "", "", "", ""));
        }
        own := own.(ids := own.ids[ref := MergedRow(row, a)]);
      } else {
        if a.key !in view.companies { return NoSuchCompany; }
        own := own.(ids := own.ids[ref := InsertedRow(a, now)]);
      }
      r := Attached(W());
    }

    method Promote(key: Key)
      modifies this
      ensures W() == PromoteCompany(Disturb(env, old(W())), key)
    {
      Interfere();
      var view := W().View();
      if key in view.companies && view.companies[key].state == VendorOnly {
        own := own.(companies := own.companies[key := view.companies[key].(state := FiscalState)]);
      }
    }

    // observeMACompanyNameTx
    method Observe(n: NameObservation)
      modifies this
      ensures W() == ObserveName(Disturb(env, old(W())), n)
    {
      Interfere();
      var key := NormalizeCompanyKey(n.key);
      if key == "" || TrimSpace(n.name) == "" || n.observedAt == ZERO_TIME { return; }
      var view := W().View();
      if key in view.companies && NameApplies(view.companies[key], n) {
        own := own.(companies := own.companies[key := Renamed(view.companies[key], n)]);
      }
    }

    // resolveMACompanyBatchOnce
    method Once(ss: seq<Sighting>) returns (o: Outcome)
      modifies this
      ensures (W(), o) == ResolveOnce(env, now, mint, old(W()), ss)
    {
      ghost var w0 := W();
      Interfere();
      var owners := OwnersOf(W().View(), ss);
      Interfere();
      var known := KnownOf(W().View(), ss);
      var base := minted;
      var m := mint;
      var ctx := Context(owners, known, (n: nat) => m(base + n));
      assert (W(), ctx) == Reads(env, mint, w0, ss);
      var plan, coined := PlanSightings(ss, ctx);
      minted := minted + coined;
      if plan.missing != [] {
        var first := ss[plan.missing[0]].o;
        return Missing(first.companyName, first.targetID);
      }
      if plan.conflicts != [] { return Conflicted(plan.conflicts); }
      o := Write(plan);
    }

    method Write(plan: Plan) returns (o: Outcome)
      modifies this
      ensures (W(), o) == WritePlan(env, now, old(W()), plan)
    {
      ghost var w0 := W();
      var i := 0;
      while i < |plan.newEntities|
        invariant 0 <= i <= |plan.newEntities|
        invariant InsertAll(env, w0, plan.newEntities) == InsertAll(env, W(), plan.newEntities[i..])
      {
        Peel(plan.newEntities, i);
        var ok := InsertCompany(plan.newEntities[i]);
        if !ok { return SqlError; }
        i := i + 1;
      }
      o := AttachRows(plan.attachments);
      if !o.Resolved? { return o; }
      o := Resolved(plan.keys);
      PromoteRows(plan.promotions);
      ObserveRows(plan.names);
    }

    method AttachRows(atts: seq<Attachment>) returns (o: Outcome)
      modifies this
      ensures AttachAll(env, now, old(W()), atts) == if o.Resolved? then Going(W()) else Stopped(W(), o)
    {
      ghost var w0 := W();
      var i := 0;
      while i < |atts|
        invariant 0 <= i <= |atts|
        invariant AttachAll(env, now, w0, atts) == AttachAll(env, now, W(), atts[i..])
      {
        Peel(atts, i);
        var r := Attach(atts[i]);
        match r {
          case Attached(_) =>
          case Lost(c) => return Raced(c);
          case NoSuchCompany => return SqlError;
        }
        i := i + 1;
      }
      o := Resolved([]);
    }

    method PromoteRows(keys: seq<Key>)
      modifies this
      ensures W() == PromoteAll(env, old(W()), keys)
    {
      ghost var w0 := W();
      var i := 0;
      while i < |keys|
        invariant 0 <= i <= |keys|
        invariant PromoteAll(env, w0, keys) == PromoteAll(env, W(), keys[i..])
      {
        Peel(keys, i);
        Promote(keys[i]);
        i := i + 1;
      }
    }

    method ObserveRows(names: seq<NameObservation>)
      modifies this
      ensures W() == ObserveAll(env, old(W()), names)
    {
      ghost var w0 := W();
      var i := 0;
      while i < |names|
        invariant 0 <= i <= |names|
        invariant ObserveAll(env, w0, names) == ObserveAll(env, W(), names[i..])
      {
        Peel(names, i);
        Observe(names[i]);
        i := i + 1;
      }
    }

    // resolveMACompanyBatchTx
    method Resolve(obs: seq<Observation>) returns (o: Outcome)
      modifies this
      ensures (W(), o) == ResolveBatch(env, now, mint, old(W()), SightAll(obs))
    {
      hide ResolveOnce;
      var ss := SightAll(obs);
      if ss == [] { return Resolved([]); }
      ghost var w0 := W();
      var lastRace: Option<Conflict> := None;
      var attempt := 0;
      while attempt < RETRY_ATTEMPTS
        invariant 0 <= attempt <= RETRY_ATTEMPTS
        invariant attempt > 0 ==> lastRace.Some?
        invariant ResolveBatch(env, now, mint, w0, ss)
                  == ResolveFrom(env, now, mint, W(), ss, RETRY_ATTEMPTS - attempt, lastRace)
      {
        var savepoint := own;
        o := Once(ss);
        if !o.Raced? { return o; }
        lastRace := Some(o.conflict);
        own := savepoint;
        attempt := attempt + 1;
      }
      o := Conflicted([lastRace.value]);
    }
  }

  lemma {:induction false} Peel<T>(s: seq<T>, i: nat)
    requires i < |s|
    ensures s[i..] != [] && s[i..][0] == s[i] && s[i..][1..] == s[i + 1..]
  {
  }
}
