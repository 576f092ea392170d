/** What every interleaving of cache requests guarantees. */
module CacheGuarantees {
  import opened Wrappers
  import opened SearchCache

  /******* Invariant *******/

  predicate Critical(ph: Phase) {
    ph.Locked? || ph.Rechecking? || ph.Fetching? || ph.Fetched? || ph.Stamped? || ph.Leaving?
  }

  predicate Mutex(s: State) {
    && (s.lock.Some? ==> s.lock.value in s.procs)
    && forall p :: p in s.procs ==> (Critical(s.procs[p].phase) <==> s.lock == Some(p))
  }

  // The row is the last write; fetch times never decrease and lie in the past.
  predicate LogOrdered(s: State) {
    && (s.log == [] <==> s.row == None)
    && (s.row.Some? ==>
          && s.log[|s.log| - 1].entry == Entry(s.row.value.response, s.row.value.fetchedAt)
          && s.row.value.expiresAt == s.row.value.fetchedAt + TTL)
    && (forall i, j :: 0 <= i <= j < |s.log| ==> s.log[i].entry.fetchedAt <= s.log[j].entry.fetchedAt)
    && (forall i :: 0 <= i < |s.log| ==> s.log[i].entry.fetchedAt <= s.clock)
  }

  // Every non-forced write comes at least a TTL after every write before it.
  predicate Spaced(s: State) {
    forall i, j :: 0 <= i < j < |s.log| && !s.log[j].force ==>
        s.log[i].entry.fetchedAt + TTL <= s.log[j].entry.fetchedAt
  }

  // Everything written so far has expired by t.
  predicate Cleared(s: State, t: Instant) {
    forall i :: 0 <= i < |s.log| ==> s.log[i].entry.fetchedAt + TTL <= t
  }

  predicate Logged(s: State, e: Entry) {
    exists i :: 0 <= i < |s.log| && s.log[i].entry == e
  }

  // The request itself wrote what it fetched.
  predicate OwnLogged(s: State, p: Pid, force: bool, e: Entry) {
    exists i :: 0 <= i < |s.log| && s.log[i] == Write(p, force, e)
  }

  predicate ResultSound(s: State, p: Pid, force: bool, r: Result) {
    match r
    case FromCache(e, now) => !force && Logged(s, e) && now < e.fetchedAt + TTL && now <= s.clock
    case Own(e) => OwnLogged(s, p, force, e)
    case Failed => true
  }

  predicate PhaseSound(s: State, p: Pid, q: Proc) {
    match q.phase
    case Checking(now) => now <= s.clock && !q.force
    case Rechecking(now) => now <= s.clock && !q.force
    case Fetching => !q.force ==> Cleared(s, s.clock)
    case Fetched(_) => !q.force ==> Cleared(s, s.clock)
    case Stamped(e) =>
      && e.fetchedAt <= s.clock
      && (forall i :: 0 <= i < |s.log| ==> s.log[i].entry.fetchedAt <= e.fetchedAt)
      && (!q.force ==> Cleared(s, e.fetchedAt))
    case Leaving(r) => ResultSound(s, p, q.force, r)
    case Done(r) => ResultSound(s, p, q.force, r)
    case _ => true
  }

  predicate Inv(s: State) {
    && Mutex(s) && LogOrdered(s) && Spaced(s)
    && forall p :: p in s.procs ==> PhaseSound(s, p, s.procs[p])
  }

  lemma {:induction false} MutexStep(s: State, p: Pid, e: Event)
    requires Mutex(s) && p in s.procs
    ensures Mutex(Advance(s, p, e))
  {
  }

  // Another request's facts survive: the clock grows, and nobody else writes while one is critical.
  lemma {:induction false} OthersSound(s: State, t: State, p: Pid, q: Proc)
    requires PhaseSound(s, p, q) && s.clock <= t.clock
    requires s.log == t.log || (s.log <= t.log && !Critical(q.phase))
    ensures PhaseSound(t, p, q)
  {
    if q.phase.Done? && q.phase.result.FromCache? {
      var i :| 0 <= i < |s.log| && s.log[i].entry == q.phase.result.entry;
      assert t.log[i].entry == q.phase.result.entry;
    } else if q.phase.Done? && q.phase.result.Own? {
      var i :| 0 <= i < |s.log| && s.log[i] == Write(p, q.force, q.phase.result.entry);
      assert t.log[i] == s.log[i];
    }
  }

  lemma {:induction false} MissClears(s: State, now: Instant)
    requires LogOrdered(s) && now <= s.clock && !IsValid(s.row, now)
    ensures Cleared(s, s.clock)
  {
    forall i | 0 <= i < |s.log| ensures s.log[i].entry.fetchedAt + TTL <= s.clock {
      assert s.log[i].entry.fetchedAt <= s.log[|s.log| - 1].entry.fetchedAt;
    }
  }

  lemma {:induction false} HitLogged(s: State, p: Pid, now: Instant)
    requires LogOrdered(s) && now <= s.clock && IsValid(s.row, now)
    ensures ResultSound(s, p, false, FromCache(Entry(s.row.value.response, s.row.value.fetchedAt), now))
  {
    assert s.log[|s.log| - 1].entry == Entry(s.row.value.response, s.row.value.fetchedAt);
  }

  lemma {:induction false} OwnSound(s: State, p: Pid, e: Event)
    requires Inv(s) && p in s.procs
    ensures PhaseSound(Advance(s, p, e), p, Advance(s, p, e).procs[p])
  {
    assert PhaseSound(s, p, s.procs[p]);
    var t := Advance(s, p, e);
    match s.procs[p].phase
    case Checking(now) => if IsValid(s.row, now) { HitLogged(s, p, now); }
    case Rechecking(now) => if IsValid(s.row, now) { HitLogged(s, p, now); } else { MissClears(s, now); }
    case Stamped(entry) =>
      if !e.Error? { assert t.log[|s.log|] == Write(p, s.procs[p].force, entry); }
    case _ =>
  }

  lemma {:induction false} WriteKeepsLog(s: State, t: State, w: Write)
    requires LogOrdered(s) && Spaced(s) && w.entry.fetchedAt <= s.clock == t.clock
    requires forall i :: 0 <= i < |s.log| ==> s.log[i].entry.fetchedAt <= w.entry.fetchedAt
    requires !w.force ==> Cleared(s, w.entry.fetchedAt)
    requires t.row == Some(Stored(w.entry.response, w.entry.fetchedAt)) && t.log == s.log + [w]
    ensures LogOrdered(t) && Spaced(t)
  {
  }

  lemma {:induction false} LogStep(s: State, p: Pid, e: Event)
    requires Inv(s) && p in s.procs
    ensures LogOrdered(Advance(s, p, e)) && Spaced(Advance(s, p, e))
  {
    var t := Advance(s, p, e);
    if s.procs[p].phase.Stamped? && !e.Error? {
      assert PhaseSound(s, p, s.procs[p]);
      WriteKeepsLog(s, t, Write(p, s.procs[p].force, s.procs[p].phase.entry));
    } else {
      assert t.log == s.log && t.clock == s.clock;
      assert t.row == s.row || (s.row.Some? && t.row == Some(t.row.value) && SameWrite(s.row.value, t.row.value));
    }
  }

  predicate SameWrite(a: Row, b: Row) {
    a.response == b.response && a.fetchedAt == b.fetchedAt && a.expiresAt == b.expiresAt
  }

  lemma {:induction false} OtherSound(s: State, p: Pid, e: Event, q: Pid)
    requires Inv(s) && p in s.procs && q in s.procs && q != p
    ensures var t := Advance(s, p, e); q in t.procs && PhaseSound(t, q, t.procs[q])
  {
    var t := Advance(s, p, e);
    assert PhaseSound(s, q, s.procs[q]);
    assert t.procs[q] == s.procs[q] && t.clock == s.clock;
    if t.log != s.log {
      assert s.procs[p].phase.Stamped? && t.log == s.log + [Write(p, s.procs[p].force, s.procs[p].phase.entry)];
      assert s.lock == Some(p) && !Critical(s.procs[q].phase);
    }
    OthersSound(s, t, q, s.procs[q]);
  }

  lemma {:induction false} InvMove(s: State, p: Pid, e: Event)
    requires Inv(s) && p in s.procs
    ensures Inv(Advance(s, p, e))
  {
    var t := Advance(s, p, e);
    assert t.procs.Keys == s.procs.Keys;
    hide Advance;
    MutexStep(s, p, e);
    LogStep(s, p, e);
    OwnSound(s, p, e);
    forall q | q in t.procs ensures PhaseSound(t, q, t.procs[q]) {
      if q != p { OtherSound(s, p, e, q); }
    }
  }

  lemma {:induction false} InvApply(s: State, a: Action)
    requires Inv(s)
    ensures Inv(Apply(s, a))
  {
    match a
    case Tick(d) =>
      var t := Apply(s, a);
      forall q | q in t.procs ensures PhaseSound(t, q, t.procs[q]) { OthersSound(s, t, q, s.procs[q]); }
    case Arrive(p, force) =>
      var t := Apply(s, a);
      forall q | q in t.procs ensures PhaseSound(t, q, t.procs[q]) {
        if q in s.procs { OthersSound(s, t, q, s.procs[q]); }
      }
    case Move(p, e) => if p in s.procs { InvMove(s, p, e); }
  }

  lemma {:induction false} Invariant(s: State, actions: seq<Action>)
    requires IsInitial(s)
    ensures Inv(RunOf(s, actions))
  {
    if actions != [] {
      Invariant(s, actions[..|actions| - 1]);
      InvApply(RunOf(s, actions[..|actions| - 1]), actions[|actions| - 1]);
    }
  }

  /******* Guarantees over every interleaving *******/

  predicate InFlight(s: State, p: Pid) {
    p in s.procs && s.procs[p].phase.Fetching?
  }

  // Main result: at most one vendor call is in flight.
  lemma {:induction false} AtMostOneFetch(s: State, actions: seq<Action>, p: Pid, q: Pid)
    requires IsInitial(s)
    ensures var t := RunOf(s, actions); InFlight(t, p) && InFlight(t, q) ==> p == q
  {
    Invariant(s, actions);
  }

  // Main result: writes are in time order, and one that was not forced comes at least 24 hours after
  // every earlier one.
  lemma {:induction false} WritesSpaced(s: State, actions: seq<Action>, i: nat, j: nat)
    requires IsInitial(s) && i < j < |RunOf(s, actions).log|
    ensures var log := RunOf(s, actions).log;
            && log[i].entry.fetchedAt <= log[j].entry.fetchedAt
            && (!log[j].force ==> log[i].entry.fetchedAt + 24 * 3600 * 1_000_000_000 <= log[j].entry.fetchedAt)
  {
    Invariant(s, actions);
  }

  // Main result: whatever is served is either the requester's own fetch, which it wrote to the cache,
  // or an entry somebody wrote that was unexpired at the request's check; a forced request is never
  // served from the cache.
  lemma {:induction false} ServedSound(s: State, actions: seq<Action>, p: Pid)
    requires IsInitial(s)
    ensures var t := RunOf(s, actions);
            p in t.procs && t.procs[p].phase.Done? ==>
              match t.procs[p].phase.result
              case FromCache(entry, checkedAt) => !t.procs[p].force && Logged(t, entry)
                && checkedAt < entry.fetchedAt + TTL
              case Own(entry) => OwnLogged(t, p, t.procs[p].force, entry)
              case Failed => true
  {
    Invariant(s, actions);
    var t := RunOf(s, actions);
    if p in t.procs { assert PhaseSound(t, p, t.procs[p]); }
  }

  /******* Progress *******/

  // The steps a request still has before it is answered.
  function Rank(ph: Phase): nat {
    match ph
    case Arrived => 9
    case Checking(_) => 8
    case Waiting => 7
    case Locked => 6
    case Rechecking(_) => 5
    case Fetching => 4
    case Fetched(_) => 3
    case Stamped(_) => 2
    case Leaving(_) => 1
    case Done(_) => 0
  }

  // A request moves at its next turn unless it waits for a lock somebody else holds.
  lemma {:induction false} MovesOrWaits(s: State, p: Pid, e: Event)
    requires p in s.procs && !s.procs[p].phase.Done?
    requires s.procs[p].phase.Waiting? ==> s.lock == None
    ensures Rank(Advance(s, p, e).procs[p].phase) < Rank(s.procs[p].phase)
    ensures forall q :: q in s.procs && q != p ==> Advance(s, p, e).procs[q] == s.procs[q]
  {
  }

  // Main result: no interleaving deadlocks. While a request is unanswered, some request can move
  // whatever happens to it, and the holder of the lock always can.
  lemma {:induction false} NoDeadlock(s: State, actions: seq<Action>, p: Pid) returns (q: Pid)
    requires IsInitial(s)
    requires var t := RunOf(s, actions); p in t.procs && !t.procs[p].phase.Done?
    ensures var t := RunOf(s, actions);
            && q in t.procs && (t.lock.Some? ==> q == t.lock.value)
            && forall e :: Rank(Advance(t, q, e).procs[q].phase) < Rank(t.procs[q].phase)
  {
    Invariant(s, actions);
    var t := RunOf(s, actions);
    q := if t.lock.Some? then t.lock.value else p;
    forall e ensures Rank(Advance(t, q, e).procs[q].phase) < Rank(t.procs[q].phase) { MovesOrWaits(t, q, e); }
  }
}
