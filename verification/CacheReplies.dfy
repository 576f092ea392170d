/** Where the answers of the cache come from: the vendor's replies, and the writes made of them. */
module CacheReplies {
  import opened Wrappers
  import opened SearchCache
  import opened CacheGuarantees

  const DAY: Instant := 24 * 3600 * 1_000_000_000

  // The state before action m
  function At(s: State, actions: seq<Action>, m: nat): State
    requires m <= |actions|
  {
    RunOf(s, actions[..m])
  }

  predicate StandsIn(s: State, p: Pid, ph: Phase) {
    p in s.procs && s.procs[p].phase == ph
  }

  // Action m is the vendor's reply to request p, whose call is in flight.
  predicate RepliedAt(s: State, actions: seq<Action>, p: Pid, response: Response, m: nat) {
    m < |actions| && actions[m] == Move(p, Reply(response)) && StandsIn(At(s, actions, m), p, Fetching)
  }

  ghost predicate Replied(s: State, actions: seq<Action>, p: Pid, response: Response) {
    exists m :: RepliedAt(s, actions, p, response, m)
  }

  // The vendor's reply to request p, stamped with the clock at a later moment.
  ghost predicate FetchedBy(s: State, actions: seq<Action>, p: Pid, e: Entry) {
    exists m, k :: RepliedAt(s, actions, p, e.response, m) && StampedAt(s, actions, p, e, m, k)
  }

  predicate StampedAt(s: State, actions: seq<Action>, p: Pid, e: Entry, m: nat, k: nat) {
    m < k < |actions| && At(s, actions, k).clock == e.fetchedAt && StandsIn(At(s, actions, k), p, Fetched(e.response))
  }

  // At action k request p reads the clock, on its arrival or once it holds the lock.
  predicate ClockAt(s: State, actions: seq<Action>, p: Pid, now: Instant, k: nat) {
    && k < |actions| && actions[k].Move? && actions[k].pid == p && At(s, actions, k).clock == now
    && (StandsIn(At(s, actions, k), p, Arrived) || StandsIn(At(s, actions, k), p, Locked))
  }

  ghost predicate ClockReadBy(s: State, actions: seq<Action>, p: Pid, now: Instant) {
    exists k :: ClockAt(s, actions, p, now, k)
  }

  // At action m request p reads the row, at the instant now that it took before, and e is the last write.
  predicate ReadAt(s: State, actions: seq<Action>, p: Pid, e: Entry, now: Instant, m: nat) {
    && m < |actions| && actions[m].Move? && actions[m].pid == p
    && (StandsIn(At(s, actions, m), p, Checking(now)) || StandsIn(At(s, actions, m), p, Rechecking(now)))
    && var log := At(s, actions, m).log; log != [] && log[|log| - 1].entry == e
  }

  ghost predicate ReadBy(s: State, actions: seq<Action>, p: Pid, e: Entry, now: Instant) {
    exists m :: ReadAt(s, actions, p, e, now, m)
  }

  // At action m something goes wrong for request p: an error, or no reply to its call.
  predicate FailsAt(s: State, actions: seq<Action>, p: Pid, m: nat) {
    m < |actions| && (actions[m] == Move(p, Error)
                      || (actions[m] == Move(p, Ok) && StandsIn(At(s, actions, m), p, Fetching)))
  }

  ghost predicate FailedBy(s: State, actions: seq<Action>, p: Pid) {
    exists m :: FailsAt(s, actions, p, m)
  }

  ghost predicate ResultExplained(s: State, actions: seq<Action>, p: Pid, r: Result) {
    match r
    case FromCache(e, now) =>
      ReadBy(s, actions, p, e, now) && ClockReadBy(s, actions, p, now) && now < e.fetchedAt + DAY
    case Own(e) => FetchedBy(s, actions, p, e)
    case Failed => FailedBy(s, actions, p)
  }

  ghost predicate PhaseExplained(s: State, actions: seq<Action>, p: Pid, ph: Phase) {
    match ph
    case Checking(now) => ClockReadBy(s, actions, p, now)
    case Rechecking(now) => ClockReadBy(s, actions, p, now)
    case Fetched(response) => Replied(s, actions, p, response)
    case Stamped(e) => FetchedBy(s, actions, p, e)
    case Leaving(r) => ResultExplained(s, actions, p, r)
    case Done(r) => ResultExplained(s, actions, p, r)
    case _ => true
  }

  /******* More actions explain no less *******/

  lemma {:induction false} AtEarlier(s: State, actions: seq<Action>, n: nat, m: nat)
    requires m <= n <= |actions|
    ensures At(s, actions[..n], m) == At(s, actions, m)
  {
    assert actions[..n][..m] == actions[..m];
  }

  lemma {:induction false} RepliedLater(s: State, actions: seq<Action>, n: nat, p: Pid, r: Response)
    requires n <= |actions| && Replied(s, actions[..n], p, r)
    ensures Replied(s, actions, p, r)
  {
    var m :| RepliedAt(s, actions[..n], p, r, m);
    AtEarlier(s, actions, n, m);
    assert RepliedAt(s, actions, p, r, m);
  }

  lemma {:induction false} FetchedLater(s: State, actions: seq<Action>, n: nat, p: Pid, e: Entry)
    requires n <= |actions| && FetchedBy(s, actions[..n], p, e)
    ensures FetchedBy(s, actions, p, e)
  {
    var m, k :| RepliedAt(s, actions[..n], p, e.response, m) && StampedAt(s, actions[..n], p, e, m, k);
    AtEarlier(s, actions, n, m);
    AtEarlier(s, actions, n, k);
    assert RepliedAt(s, actions, p, e.response, m) && StampedAt(s, actions, p, e, m, k);
  }

  lemma {:induction false} ReadLater(s: State, actions: seq<Action>, n: nat, p: Pid, e: Entry, now: Instant)
    requires n <= |actions| && ReadBy(s, actions[..n], p, e, now)
    ensures ReadBy(s, actions, p, e, now)
  {
    var m :| ReadAt(s, actions[..n], p, e, now, m);
    AtEarlier(s, actions, n, m);
    assert ReadAt(s, actions, p, e, now, m);
  }

  lemma {:induction false} ClockLater(s: State, actions: seq<Action>, n: nat, p: Pid, now: Instant)
    requires n <= |actions| && ClockReadBy(s, actions[..n], p, now)
    ensures ClockReadBy(s, actions, p, now)
  {
    var k :| ClockAt(s, actions[..n], p, now, k);
    AtEarlier(s, actions, n, k);
    assert ClockAt(s, actions, p, now, k);
  }

  lemma {:induction false} FailedLater(s: State, actions: seq<Action>, n: nat, p: Pid)
    requires n <= |actions| && FailedBy(s, actions[..n], p)
    ensures FailedBy(s, actions, p)
  {
    var m :| FailsAt(s, actions[..n], p, m);
    AtEarlier(s, actions, n, m);
    assert FailsAt(s, actions, p, m);
  }

  lemma {:induction false} ExplainedLater(s: State, actions: seq<Action>, n: nat, p: Pid, ph: Phase)
    requires n <= |actions| && PhaseExplained(s, actions[..n], p, ph)
    ensures PhaseExplained(s, actions, p, ph)
  {
    hide Replied, FetchedBy, ReadBy, ClockReadBy, FailedBy;
    match ph
    case Checking(now) => ClockLater(s, actions, n, p, now);
    case Rechecking(now) => ClockLater(s, actions, n, p, now);
    case Fetched(response) => RepliedLater(s, actions, n, p, response);
    case Stamped(e) => FetchedLater(s, actions, n, p, e);
    case Leaving(r) => ResultLater(s, actions, n, p, r);
    case Done(r) => ResultLater(s, actions, n, p, r);
    case _ =>
  }

  lemma {:induction false} ResultLater(s: State, actions: seq<Action>, n: nat, p: Pid, r: Result)
    requires n <= |actions| && ResultExplained(s, actions[..n], p, r)
    ensures ResultExplained(s, actions, p, r)
  {
    hide Replied, FetchedBy, ReadBy, ClockReadBy, FailedBy;
    match r
    case FromCache(e, now) =>
      ReadLater(s, actions, n, p, e, now);
      ClockLater(s, actions, n, p, now);
    case Own(e) => FetchedLater(s, actions, n, p, e);
    case Failed => FailedLater(s, actions, n, p);
  }

  /******* One action *******/

  // The request that moves can explain where it gets.
  lemma {:induction false} MoveExplained(s: State, actions: seq<Action>, p: Pid, e: Event)
    requires actions != [] && actions[|actions| - 1] == Move(p, e)
    requires var t := At(s, actions, |actions| - 1); Inv(t) && p in t.procs
    requires PhaseExplained(s, actions, p, At(s, actions, |actions| - 1).procs[p].phase)
    ensures PhaseExplained(s, actions, p, RunOf(s, actions).procs[p].phase)
  {
    var m := |actions| - 1;
    var t := At(s, actions, m);
    match t.procs[p].phase
    case Fetching =>
      if e.Reply? { assert RepliedAt(s, actions, p, e.response, m); } else { assert FailsAt(s, actions, p, m); }
    case Fetched(r) =>
      if e.Error? { assert FailsAt(s, actions, p, m); } else { StampExplained(s, actions, p, r); }
    case Checking(now) => CheckExplained(s, actions, p, now, e);
    case Rechecking(now) => CheckExplained(s, actions, p, now, e);
    case Arrived =>
      assert ClockAt(s, actions, p, t.clock, m);
      if e.Error? { assert FailsAt(s, actions, p, m); }
    case Locked => assert ClockAt(s, actions, p, t.clock, m);
    case _ =>
      if e.Error? { assert FailsAt(s, actions, p, m); }
  }

  lemma {:induction false} StampExplained(s: State, actions: seq<Action>, p: Pid, r: Response)
    requires actions != [] && StandsIn(At(s, actions, |actions| - 1), p, Fetched(r)) && Replied(s, actions, p, r)
    ensures FetchedBy(s, actions, p, Entry(r, At(s, actions, |actions| - 1).clock))
  {
    var k := |actions| - 1;
    var m :| RepliedAt(s, actions, p, r, m);
    assert m != k;
    assert StampedAt(s, actions, p, Entry(r, At(s, actions, k).clock), m, k);
  }

  lemma {:induction false} CheckExplained(s: State, actions: seq<Action>, p: Pid, now: Instant, e: Event)
    requires actions != [] && actions[|actions| - 1] == Move(p, e)
    requires var t := At(s, actions, |actions| - 1);
             Inv(t) && (StandsIn(t, p, Checking(now)) || StandsIn(t, p, Rechecking(now)))
    requires ClockReadBy(s, actions, p, now)
    ensures PhaseExplained(s, actions, p, RunOf(s, actions).procs[p].phase)
  {
    var m := |actions| - 1;
    var t := At(s, actions, m);
    if e.Error? {
      assert FailsAt(s, actions, p, m);
    } else if IsValid(t.row, now) {
      assert ReadAt(s, actions, p, Entry(t.row.value.response, t.row.value.fetchedAt), now, m);
    }
  }

  /******* Whole runs *******/

  // Main result: in every run each request's state is explained. What it got for its own fetch is the
  // vendor's reply to it, stamped after the reply; what it got from the cache was the last write when it
  // looked, and not expired at an instant that it had read itself; and it failed only when something had
  // gone wrong for it.
  lemma {:induction false} Explained(s: State, actions: seq<Action>, p: Pid)
    requires IsInitial(s) && p in RunOf(s, actions).procs
    ensures PhaseExplained(s, actions, p, RunOf(s, actions).procs[p].phase)
  {
    if actions != [] {
      var n := |actions| - 1;
      var t, a := At(s, actions, n), actions[n];
      Invariant(s, actions[..n]);
      hide PhaseExplained, Inv, Advance;
      if p in t.procs {
        Explained(s, actions[..n], p);
        ExplainedLater(s, actions, n, p, t.procs[p].phase);
        if a.Move? && a.pid == p {
          MoveExplained(s, actions, p, a.event);
        } else {
          OthersStand(t, a, p);
        }
      } else {
        JustArrived(s, actions, p);
      }
    }
  }

  lemma {:induction false} OthersStand(s: State, a: Action, p: Pid)
    requires p in s.procs && !(a.Move? && a.pid == p)
    ensures p in Apply(s, a).procs && Apply(s, a).procs[p] == s.procs[p]
  {
  }

  lemma {:induction false} JustArrived(s: State, actions: seq<Action>, p: Pid)
    requires actions != [] && p !in At(s, actions, |actions| - 1).procs && p in RunOf(s, actions).procs
    ensures PhaseExplained(s, actions, p, RunOf(s, actions).procs[p].phase)
  {
  }

  // Every write after the first state is the vendor's reply to its writer, and earlier writes stay.
  lemma {:induction false} WritesAreReplies(s: State, actions: seq<Action>, j: nat)
    requires IsInitial(s) && j < |RunOf(s, actions).log|
    ensures |s.log| <= |RunOf(s, actions).log|
    ensures var w := RunOf(s, actions).log[j];
            if j < |s.log| then w == s.log[j] else FetchedBy(s, actions, w.pid, w.entry)
  {
    if actions != [] {
      var n := |actions| - 1;
      var t, a := At(s, actions, n), actions[n];
      hide FetchedBy, IsInitial;
      if j < |t.log| {
        WritesAreReplies(s, actions[..n], j);
        assert RunOf(s, actions).log[j] == t.log[j];
        if |s.log| <= j { FetchedLater(s, actions, n, t.log[j].pid, t.log[j].entry); }
      } else {
        LogLength(s, actions[..n]);
        Explained(s, actions[..n], a.pid);
        FetchedLater(s, actions, n, a.pid, t.procs[a.pid].phase.entry);
      }
    }
  }

  lemma {:induction false} LogLength(s: State, actions: seq<Action>)
    ensures |s.log| <= |RunOf(s, actions).log|
  {
    if actions != [] { LogLength(s, actions[..|actions| - 1]); }
  }

  // The request's fetch is on its way to the answer, or is the answer.
  predicate Answering(ph: Phase, response: Response) {
    match ph
    case Fetched(r) => r == response
    case Stamped(e) => e.response == response
    case Leaving(Own(e)) => e.response == response
    case Done(Own(e)) => e.response == response
    case _ => false
  }

  lemma {:induction false} AnsweringStays(s: State, a: Action, p: Pid, response: Response)
    requires p in s.procs && a != Move(p, Error)
    requires Answering(s.procs[p].phase, response) || (s.procs[p].phase == Fetching && a == Move(p, Reply(response)))
    ensures p in Apply(s, a).procs && Answering(Apply(s, a).procs[p].phase, response)
  {
  }

  // Main result: a request whose call got a reply answers with that reply, if nothing fails after it.
  lemma {:induction false} ReplyIsAnswer(s: State, actions: seq<Action>, p: Pid, response: Response, m: nat)
    requires RepliedAt(s, actions, p, response, m)
    requires forall k :: m < k < |actions| ==> actions[k] != Move(p, Error)
    ensures p in RunOf(s, actions).procs && Answering(RunOf(s, actions).procs[p].phase, response)
  {
    hide Answering, Apply;
    var n := |actions| - 1;
    if m < n {
      AtEarlier(s, actions, n, m);
      assert forall k :: m < k < n ==> actions[..n][k] == actions[k];
      ReplyIsAnswer(s, actions[..n], p, response, m);
    }
    assert RunOf(s, actions) == Apply(At(s, actions, n), actions[n]);
    AnsweringStays(At(s, actions, n), actions[n], p, response);
  }

  predicate AnsweredWith(s: State, p: Pid, r: Result) {
    StandsIn(s, p, Leaving(r)) || StandsIn(s, p, Done(r))
  }

  lemma {:induction false} AnsweredStays(s: State, a: Action, p: Pid, r: Result)
    requires AnsweredWith(s, p, r)
    ensures AnsweredWith(Apply(s, a), p, r)
  {
  }

  lemma {:induction false} HitAnswers(s: State, p: Pid, now: Instant, e: Event)
    requires !e.Error? && (StandsIn(s, p, Checking(now)) || StandsIn(s, p, Rechecking(now)))
    requires s.row.Some? && now < s.row.value.expiresAt
    ensures var row, t := s.row.value, Apply(s, Move(p, e));
            && AnsweredWith(t, p, FromCache(Entry(row.response, row.fetchedAt), now))
            && t.row == Some(row.(lastServedAt := Some(now), servedCount := row.servedCount + 1))
  {
  }

  // Main result: a request that looks and finds the row unexpired is answered with it, calls nobody, and
  // is counted in the row.
  lemma {:induction false} HitIsAnswer(s: State, actions: seq<Action>, p: Pid, now: Instant, m: nat)
    requires m < |actions| && actions[m].Move? && actions[m].pid == p && !actions[m].event.Error?
    requires StandsIn(At(s, actions, m), p, Checking(now)) || StandsIn(At(s, actions, m), p, Rechecking(now))
    requires At(s, actions, m).row.Some? && now < At(s, actions, m).row.value.expiresAt
    ensures var row := At(s, actions, m).row.value;
            && AnsweredWith(RunOf(s, actions), p, FromCache(Entry(row.response, row.fetchedAt), now))
            && At(s, actions, m + 1).row
               == Some(row.(lastServedAt := Some(now), servedCount := row.servedCount + 1))
  {
    hide AnsweredWith, Apply, StandsIn;
    var n := |actions| - 1;
    assert RunOf(s, actions) == Apply(At(s, actions, n), actions[n]);
    if m < n {
      AtEarlier(s, actions, n, m);
      AtEarlier(s, actions, n, m + 1);
      HitIsAnswer(s, actions[..n], p, now, m);
      var row := At(s, actions, m).row.value;
      AnsweredStays(At(s, actions, n), actions[n], p, FromCache(Entry(row.response, row.fetchedAt), now));
    } else {
      assert actions[..m + 1] == actions;
      HitAnswers(At(s, actions, n), p, now, actions[n].event);
    }
  }

  lemma {:induction false} ForceStep(s: State, a: Action, p: Pid)
    requires p in Apply(s, a).procs
    ensures if p in s.procs then Apply(s, a).procs[p].force == s.procs[p].force
            else a == Arrive(p, Apply(s, a).procs[p].force)
  {
  }

  // A request is forced exactly when it arrived so.
  lemma {:induction false} ForceIsAsked(s: State, actions: seq<Action>, p: Pid) returns (m: nat)
    requires IsInitial(s) && p in RunOf(s, actions).procs
    ensures m < |actions| && p !in At(s, actions, m).procs
    ensures actions[m] == Arrive(p, RunOf(s, actions).procs[p].force)
  {
    var n := |actions| - 1;
    var t := At(s, actions, n);
    ForceStep(t, actions[n], p);
    hide Apply;
    if p in t.procs {
      m := ForceIsAsked(s, actions[..n], p);
      AtEarlier(s, actions, n, m);
    } else {
      m := n;
    }
  }

  /******* Looked up twice *******/

  // At action m request p looks, at the instant now that it took before, and finds no unexpired row.
  predicate MissedAt(s: State, actions: seq<Action>, p: Pid, now: Instant, locked: bool, m: nat) {
    && m < |actions| && actions[m].Move? && actions[m].pid == p
    && StandsIn(At(s, actions, m), p, if locked then Rechecking(now) else Checking(now))
    && var row := At(s, actions, m).row; row.Some? ==> row.value.expiresAt <= now
  }

  ghost predicate Missed(s: State, actions: seq<Action>, p: Pid, locked: bool) {
    exists m, now :: MissedAt(s, actions, p, now, locked, m)
  }

  predicate AfterCheck(ph: Phase) {
    ph.Waiting? || ph.Locked? || ph.Rechecking? || AfterRecheck(ph)
  }

  predicate AfterRecheck(ph: Phase) {
    ph.Fetching? || ph.Fetched? || ph.Stamped?
  }

  ghost predicate LookedUp(s: State, actions: seq<Action>, p: Pid, q: Proc) {
    !q.force ==>
      (AfterCheck(q.phase) ==> Missed(s, actions, p, false)) && (AfterRecheck(q.phase) ==> Missed(s, actions, p, true))
  }

  lemma {:induction false} MissedLater(s: State, actions: seq<Action>, n: nat, p: Pid, locked: bool)
    requires n <= |actions| && Missed(s, actions[..n], p, locked)
    ensures Missed(s, actions, p, locked)
  {
    var m, now :| MissedAt(s, actions[..n], p, now, locked, m);
    AtEarlier(s, actions, n, m);
    assert MissedAt(s, actions, p, now, locked, m);
  }

  lemma {:induction false} MoveLooks(s: State, actions: seq<Action>, p: Pid, e: Event)
    requires actions != [] && actions[|actions| - 1] == Move(p, e) && p in At(s, actions, |actions| - 1).procs
    requires LookedUp(s, actions, p, At(s, actions, |actions| - 1).procs[p])
    ensures LookedUp(s, actions, p, RunOf(s, actions).procs[p])
  {
    var m := |actions| - 1;
    var t := At(s, actions, m);
    match t.procs[p].phase
    case Checking(now) => if !e.Error? && !IsValid(t.row, now) { assert MissedAt(s, actions, p, now, false, m); }
    case Rechecking(now) => if !e.Error? && !IsValid(t.row, now) { assert MissedAt(s, actions, p, now, true, m); }
    case _ =>
  }

  // Main result: a request that is not forced waits for the lock only after a look at the row in vain, and
  // calls the vendor only after a second one under the lock.
  lemma {:induction false} LooksTwice(s: State, actions: seq<Action>, p: Pid)
    requires IsInitial(s) && p in RunOf(s, actions).procs
    ensures LookedUp(s, actions, p, RunOf(s, actions).procs[p])
  {
    if actions != [] {
      var n := |actions| - 1;
      var t, a := At(s, actions, n), actions[n];
      hide Missed, Advance;
      if p in t.procs {
        LooksTwice(s, actions[..n], p);
        if Missed(s, actions[..n], p, false) { MissedLater(s, actions, n, p, false); }
        if Missed(s, actions[..n], p, true) { MissedLater(s, actions, n, p, true); }
        if a.Move? && a.pid == p { MoveLooks(s, actions, p, a.event); } else { OthersStand(t, a, p); }
      }
    }
  }
}
