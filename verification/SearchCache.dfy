/** The company-search cache of one cache key (company_search_cache.go, companies.go): check, lock,
    check again, fetch, store, as the steps of any number of concurrent requests. */
module SearchCache {
  import opened Wrappers

  type Instant = int
  type Response = string
  type Pid = nat

  const TTL: Instant := 86_400_000_000_000  // 24 hours in nanoseconds

  /******* The cache row *******/

  datatype Row = Row(response: Response, fetchedAt: Instant, expiresAt: Instant, lastServedAt: Option<Instant>,
    servedCount: nat)
  datatype Entry = Entry(response: Response, fetchedAt: Instant)

  predicate IsValid(row: Option<Row>, now: Instant) {
    row.Some? && now < row.value.expiresAt
  }

  function Served(row: Row, now: Instant): Row {
    row.(lastServedAt := Some(now), servedCount := row.servedCount + 1)
  }

  function Stored(response: Response, fetchedAt: Instant): Row {
    Row(response, fetchedAt, fetchedAt + TTL, None, 0)
  }

  class Store {
    var row: Option<Row>

    constructor ()
      ensures row == None
    {
      row := None;
    }

    // GetValidCompanySearch: one UPDATE ... RETURNING
    method GetValid(now: Instant) returns (entry: Option<Entry>)
      modifies this
      ensures entry.Some? <==> IsValid(old(row), now)
      ensures entry.Some? ==>
                && entry.value == Entry(old(row).value.response, old(row).value.fetchedAt)
                && row == Some(old(row).value.(lastServedAt := Some(now),
                                               servedCount := old(row).value.servedCount + 1))
      ensures entry.None? ==> row == old(row)
    {
      if row.None? || row.value.expiresAt <= now { return None; }
      entry := Some(Entry(row.value.response, row.value.fetchedAt));
      row := Some(row.value.(lastServedAt := Some(now), servedCount := row.value.servedCount + 1));
    }

    // UpsertCompanySearch
    method Upsert(response: Response, fetchedAt: Instant)
      modifies this
      ensures row == Some(Row(response, fetchedAt, fetchedAt + TTL, None, 0))
    {
      row := Some(Row(response, fetchedAt, fetchedAt + TTL, None, 0));
    }
  }

  /******* Requests *******/

  datatype Result =
    | FromCache(entry: Entry, checkedAt: Instant)
    | Own(entry: Entry)
    | Failed

  // Where a request stands. The clock is read before the statement or the write that uses it.
  datatype Phase =
    | Arrived
    | Checking(now: Instant)
    | Waiting
    | Locked
    | Rechecking(now: Instant)
    | Fetching
    | Fetched(response: Response)
    | Stamped(entry: Entry)
    | Leaving(result: Result)
    | Done(result: Result)

  datatype Proc = Proc(force: bool, phase: Phase)

  datatype Write = Write(pid: Pid, force: bool, entry: Entry)

  // log is history: every write of the row, in order; the system does not read it.
  datatype State = State(clock: Instant, row: Option<Row>, lock: Option<Pid>, procs: map<Pid, Proc>, log: seq<Write>)

  datatype Event = Ok | Error | Reply(response: Response)

  datatype Action = Tick(d: nat) | Arrive(pid: Pid, force: bool) | Move(pid: Pid, event: Event)

  function Put(s: State, p: Pid, phase: Phase): State
    requires p in s.procs
  {
    s.(procs := s.procs[p := s.procs[p].(phase := phase)])
  }

  // The request reads the row it may be served from: at the first check and under the lock.
  function CheckRow(s: State, p: Pid, now: Instant, hit: Result -> Phase, miss: Phase): State
    requires p in s.procs
  {
    if IsValid(s.row, now) then
      Put(s, p, hit(FromCache(Entry(s.row.value.response, s.row.value.fetchedAt),
        now))).(row := Some(Served(s.row.value, now)))
    else Put(s, p, miss)
  }

  // What request p does next. Error is any database or upstream failure at that point; before the
  // lock (Arrived when forced, Waiting) it also stands for a vendor client that is not configured.
  function Advance(s: State, p: Pid, e: Event): State
    requires p in s.procs
  {
    var force := s.procs[p].force;
    match s.procs[p].phase
    case Arrived =>
      if e.Error? && force then Put(s, p, Done(Failed))
      else if force then Put(s, p, Waiting)
      else Put(s, p, Checking(s.clock))
    case Checking(now) =>
      if e.Error? then Put(s, p, Done(Failed)) else CheckRow(s, p, now, r => Done(r), Waiting)
    case Waiting =>
      if e.Error? then Put(s, p, Done(Failed))
      else if s.lock == None then Put(s, p, Locked).(lock := Some(p))
      else s
    case Locked =>
      if force then Put(s, p, Fetching) else Put(s, p, Rechecking(s.clock))
    case Rechecking(now) =>
      if e.Error? then Put(s, p, Leaving(Failed)) else CheckRow(s, p, now, r => Leaving(r), Fetching)
    case Fetching =>
      if e.Reply? then Put(s, p, Fetched(e.response)) else Put(s, p, Leaving(Failed))
    case Fetched(response) =>
      if e.Error? then Put(s, p, Leaving(Failed)) else Put(s, p, Stamped(Entry(response, s.clock)))
    case Stamped(entry) =>
      if e.Error? then Put(s, p, Leaving(Failed))
      else Put(s, p, Leaving(Own(entry))).(
        row := Some(Stored(entry.response, entry.fetchedAt)),
        log := s.log + [Write(p, force, entry)])
    case Leaving(result) => Put(s, p, Done(result)).(lock := None)
    case Done(_) => s
  }

  function Apply(s: State, a: Action): State {
    match a
    case Tick(d) => s.(clock := s.clock + d)
    case Arrive(p, force) => if p in s.procs then s else s.(procs := s.procs[p := Proc(force, Arrived)])
    case Move(p, e) => if p in s.procs then Advance(s, p, e) else s
  }

  function RunOf(s: State, actions: seq<Action>): State {
    if actions == [] then s else Apply(RunOf(s, actions[..|actions| - 1]), actions[|actions| - 1])
  }

  // No requests yet; the row, if any, is an earlier day's write.
  predicate IsInitial(s: State) {
    && s.lock == None && s.procs == map[]
    && match s.row
       case None => s.log == []
       case Some(r) => r.fetchedAt <= s.clock && r.expiresAt == r.fetchedAt + TTL
                       && |s.log| == 1 && s.log[0].entry == Entry(r.response, r.fetchedAt)
  }
}
