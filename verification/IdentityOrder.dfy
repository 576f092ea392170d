/** What the order of a batch can and cannot change. */
module IdentityOrder {
  import opened Wrappers
  import opened Text
  import opened IdentityNormalize
  import opened IdentityPlan
  import opened IdentityClaims
  import opened IdentityComponents

  /******* Two clean orders agree *******/

  // Both runs read the same registry; their mints may differ.
  predicate SameReads(c: Context, d: Context) {
    c.existing == d.existing && c.known == d.known
  }

  // Every row of ss is some row of tt: f says which.
  predicate Places(ss: seq<Sighting>, tt: seq<Sighting>, f: seq<nat>) {
    |f| == |ss| && forall i :: 0 <= i < |ss| ==> f[i] < |tt| && tt[f[i]] == ss[i]
  }

  lemma ConnectionMoves(c: Context, d: Context, ss: seq<Sighting>, tt: seq<Sighting>, f: seq<nat>, i: nat, j: nat)
    requires SameReads(c, d) && Places(ss, tt, f) && i < |ss| && j < |ss| && Connected(c, ss, i, j)
    ensures Connected(d, tt, f[i], f[j])
  {
    var p :| Joins(c, ss, p, i, j);
    var q := seq(|p|, x requires 0 <= x < |p| => f[p[x]]);
    forall x | 0 < x < |q| ensures Linked(d, tt[q[x - 1]], tt[q[x]]) {
      var t :| Tagged(c, ss[p[x - 1]], t) && Tagged(c, ss[p[x]], t);
      TaggedMoves(c, d, ss[p[x - 1]], t);
      TaggedMoves(c, d, ss[p[x]], t);
    }
    assert Joins(d, tt, q, f[i], f[j]);
  }

  lemma TaggedMoves(c: Context, d: Context, s: Sighting, t: Tag)
    requires SameReads(c, d)
    ensures Tagged(c, s, t) <==> Tagged(d, s, t)
  {
  }

  lemma AnchorMoves(c: Context, d: Context, ss: seq<Sighting>, tt: seq<Sighting>, f: seq<nat>, i: nat, k: Key)
    requires SameReads(c, d) && Places(ss, tt, f) && i < |ss| && AnchoredBy(c, ss, i, k)
    ensures AnchoredBy(d, tt, f[i], k)
  {
    var a: nat :| a < |ss| && Connected(c, ss, i, a) && Tagged(c, ss[a], ByCompany(k));
    ConnectionMoves(c, d, ss, tt, f, i, a);
    TaggedMoves(c, d, ss[a], ByCompany(k));
  }

  // A row that got a key is connected to every copy of itself.
  lemma CopiesConnected(c: Context, ss: seq<Sighting>, i: nat, j: nat)
    requires i < |ss| && j < |ss| && ss[i] == ss[j] && Valid(c) && AllAccepted(c, ss)
    ensures Connected(c, ss, i, j)
  {
    var s := ss[i];
    ClaimsGrow(c, ss, i);
    StepOutcome(c, ss, i);
    if s.ids != [] {
      assert MentionsRef(s.ids, s.ids[0].ref);
      ConnectedLink(c, ss, i, j, ById(s.ids[0].ref));
    } else {
      ConnectedLink(c, ss, i, j, ByCompany(s.Seed(c)));
    }
  }

  lemma ConnectionReflects(c: Context, d: Context, ss: seq<Sighting>, tt: seq<Sighting>, f: seq<nat>, g: seq<nat>,
      i: nat, j: nat)
    requires SameReads(c, d) && Places(ss, tt, f) && Places(tt, ss, g) && i < |ss| && j < |ss|
    requires Valid(c) && AllAccepted(c, ss) && Connected(d, tt, f[i], f[j])
    ensures Connected(c, ss, i, j)
  {
    ConnectionMoves(d, c, tt, ss, g, f[i], f[j]);
    CopiesConnected(c, ss, i, g[f[i]]);
    CopiesConnected(c, ss, g[f[j]], j);
    ConnectedTrans(c, ss, i, g[f[i]], g[f[j]]);
    ConnectedTrans(c, ss, i, g[f[j]], j);
  }

  lemma {:induction false} InjectionCard(a: set<Key>, b: set<Key>, m: map<Key, Key>)
    requires forall k :: k in a ==> k in m && m[k] in b
    requires forall k, l :: k in a && l in a && m[k] == m[l] ==> k == l
    ensures |a| <= |b|
  {
    if a != {} {
      var k :| k in a;
      InjectionCard(a - {k}, b - {m[k]}, m);
    }
  }

  function NewKeys(plan: Plan): set<Key> {
    set d | d in plan.newEntities :: d.key
  }

  lemma {:induction false} DistinctCard(drafts: seq<EntityDraft>)
    requires forall i, j :: 0 <= i < j < |drafts| ==> drafts[i].key != drafts[j].key
    ensures |set d | d in drafts :: d.key| == |drafts|
  {
    if drafts != [] {
      var n := |drafts| - 1;
      DistinctCard(drafts[..n]);
      assert (set d | d in drafts :: d.key) == (set d | d in drafts[..n] :: d.key) + {drafts[n].key};
    }
  }

  lemma NewKeysCount(c: Context, ss: seq<Sighting>)
    requires Valid(c)
    ensures |NewKeys(PlanFor(c, ss))| == |PlanFor(c, ss).newEntities|
  {
    EntitiesAreCoined(c, ss, |ss|);
    DistinctCard(PlanFor(c, ss).newEntities);
  }

  // The row that coined a new key.
  lemma CoinerOf(c: Context, ss: seq<Sighting>, k: Key) returns (i: nat)
    requires Valid(c) && PlanFor(c, ss).Clean() && k in NewKeys(PlanFor(c, ss))
    ensures i < |ss| && PlanFor(c, ss).keys[i] == k && !Anchored(c, ss, i)
  {
    CleanKeys(c, ss);
    EntitiesAreCoined(c, ss, |ss|);
    var d :| d in PlanFor(c, ss).newEntities && d.key == k;
    var m :| 0 <= m < |PlanFor(c, ss).newEntities| && PlanFor(c, ss).newEntities[m] == d;
    i := CoinerNumber(c, ss, |ss|, m);
    forall a ensures !AnchoredBy(c, ss, i, a) { CoinerUnanchored(c, ss, i, a); }
  }

  lemma {:induction false} CoinerNumber(c: Context, ss: seq<Sighting>, n: nat, m: nat) returns (i: nat)
    requires n <= |ss| && Valid(c) && m < After(c, ss, n).minted
    ensures i < n && MintsAt(c, ss, i) && KeyAt(c, ss, i) == c.mint(m)
  {
    assert n > 0;
    hide Step;
    Minting(c, ss, n - 1);
    if m < After(c, ss, n - 1).minted {
      i := CoinerNumber(c, ss, n - 1, m);
    } else {
      i := n - 1;
    }
  }

  ghost function RenamedKey(p: Plan, q: Plan, f: seq<nat>, k: Key): Key
    requires |f| == |p.keys| && forall i :: 0 <= i < |f| ==> f[i] < |q.keys|
  {
    if exists i :: 0 <= i < |f| && p.keys[i] == k then
      var i :| 0 <= i < |f| && p.keys[i] == k; q.keys[f[i]]
    else ""
  }

  // A row that carries key k in plan p, and the key its copy carries in plan q.
  lemma Renamed(p: Plan, q: Plan, f: seq<nat>, i: nat, k: Key) returns (j: nat)
    requires |f| == |p.keys| && i < |f| && p.keys[i] == k && forall x :: 0 <= x < |f| ==> f[x] < |q.keys|
    ensures j < |f| && p.keys[j] == k && RenamedKey(p, q, f, k) == q.keys[f[j]]
  {
    j :| 0 <= j < |f| && p.keys[j] == k && RenamedKey(p, q, f, k) == q.keys[f[j]];
  }

  lemma RenamedIsNew(c: Context, d: Context, ss: seq<Sighting>, tt: seq<Sighting>, f: seq<nat>, g: seq<nat>, k: Key)
    requires SameReads(c, d) && Places(ss, tt, f) && Places(tt, ss, g)
    requires Valid(c) && Valid(d) && PlanFor(c, ss).Clean() && PlanFor(d, tt).Clean()
    requires k in NewKeys(PlanFor(c, ss))
    ensures RenamedKey(PlanFor(c, ss), PlanFor(d, tt), f, k) in NewKeys(PlanFor(d, tt))
  {
    var i := CoinerOf(c, ss, k);
    var j := Renamed(PlanFor(c, ss), PlanFor(d, tt), f, i, k);
    NewStaysNew(c, d, ss, tt, f, g, i, j);
  }

  lemma RenamedApart(c: Context, d: Context, ss: seq<Sighting>, tt: seq<Sighting>, f: seq<nat>, g: seq<nat>, k: Key,
      l: Key)
    requires SameReads(c, d) && Places(ss, tt, f) && Places(tt, ss, g)
    requires Valid(c) && Valid(d) && PlanFor(c, ss).Clean() && PlanFor(d, tt).Clean()
    requires k in NewKeys(PlanFor(c, ss)) && l in NewKeys(PlanFor(c, ss))
    requires RenamedKey(PlanFor(c, ss), PlanFor(d, tt), f, k) == RenamedKey(PlanFor(c, ss), PlanFor(d, tt), f, l)
    ensures k == l
  {
    var i := CoinerOf(c, ss, k);
    var j := CoinerOf(c, ss, l);
    var x := Renamed(PlanFor(c, ss), PlanFor(d, tt), f, i, k);
    var y := Renamed(PlanFor(c, ss), PlanFor(d, tt), f, j, l);
    CleanKeys(c, ss);
    CleanKeys(d, tt);
    SameKeyIffConnected(d, tt, f[x], f[y]);
    ConnectionReflects(c, d, ss, tt, f, g, x, y);
    SameKeyIffConnected(c, ss, x, y);
  }

  lemma NoMoreEntities(c: Context, d: Context, ss: seq<Sighting>, tt: seq<Sighting>, f: seq<nat>, g: seq<nat>)
    requires SameReads(c, d) && Places(ss, tt, f) && Places(tt, ss, g)
    requires Valid(c) && Valid(d) && PlanFor(c, ss).Clean() && PlanFor(d, tt).Clean()
    ensures |PlanFor(c, ss).newEntities| <= |PlanFor(d, tt).newEntities|
  {
    var p, q := PlanFor(c, ss), PlanFor(d, tt);
    var m := map k | k in NewKeys(p) :: RenamedKey(p, q, f, k);
    forall k | k in NewKeys(p) ensures m[k] in NewKeys(q) {
      RenamedIsNew(c, d, ss, tt, f, g, k);
    }
    forall k, l | k in NewKeys(p) && l in NewKeys(p) && m[k] == m[l] ensures k == l {
      RenamedApart(c, d, ss, tt, f, g, k, l);
    }
    NewKeysCount(c, ss);
    NewKeysCount(d, tt);
    InjectionCard(NewKeys(p), NewKeys(q), m);
  }

  lemma NewStaysNew(c: Context, d: Context, ss: seq<Sighting>, tt: seq<Sighting>, f: seq<nat>, g: seq<nat>, i: nat,
      j: nat)
    requires SameReads(c, d) && Places(ss, tt, f) && Places(tt, ss, g) && i < |ss| && j < |ss|
    requires Valid(c) && Valid(d) && PlanFor(c, ss).Clean() && PlanFor(d, tt).Clean()
    requires PlanFor(c, ss).keys[i] == PlanFor(c, ss).keys[j] && !Anchored(c, ss, i)
    ensures PlanFor(d, tt).keys[f[j]] in NewKeys(PlanFor(d, tt))
  {
    PlanPartition(c, ss);
    PlanPartition(d, tt);
    CleanKeys(c, ss);
    forall k ensures !AnchoredBy(d, tt, f[j], k) {
      if AnchoredBy(d, tt, f[j], k) {
        AnchorMoves(d, c, tt, ss, g, f[j], k);
        CopiesConnected(c, ss, j, g[f[j]]);
        AnchorAlong(c, ss, j, g[f[j]], k);
        AnchorAlong(c, ss, i, j, k);
      }
    }
  }

  lemma AnchorAlong(c: Context, ss: seq<Sighting>, i: nat, j: nat, k: Key)
    requires i < |ss| && j < |ss| && Connected(c, ss, i, j) && AnchoredBy(c, ss, j, k)
    ensures AnchoredBy(c, ss, i, k) && Anchored(c, ss, i)
  {
    var a: nat :| a < |ss| && Connected(c, ss, j, a) && Tagged(c, ss[a], ByCompany(k));
    ConnectedTrans(c, ss, i, j, a);
    assert AnchoredBy(c, ss, i, k);
  }

  // Main result: two clean batches with the same rows, in any order and however often repeated,
  // give the same grouping, the same key to every anchored row, and as many new companies.
  lemma CleanOrdersAgree(c: Context, d: Context, ss: seq<Sighting>, tt: seq<Sighting>, f: seq<nat>, g: seq<nat>)
    requires SameReads(c, d) && Places(ss, tt, f) && Places(tt, ss, g)
    requires Valid(c) && Valid(d) && PlanFor(c, ss).Clean() && PlanFor(d, tt).Clean()
    ensures var p, q := PlanFor(c, ss), PlanFor(d, tt);
            && (forall i: nat, j: nat ::
               i < |ss| && j < |ss| ==> (p.keys[i] == p.keys[j] <==> q.keys[f[i]] == q.keys[f[j]]))
            && (forall i: nat :: i < |ss| && Anchored(c, ss, i) ==> p.keys[i] == q.keys[f[i]])
            && |p.newEntities| == |q.newEntities|
  {
    var p, q := PlanFor(c, ss), PlanFor(d, tt);
    PlanPartition(c, ss);
    PlanPartition(d, tt);
    CleanKeys(c, ss);
    forall i: nat, j: nat | i < |ss| && j < |ss|
      ensures p.keys[i] == p.keys[j] <==> q.keys[f[i]] == q.keys[f[j]]
    {
      if Connected(c, ss, i, j) {
        ConnectionMoves(c, d, ss, tt, f, i, j);
      } else if Connected(d, tt, f[i], f[j]) {
        ConnectionReflects(c, d, ss, tt, f, g, i, j);
      }
    }
    forall i: nat | i < |ss| && Anchored(c, ss, i) ensures p.keys[i] == q.keys[f[i]] {
      var k :| AnchoredBy(c, ss, i, k);
      AnchorMoves(c, d, ss, tt, f, i, k);
    }
    NoMoreEntities(c, d, ss, tt, f, g);
    NoMoreEntities(d, c, tt, ss, g, f);
  }

  /******* Which orders are clean *******/

  // The first i rows of a run do not depend on the rest.
  lemma {:induction false} PrefixRun(c: Context, ss: seq<Sighting>, i: nat, n: nat)
    requires n <= i <= |ss|
    ensures After(c, ss[..i], n) == After(c, ss, n)
  {
    if n > 0 {
      PrefixRun(c, ss, i, n - 1);
    }
  }

  // A tag of row i that already stands for a company when the row is reached.
  ghost predicate Held(c: Context, ss: seq<Sighting>, i: nat, t: Tag)
    requires i < |ss|
  {
    Tagged(c, ss[i], t) && (t.ByCompany? || exists j :: 0 <= j < i && Tagged(c, ss[j], t))
  }

  // The earlier rows alone already join the two tags.
  ghost predicate Joined(c: Context, ss: seq<Sighting>, i: nat, t: Tag, u: Tag)
    requires i < |ss|
  {
    t == u || exists j: nat, k: nat ::
      j < i && k < i && Tagged(c, ss[j], t) && Tagged(c, ss[k], u) && Connected(c, ss[..i], j, k)
  }

  ghost predicate Bridges(c: Context, ss: seq<Sighting>, i: nat)
    requires i < |ss|
  {
    exists t, u :: Held(c, ss, i, t) && Held(c, ss, i, u) && !Joined(c, ss, i, t, u)
  }

  // The company a held tag stands for.
  lemma HeldKey(c: Context, ss: seq<Sighting>, i: nat, t: Tag) returns (key: Key)
    requires i < |ss| && Valid(c) && Held(c, ss, i, t)
    requires forall j :: 0 <= j < i ==> KeyAt(c, ss, j) != ""
    ensures match t
            case ById(r) => r in After(c, ss, i).claimed && After(c, ss, i).claimed[r] == key
            case ByCompany(k) => k == key
    ensures forall j: nat :: j < i && Tagged(c, ss[j], t) ==> KeyAt(c, ss, j) == key
  {
    match t
    case ByCompany(k) =>
      key := k;
      forall j: nat | j < i && Tagged(c, ss[j], t) ensures KeyAt(c, ss, j) == key { TagKey(c, ss, j, t); }
    case ById(r) =>
      var h: nat :| h < i && Tagged(c, ss[h], t);
      key := KeyAt(c, ss, h);
      forall j: nat | j < i && Tagged(c, ss[j], t)
        ensures KeyAt(c, ss, j) == key && r in After(c, ss, i).claimed && After(c, ss, i).claimed[r] == key
      {
        Accepted(c, ss, h, i);
        Accepted(c, ss, j, i);
      }
  }

  lemma PrefixKeys(c: Context, ss: seq<Sighting>, i: nat)
    requires i <= |ss| && forall j :: 0 <= j < i ==> KeyAt(c, ss, j) != ""
    ensures AllAccepted(c, ss[..i])
    ensures forall j :: 0 <= j < i ==> KeyAt(c, ss[..i], j) == KeyAt(c, ss, j)
  {
    forall j | 0 <= j < i ensures KeyAt(c, ss[..i], j) == KeyAt(c, ss, j) { PrefixRun(c, ss, i, j + 1); }
  }

  // Some earlier row carries the tag, unless it names a company no earlier row was given.
  lemma Carrier(c: Context, ss: seq<Sighting>, i: nat, t: Tag, h: nat) returns (j: nat)
    requires i < |ss| && Valid(c) && Held(c, ss, i, t) && h < i
    requires forall j :: 0 <= j < i ==> KeyAt(c, ss, j) != ""
    requires t.ByCompany? ==> KeyAt(c, ss, h) == t.key
    ensures j < i && Tagged(c, ss[j], t)
  {
    if t.ById? {
      j :| 0 <= j < i && Tagged(c, ss[j], t);
    } else {
      PrefixKeys(c, ss, i);
      var pre := ss[..i];
      j := Origin(c, pre, h);
      if MintsAt(c, pre, j) && !Tagged(c, pre[j], t) {
        Minting(c, pre, j);
        CompanyKnown(c, ss[i], t.key);
      }
    }
  }

  lemma CompanyKnown(c: Context, s: Sighting, k: Key)
    requires Tagged(c, s, ByCompany(k))
    ensures k in c.known || exists r :: r in c.existing && c.existing[r] == k
  {
  }

  lemma JoinedSameKey(c: Context, ss: seq<Sighting>, i: nat, t: Tag, u: Tag, k: Key, l: Key)
    requires i < |ss| && Valid(c) && t != u && Joined(c, ss, i, t, u)
    requires forall j :: 0 <= j < i ==> KeyAt(c, ss, j) != ""
    requires forall j: nat :: j < i && Tagged(c, ss[j], t) ==> KeyAt(c, ss, j) == k
    requires forall j: nat :: j < i && Tagged(c, ss[j], u) ==> KeyAt(c, ss, j) == l
    ensures k == l
  {
    PrefixKeys(c, ss, i);
    var j: nat, h: nat :| j < i && h < i && Tagged(c, ss[j], t) && Tagged(c, ss[h], u) && Connected(c, ss[..i], j, h);
    ConnectedKey(c, ss[..i], j, h);
  }

  lemma SameKeyJoined(c: Context, ss: seq<Sighting>, i: nat, t: Tag, u: Tag, k: Key)
    requires i < |ss| && Valid(c) && Held(c, ss, i, t) && Held(c, ss, i, u)
    requires forall j :: 0 <= j < i ==> KeyAt(c, ss, j) != ""
    requires forall j: nat :: j < i && (Tagged(c, ss[j], t) || Tagged(c, ss[j], u)) ==> KeyAt(c, ss, j) == k
    requires (t.ByCompany? ==> t.key == k) && (u.ByCompany? ==> u.key == k)
    ensures Joined(c, ss, i, t, u)
  {
    if t != u {
      var h: nat :| h < i && (Tagged(c, ss[h], t) || Tagged(c, ss[h], u));
      var x := Carrier(c, ss, i, t, h);
      var y := Carrier(c, ss, i, u, h);
      PrefixKeys(c, ss, i);
      SameKeyIffConnected(c, ss[..i], x, y);
    }
  }

  // The company of a held tag is either the expected one or an owner that detection meets.
  lemma HeldIsMet(c: Context, ss: seq<Sighting>, i: nat, t: Tag, k: Key)
    requires i < |ss| && Valid(c) && Held(c, ss, i, t) && (t.ByCompany? ==> t.key == k)
    requires t.ById? ==> t.ref in After(c, ss, i).claimed && After(c, ss, i).claimed[t.ref] == k
    ensures k == ss[i].Seed(c)
            || exists x ::
                 && 0 <= x < |ss[i].ids| && ss[i].ids[x].ref in After(c, ss, i).claimed
                 && After(c, ss, i).claimed[ss[i].ids[x].ref] == k
  {
    ClaimsGrow(c, ss, i);
  }

  lemma TagOfClaim(c: Context, ss: seq<Sighting>, i: nat, x: nat) returns (t: Tag)
    requires i < |ss| && Valid(c) && x < |ss[i].ids| && ss[i].ids[x].ref in After(c, ss, i).claimed
    requires forall j :: 0 <= j < i ==> KeyAt(c, ss, j) != ""
    ensures Held(c, ss, i, t)
    ensures t.ByCompany? ==> t.key == After(c, ss, i).claimed[ss[i].ids[x].ref]
    ensures t.ById? ==> t.ref == ss[i].ids[x].ref
  {
    var r := ss[i].ids[x].ref;
    ClaimsGrow(c, ss, i);
    if r in c.existing {
      t := ByCompany(c.existing[r]);
    } else {
      t := ById(r);
      var j := ClaimOrigin(c, ss, i, r);
      assert Tagged(c, ss[j], t);
      assert MentionsRef(ss[i].ids, r);
    }
  }

  // A held tag that stands for the key detection settled on.
  lemma TagOfDetected(c: Context, ss: seq<Sighting>, i: nat) returns (u: Tag)
    requires i < |ss| && Valid(c) && DetectedKey(ss[i].ids, After(c, ss, i).claimed, ss[i].Seed(c)) != ""
    requires forall j :: 0 <= j < i ==> KeyAt(c, ss, j) != ""
    ensures Held(c, ss, i, u)
    ensures var key := DetectedKey(ss[i].ids, After(c, ss, i).claimed, ss[i].Seed(c));
            match u
            case ByCompany(k) => k == key
            case ById(r) => r in After(c, ss, i).claimed && After(c, ss, i).claimed[r] == key
  {
    var st, s, seed := After(c, ss, i), ss[i], ss[i].Seed(c);
    var key := DetectedKey(s.ids, st.claimed, seed);
    if key == seed {
      u := ByCompany(seed);
    } else {
      ClaimsGrow(c, ss, i);
      Detection(s.ids, st.claimed, seed, s.o);
      var y :| 0 <= y < |s.ids| && s.ids[y].ref in st.claimed && st.claimed[s.ids[y].ref] == key;
      u := TagOfClaim(c, ss, i, y);
    }
  }

  lemma BridgeFound(c: Context, ss: seq<Sighting>, i: nat, x: nat)
    requires i < |ss| && Valid(c) && x < |ss[i].ids| && ss[i].ids[x].ref in After(c, ss, i).claimed
    requires forall j :: 0 <= j < i ==> KeyAt(c, ss, j) != ""
    requires DetectedKey(ss[i].ids, After(c, ss, i).claimed, ss[i].Seed(c)) != ""
    requires After(c, ss, i).claimed[ss[i].ids[x].ref] != DetectedKey(ss[i].ids, After(c, ss, i).claimed, ss[i].Seed(c))
    ensures Bridges(c, ss, i)
  {
    var t := TagOfClaim(c, ss, i, x);
    var k := HeldKey(c, ss, i, t);
    var u := TagOfDetected(c, ss, i);
    var l := HeldKey(c, ss, i, u);
    if Joined(c, ss, i, t, u) {
      JoinedSameKey(c, ss, i, t, u, k, l);
    }
  }

  lemma {:induction false} BridgeRejected(c: Context, ss: seq<Sighting>, i: nat)
    requires i < |ss| && Valid(c) && Bridges(c, ss, i)
    requires forall j :: 0 <= j < i ==> KeyAt(c, ss, j) != ""
    ensures KeyAt(c, ss, i) == ""
  {
    hide After, DetectedKey, DetectedConflicts;
    var t, u :| Held(c, ss, i, t) && Held(c, ss, i, u) && !Joined(c, ss, i, t, u);
    var k := HeldKey(c, ss, i, t);
    var l := HeldKey(c, ss, i, u);
    if k == l {
      SameKeyJoined(c, ss, i, t, u, k);
    }
    HeldIsMet(c, ss, i, t, k);
    HeldIsMet(c, ss, i, u, l);
    ClaimsGrow(c, ss, i);
    StepOutcome(c, ss, i);
    Detection(ss[i].ids, After(c, ss, i).claimed, ss[i].Seed(c), ss[i].o);
  }

  lemma RejectedBridges(c: Context, ss: seq<Sighting>, i: nat)
    requires i < |ss| && Valid(c) && !(ss[i].ids == [] && ss[i].Seed(c) == "") && KeyAt(c, ss, i) == ""
    requires forall j :: 0 <= j < i ==> KeyAt(c, ss, j) != ""
    ensures Bridges(c, ss, i)
  {
    var st, s, seed := After(c, ss, i), ss[i], ss[i].Seed(c);
    ClaimsGrow(c, ss, i);
    StepOutcome(c, ss, i);
    Detection(s.ids, st.claimed, seed, s.o);
    var x :| 0 <= x < |s.ids| && s.ids[x].ref in st.claimed
        && st.claimed[s.ids[x].ref] != DetectedKey(s.ids, st.claimed, seed);
    BridgeFound(c, ss, i, x);
  }

  // The row has ground for an identity and bridges nothing.
  ghost predicate Passes(c: Context, ss: seq<Sighting>, i: nat)
    requires i < |ss|
  {
    !(ss[i].ids == [] && ss[i].Seed(c) == "") && !Bridges(c, ss, i)
  }

  lemma AcceptedIffPasses(c: Context, ss: seq<Sighting>, i: nat)
    requires i < |ss| && Valid(c) && forall j :: 0 <= j < i ==> KeyAt(c, ss, j) != ""
    ensures KeyAt(c, ss, i) != "" <==> Passes(c, ss, i)
  {
    if ss[i].ids == [] && ss[i].Seed(c) == "" {
      ClaimsGrow(c, ss, i);
      StepOutcome(c, ss, i);
    } else if KeyAt(c, ss, i) == "" {
      RejectedBridges(c, ss, i);
    } else if Bridges(c, ss, i) {
      BridgeRejected(c, ss, i);
    }
  }

  lemma {:induction false} CleanUpTo(c: Context, ss: seq<Sighting>, n: nat)
    requires Valid(c) && n <= |ss|
    ensures (forall i :: 0 <= i < n ==> KeyAt(c, ss, i) != "") <==> (forall i :: 0 <= i < n ==> Passes(c, ss, i))
  {
    if n > 0 {
      CleanUpTo(c, ss, n - 1);
      if forall i :: 0 <= i < n - 1 ==> KeyAt(c, ss, i) != "" {
        AcceptedIffPasses(c, ss, n - 1);
      }
    }
  }

  // Main result: a batch is resolved exactly when every row has ground for an identity and none
  // bridges two companies that the rows before it had not joined. The order matters only there.
  lemma CleanIffNoBridge(c: Context, ss: seq<Sighting>)
    requires Valid(c)
    ensures PlanFor(c, ss).Clean() <==> forall i :: 0 <= i < |ss| ==> Passes(c, ss, i)
  {
    CleanUpTo(c, ss, |ss|);
    CleanAccepts(c, ss, |ss|);
  }

  // Rows that bring no prior key to an empty registry are tagged by their identifiers only.
  lemma TagsWithoutRegistry(c: Context, s: Sighting, t: Tag)
    requires c.existing == map[] && s.prior == "" && Tagged(c, s, t)
    ensures t.ById? && MentionsRef(s.ids, t.ref)
  {
  }

  lemma {:induction false} BothFirst(c: Context, a: Identifier, b: Identifier, x: Observation, y: Observation,
      z: Observation)
    requires Valid(c) && a.ref != b.ref && c.existing == map[]
    ensures PlanFor(c, [Sighting([a, b], "", x), Sighting([a], "", y), Sighting([b], "", z)]).Clean()
  {
    var ss := [Sighting([a, b], "", x), Sighting([a], "", y), Sighting([b], "", z)];
    forall i | 0 <= i < |ss| ensures Passes(c, ss, i) {
      forall t, u | Held(c, ss, i, t) && Held(c, ss, i, u) ensures Joined(c, ss, i, t, u) {
        TagsWithoutRegistry(c, ss[i], t);
        TagsWithoutRegistry(c, ss[i], u);
        assert i > 0;
      }
    }
    CleanIffNoBridge(c, ss);
  }

  lemma {:induction false} BothLast(c: Context, a: Identifier, b: Identifier, x: Observation, y: Observation,
      z: Observation)
    requires Valid(c) && a.ref != b.ref && c.existing == map[]
    ensures !PlanFor(c, [Sighting([a], "", y), Sighting([b], "", z), Sighting([a, b], "", x)]).Clean()
  {
    var ss := [Sighting([a], "", y), Sighting([b], "", z), Sighting([a, b], "", x)];
    var t, u := ById(a.ref), ById(b.ref);
    assert ss[0].ids[0] == ss[2].ids[0] == a && ss[1].ids[0] == ss[2].ids[1] == b;
    assert Tagged(c, ss[0], t) && Tagged(c, ss[2], t) && Tagged(c, ss[1], u) && Tagged(c, ss[2], u);
    assert Held(c, ss, 2, t) && Held(c, ss, 2, u);
    if Joined(c, ss, 2, t, u) {
      var j: nat, k: nat :| j < 2 && k < 2 && Tagged(c, ss[j], t) && Tagged(c, ss[k], u) && Connected(c, ss[..2], j, k);
      assert j == 0 && k == 1;
      var p :| Joins(c, ss[..2], p, 0, 1);
      NotLinked(c, ss[..2], p);
    }
    assert Bridges(c, ss, 2);
    CleanIffNoBridge(c, ss);
    assert !Passes(c, ss, 2);
  }

  // Rows that bring one identifier each, and different ones, to an empty registry are not connected.
  lemma {:induction false} NotLinked(c: Context, ss: seq<Sighting>, p: seq<nat>)
    requires c.existing == map[] && |ss| == 2 && ss[0].prior == "" && ss[1].prior == "" && |ss[0].ids| == 1
        && |ss[1].ids| == 1
    requires ss[0].ids[0].ref != ss[1].ids[0].ref && IsPath(c, ss, p)
    ensures p[0] == p[|p| - 1]
  {
    var m := |p| - 1;
    if m > 0 {
      assert IsPath(c, ss, p[..m]);
      NotLinked(c, ss, p[..m]);
      assert Linked(c, ss[p[m - 1]], ss[p[m]]) && p[m - 1] < 2 && p[m] < 2;
      var t :| Tagged(c, ss[p[m - 1]], t) && Tagged(c, ss[p[m]], t);
      TagsWithoutRegistry(c, ss[p[m - 1]], t);
      TagsWithoutRegistry(c, ss[p[m]], t);
    }
  }

  /******* A batch the planner receives *******/

  // An observation without a prior key, tax code, name or time
  function Seen(vat: string, vendor: string): Observation {
    Observation("", vendor, vat, "", "", None, "", "", "", "")
  }

  const SOME_VAT := "01234567890"
  const SOME_VENDOR := "V1"

  function FiscalID(): Identifier { Identifier(Ref(Fiscal, SOME_VAT), true, false) }

  function VendorID(): Identifier { Identifier(Ref(VendorOpenAPIIT, SOME_VENDOR), false, false) }

  lemma {:induction false} BlankForms()
    ensures StableVAT("") == "" && NormalizeFiscalValue("") == "" && NormalizeCompanyKey("") == ""
  {
    assert ToUpper("") == "" && TrimSpace("") == "";
  }

  lemma {:induction false} VendorForm()
    ensures NormalizeCompanyKey(SOME_VENDOR) == SOME_VENDOR
  {
    TrimSpaceOfTrimmed(SOME_VENDOR);
    hide TrimSpace;
    assert ToUpper(SOME_VENDOR) == SOME_VENDOR;
  }

  lemma {:induction false} SomeSightings()
    ensures Sight(Seen(SOME_VAT, SOME_VENDOR)) == Sighting([FiscalID(), VendorID()], "", Seen(SOME_VAT, SOME_VENDOR))
    ensures Sight(Seen(SOME_VAT, "")) == Sighting([FiscalID()], "", Seen(SOME_VAT, ""))
    ensures Sight(Seen("", SOME_VENDOR)) == Sighting([VendorID()], "", Seen("", SOME_VENDOR))
  {
    hide StableVAT, NormalizeCompanyKey, NormalizeFiscalValue;
    BlankForms();
    VendorForm();
    StableVATOfDigits(SOME_VAT);
  }

  // The same three observations on an empty registry, a VAT number with a vendor id, the VAT number
  // alone, the vendor id alone: resolved when the one with both comes first, a conflict when it comes last.
  lemma {:induction false} OrderDecides(c: Context)
    requires Valid(c) && c.existing == map[]
    ensures var both, vat, vendor := Seen(SOME_VAT, SOME_VENDOR), Seen(SOME_VAT, ""), Seen("", SOME_VENDOR);
            PlanFor(c, SightAll([both, vat, vendor])).Clean() && !PlanFor(c, SightAll([vat, vendor, both])).Clean()
  {
    var both, vat, vendor := Seen(SOME_VAT, SOME_VENDOR), Seen(SOME_VAT, ""), Seen("", SOME_VENDOR);
    SomeSightings();
    hide Sight, Seen, FiscalID, VendorID;
    assert SightAll([both, vat, vendor]) == [Sight(both), Sight(vat), Sight(vendor)];
    assert SightAll([vat, vendor, both]) == [Sight(vat), Sight(vendor), Sight(both)];
    DifferentIDs();
    BothFirst(c, FiscalID(), VendorID(), both, vat, vendor);
    BothLast(c, FiscalID(), VendorID(), both, vat, vendor);
  }

  lemma {:induction false} DifferentIDs()
    ensures FiscalID().ref != VendorID().ref
  {
  }
}
