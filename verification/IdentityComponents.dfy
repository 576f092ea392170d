/** The meaning of a clean plan: one company for each connected component of the batch. */
module IdentityComponents {
  import opened IdentityPlan
  import opened IdentityClaims

  // What two sightings can share: an identifier, or a company the registry already knows.
  datatype Tag = ById(ref: Ref) | ByCompany(key: Key)

  ghost predicate Tagged(ctx: Context, s: Sighting, t: Tag) {
    match t
    case ById(r) => MentionsRef(s.ids, r)
    case ByCompany(k) =>
      k != "" && (k == s.Seed(ctx) || exists i ::
        0 <= i < |s.ids| && s.ids[i].ref in ctx.existing && ctx.existing[s.ids[i].ref] == k)
  }

  ghost predicate Linked(ctx: Context, a: Sighting, b: Sighting) {
    exists t :: Tagged(ctx, a, t) && Tagged(ctx, b, t)
  }

  ghost predicate IsPath(ctx: Context, ss: seq<Sighting>, p: seq<nat>) {
    && p != []
    && (forall x :: 0 <= x < |p| ==> p[x] < |ss|)
    && (forall x :: 0 < x < |p| ==> Linked(ctx, ss[p[x - 1]], ss[p[x]]))
  }

  ghost predicate Joins(ctx: Context, ss: seq<Sighting>, p: seq<nat>, i: nat, j: nat) {
    IsPath(ctx, ss, p) && p[0] == i && p[|p| - 1] == j
  }

  // Connected components of the batch: the reflexive and transitive closure of Linked.
  ghost predicate Connected(ctx: Context, ss: seq<Sighting>, i: nat, j: nat) {
    exists p :: Joins(ctx, ss, p, i, j)
  }

  ghost predicate AnchoredBy(ctx: Context, ss: seq<Sighting>, i: nat, k: Key) {
    exists a :: 0 <= a < |ss| && Connected(ctx, ss, i, a) && Tagged(ctx, ss[a], ByCompany(k))
  }

  ghost predicate Anchored(ctx: Context, ss: seq<Sighting>, i: nat) {
    exists k :: AnchoredBy(ctx, ss, i, k)
  }

  // The least member of a component stands for it.
  ghost predicate Leads(ctx: Context, ss: seq<Sighting>, i: nat) {
    i < |ss| && forall j: nat :: j < i ==> !Connected(ctx, ss, i, j)
  }

  ghost function NewComponents(ctx: Context, ss: seq<Sighting>): set<nat> {
    set i: nat | i < |ss| && Leads(ctx, ss, i) && !Anchored(ctx, ss, i)
  }

  /******* Paths *******/

  lemma ConnectedSelf(ctx: Context, ss: seq<Sighting>, i: nat)
    requires i < |ss|
    ensures Connected(ctx, ss, i, i)
  {
    assert Joins(ctx, ss, [i], i, i);
  }

  lemma ConnectedLink(ctx: Context, ss: seq<Sighting>, i: nat, j: nat, t: Tag)
    requires i < |ss| && j < |ss| && Tagged(ctx, ss[i], t) && Tagged(ctx, ss[j], t)
    ensures Connected(ctx, ss, i, j)
  {
    assert Joins(ctx, ss, [i, j], i, j);
  }

  lemma ConnectedTrans(ctx: Context, ss: seq<Sighting>, i: nat, j: nat, k: nat)
    requires Connected(ctx, ss, i, j) && Connected(ctx, ss, j, k)
    ensures Connected(ctx, ss, i, k)
  {
    var p :| Joins(ctx, ss, p, i, j);
    var q :| Joins(ctx, ss, q, j, k);
    var r := p + q[1..];
    forall x | 0 < x < |r| ensures Linked(ctx, ss[r[x - 1]], ss[r[x]]) {
      if x >= |p| {
        var y := x - |p| + 1;
        assert r[x] == q[y] && r[x - 1] == q[y - 1];
      }
    }
    assert Joins(ctx, ss, r, i, k);
  }

  function Reverse(p: seq<nat>): (r: seq<nat>)
    ensures |r| == |p| && forall x :: 0 <= x < |p| ==> r[x] == p[|p| - 1 - x]
  {
    seq(|p|, x requires 0 <= x < |p| => p[|p| - 1 - x])
  }

  lemma ConnectedSym(ctx: Context, ss: seq<Sighting>, i: nat, j: nat)
    requires Connected(ctx, ss, i, j)
    ensures Connected(ctx, ss, j, i)
  {
    var p :| Joins(ctx, ss, p, i, j);
    var r := Reverse(p);
    forall x | 0 < x < |r| ensures Linked(ctx, ss[r[x - 1]], ss[r[x]]) {
      assert Linked(ctx, ss[p[|p| - 1 - x]], ss[p[|p| - x]]);
    }
    assert Joins(ctx, ss, r, j, i);
  }

  /******* Keys along paths *******/

  ghost predicate AllAccepted(ctx: Context, ss: seq<Sighting>) {
    forall i :: 0 <= i < |ss| ==> KeyAt(ctx, ss, i) != ""
  }

  lemma {:induction false} CleanAccepts(ctx: Context, ss: seq<Sighting>, n: nat)
    requires n <= |ss| && Valid(ctx)
    ensures After(ctx, ss, n).plan.Clean() <==> forall i :: 0 <= i < n ==> KeyAt(ctx, ss, i) != ""
  {
    hide Valid, KeyAt, Step;
    if n > 0 {
      CleanAccepts(ctx, ss, n - 1);
      CleanStep(ctx, ss, n - 1);
    }
  }

  lemma CleanStep(ctx: Context, ss: seq<Sighting>, i: nat)
    requires i < |ss| && Valid(ctx)
    ensures After(ctx, ss, i + 1).plan.Clean() <==> After(ctx, ss, i).plan.Clean() && KeyAt(ctx, ss, i) != ""
  {
    ClaimsGrow(ctx, ss, i);
    StepOutcome(ctx, ss, i);
  }

  lemma TagKey(ctx: Context, ss: seq<Sighting>, i: nat, t: Tag)
    requires i < |ss| && Valid(ctx) && KeyAt(ctx, ss, i) != "" && Tagged(ctx, ss[i], t)
    ensures match t
            case ById(r) => r in After(ctx, ss, |ss|).claimed && After(ctx, ss, |ss|).claimed[r] == KeyAt(ctx, ss, i)
            case ByCompany(k) => k == KeyAt(ctx, ss, i)
  {
    Accepted(ctx, ss, i, |ss|);
    if t.ByCompany? && t.key != ss[i].Seed(ctx) {
      var x :| 0 <= x < |ss[i].ids| && ss[i].ids[x].ref in ctx.existing && ctx.existing[ss[i].ids[x].ref] == t.key;
      assert MentionsRef(ss[i].ids, ss[i].ids[x].ref);
    }
  }

  lemma {:induction false} PathKey(ctx: Context, ss: seq<Sighting>, p: seq<nat>)
    requires Valid(ctx) && AllAccepted(ctx, ss) && IsPath(ctx, ss, p)
    ensures KeyAt(ctx, ss, p[|p| - 1]) == KeyAt(ctx, ss, p[0])
  {
    if |p| > 1 {
      var q := p[..|p| - 1];
      PathKey(ctx, ss, q);
      var i, j := p[|p| - 2], p[|p| - 1];
      var t :| Tagged(ctx, ss[i], t) && Tagged(ctx, ss[j], t);
      TagKey(ctx, ss, i, t);
      TagKey(ctx, ss, j, t);
    }
  }

  lemma ConnectedKey(ctx: Context, ss: seq<Sighting>, i: nat, j: nat)
    requires Valid(ctx) && AllAccepted(ctx, ss) && i < |ss| && j < |ss| && Connected(ctx, ss, i, j)
    ensures KeyAt(ctx, ss, i) == KeyAt(ctx, ss, j)
  {
    var p :| Joins(ctx, ss, p, i, j);
    PathKey(ctx, ss, p);
  }

  // Every key goes back to the sighting that coined it or to one that was anchored by it.
  lemma {:induction false} Origin(ctx: Context, ss: seq<Sighting>, i: nat) returns (a: nat)
    requires i < |ss| && Valid(ctx) && AllAccepted(ctx, ss)
    ensures a <= i && Connected(ctx, ss, i, a) && KeyAt(ctx, ss, a) == KeyAt(ctx, ss, i)
    ensures Tagged(ctx, ss[a], ByCompany(KeyAt(ctx, ss, i))) || MintsAt(ctx, ss, a)
  {
    var st, s, key := After(ctx, ss, i), ss[i], KeyAt(ctx, ss, i);
    ClaimsGrow(ctx, ss, i);
    StepOutcome(ctx, ss, i);
    Detection(s.ids, st.claimed, s.Seed(ctx), s.o);
    ConnectedSelf(ctx, ss, i);
    if MintsAt(ctx, ss, i) || key == s.Seed(ctx) {
      a := i;
    } else {
      var x :| 0 <= x < |s.ids| && s.ids[x].ref in st.claimed && st.claimed[s.ids[x].ref] == key;
      var r := s.ids[x].ref;
      if r in ctx.existing {
        a := i;
      } else {
        var j := ClaimOrigin(ctx, ss, i, r);
        assert Tagged(ctx, s, ById(r)) && Tagged(ctx, ss[j], ById(r));
        ConnectedLink(ctx, ss, i, j, ById(r));
        a := Origin(ctx, ss, j);
        ConnectedTrans(ctx, ss, i, j, a);
      }
    }
  }

  // A coined key belongs to no known company, and no two sightings coin the same one.
  lemma CoinedKey(ctx: Context, ss: seq<Sighting>, a: nat, b: nat)
    requires a < |ss| && b < |ss| && Valid(ctx) && AllAccepted(ctx, ss)
    requires MintsAt(ctx, ss, a) && KeyAt(ctx, ss, a) == KeyAt(ctx, ss, b)
    ensures !Tagged(ctx, ss[b], ByCompany(KeyAt(ctx, ss, b)))
    ensures MintsAt(ctx, ss, b) ==> a == b
  {
    Minting(ctx, ss, a);
    Minting(ctx, ss, b);
    if MintsAt(ctx, ss, b) && a != b {
      MintedMonotone(ctx, ss, if a < b then a + 1 else b + 1, if a < b then b else a);
    }
  }

  // Main result: same key exactly when connected.
  lemma SameKeyIffConnected(ctx: Context, ss: seq<Sighting>, i: nat, j: nat)
    requires i < |ss| && j < |ss| && Valid(ctx) && AllAccepted(ctx, ss)
    ensures KeyAt(ctx, ss, i) == KeyAt(ctx, ss, j) <==> Connected(ctx, ss, i, j)
  {
    if Connected(ctx, ss, i, j) {
      ConnectedKey(ctx, ss, i, j);
    } else if KeyAt(ctx, ss, i) == KeyAt(ctx, ss, j) {
      var a := Origin(ctx, ss, i);
      var b := Origin(ctx, ss, j);
      if MintsAt(ctx, ss, a) {
        CoinedKey(ctx, ss, a, b);
      } else {
        if MintsAt(ctx, ss, b) { CoinedKey(ctx, ss, b, a); }
        ConnectedLink(ctx, ss, a, b, ByCompany(KeyAt(ctx, ss, i)));
      }
      ConnectedSym(ctx, ss, j, b);
      if a == b { ConnectedSelf(ctx, ss, a); }
      ConnectedTrans(ctx, ss, i, a, b);
      ConnectedTrans(ctx, ss, i, b, j);
    }
  }

  // Anchored components get their anchor's key, the others a coined one.
  lemma AnchorKey(ctx: Context, ss: seq<Sighting>, i: nat, k: Key)
    requires i < |ss| && Valid(ctx) && AllAccepted(ctx, ss) && AnchoredBy(ctx, ss, i, k)
    ensures KeyAt(ctx, ss, i) == k
  {
    var a: nat :| a < |ss| && Connected(ctx, ss, i, a) && Tagged(ctx, ss[a], ByCompany(k));
    ConnectedKey(ctx, ss, i, a);
    TagKey(ctx, ss, a, ByCompany(k));
  }

  lemma CoinerLeads(ctx: Context, ss: seq<Sighting>, i: nat, j: nat)
    requires j < i < |ss| && Valid(ctx) && AllAccepted(ctx, ss) && MintsAt(ctx, ss, i)
    ensures !Connected(ctx, ss, i, j)
  {
    Minting(ctx, ss, i);
    MintedMonotone(ctx, ss, j + 1, i);
    KeyIsOld(ctx, ss, j, After(ctx, ss, i).minted);
    if Connected(ctx, ss, i, j) { ConnectedKey(ctx, ss, i, j); }
  }

  lemma CoinerUnanchored(ctx: Context, ss: seq<Sighting>, i: nat, k: Key)
    requires i < |ss| && Valid(ctx) && AllAccepted(ctx, ss) && MintsAt(ctx, ss, i)
    ensures !AnchoredBy(ctx, ss, i, k)
  {
    if AnchoredBy(ctx, ss, i, k) {
      var a: nat :| a < |ss| && Connected(ctx, ss, i, a) && Tagged(ctx, ss[a], ByCompany(k));
      ConnectedKey(ctx, ss, i, a);
      TagKey(ctx, ss, a, ByCompany(k));
      CoinedKey(ctx, ss, i, a);
    }
  }

  lemma TagAnchors(ctx: Context, ss: seq<Sighting>, i: nat, a: nat, k: Key)
    requires a < |ss| && Connected(ctx, ss, i, a) && Tagged(ctx, ss[a], ByCompany(k))
    ensures Anchored(ctx, ss, i)
  {
    assert AnchoredBy(ctx, ss, i, k);
  }

  lemma UnanchoredIsCoined(ctx: Context, ss: seq<Sighting>, i: nat) returns (a: nat)
    requires i < |ss| && Valid(ctx) && AllAccepted(ctx, ss) && !Anchored(ctx, ss, i)
    ensures a <= i && Connected(ctx, ss, i, a) && KeyAt(ctx, ss, a) == KeyAt(ctx, ss, i) && MintsAt(ctx, ss, a)
  {
    a := Origin(ctx, ss, i);
    if Tagged(ctx, ss[a], ByCompany(KeyAt(ctx, ss, i))) {
      TagAnchors(ctx, ss, i, a, KeyAt(ctx, ss, i));
    }
  }

  lemma CoinsIffLeadsNew(ctx: Context, ss: seq<Sighting>, i: nat)
    requires i < |ss| && Valid(ctx) && AllAccepted(ctx, ss)
    ensures MintsAt(ctx, ss, i) <==> i in NewComponents(ctx, ss)
  {
    if MintsAt(ctx, ss, i) {
      forall j: nat | j < i ensures !Connected(ctx, ss, i, j) { CoinerLeads(ctx, ss, i, j); }
      forall k ensures !AnchoredBy(ctx, ss, i, k) { CoinerUnanchored(ctx, ss, i, k); }
    } else if i in NewComponents(ctx, ss) {
      var a := UnanchoredIsCoined(ctx, ss, i);
      assert false;
    }
  }

  function CoinersUpTo(ctx: Context, ss: seq<Sighting>, n: nat): set<nat>
    requires n <= |ss|
  {
    set i: nat | i < n && MintsAt(ctx, ss, i)
  }

  lemma CoinersStep(ctx: Context, ss: seq<Sighting>, n: nat)
    requires 0 < n <= |ss|
    ensures CoinersUpTo(ctx, ss, n)
         == CoinersUpTo(ctx, ss, n - 1) + if MintsAt(ctx, ss, n - 1) then {n - 1} else {}
    ensures n - 1 !in CoinersUpTo(ctx, ss, n - 1)
  {
  }

  lemma {:induction false} CountCoiners(ctx: Context, ss: seq<Sighting>, n: nat)
    requires n <= |ss| && Valid(ctx)
    ensures |CoinersUpTo(ctx, ss, n)| == After(ctx, ss, n).minted
  {
    if n > 0 {
      CountCoiners(ctx, ss, n - 1);
      Minting(ctx, ss, n - 1);
      CoinersStep(ctx, ss, n);
    }
  }

  // The new entities are the coined keys, in coining order.
  lemma {:induction false} EntitiesAreCoined(ctx: Context, ss: seq<Sighting>, n: nat)
    requires n <= |ss| && Valid(ctx)
    ensures var st := After(ctx, ss, n);
            && |st.plan.newEntities| == st.minted
            && (forall m :: 0 <= m < st.minted ==> st.plan.newEntities[m].key == ctx.mint(m))
            && (forall k :: k in st.created ==> exists m :: 0 <= m < st.minted && ctx.mint(m) == k)
  {
    if n > 0 {
      EntitiesAreCoined(ctx, ss, n - 1);
      ClaimsGrow(ctx, ss, n - 1);
      StepOutcome(ctx, ss, n - 1);
    }
  }

  // Main result: a clean plan creates one company for each component that reaches no known company.
  lemma OneEntityPerNewComponent(ctx: Context, ss: seq<Sighting>)
    requires Valid(ctx) && PlanFor(ctx, ss).Clean()
    ensures |PlanFor(ctx, ss).newEntities| == |NewComponents(ctx, ss)|
  {
    CleanAccepts(ctx, ss, |ss|);
    EntitiesAreCoined(ctx, ss, |ss|);
    CountCoiners(ctx, ss, |ss|);
    forall i: nat | i < |ss| ensures MintsAt(ctx, ss, i) <==> i in NewComponents(ctx, ss) {
      CoinsIffLeadsNew(ctx, ss, i);
    }
    assert CoinersUpTo(ctx, ss, |ss|) == NewComponents(ctx, ss);
  }

  lemma UnanchoredIsNew(ctx: Context, ss: seq<Sighting>, i: nat)
    requires i < |ss| && Valid(ctx) && AllAccepted(ctx, ss) && !Anchored(ctx, ss, i)
    ensures exists d :: d in PlanFor(ctx, ss).newEntities && d.key == KeyAt(ctx, ss, i)
  {
    var a := UnanchoredIsCoined(ctx, ss, i);
    Minting(ctx, ss, a);
    MintedMonotone(ctx, ss, a + 1, |ss|);
    EntitiesAreCoined(ctx, ss, |ss|);
    assert PlanFor(ctx, ss).newEntities[After(ctx, ss, a).minted] in PlanFor(ctx, ss).newEntities;
  }

  lemma CleanKeys(ctx: Context, ss: seq<Sighting>)
    requires Valid(ctx) && PlanFor(ctx, ss).Clean()
    ensures AllAccepted(ctx, ss)
    ensures |PlanFor(ctx, ss).keys| == |ss|
    ensures forall i :: 0 <= i < |ss| ==> PlanFor(ctx, ss).keys[i] == KeyAt(ctx, ss, i)
  {
    CleanAccepts(ctx, ss, |ss|);
    forall i | 0 <= i < |ss| ensures PlanFor(ctx, ss).keys[i] == KeyAt(ctx, ss, i) { KeysOfPrefix(ctx, ss, |ss|, i); }
  }

  // Main result: the keys of a clean plan are the components of the batch, anchors first.
  lemma PlanPartition(ctx: Context, ss: seq<Sighting>)
    requires Valid(ctx) && PlanFor(ctx, ss).Clean()
    ensures var keys := PlanFor(ctx, ss).keys;
            && |keys| == |ss|
            && (forall i: nat, j: nat :: i < |ss| && j < |ss| ==> (keys[i] == keys[j] <==> Connected(ctx, ss, i, j)))
            && (forall i: nat, k :: i < |ss| && AnchoredBy(ctx, ss, i, k) ==> keys[i] == k)
            && (forall i: nat :: i < |ss| && !Anchored(ctx, ss, i) ==>
                  exists d :: d in PlanFor(ctx, ss).newEntities && d.key == keys[i])
            && (forall d :: d in PlanFor(ctx, ss).newEntities ==> d.key !in ctx.known && d.key !in ctx.existing.Values)
  {
    CleanKeys(ctx, ss);
    EntitiesAreCoined(ctx, ss, |ss|);
    forall i: nat, j: nat | i < |ss| && j < |ss|
      ensures KeyAt(ctx, ss, i) == KeyAt(ctx, ss, j) <==> Connected(ctx, ss, i, j)
    {
      SameKeyIffConnected(ctx, ss, i, j);
    }
    forall i: nat, k | i < |ss| && AnchoredBy(ctx, ss, i, k) ensures KeyAt(ctx, ss, i) == k {
      AnchorKey(ctx, ss, i, k);
    }
    forall i: nat | i < |ss| && !Anchored(ctx, ss, i)
      ensures exists d :: d in PlanFor(ctx, ss).newEntities && d.key == KeyAt(ctx, ss, i)
    {
      UnanchoredIsNew(ctx, ss, i);
    }
  }
}
