/** What every prefix of a planning run keeps, conflicts or not: claims only grow and never move. */
module IdentityClaims {
  import opened IdentityPlan

  predicate NoBlank(claimed: map<Ref, Key>) {
    forall r :: r in claimed ==> claimed[r] != ""
  }

  // What the planner is called with: keys are never blank (a CHECK of ma_company) and the mint
  // coins keys that differ from each other, from every owner and from every known prior.
  ghost predicate Valid(ctx: Context) {
    && NoBlank(ctx.existing)
    && (forall n :: ctx.mint(n) != "" && ctx.mint(n) !in ctx.known)
    && (forall n, m :: ctx.mint(n) == ctx.mint(m) ==> n == m)
    && (forall r, n :: r in ctx.existing ==> ctx.existing[r] != ctx.mint(n))
  }

  predicate Extends(before: map<Ref, Key>, after: map<Ref, Key>) {
    forall r :: r in before ==> r in after && after[r] == before[r]
  }

  lemma MentionsHead(ids: seq<Identifier>, r: Ref)
    requires ids != []
    ensures MentionsRef(ids, r) <==> ids[0].ref == r || MentionsRef(ids[1..], r)
  {
    if MentionsRef(ids, r) && ids[0].ref != r {
      var i :| 0 <= i < |ids| && ids[i].ref == r;
      assert ids[1..][i - 1].ref == r;
    }
    if MentionsRef(ids[1..], r) {
      var i :| 0 <= i < |ids[1..]| && ids[1..][i].ref == r;
      assert ids[i + 1].ref == r;
    }
  }

  lemma {:induction false} ClaimAllAt(claimed: map<Ref, Key>, ids: seq<Identifier>, key: Key, r: Ref)
    ensures r in ClaimAll(claimed, ids, key) <==> r in claimed || MentionsRef(ids, r)
    ensures r in ClaimAll(claimed, ids, key) ==>
              ClaimAll(claimed, ids, key)[r] == if MentionsRef(ids, r) then key else claimed[r]
    decreases |ids|
  {
    if ids != [] {
      MentionsHead(ids, r);
      ClaimAllAt(claimed[ids[0].ref := key], ids[1..], key, r);
    }
  }

  // Detection settles on one key, and reports nothing exactly when every owner met is that key.
  lemma {:induction false} Detection(ids: seq<Identifier>, claimed: map<Ref, Key>, seed: Key, o: Observation)
    requires NoBlank(claimed)
    ensures var key, found := DetectedKey(ids, claimed, seed), DetectedConflicts(ids, claimed, seed, o);
            && (seed != "" ==> key == seed)
            && (key == "" <==> seed == "" && forall i :: 0 <= i < |ids| ==> ids[i].ref !in claimed)
            && (key != seed ==> exists i :: 0 <= i < |ids| && ids[i].ref in claimed && claimed[ids[i].ref] == key)
            && (found == [] <==> forall i :: 0 <= i < |ids| && ids[i].ref in claimed ==> claimed[ids[i].ref] == key)
            && (forall c :: c in found <==> ConflictSound(c, ids, claimed, key, o))
  {
    if ids != [] {
      var r, rest := ids[0].ref, ids[1..];
      assert ids == [ids[0]] + rest;
      var next := if r in claimed && seed == "" then claimed[r] else seed;
      Detection(rest, claimed, next, o);
      var key := DetectedKey(ids, claimed, seed);
      assert r in claimed ==> key != "" && next != "";
      assert forall i :: 0 < i < |ids| ==> ids[i] == rest[i - 1];
      assert forall i :: 0 <= i < |rest| ==> rest[i] == ids[i + 1];
      forall c ensures c in DetectedConflicts(ids, claimed, seed, o) <==> ConflictSound(c, ids, claimed, key, o) {
        MentionsHead(ids, c.ref);
      }
    }
  }

  // A report names an identifier of the row, its owner, and the different company the row stands for.
  predicate ConflictSound(c: Conflict, ids: seq<Identifier>, claimed: map<Ref, Key>, key: Key, o: Observation) {
    && MentionsRef(ids, c.ref)
    && c.ref in claimed
    && c == ConflictAt(c.ref, claimed[c.ref], key, o)
    && c.existing != c.incoming && c.existing != "" && c.incoming != ""
  }

  /******* Prefixes of a run *******/

  // The key given to sighting i, "" when it is reported instead.
  function KeyAt(ctx: Context, ss: seq<Sighting>, i: nat): Key
    requires i < |ss|
  {
    After(ctx, ss, i + 1).plan.keys[i]
  }

  lemma {:induction false} KeysOfPrefix(ctx: Context, ss: seq<Sighting>, n: nat, i: nat)
    requires i < n <= |ss|
    ensures After(ctx, ss, n).plan.keys[i] == KeyAt(ctx, ss, i)
  {
    hide DetectedConflicts, DetectedKey, ClaimAll;
    if i + 1 < n {
      KeysOfPrefix(ctx, ss, n - 1, i);
    }
  }

  // What sighting i does to the run, by outcome.
  lemma StepOutcome(ctx: Context, ss: seq<Sighting>, i: nat)
    requires i < |ss| && Valid(ctx) && NoBlank(After(ctx, ss, i).claimed)
    ensures var st, next, s, seed := After(ctx, ss, i), After(ctx, ss, i + 1), ss[i], ss[i].Seed(ctx);
            var key, found := DetectedKey(s.ids, st.claimed, seed), DetectedConflicts(s.ids, st.claimed, seed, s.o);
            if s.ids == [] && seed == "" then
              KeyAt(ctx, ss, i) == "" && next == ReportMissing(st)
            else if found != [] then
              KeyAt(ctx, ss, i) == "" && next == Reject(st, found)
            else if key == "" then
              && KeyAt(ctx, ss, i) == ctx.mint(st.minted) != "" && next == Accept(st, s, ctx.mint(st.minted), true)
              && seed == "" && s.ids != []
            else
              && KeyAt(ctx, ss, i) == key && next == Accept(st, s, key, false)
  {
    Detection(ss[i].ids, After(ctx, ss, i).claimed, ss[i].Seed(ctx), ss[i].o);
  }

  // The effect of one step on the claims.
  lemma StepClaims(ctx: Context, ss: seq<Sighting>, i: nat)
    requires i < |ss| && Valid(ctx) && NoBlank(After(ctx, ss, i).claimed)
    ensures var before, after, key := After(ctx, ss, i).claimed, After(ctx, ss, i + 1).claimed, KeyAt(ctx, ss, i);
            && Extends(before, after)
            && if key == "" then after == before
            else
              && (forall r :: r in after <==> r in before || MentionsRef(ss[i].ids, r))
              && (forall r :: r in after ==> after[r] == if MentionsRef(ss[i].ids, r) then key else before[r])
              && (forall r :: r in before && MentionsRef(ss[i].ids, r) ==> before[r] == key)
  {
    var before, s, key := After(ctx, ss, i).claimed, ss[i], KeyAt(ctx, ss, i);
    StepOutcome(ctx, ss, i);
    Detection(s.ids, before, s.Seed(ctx), s.o);
    if key != "" {
      assert After(ctx, ss, i + 1).claimed == ClaimAll(before, s.ids, key);
      forall r ensures r in ClaimAll(before, s.ids, key) <==> r in before || MentionsRef(s.ids, r)
        ensures r in ClaimAll(before, s.ids, key) ==>
                  ClaimAll(before, s.ids, key)[r] == if MentionsRef(s.ids, r) then key else before[r]
      {
        ClaimAllAt(before, s.ids, key, r);
      }
    }
  }

  // Claims only grow, never move, never become blank.
  lemma {:induction false} ClaimsGrow(ctx: Context, ss: seq<Sighting>, n: nat)
    requires n <= |ss| && Valid(ctx)
    ensures NoBlank(After(ctx, ss, n).claimed)
    ensures Extends(ctx.existing, After(ctx, ss, n).claimed)
    ensures n > 0 ==> Extends(After(ctx, ss, n - 1).claimed, After(ctx, ss, n).claimed)
    ensures n > 0 && KeyAt(ctx, ss, n - 1) != "" ==>
              forall r :: MentionsRef(ss[n - 1].ids, r) ==>
                r in After(ctx, ss, n).claimed && After(ctx, ss, n).claimed[r] == KeyAt(ctx, ss, n - 1)
  {
    if n > 0 {
      ClaimsGrow(ctx, ss, n - 1);
      StepClaims(ctx, ss, n - 1);
    }
  }

  lemma {:induction false} ClaimsExtend(ctx: Context, ss: seq<Sighting>, m: nat, n: nat)
    requires m <= n <= |ss| && Valid(ctx)
    ensures Extends(After(ctx, ss, m).claimed, After(ctx, ss, n).claimed)
  {
    if m < n {
      ClaimsExtend(ctx, ss, m, n - 1);
      ClaimsGrow(ctx, ss, n);
    }
  }

  // An accepted sighting's identifiers are all claimed for its key, from then on;
  // its known prior key and the registry owners of its identifiers are that key.
  lemma Accepted(ctx: Context, ss: seq<Sighting>, i: nat, n: nat)
    requires i < n <= |ss| && Valid(ctx) && KeyAt(ctx, ss, i) != ""
    ensures forall r :: MentionsRef(ss[i].ids, r) ==>
              r in After(ctx, ss, n).claimed && After(ctx, ss, n).claimed[r] == KeyAt(ctx, ss, i)
    ensures ss[i].Seed(ctx) != "" ==> KeyAt(ctx, ss, i) == ss[i].Seed(ctx)
    ensures forall r :: MentionsRef(ss[i].ids, r) && r in ctx.existing ==> ctx.existing[r] == KeyAt(ctx, ss, i)
  {
    ClaimsGrow(ctx, ss, i);
    ClaimsGrow(ctx, ss, i + 1);
    ClaimsExtend(ctx, ss, i + 1, n);
    StepOutcome(ctx, ss, i);
    Detection(ss[i].ids, After(ctx, ss, i).claimed, ss[i].Seed(ctx), ss[i].o);
  }

  // Every claim comes from the registry or from an accepted sighting.
  lemma {:induction false} ClaimOrigin(ctx: Context, ss: seq<Sighting>, n: nat, r: Ref) returns (i: nat)
    requires n <= |ss| && Valid(ctx) && r in After(ctx, ss, n).claimed && r !in ctx.existing
    ensures i < n && MentionsRef(ss[i].ids, r) && KeyAt(ctx, ss, i) == After(ctx, ss, n).claimed[r] != ""
  {
    assert n > 0;
    hide Step;
    ClaimsGrow(ctx, ss, n - 1);
    ClaimsGrow(ctx, ss, n);
    StepClaims(ctx, ss, n - 1);
    if r in After(ctx, ss, n - 1).claimed {
      i := ClaimOrigin(ctx, ss, n - 1, r);
    } else {
      i := n - 1;
    }
  }

  lemma {:induction false} MintedMonotone(ctx: Context, ss: seq<Sighting>, m: nat, n: nat)
    requires m <= n <= |ss|
    ensures After(ctx, ss, m).minted <= After(ctx, ss, n).minted
  {
    if m < n {
      MintedMonotone(ctx, ss, m, n - 1);
    }
  }

  // No key in use is one the mint has still to coin.
  lemma {:induction false} ClaimsAreOld(ctx: Context, ss: seq<Sighting>, n: nat, r: Ref, m: nat)
    requires n <= |ss| && Valid(ctx) && r in After(ctx, ss, n).claimed && m >= After(ctx, ss, n).minted
    ensures After(ctx, ss, n).claimed[r] != ctx.mint(m)
    decreases 2 * n
  {
    ClaimsGrow(ctx, ss, n);
    if r !in ctx.existing {
      var i := ClaimOrigin(ctx, ss, n, r);
      MintedMonotone(ctx, ss, i + 1, n);
      KeyIsOld(ctx, ss, i, m);
    }
  }

  lemma {:induction false} KeyIsOld(ctx: Context, ss: seq<Sighting>, i: nat, m: nat)
    requires i < |ss| && Valid(ctx) && m >= After(ctx, ss, i + 1).minted
    ensures KeyAt(ctx, ss, i) != ctx.mint(m)
    decreases 2 * i + 1
  {
    var st, s := After(ctx, ss, i), ss[i];
    ClaimsGrow(ctx, ss, i);
    StepOutcome(ctx, ss, i);
    Detection(s.ids, st.claimed, s.Seed(ctx), s.o);
    var key := KeyAt(ctx, ss, i);
    if key != "" && key != s.Seed(ctx) && After(ctx, ss, i + 1).minted == st.minted {
      var x :| 0 <= x < |s.ids| && s.ids[x].ref in st.claimed && st.claimed[s.ids[x].ref] == key;
      ClaimsAreOld(ctx, ss, i, s.ids[x].ref, m);
    }
  }

  // Whether sighting i coins its company.
  predicate MintsAt(ctx: Context, ss: seq<Sighting>, i: nat)
    requires i < |ss|
  {
    After(ctx, ss, i + 1).minted == After(ctx, ss, i).minted + 1
  }

  lemma Minting(ctx: Context, ss: seq<Sighting>, i: nat)
    requires i < |ss| && Valid(ctx)
    ensures MintsAt(ctx, ss, i) <==> KeyAt(ctx, ss, i) == ctx.mint(After(ctx, ss, i).minted)
    ensures !MintsAt(ctx, ss, i) ==> After(ctx, ss, i + 1).minted == After(ctx, ss, i).minted
  {
    ClaimsGrow(ctx, ss, i);
    StepOutcome(ctx, ss, i);
    if !MintsAt(ctx, ss, i) {
      KeyIsOld(ctx, ss, i, After(ctx, ss, i).minted);
    }
  }
}
