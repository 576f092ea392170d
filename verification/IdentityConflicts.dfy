/** Detection is complete against the registry and sound, whatever else happens in the batch. */
module IdentityConflicts {
  import opened Wrappers
  import opened IdentityPlan
  import opened IdentityClaims

  // Two of the row's identifiers belong to different companies, or one belongs to another
  // company than the known one the row already carries. Only the registry is consulted.
  ghost predicate RegistryDisagrees(ctx: Context, s: Sighting) {
    exists r, q ::
      && MentionsRef(s.ids, r) && MentionsRef(s.ids, q) && r in ctx.existing && q in ctx.existing
      && (ctx.existing[r] != ctx.existing[q] || s.Seed(ctx) !in {"", ctx.existing[r]})
  }

  // A report about row s that names one of its identifiers, the owner, and a different company.
  predicate ReportsOn(c: Conflict, s: Sighting) {
    && MentionsRef(s.ids, c.ref)
    && c == ConflictAt(c.ref, c.existing, c.incoming, s.o)
    && c.existing != c.incoming && c.existing != "" && c.incoming != ""
  }

  lemma {:induction false} ReportsKept(ctx: Context, ss: seq<Sighting>, m: nat, n: nat, c: Conflict)
    requires m <= n <= |ss| && c in After(ctx, ss, m).plan.conflicts
    ensures c in After(ctx, ss, n).plan.conflicts
  {
    if m < n {
      ReportsKept(ctx, ss, m, n - 1, c);
    }
  }

  // Completeness: such a row gets no key, a report about it is in the plan, and it contributes nothing.
  lemma ConflictsComplete(ctx: Context, ss: seq<Sighting>, i: nat)
    requires i < |ss| && Valid(ctx) && RegistryDisagrees(ctx, ss[i])
    ensures PlanFor(ctx, ss).keys[i] == ""
    ensures exists c :: c in PlanFor(ctx, ss).conflicts && ReportsOn(c, ss[i])
    ensures ContributesNothing(ctx, ss, i)
  {
    var st, s, seed := After(ctx, ss, i), ss[i], ss[i].Seed(ctx);
    ClaimsGrow(ctx, ss, i);
    StepOutcome(ctx, ss, i);
    Detection(s.ids, st.claimed, seed, s.o);
    var found := DetectedConflicts(s.ids, st.claimed, seed, s.o);
    assert found != [];
    assert found[0] in After(ctx, ss, i + 1).plan.conflicts;
    assert ReportsOn(found[0], s);
    ReportsKept(ctx, ss, i + 1, |ss|, found[0]);
    KeysOfPrefix(ctx, ss, |ss|, i);
  }

  // No claim, no attachment, no entity, no promotion, no name.
  ghost predicate ContributesNothing(ctx: Context, ss: seq<Sighting>, i: nat)
    requires i < |ss|
  {
    var st, next := After(ctx, ss, i), After(ctx, ss, i + 1);
    && next.claimed == st.claimed && next.minted == st.minted
    && next.plan.newEntities == st.plan.newEntities && next.plan.attachments == st.plan.attachments
    && next.plan.promotions == st.plan.promotions && next.plan.names == st.plan.names
  }

  // Soundness: every report is about some row of the batch that got no key and contributed nothing.
  lemma {:induction false} ConflictsSound(ctx: Context, ss: seq<Sighting>, n: nat, c: Conflict) returns (i: nat)
    requires n <= |ss| && Valid(ctx) && c in After(ctx, ss, n).plan.conflicts
    ensures i < n && ReportsOn(c, ss[i]) && KeyAt(ctx, ss, i) == "" && ContributesNothing(ctx, ss, i)
    ensures c.ref in After(ctx, ss, i).claimed && After(ctx, ss, i).claimed[c.ref] == c.existing
  {
    ClaimsGrow(ctx, ss, n - 1);
    StepOutcome(ctx, ss, n - 1);
    if c in After(ctx, ss, n - 1).plan.conflicts {
      i := ConflictsSound(ctx, ss, n - 1, c);
    } else {
      i := n - 1;
      Detection(ss[i].ids, After(ctx, ss, i).claimed, ss[i].Seed(ctx), ss[i].o);
    }
  }

  lemma {:induction false} MissingStep(ctx: Context, ss: seq<Sighting>, i: nat)
    requires i < |ss|
    ensures After(ctx, ss, i + 1).plan.missing
            == After(ctx, ss, i).plan.missing + if ss[i].ids == [] && ss[i].Seed(ctx) == "" then [i] else []
  {
    hide DetectedConflicts, DetectedKey, ClaimAll;
  }

  // The rows without any ground for an identity are exactly the ones listed as missing.
  lemma {:induction false} MissingExactly(ctx: Context, ss: seq<Sighting>, n: nat, i: nat)
    requires n <= |ss|
    ensures i in After(ctx, ss, n).plan.missing <==> i < n && ss[i].ids == [] && ss[i].Seed(ctx) == ""
  {
    if n > 0 {
      MissingExactly(ctx, ss, n - 1, i);
      MissingStep(ctx, ss, n - 1);
      hide Step;
    }
  }

  // The first row listed as missing is the first without ground.
  lemma {:induction false} FirstMissing(ctx: Context, ss: seq<Sighting>, n: nat)
    requires n <= |ss| && After(ctx, ss, n).plan.missing != []
    ensures var i := After(ctx, ss, n).plan.missing[0];
            && i < n && ss[i].ids == [] && ss[i].Seed(ctx) == ""
            && forall j :: 0 <= j < i ==> ss[j].ids != [] || ss[j].Seed(ctx) != ""
  {
    assert n > 0;
    hide Step;
    MissingStep(ctx, ss, n - 1);
    if After(ctx, ss, n - 1).plan.missing != [] {
      FirstMissing(ctx, ss, n - 1);
    } else {
      forall j | 0 <= j < n - 1 ensures ss[j].ids != [] || ss[j].Seed(ctx) != "" {
        MissingExactly(ctx, ss, n - 1, j);
      }
    }
  }

  /******* The reports, one by one *******/

  // The first owner met, "" when no identifier is claimed.
  function FirstOwner(ids: seq<Identifier>, claimed: map<Ref, Key>): Key {
    if ids == [] then "" else if ids[0].ref in claimed then claimed[ids[0].ref] else FirstOwner(ids[1..], claimed)
  }

  // The company a row stands for: the known one it carries, or else the first owner met.
  function RowKey(ctx: Context, claimed: map<Ref, Key>, s: Sighting): Key {
    if s.prior != "" && s.prior in ctx.known then s.prior else FirstOwner(s.ids, claimed)
  }

  // One report for each identifier that belongs to another company, in the row's order.
  function RowReports(ids: seq<Identifier>, claimed: map<Ref, Key>, key: Key, o: Observation): seq<Conflict> {
    if ids == [] then []
    else if ids[0].ref in claimed && claimed[ids[0].ref] != key then
      [Conflict(ids[0].ref, claimed[ids[0].ref], key, o.sessionID, o.runID, o.targetID, o.companyName)] +
      RowReports(ids[1..], claimed, key, o)
    else RowReports(ids[1..], claimed, key, o)
  }

  // The reports of the first n rows, each against what was claimed before it.
  function Reports(ctx: Context, ss: seq<Sighting>, n: nat): seq<Conflict>
    requires n <= |ss|
  {
    if n == 0 then []
    else
      var claimed, s := After(ctx, ss, n - 1).claimed, ss[n - 1];
      Reports(ctx, ss, n - 1) + RowReports(s.ids, claimed, RowKey(ctx, claimed, s), s.o)
  }

  lemma {:induction false} DetectionReports(ids: seq<Identifier>, claimed: map<Ref, Key>, seed: Key, o: Observation)
    requires NoBlank(claimed)
    ensures var key := if seed != "" then seed else FirstOwner(ids, claimed);
            && DetectedKey(ids, claimed, seed) == key
            && DetectedConflicts(ids, claimed, seed, o) == RowReports(ids, claimed, key, o)
  {
    if ids != [] {
      var r := ids[0].ref;
      DetectionReports(ids[1..], claimed, if r in claimed && seed == "" then claimed[r] else seed, o);
    }
  }

  // The plan lists exactly these reports, in this order: none is dropped, none is added.
  lemma {:induction false} ConflictsExactly(ctx: Context, ss: seq<Sighting>, n: nat)
    requires n <= |ss| && Valid(ctx)
    ensures After(ctx, ss, n).plan.conflicts == Reports(ctx, ss, n)
  {
    if n > 0 {
      var st, s := After(ctx, ss, n - 1), ss[n - 1];
      ConflictsExactly(ctx, ss, n - 1);
      ClaimsGrow(ctx, ss, n - 1);
      StepOutcome(ctx, ss, n - 1);
      DetectionReports(s.ids, st.claimed, s.Seed(ctx), s.o);
      hide DetectedConflicts, DetectedKey, ClaimAll, Step, After;
    }
  }

  lemma {:induction false} RowReportsAt(ids: seq<Identifier>, claimed: map<Ref, Key>, key: Key, o: Observation, x: nat)
    requires x < |ids| && ids[x].ref in claimed && claimed[ids[x].ref] != key
    ensures Conflict(ids[x].ref, claimed[ids[x].ref], key, o.sessionID, o.runID, o.targetID, o.companyName)
            in RowReports(ids, claimed, key, o)
  {
    if x > 0 {
      assert ids[1..][x - 1] == ids[x];
      RowReportsAt(ids[1..], claimed, key, o, x - 1);
    }
  }

  lemma {:induction false} RowReported(ctx: Context, ss: seq<Sighting>, i: nat, c: Conflict)
    requires i < |ss| && Valid(ctx)
    requires var claimed := After(ctx, ss, i).claimed;
             c in RowReports(ss[i].ids, claimed, RowKey(ctx, claimed, ss[i]), ss[i].o)
    ensures c in PlanFor(ctx, ss).conflicts
  {
    hide After, RowKey, Valid, RowReports;
    ConflictsExactly(ctx, ss, i + 1);
    assert c in Reports(ctx, ss, i + 1);
    ReportsKept(ctx, ss, i + 1, |ss|, c);
  }

  // Every identifier of every row that belonged to another company than the row's is in the plan,
  // with both companies and the row's own session, run, target and name.
  lemma ConflictsReported(ctx: Context, ss: seq<Sighting>, i: nat, x: nat)
    requires i < |ss| && Valid(ctx) && x < |ss[i].ids|
    requires ss[i].ids[x].ref in After(ctx, ss, i).claimed
    requires After(ctx, ss, i).claimed[ss[i].ids[x].ref] != RowKey(ctx, After(ctx, ss, i).claimed, ss[i])
    ensures var claimed, r, o := After(ctx, ss, i).claimed, ss[i].ids[x].ref, ss[i].o;
            Conflict(r, claimed[r], RowKey(ctx, claimed, ss[i]), o.sessionID, o.runID, o.targetID, o.companyName)
            in PlanFor(ctx, ss).conflicts
  {
    var claimed, s := After(ctx, ss, i).claimed, ss[i];
    RowReportsAt(s.ids, claimed, RowKey(ctx, claimed, s), s.o, x);
    hide After, RowKey, Valid, RowReports;
    RowReported(ctx, ss, i, Conflict(s.ids[x].ref, claimed[s.ids[x].ref], RowKey(ctx, claimed, s),
                                     s.o.sessionID, s.o.runID, s.o.targetID, s.o.companyName));
  }

  // An accepted row is given the company it stands for, or a coined one when it stands for none.
  lemma AcceptedKey(ctx: Context, ss: seq<Sighting>, i: nat)
    requires i < |ss| && Valid(ctx) && PlanFor(ctx, ss).keys[i] != ""
    ensures var st := After(ctx, ss, i);
            var key := RowKey(ctx, st.claimed, ss[i]);
            PlanFor(ctx, ss).keys[i] == if key != "" then key else ctx.mint(st.minted)
  {
    KeysOfPrefix(ctx, ss, |ss|, i);
    ClaimsGrow(ctx, ss, i);
    StepOutcome(ctx, ss, i);
    DetectionReports(ss[i].ids, After(ctx, ss, i).claimed, ss[i].Seed(ctx), ss[i].o);
  }

  // A known company and two identifiers of another one: the row is reported twice.
  lemma BothReported(mint: nat -> Key)
    ensures var vat, tax := Ref(Fiscal, "1"), Ref(Fiscal, "2");
            var o := Observation("K", "", "1", "2", "N", None, "", "s", "r", "t");
            var s := Sighting([Identifier(vat, true, false), Identifier(tax, false, true)], "K", o);
            var ctx := Context(map[vat := "A", tax := "A"], {"K", "A"}, mint);
            PlanFor(ctx, [s]).conflicts
            == [Conflict(vat, "A", "K", "s", "r", "t", "N"), Conflict(tax, "A", "K", "s", "r", "t", "N")]
  {
    var vat, tax := Ref(Fiscal, "1"), Ref(Fiscal, "2");
    var o := Observation("K", "", "1", "2", "N", None, "", "s", "r", "t");
    var s := Sighting([Identifier(vat, true, false), Identifier(tax, false, true)], "K", o);
    var ctx := Context(map[vat := "A", tax := "A"], {"K", "A"}, mint);
    assert After(ctx, [s], 0) == InitialState(ctx);
    assert s.ids[1..] == [s.ids[1]] && s.ids[1..][1..] == [];
    assert DetectedConflicts(s.ids[1..], ctx.existing, "K", o) == [Conflict(tax, "A", "K", "s", "r", "t", "N")];
  }
}
