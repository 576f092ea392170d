/** What a plan writes, row by row, and why nothing in it disagrees with itself. */
module IdentityWrites {
  import opened Wrappers
  import opened Text
  import opened IdentityPlan
  import opened IdentityClaims
  import opened IdentityComponents

  predicate FiscalDraft(plan: Plan, k: Key) {
    exists d :: d in plan.newEntities && d.key == k && d.state == FiscalState
  }

  predicate NamedDraft(plan: Plan, k: Key, name: string, t: Instant) {
    exists d :: d in plan.newEntities && d.key == k && d.name == name && d.observedAt == Some(t)
  }

  function FiscalKeys(plan: Plan): set<Key> {
    set a | a in plan.attachments && a.identifier.ref.ns == Fiscal :: a.key
  }

  // Everything the plan owes to row s resolved to key.
  predicate Serves(plan: Plan, s: Sighting, key: Key) {
    && (forall x :: 0 <= x < |s.ids| ==> Attachment(s.ids[x], key, s.o.observedAt) in plan.attachments)
    && (s.HasFiscal() ==> key in plan.promotions || FiscalDraft(plan, key))
    && (s.o.observedAt.Some? && s.Name() != "" ==>
          || NameObservation(key, s.Name(), s.o.observedAt.value, s.o.source) in plan.names
          || NamedDraft(plan, key, s.Name(), s.o.observedAt.value))
  }

  predicate PlanExtends(a: Plan, b: Plan) {
    a.newEntities <= b.newEntities && a.attachments <= b.attachments && a.promotions <= b.promotions
      && a.names <= b.names
  }

  lemma ServesLater(a: Plan, b: Plan, s: Sighting, key: Key)
    requires PlanExtends(a, b) && Serves(a, s, key)
    ensures Serves(b, s, key)
  {
    assert forall d :: d in a.newEntities ==> d in b.newEntities;
    assert forall n :: n in a.names ==> n in b.names;
    assert forall k :: k in a.promotions ==> k in b.promotions;
    assert forall c :: c in a.attachments ==> c in b.attachments;
  }

  lemma StepExtends(ctx: Context, ss: seq<Sighting>, i: nat)
    requires i < |ss| && Valid(ctx)
    ensures PlanExtends(After(ctx, ss, i).plan, After(ctx, ss, i + 1).plan)
  {
    ClaimsGrow(ctx, ss, i);
    StepOutcome(ctx, ss, i);
  }

  // The promoted set is the promotions list.
  lemma {:induction false} PromotedListed(ctx: Context, ss: seq<Sighting>, n: nat)
    requires n <= |ss| && Valid(ctx)
    ensures forall k :: k in After(ctx, ss, n).promoted <==> k in After(ctx, ss, n).plan.promotions
  {
    if n > 0 {
      PromotedListed(ctx, ss, n - 1);
      ClaimsGrow(ctx, ss, n - 1);
      StepOutcome(ctx, ss, n - 1);
    }
  }

  lemma AcceptServes(st: PlanState, s: Sighting, key: Key, isNew: bool)
    requires isNew ==> key !in st.created
    requires key in st.promoted ==> key in st.plan.promotions
    ensures Serves(Accept(st, s, key, isNew).plan, s, key)
  {
    var next := Accept(st, s, key, isNew);
    var atts := AttachmentsOf(s.ids, key, s.o.observedAt);
    forall x | 0 <= x < |s.ids| ensures Attachment(s.ids[x], key, s.o.observedAt) in next.plan.attachments {
      assert atts[x] in atts;
    }
    if isNew {
      assert next.plan.newEntities[|st.plan.newEntities|] == DraftOf(s, key);
      assert DraftOf(s, key) in next.plan.newEntities;
    }
  }

  lemma OwnStepServes(ctx: Context, ss: seq<Sighting>, i: nat)
    requires i < |ss| && Valid(ctx) && KeyAt(ctx, ss, i) != ""
    ensures Serves(After(ctx, ss, i + 1).plan, ss[i], KeyAt(ctx, ss, i))
  {
    var st := After(ctx, ss, i);
    ClaimsGrow(ctx, ss, i);
    StepOutcome(ctx, ss, i);
    EntitiesAreCoined(ctx, ss, i);
    PromotedListed(ctx, ss, i);
    AcceptServes(st, ss[i], KeyAt(ctx, ss, i), MintsAt(ctx, ss, i));
  }

  lemma {:induction false} PlanOnlyExtends(ctx: Context, ss: seq<Sighting>, m: nat, n: nat)
    requires m <= n <= |ss| && Valid(ctx)
    ensures PlanExtends(After(ctx, ss, m).plan, After(ctx, ss, n).plan)
  {
    if m < n {
      PlanOnlyExtends(ctx, ss, m, n - 1);
      StepExtends(ctx, ss, n - 1);
    }
  }

  lemma RowServed(ctx: Context, ss: seq<Sighting>, i: nat)
    requires i < |ss| && Valid(ctx) && KeyAt(ctx, ss, i) != ""
    ensures Serves(PlanFor(ctx, ss), ss[i], KeyAt(ctx, ss, i))
  {
    OwnStepServes(ctx, ss, i);
    PlanOnlyExtends(ctx, ss, i + 1, |ss|);
    ServesLater(After(ctx, ss, i + 1).plan, PlanFor(ctx, ss), ss[i], KeyAt(ctx, ss, i));
  }

  // What one step can add to the plan.
  predicate AddsOnly(before: Plan, after: Plan, s: Sighting, key: Key) {
    && (forall a :: a in after.attachments ==>
          a in before.attachments
            || (key != "" && a.key == key && a.identifier in s.ids && a.observedAt == s.o.observedAt))
    && (forall d :: d in after.newEntities ==>
       d in before.newEntities || (key != "" && s.ids != [] && d == DraftOf(s, key)))
    && (forall k :: k in after.promotions ==> k in before.promotions || (key != "" && k == key && s.HasFiscal()))
    && (forall n :: n in after.names ==>
          n in before.names || (key != "" && n.key == key && n.name == s.Name() != ""
            && s.o.observedAt == Some(n.observedAt)))
  }

  lemma AcceptAddsOnly(st: PlanState, s: Sighting, key: Key, isNew: bool)
    requires key != "" && (isNew ==> s.ids != [])
    ensures AddsOnly(st.plan, Accept(st, s, key, isNew).plan, s, key)
  {
    var atts := AttachmentsOf(s.ids, key, s.o.observedAt);
    forall a | a in atts ensures a.key == key && a.identifier in s.ids && a.observedAt == s.o.observedAt {
      var x :| 0 <= x < |atts| && atts[x] == a;
      assert s.ids[x] == a.identifier;
    }
  }

  lemma StepAddsOnly(ctx: Context, ss: seq<Sighting>, i: nat)
    requires i < |ss| && Valid(ctx)
    ensures AddsOnly(After(ctx, ss, i).plan, After(ctx, ss, i + 1).plan, ss[i], KeyAt(ctx, ss, i))
  {
    ClaimsGrow(ctx, ss, i);
    StepOutcome(ctx, ss, i);
    if KeyAt(ctx, ss, i) != "" {
      AcceptAddsOnly(After(ctx, ss, i), ss[i], KeyAt(ctx, ss, i), MintsAt(ctx, ss, i));
    }
  }

  lemma StepAddsDraft(ctx: Context, ss: seq<Sighting>, i: nat, d: EntityDraft)
    requires i < |ss| && Valid(ctx)
    requires d in After(ctx, ss, i + 1).plan.newEntities && d !in After(ctx, ss, i).plan.newEntities
    ensures KeyAt(ctx, ss, i) == d.key != "" && ss[i].ids != [] && d == DraftOf(ss[i], d.key)
  {
    StepAddsOnly(ctx, ss, i);
  }

  lemma StepAddsName(ctx: Context, ss: seq<Sighting>, i: nat, name: NameObservation)
    requires i < |ss| && Valid(ctx)
    requires name in After(ctx, ss, i + 1).plan.names && name !in After(ctx, ss, i).plan.names
    ensures KeyAt(ctx, ss, i) == name.key != "" && name.name == ss[i].Name() != ""
        && ss[i].o.observedAt == Some(name.observedAt)
  {
    StepAddsOnly(ctx, ss, i);
  }

  // Every attachment is an identifier of some row, under that row's key.
  lemma {:induction false} AttachmentRow(ctx: Context, ss: seq<Sighting>, n: nat, a: Attachment) returns (i: nat)
    requires n <= |ss| && Valid(ctx) && a in After(ctx, ss, n).plan.attachments
    ensures i < n && KeyAt(ctx, ss, i) == a.key != "" && a.identifier in ss[i].ids
        && MentionsRef(ss[i].ids, a.identifier.ref)
    ensures a.observedAt == ss[i].o.observedAt
  {
    StepAddsOnly(ctx, ss, n - 1);
    if a in After(ctx, ss, n - 1).plan.attachments {
      i := AttachmentRow(ctx, ss, n - 1, a);
    } else {
      i := n - 1;
    }
  }

  // The plan's own attachments never disagree, with each other or with the registry as it was read.
  lemma AttachmentsAgree(ctx: Context, ss: seq<Sighting>, a: Attachment, b: Attachment)
    requires Valid(ctx) && a in PlanFor(ctx, ss).attachments && b in PlanFor(ctx, ss).attachments
    requires a.identifier.ref == b.identifier.ref
    ensures a.key == b.key
    ensures a.identifier.ref in ctx.existing ==> ctx.existing[a.identifier.ref] == a.key
  {
    var i := AttachmentRow(ctx, ss, |ss|, a);
    var j := AttachmentRow(ctx, ss, |ss|, b);
    Accepted(ctx, ss, i, |ss|);
    Accepted(ctx, ss, j, |ss|);
  }

  // A key is a company that was read, or a new entity.
  lemma {:induction false} KeyGround(ctx: Context, ss: seq<Sighting>, i: nat)
    requires i < |ss| && Valid(ctx) && KeyAt(ctx, ss, i) != ""
    ensures var k := KeyAt(ctx, ss, i);
            || k in ctx.known
            || (exists r :: r in ctx.existing && ctx.existing[r] == k)
            || (exists d :: d in PlanFor(ctx, ss).newEntities && d.key == k)
  {
    var st, s, k := After(ctx, ss, i), ss[i], KeyAt(ctx, ss, i);
    ClaimsGrow(ctx, ss, i);
    StepOutcome(ctx, ss, i);
    Detection(s.ids, st.claimed, s.Seed(ctx), s.o);
    if MintsAt(ctx, ss, i) {
      EntitiesAreCoined(ctx, ss, |ss|);
      MintedMonotone(ctx, ss, i + 1, |ss|);
      assert PlanFor(ctx, ss).newEntities[st.minted] in PlanFor(ctx, ss).newEntities;
    } else if k != s.Seed(ctx) {
      var x :| 0 <= x < |s.ids| && s.ids[x].ref in st.claimed && st.claimed[s.ids[x].ref] == k;
      if s.ids[x].ref !in ctx.existing {
        var j := ClaimOrigin(ctx, ss, i, s.ids[x].ref);
        KeyGround(ctx, ss, j);
      }
    }
  }

  // A new entity was coined for a row with an identifier, and its state is that row's.
  lemma {:induction false} DraftRow(ctx: Context, ss: seq<Sighting>, n: nat, d: EntityDraft) returns (i: nat)
    requires n <= |ss| && Valid(ctx) && d in After(ctx, ss, n).plan.newEntities
    ensures i < n && KeyAt(ctx, ss, i) == d.key != "" && ss[i].ids != [] && d == DraftOf(ss[i], d.key)
  {
    if d in After(ctx, ss, n - 1).plan.newEntities {
      i := DraftRow(ctx, ss, n - 1, d);
    } else {
      StepAddsDraft(ctx, ss, n - 1, d);
      i := n - 1;
    }
  }

  lemma {:induction false} PromotionRow(ctx: Context, ss: seq<Sighting>, n: nat, k: Key) returns (i: nat)
    requires n <= |ss| && Valid(ctx) && k in After(ctx, ss, n).plan.promotions
    ensures i < n && KeyAt(ctx, ss, i) == k != "" && ss[i].HasFiscal()
  {
    StepAddsOnly(ctx, ss, n - 1);
    if k in After(ctx, ss, n - 1).plan.promotions {
      i := PromotionRow(ctx, ss, n - 1, k);
    } else {
      i := n - 1;
    }
  }

  lemma {:induction false} NameRow(ctx: Context, ss: seq<Sighting>, n: nat, name: NameObservation) returns (i: nat)
    requires n <= |ss| && Valid(ctx) && name in After(ctx, ss, n).plan.names
    ensures i < n && KeyAt(ctx, ss, i) == name.key != ""
    ensures name.name == ss[i].Name() != "" && ss[i].o.observedAt == Some(name.observedAt)
  {
    assert n > 0;
    hide Step;
    if name in After(ctx, ss, n - 1).plan.names {
      i := NameRow(ctx, ss, n - 1, name);
    } else {
      StepAddsName(ctx, ss, n - 1, name);
      i := n - 1;
    }
  }

  // The companies to be promoted or created fiscal are those that get a fiscal identifier.
  lemma FiscalExactly(ctx: Context, ss: seq<Sighting>, k: Key)
    requires Valid(ctx)
    ensures k in FiscalKeys(PlanFor(ctx, ss)) <==> k in PlanFor(ctx, ss).promotions || FiscalDraft(PlanFor(ctx, ss), k)
  {
    var plan := PlanFor(ctx, ss);
    if k in FiscalKeys(plan) {
      var a :| a in plan.attachments && a.identifier.ref.ns == Fiscal && a.key == k;
      var i := AttachmentRow(ctx, ss, |ss|, a);
      assert ss[i].HasFiscal();
      RowServed(ctx, ss, i);
    } else if k in plan.promotions {
      var i := PromotionRow(ctx, ss, |ss|, k);
      FiscalRowKey(ctx, ss, i);
    } else if FiscalDraft(plan, k) {
      var d :| d in plan.newEntities && d.key == k && d.state == FiscalState;
      var i := DraftRow(ctx, ss, |ss|, d);
      FiscalRowKey(ctx, ss, i);
    }
  }

  lemma FiscalRowKey(ctx: Context, ss: seq<Sighting>, i: nat)
    requires i < |ss| && Valid(ctx) && KeyAt(ctx, ss, i) != "" && ss[i].HasFiscal()
    ensures KeyAt(ctx, ss, i) in FiscalKeys(PlanFor(ctx, ss))
  {
    RowServed(ctx, ss, i);
    var x :| 0 <= x < |ss[i].ids| && ss[i].ids[x].ref.ns == Fiscal;
    var a := Attachment(ss[i].ids[x], KeyAt(ctx, ss, i), ss[i].o.observedAt);
    assert a in PlanFor(ctx, ss).attachments;
  }

  /******* The lists of a plan, row by row *******/

  // Row i gives the company it found a fiscal identifier.
  predicate Raises(ctx: Context, ss: seq<Sighting>, i: nat)
    requires i < |ss|
  {
    KeyAt(ctx, ss, i) != "" && !MintsAt(ctx, ss, i) && exists x :: 0 <= x < |ss[i].ids| && ss[i].ids[x].ref.ns == Fiscal
  }

  predicate RaisesFirst(ctx: Context, ss: seq<Sighting>, i: nat)
    requires i < |ss|
  {
    Raises(ctx, ss, i) && forall j :: 0 <= j < i && Raises(ctx, ss, j) ==> KeyAt(ctx, ss, j) != KeyAt(ctx, ss, i)
  }

  // Row i names the company it found, at an instant.
  predicate Names(ctx: Context, ss: seq<Sighting>, i: nat)
    requires i < |ss|
  {
    && KeyAt(ctx, ss, i) != "" && !MintsAt(ctx, ss, i)
    && ss[i].o.observedAt.Some? && TrimSpace(ss[i].o.companyName) != ""
  }

  // One attachment for each identifier of an accepted row
  function GivenAttachments(s: Sighting, key: Key): seq<Attachment> {
    if key == "" then []
    else seq(|s.ids|, x requires 0 <= x < |s.ids| => Attachment(s.ids[x], key, s.o.observedAt))
  }

  // One company for a row that coins its key
  function GivenEntities(ctx: Context, ss: seq<Sighting>, i: nat): seq<EntityDraft>
    requires i < |ss|
  {
    var s := ss[i];
    var fiscal := exists x :: 0 <= x < |s.ids| && s.ids[x].ref.ns == Fiscal;
    if !MintsAt(ctx, ss, i) then []
    else [EntityDraft(KeyAt(ctx, ss, i), TrimSpace(s.o.companyName), s.o.observedAt, s.o.source,
                      if fiscal then FiscalState else VendorOnly)]
  }

  // One promotion for each company, by the first row that raises it
  function GivenPromotions(ctx: Context, ss: seq<Sighting>, i: nat): seq<Key>
    requires i < |ss|
  {
    if RaisesFirst(ctx, ss, i) then [KeyAt(ctx, ss, i)] else []
  }

  // One name observation for a row that names the company it found
  function GivenNames(ctx: Context, ss: seq<Sighting>, i: nat): seq<NameObservation>
    requires i < |ss|
  {
    var o := ss[i].o;
    if !Names(ctx, ss, i) then []
    else [NameObservation(KeyAt(ctx, ss, i), TrimSpace(o.companyName), o.observedAt.value, o.source)]
  }

  function RowAttachments(ctx: Context, ss: seq<Sighting>, n: nat): seq<Attachment>
    requires n <= |ss|
  {
    if n == 0 then [] else RowAttachments(ctx, ss, n - 1) + GivenAttachments(ss[n - 1], KeyAt(ctx, ss, n - 1))
  }

  function RowEntities(ctx: Context, ss: seq<Sighting>, n: nat): seq<EntityDraft>
    requires n <= |ss|
  {
    if n == 0 then [] else RowEntities(ctx, ss, n - 1) + GivenEntities(ctx, ss, n - 1)
  }

  function RowPromotions(ctx: Context, ss: seq<Sighting>, n: nat): seq<Key>
    requires n <= |ss|
  {
    if n == 0 then [] else RowPromotions(ctx, ss, n - 1) + GivenPromotions(ctx, ss, n - 1)
  }

  function RowNames(ctx: Context, ss: seq<Sighting>, n: nat): seq<NameObservation>
    requires n <= |ss|
  {
    if n == 0 then [] else RowNames(ctx, ss, n - 1) + GivenNames(ctx, ss, n - 1)
  }

  ghost predicate RaisedBefore(ctx: Context, ss: seq<Sighting>, n: nat, k: Key)
    requires n <= |ss|
  {
    exists j :: 0 <= j < n && Raises(ctx, ss, j) && KeyAt(ctx, ss, j) == k
  }

  lemma {:induction false} RaisedStep(ctx: Context, ss: seq<Sighting>, n: nat, k: Key)
    requires n < |ss|
    ensures RaisedBefore(ctx, ss, n + 1, k)
       <==> RaisedBefore(ctx, ss, n, k) || (Raises(ctx, ss, n) && KeyAt(ctx, ss, n) == k)
    ensures RaisesFirst(ctx, ss, n) <==> Raises(ctx, ss, n) && !RaisedBefore(ctx, ss, n, KeyAt(ctx, ss, n))
  {
    hide After, KeyAt, Raises;
  }

  lemma {:induction false} PromotedRaised(ctx: Context, ss: seq<Sighting>, n: nat, k: Key)
    requires n <= |ss| && Valid(ctx)
    ensures k in After(ctx, ss, n).promoted <==> RaisedBefore(ctx, ss, n, k)
  {
    hide Step, Raises, KeyAt, Valid;
    if n > 0 {
      PromotedRaised(ctx, ss, n - 1, k);
      StepGives(ctx, ss, n - 1);
      RaisedStep(ctx, ss, n - 1, k);
      hide RaisedBefore, After;
    }
  }

  lemma {:induction false} StepGives(ctx: Context, ss: seq<Sighting>, i: nat)
    requires i < |ss| && Valid(ctx)
    ensures var st, next, s, key := After(ctx, ss, i), After(ctx, ss, i + 1), ss[i], KeyAt(ctx, ss, i);
            && next.plan.attachments == st.plan.attachments + GivenAttachments(s, key)
            && next.plan.newEntities == st.plan.newEntities + GivenEntities(ctx, ss, i)
            && next.plan.names == st.plan.names + GivenNames(ctx, ss, i)
            && next.promoted == st.promoted + (if Raises(ctx, ss, i) then {key} else {})
            && next.plan.promotions == st.plan.promotions +
                 (if Raises(ctx, ss, i) && key !in st.promoted then [key] else [])
  {
    ClaimsGrow(ctx, ss, i);
    StepOutcome(ctx, ss, i);
    EntitiesAreCoined(ctx, ss, i);
    hide DetectedConflicts, DetectedKey, ClaimAll, NoBlank, Extends;
    var s, key := ss[i], KeyAt(ctx, ss, i);
    assert key != "" ==> AttachmentsOf(s.ids, key, s.o.observedAt) == GivenAttachments(s, key);
  }

  // Main result: the four lists are exactly what the rows give, in the rows' order.
  lemma {:induction false} PlanLists(ctx: Context, ss: seq<Sighting>, n: nat)
    requires n <= |ss| && Valid(ctx)
    ensures var plan := After(ctx, ss, n).plan;
            && plan.attachments == RowAttachments(ctx, ss, n) && plan.newEntities == RowEntities(ctx, ss, n)
            && plan.promotions == RowPromotions(ctx, ss, n) && plan.names == RowNames(ctx, ss, n)
  {
    hide Step, Valid, KeyAt, Raises, RaisedBefore, GivenAttachments, GivenEntities, GivenNames, RaisesFirst;
    if n > 0 {
      PlanLists(ctx, ss, n - 1);
      StepGives(ctx, ss, n - 1);
      PromotedRaised(ctx, ss, n - 1, KeyAt(ctx, ss, n - 1));
      RaisedStep(ctx, ss, n - 1, KeyAt(ctx, ss, n - 1));
      hide After;
    }
  }
}
