/** The pure half of the registry: identifier extraction and the detection pass (ma_company_identity.go). */
module IdentityPlan {
  import opened Wrappers
  import opened Text
  import opened IdentityNormalize

  type Key = string
  type Instant = int  // instants since Go's zero time

  datatype Namespace = Fiscal | VendorOpenAPIIT
  datatype Ref = Ref(ns: Namespace, value: string)
  datatype Identifier = Identifier(ref: Ref, isVAT: bool, isTax: bool)
  datatype IdentityState = FiscalState | VendorOnly

  datatype Observation = Observation(
    priorCompanyKey: string, vendorID: string, vatCode: string, taxCode: string, companyName: string,
    observedAt: Option<Instant>, source: string, sessionID: string, runID: string, targetID: string)

  datatype Conflict = Conflict(
    ref: Ref, existing: Key, incoming: Key,
    sessionID: string, runID: string, targetID: string, companyName: string)

  datatype EntityDraft = EntityDraft(
    key: Key, name: string, observedAt: Option<Instant>, source: string, state: IdentityState)
  datatype Attachment = Attachment(identifier: Identifier, key: Key, observedAt: Option<Instant>)
  datatype NameObservation = NameObservation(key: Key, name: string, observedAt: Instant, source: string)

  datatype Plan = Plan(
    keys: seq<Key>, newEntities: seq<EntityDraft>, attachments: seq<Attachment>,
    names: seq<NameObservation>, promotions: seq<Key>, conflicts: seq<Conflict>, missing: seq<nat>)
  {
    predicate Clean() { conflicts == [] && missing == [] }
  }

  // What a resolution reads before it plans: owners and known prior keys, and the key mint.
  datatype Context = Context(existing: map<Ref, Key>, known: set<Key>, mint: nat -> Key)

  /******* Extraction *******/

  function IdentifiersOf(vat: string, tax: string, vendor: string): seq<Identifier> {
    (if vat != "" && vat == tax then [Identifier(Ref(Fiscal, vat), true, true)]
     else
       (if vat != "" then [Identifier(Ref(Fiscal, vat), true, false)] else []) +
       (if tax != "" then [Identifier(Ref(Fiscal, tax), false, true)] else [])) +
    (if vendor != "" then [Identifier(Ref(VendorOpenAPIIT, vendor), false, false)] else [])
  }

  function ExtractIdentifiers(vat: string, tax: string, vendorID: string): seq<Identifier> {
    IdentifiersOf(StableVAT(vat), NormalizeFiscalValue(tax), NormalizeCompanyKey(vendorID))
  }

  // The CHECK constraints of ma_company_identifier (migration 120): a value that is not blank,
  // roles in the fiscal namespace only, and at least one role there.
  predicate MeetsRowChecks(id: Identifier) {
    && id.ref.value != "" && !IsBlank(id.ref.value[0])
    && (id.ref.ns == Fiscal <==> id.isVAT || id.isTax)
  }

  predicate CarriesVAT(ids: seq<Identifier>, v: string) {
    exists i :: 0 <= i < |ids| && ids[i].isVAT && ids[i].ref == Ref(Fiscal, v)
  }

  predicate CarriesTax(ids: seq<Identifier>, v: string) {
    exists i :: 0 <= i < |ids| && ids[i].isTax && ids[i].ref == Ref(Fiscal, v)
  }

  predicate CarriesVendor(ids: seq<Identifier>, v: string) {
    exists i :: 0 <= i < |ids| && ids[i].ref == Ref(VendorOpenAPIIT, v)
  }

  lemma IdentifiersCarry(vat: string, tax: string, vendor: string)
    ensures var ids := IdentifiersOf(vat, tax, vendor);
            && (forall v :: CarriesVAT(ids, v) <==> v == vat && v != "")
            && (forall v :: CarriesTax(ids, v) <==> v == tax && v != "")
            && (forall v :: CarriesVendor(ids, v) <==> v == vendor && v != "")
  {
    var ids := IdentifiersOf(vat, tax, vendor);
    if vat != "" { assert ids[0].isVAT && ids[0].ref == Ref(Fiscal, vat); }
    if tax != "" {
      var i := if vat != "" && vat != tax then 1 else 0;
      assert ids[i].isTax && ids[i].ref == Ref(Fiscal, tax);
    }
    if vendor != "" { assert ids[|ids| - 1].ref == Ref(VendorOpenAPIIT, vendor); }
  }

  predicate Admissible(v: string) {
    v == "" || !IsBlank(v[0])
  }

  // The VAT number first, the vendor id last
  predicate InSourceOrder(ids: seq<Identifier>) {
    forall i :: 0 <= i < |ids| ==>
      (ids[i].isVAT ==> i == 0) && (ids[i].ref.ns == VendorOpenAPIIT ==> i == |ids| - 1)
  }

  lemma IdentifiersAdmissible(vat: string, tax: string, vendor: string)
    requires Admissible(vat) && Admissible(tax) && Admissible(vendor)
    ensures var ids := IdentifiersOf(vat, tax, vendor);
            && (forall i, j :: 0 <= i < j < |ids| ==> ids[i].ref != ids[j].ref)
            && (forall i :: 0 <= i < |ids| ==> MeetsRowChecks(ids[i]))
            && InSourceOrder(ids)
  {
  }

  lemma NormalFormsAdmissible(s: string)
    ensures Admissible(NormalizeFiscalValue(s)) && Admissible(StableVAT(s)) && Admissible(NormalizeCompanyKey(s))
  {
    var v := NormalizeFiscalValue(s);
    if v != "" { assert v[0] in v; }
    if IsPrefixedVAT(v) { assert v[2..][0] == v[2]; }
    TrimSpaceTrimmed(s);
    UpperSpace(TrimSpace(s));
  }

  // The SET of identifying values: both fiscal codes and the vendor id, each exactly when it is
  // there, one row a value with its roles merged, and every row admissible to the table.
  lemma ExtractedIdentifiers(vat: string, tax: string, vendorID: string)
    ensures var ids := ExtractIdentifiers(vat, tax, vendorID);
            && (forall i, j :: 0 <= i < j < |ids| ==> ids[i].ref != ids[j].ref)
            && (forall i :: 0 <= i < |ids| ==> MeetsRowChecks(ids[i]))
            && (forall v :: CarriesVAT(ids, v) <==> v == StableVAT(vat) && v != "")
            && (forall v :: CarriesTax(ids, v) <==> v == NormalizeFiscalValue(tax) && v != "")
            && (forall v :: CarriesVendor(ids, v) <==> v == NormalizeCompanyKey(vendorID) && v != "")
            && InSourceOrder(ids)
  {
    var v, t, k := StableVAT(vat), NormalizeFiscalValue(tax), NormalizeCompanyKey(vendorID);
    NormalFormsAdmissible(vat);
    NormalFormsAdmissible(tax);
    NormalFormsAdmissible(vendorID);
    IdentifiersAdmissible(v, t, k);
    IdentifiersCarry(v, t, k);
  }

  /******* Detection *******/

  predicate MentionsRef(ids: seq<Identifier>, r: Ref) {
    exists i :: 0 <= i < |ids| && ids[i].ref == r
  }

  // One observation with its identifiers extracted and the key it already carries normalized.
  datatype Sighting = Sighting(ids: seq<Identifier>, prior: Key, o: Observation)
  {
    predicate HasFiscal() { exists i :: 0 <= i < |ids| && ids[i].ref.ns == Fiscal }

    // The company the row is expected to be, when the registry knows it; "" otherwise.
    function Seed(ctx: Context): Key {
      if prior != "" && prior in ctx.known then prior else ""
    }

    function Name(): string { TrimSpace(o.companyName) }
  }

  function Sight(o: Observation): Sighting {
    Sighting(ExtractIdentifiers(o.vatCode, o.taxCode, o.vendorID), NormalizeCompanyKey(o.priorCompanyKey), o)
  }

  // What is read of an observation: its three identifying values and the key it carries, each normalized.
  lemma Sighted(o: Observation)
    ensures var s := Sight(o);
            && s.o == o && s.prior == ToUpper(TrimSpace(o.priorCompanyKey))
            && (forall v :: CarriesVAT(s.ids, v) <==> v == StableVAT(o.vatCode) && v != "")
            && (forall v :: CarriesTax(s.ids, v) <==> v == NormalizeFiscalValue(o.taxCode) && v != "")
            && (forall v :: CarriesVendor(s.ids, v) <==> v == NormalizeCompanyKey(o.vendorID) && v != "")
  {
    ExtractedIdentifiers(o.vatCode, o.taxCode, o.vendorID);
  }

  function SightAll(obs: seq<Observation>): (r: seq<Sighting>)
    ensures |r| == |obs|
    ensures forall i :: 0 <= i < |obs| ==> r[i] == Sight(obs[i])
  {
    seq(|obs|, i requires 0 <= i < |obs| => Sight(obs[i]))
  }

  // The key after looking at every identifier: the first owner met, unless a key was expected.
  function DetectedKey(ids: seq<Identifier>, claimed: map<Ref, Key>, key: Key): Key {
    if ids == [] then key
    else
      var r := ids[0].ref;
      DetectedKey(ids[1..], claimed, if r in claimed && key == "" then claimed[r] else key)
  }

  function ConflictAt(r: Ref, owner: Key, key: Key, o: Observation): Conflict {
    Conflict(r, owner, key, o.sessionID, o.runID, o.targetID, o.companyName)
  }

  function DetectedConflicts(ids: seq<Identifier>, claimed: map<Ref, Key>, key: Key, o: Observation): seq<Conflict> {
    if ids == [] then []
    else
      var r := ids[0].ref;
      if r !in claimed then DetectedConflicts(ids[1..], claimed, key, o)
      else if key == "" then DetectedConflicts(ids[1..], claimed, claimed[r], o)
      else
        (if claimed[r] != key then [ConflictAt(r, claimed[r], key, o)] else []) +
        DetectedConflicts(ids[1..], claimed, key, o)
  }

  function ClaimAll(claimed: map<Ref, Key>, ids: seq<Identifier>, key: Key): map<Ref, Key>
    decreases |ids|
  {
    if ids == [] then claimed else ClaimAll(claimed[ids[0].ref := key], ids[1..], key)
  }

  function AttachmentsOf(ids: seq<Identifier>, key: Key, at: Option<Instant>): (r: seq<Attachment>)
    ensures |r| == |ids|
    ensures forall i :: 0 <= i < |ids| ==> r[i] == Attachment(ids[i], key, at)
  {
    seq(|ids|, i requires 0 <= i < |ids| => Attachment(ids[i], key, at))
  }

  // The planner's working state: its three maps, the keys coined so far, and the plan.
  datatype PlanState = PlanState(
    claimed: map<Ref, Key>, minted: nat, created: set<Key>, promoted: set<Key>, plan: Plan)

  function InitialState(ctx: Context): PlanState {
    PlanState(ctx.existing, 0, {}, {}, Plan([], [], [], [], [], [], []))
  }

  function Reject(st: PlanState, conflicts: seq<Conflict>): PlanState {
    st.(plan := st.plan.(keys := st.plan.keys + [""], conflicts := st.plan.conflicts + conflicts))
  }

  function ReportMissing(st: PlanState): PlanState {
    st.(plan := st.plan.(keys := st.plan.keys + [""], missing := st.plan.missing + [|st.plan.keys|]))
  }

  function DraftOf(s: Sighting, key: Key): EntityDraft {
    EntityDraft(key, s.Name(), s.o.observedAt, s.o.source, if s.HasFiscal() then FiscalState else VendorOnly)
  }

  function Accept(st: PlanState, s: Sighting, key: Key, isNew: bool): PlanState {
    var draft := isNew && key !in st.created;
    var promote := s.HasFiscal() && !isNew && key !in st.promoted;
    var rename := s.o.observedAt.Some? && !isNew && s.Name() != "";
    PlanState(
      ClaimAll(st.claimed, s.ids, key),
      if isNew then st.minted + 1 else st.minted,
      if draft then st.created + {key} else st.created,
      if promote then st.promoted + {key} else st.promoted,
      Plan(
        st.plan.keys + [key],
        if draft then st.plan.newEntities + [DraftOf(s, key)] else st.plan.newEntities,
        st.plan.attachments + AttachmentsOf(s.ids, key, s.o.observedAt),
        if rename then st.plan.names + [NameObservation(key, s.Name(), s.o.observedAt.value, s.o.source)]
          else st.plan.names,
        if promote then st.plan.promotions + [key] else st.plan.promotions,
        st.plan.conflicts,
        st.plan.missing))
  }

  function Step(ctx: Context, st: PlanState, s: Sighting): PlanState {
    var seed := s.Seed(ctx);
    if s.ids == [] && seed == "" then ReportMissing(st)
    else
      var conflicts := DetectedConflicts(s.ids, st.claimed, seed, s.o);
      if conflicts != [] then Reject(st, conflicts)
      else
        var found := DetectedKey(s.ids, st.claimed, seed);
        if found == "" then Accept(st, s, ctx.mint(st.minted), true) else Accept(st, s, found, false)
  }

  // The state after the first n sightings.
  function After(ctx: Context, ss: seq<Sighting>, n: nat): (st: PlanState)
    requires n <= |ss|
    ensures |st.plan.keys| == n
    ensures forall x :: 0 <= x < |st.plan.missing| ==> st.plan.missing[x] < n
  {
    if n == 0 then InitialState(ctx) else Step(ctx, After(ctx, ss, n - 1), ss[n - 1])
  }

  function PlanFor(ctx: Context, ss: seq<Sighting>): Plan {
    After(ctx, ss, |ss|).plan
  }

  // planMACompanyResolution
  method PlanResolution(obs: seq<Observation>, ctx: Context) returns (plan: Plan, minted: nat)
    ensures plan == PlanFor(ctx, SightAll(obs))
    ensures minted == After(ctx, SightAll(obs), |obs|).minted
  {
    plan, minted := PlanSightings(SightAll(obs), ctx);
  }

  // The loop over the batch: its maps and the plan's slices are updated in place.
  method PlanSightings(ss: seq<Sighting>, ctx: Context) returns (plan: Plan, minted: nat)
    ensures plan == PlanFor(ctx, ss)
    ensures minted == After(ctx, ss, |ss|).minted
  {
    var keys: seq<Key> := seq(|ss|, _ => "");
    var newEntities: seq<EntityDraft>, attachments: seq<Attachment>, names: seq<NameObservation> := [], [], [];
    var promotions: seq<Key>, conflicts: seq<Conflict>, missing: seq<nat> := [], [], [];
    var claimed, created, promoted := ctx.existing, {}, {};
    minted := 0;
    ghost var st := InitialState(ctx);
    var index := 0;
    while index < |ss|
      invariant 0 <= index <= |ss| == |keys|
      invariant st == After(ctx, ss, index)
      invariant keys == st.plan.keys + seq(|ss| - index, _ => "")
      invariant claimed == st.claimed && minted == st.minted
      invariant created == st.created && promoted == st.promoted
      invariant newEntities == st.plan.newEntities && attachments == st.plan.attachments
      invariant names == st.plan.names && promotions == st.plan.promotions
      invariant conflicts == st.plan.conflicts && missing == st.plan.missing
    {
      var s := ss[index];
      ghost var before := st;
      st := Step(ctx, st, s);
      index := index + 1;
      assert keys == before.plan.keys + [""] + seq(|ss| - index, _ => "");
      var seed := s.Seed(ctx);
      if s.ids == [] && seed == "" {
        missing := missing + [index - 1];
        continue;
      }
      var key, found := DetectInPlace(s, claimed, seed);
      conflicts := conflicts + found;
      if found != [] { continue; }
      var isNew := key == "";
      if isNew {
        key := ctx.mint(minted);
        minted := minted + 1;
      }
      assert st == Accept(before, s, key, isNew);
      keys := keys[index - 1 := key];
      var hasFiscal := s.HasFiscal();
      if isNew && key !in created {
        created := created + {key};
        newEntities := newEntities + [DraftOf(s, key)];
      }
      claimed := ClaimInPlace(claimed, s.ids, key);
      attachments := attachments + AttachmentsOf(s.ids, key, s.o.observedAt);
      if hasFiscal && !isNew && key !in promoted {
        promoted := promoted + {key};
        promotions := promotions + [key];
      }
      if s.o.observedAt.Some? && !isNew && s.Name() != "" {
        names := names + [NameObservation(key, s.Name(), s.o.observedAt.value, s.o.source)];
      }
    }
    plan := Plan(keys, newEntities, attachments, names, promotions, conflicts, missing);
  }

  method DetectInPlace(s: Sighting, claimed: map<Ref, Key>, seed: Key) returns (key: Key, conflicts: seq<Conflict>)
    ensures key == DetectedKey(s.ids, claimed, seed)
    ensures conflicts == DetectedConflicts(s.ids, claimed, seed, s.o)
  {
    key, conflicts := seed, [];
    var i := 0;
    while i < |s.ids|
      invariant 0 <= i <= |s.ids|
      invariant DetectedKey(s.ids, claimed, seed) == DetectedKey(s.ids[i..], claimed, key)
      invariant DetectedConflicts(s.ids, claimed, seed, s.o)
                == conflicts + DetectedConflicts(s.ids[i..], claimed, key, s.o)
    {
      assert s.ids[i..][0] == s.ids[i] && s.ids[i..][1..] == s.ids[i + 1..];
      var r := s.ids[i].ref;
      i := i + 1;
      if r !in claimed { continue; }
      if key == "" {
        key := claimed[r];
        continue;
      }
      if claimed[r] != key {
        conflicts := conflicts + [ConflictAt(r, claimed[r], key, s.o)];
      }
    }
  }

  method ClaimInPlace(before: map<Ref, Key>, ids: seq<Identifier>, key: Key) returns (claimed: map<Ref, Key>)
    ensures claimed == ClaimAll(before, ids, key)
  {
    claimed := before;
    var i := 0;
    while i < |ids|
      invariant 0 <= i <= |ids|
      invariant ClaimAll(before, ids, key) == ClaimAll(claimed, ids[i..], key)
    {
      assert ids[i..][0] == ids[i] && ids[i..][1..] == ids[i + 1..];
      claimed := claimed[ids[i].ref := key];
      i := i + 1;
    }
  }
}
