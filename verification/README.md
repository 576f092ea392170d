# Verified models of the registry and its arithmetic

This project models, in Dafny, the parts of the backend whose correctness rests on more than one function, and proves
what they promise for all inputs, runs and interleavings.

- **Company identity registry** (`Identity*.dfy`). `planMACompanyResolution` groups a batch of observations into
  companies, reports conflicts, and emits a write plan; `resolveMACompanyBatchTx` applies it under a savepoint and
  retries at most three times against concurrent resolvers. The planner loop is a method over its maps and lists, the
  transaction is the class `Registry` with one method per statement, and both are proved equal to specification
  functions. About these: the plan is the partition into connected components; conflicts are reported completely and
  soundly; which batches are clean, in one order, in some and in all, exactly; the contract of the resolver under every
  legal interference; progress, with a sharp bound; idempotence of a replay, in the same or any later transaction; the
  history of roles, windows and names, within one transaction and over runs; and an invariant over every run. The rely,
  one commit by somebody else (`IdentityRely.EnvStep`), is shown to be met by a resolver's own commit, and all
  assumptions together by an empty registry (`IdentityReplay.EmptyStart`).
- **Company-search cache** (`SearchCache`, `CacheGuarantees`, `CacheReplies`). Check, lock, check again, fetch and store, as a step
  system of any number of requests for one key under a clock that never goes back.
- **Italian number formats** (`Digits`, `Thousands`, `DecimalIT`, `NormalizeDecimal`) and **line descriptions as HTML**
  (`DescHtml`, `DescLines`).
- **ZIP paths** of the delivery-note archive (`ArchivePaths`).
- **ATECO retrieval** (`AtecoRetrieval`, `Cosine`), **signal weights** (`SignalWeights`), **canonical filing**
  (`CanonicalFiling`) and **adjusted valuation** (`AdjustedValuation`).

Loops of the source are methods with invariants, proved against functions; everything stated about those functions is
a lemma. Go's `float64` is `real` throughout, integers are unbounded, times are integer instants, strings are sequences
of characters. `hide` statements only keep proofs small.

Check everything with `dafny verify dfyconfig.toml`.

## Where the code and its comments differ

- `maStableVAT` is documented as idempotent; it is not on a value where removing a dot or an ASCII blank uncovers a
  Unicode-only blank (`IdentityNormalize.StableVATNotIdempotent`). `StableVATIdempotentIff` says on which inputs it is.
  The resolver does not need it.
- `normalizeDecimal` is said to reject malformed numbers, but a trailing separator after decimals (`1.5.`) passes and is
  dropped (`NormalizeDecimal.TrailingSeparatorPasses`). `AcceptedSpellings` lists exactly what passes.
- Whether a batch conflicts depends on the order of its observations (`IdentityOrder.OrderDecides`). One given order is
  judged by `IdentityOrder.CleanIffNoBridge`; `IdentityArrangement.OrderMattersIff` says for exactly which batches the
  order decides, from `CleanInEveryOrderIff` and `CleanInSomeOrderIff`. Two clean orders always agree.
- Raising a signal's override does not raise its weight when it is the only intended signal of its family
  (`SignalWeights.LoneSignalStays`; `RaisedSignal` states exactly when it does).
- The elected duplicate depends on the order in which filings are listed when two different ones share anchoring and
  creation time (`CanonicalFiling.TieGoesToTheFirst`; `OrderMattersIff` is the exact condition).
- A replayed resolve can conflict (`IdentityReplay.ReplayCanConflict`): an observation carries a key without a company,
  is resolved to another one, and a company appears under that key before the replay reads. That is the only way:
  `LaterReplay` and `QuietReplay` give the exact condition, on the observations that are replayed.
- The comments on the adjusted valuation call its ends low and high, but a negative adjustment can turn the band over
  (`AdjustedValuation.SalesBandInverts`, `NegativeBandInverts`); `SalesBandOrdered` and `BandOrdered` say exactly when.

## Model

| member | source | states |
|---|---|---|
| IdentityNormalize.CompanyKeyIdempotent | backend/internal/binocolo/ma_service.go:3818-3820 | Under any letter case, a map of characters that is idempotent, keeps blanks and dots apart and fixes digits, a company key in normal form is its own normal form. |
| IdentityNormalize.FiscalValueIdempotentIff | backend/internal/binocolo/ma_filing_store.go:46-50 | Under any such letter case, normalizing a fiscal value twice equals normalizing it once exactly when what is left after dots and ASCII blanks go does not begin or end with a Unicode-only blank. |
| IdentityNormalize.StableVATNotIdempotent | backend/internal/binocolo/ma_filing_store.go:52-61 | Counterexample to the promised idempotence of the stable VAT: a dot, a no-break space and a digit. |
| IdentityNormalize.StableVATIdempotentIff | backend/internal/binocolo/ma_filing_store.go:52-61 | Under any such letter case, the stable VAT is idempotent on exactly the same inputs. |
| IdentityNormalize.PrefixDropped | backend/internal/binocolo/ma_filing_store.go:52-61 | The prefix IT, in any letter case, before eleven digits and the bare digits give the same stable VAT, the digits. |
| IdentityNormalize.CaseIgnored | backend/internal/binocolo/ma_filing_store.go:46-61 | Two texts that differ in the case of their ASCII letters only have the same fiscal value, stable VAT and company key. |
| IdentityNormalize.BlanksAndDotsIgnored | backend/internal/binocolo/ma_filing_store.go:46-61 | An ASCII blank or a dot inside a value changes neither its fiscal value nor its stable VAT. |
| IdentityNormalize.CapitalsFixed | backend/internal/binocolo/ma_filing_store.go:46-50 | A value of digits and capital letters is its own fiscal value and company key. |
| IdentityPlan.ExtractedIdentifiers | backend/internal/binocolo/ma_company_identity.go:141-171 | The identifiers of an observation are both fiscal codes and the vendor id, each exactly when present, one row a value with the roles merged, and every row satisfies the table constraints on namespace, value and roles. |
| IdentityPlan.Sighted | backend/internal/binocolo/ma_company_identity.go:251-253 | An observation's own VAT number, tax code and vendor id are what is read of it, with the company key it carries trimmed and in upper case. |
| IdentityPlan.PlanResolution | backend/internal/binocolo/ma_company_identity.go:233-358 | The planner loop over a batch of observations computes the specified plan; its conflicts are those of IdentityConflicts.ConflictsExactly, its other lists those of IdentityWrites.PlanLists. |
| IdentityPlan.PlanSightings | backend/internal/binocolo/ma_company_identity.go:248-356 | The loop body, updating claims, created and promoted sets and the plan lists in place, is the specified step, whose lists ConflictsExactly and PlanLists give row by row; the number of coined keys is the run's. |
| IdentityPlan.DetectInPlace | backend/internal/binocolo/ma_company_identity.go:269-299 | Detection over one observation's identifiers returns the specified key and conflict reports. |
| IdentityPlan.ClaimInPlace | backend/internal/binocolo/ma_company_identity.go:334-341 | Claiming writes the observation's identifiers, and only these, for its key. |
| IdentityClaims.Detection | backend/internal/binocolo/ma_company_identity.go:269-299 | Detection reports nothing exactly when every owner met is the one key it settles on. |
| IdentityClaims.StepOutcome | backend/internal/binocolo/ma_company_identity.go:251-356 | Each observation is reported missing, rejected with its conflicts, resolved to a fresh key or resolved to a key found; which one is decided by its own identifiers, its known prior key and the claims before it. The reports of a rejected one are spelled out by ConflictsExactly. |
| IdentityClaims.StepClaims | backend/internal/binocolo/ma_company_identity.go:269-341 | One step only adds claims; an accepted observation's identifiers all belong to its key afterwards, a rejected one changes no claim. |
| IdentityClaims.ClaimsGrow | backend/internal/binocolo/ma_company_identity.go:240-341 | Over a whole run claims never move to another company and never become blank, and the registry's owners stay. |
| IdentityClaims.Accepted | backend/internal/binocolo/ma_company_identity.go:269-341 | An accepted observation's key owns all its identifiers from then on, and equals its known prior key and every registry owner of its identifiers. |
| IdentityClaims.ClaimOrigin | backend/internal/binocolo/ma_company_identity.go:240-341 | Every claim the registry did not hold comes from an accepted observation that carries the identifier. |
| IdentityClaims.KeyIsOld | backend/internal/binocolo/ma_company_identity.go:300-306 | No key in use is one that is still to be coined, so fresh keys never collide. |
| IdentityConflicts.ConflictsComplete | backend/internal/binocolo/ma_company_identity.go:269-299 | Completeness: an observation whose identifiers have two registry owners, or an owner other than its known prior key, gets no key, is reported, and contributes no claim, attachment or entity. |
| IdentityConflicts.ConflictsSound | backend/internal/binocolo/ma_company_identity.go:269-299 | Soundness: every report is about some observation of the batch, names two different companies, and that observation got no key and contributed nothing. |
| IdentityConflicts.ConflictsExactly | backend/internal/binocolo/ma_company_identity.go:269-299 | The plan's conflicts are exactly, row by row and in the row's order, one report for each identifier claimed by another company than the one the row stands for: its known prior key, or else the first owner met. |
| IdentityConflicts.ConflictsReported | backend/internal/binocolo/ma_company_identity.go:279-298 | Every identifier of every row that belonged to another company than the row's is reported in the plan, with both companies and the row's session, run, target and company name. |
| IdentityConflicts.BothReported | backend/internal/binocolo/ma_company_identity.go:279-298 | A row with a known company and two identifiers of another one is reported twice. |
| IdentityConflicts.AcceptedKey | backend/internal/binocolo/ma_company_identity.go:269-306 | An accepted row gets the company it stands for, and a coined key when it stands for none. |
| IdentityConflicts.MissingExactly | backend/internal/binocolo/ma_company_identity.go:255-258 | The observations listed as missing are exactly those without identifiers and without a known prior key. |
| IdentityComponents.SameKeyIffConnected | backend/internal/binocolo/ma_company_identity.go:233-358 | In a clean plan two observations get the same key exactly when they are connected by shared identifiers, shared registry owners or known prior keys. |
| IdentityComponents.AnchorKey | backend/internal/binocolo/ma_company_identity.go:233-358 | An observation connected to an existing company gets that company's key. |
| IdentityComponents.OneEntityPerNewComponent | backend/internal/binocolo/ma_company_identity.go:301-328 | A clean plan creates exactly one company for each component that reaches no known company. |
| IdentityComponents.CoinsIffLeadsNew | backend/internal/binocolo/ma_company_identity.go:301-306 | The observation that coins a key is exactly the first one of an unanchored component. |
| IdentityComponents.EntitiesAreCoined | backend/internal/binocolo/ma_company_identity.go:301-328 | The new entities are the coined keys, in coining order. |
| IdentityComponents.PlanPartition | backend/internal/binocolo/ma_company_identity.go:233-358 | A clean plan gives every observation a key; keys are the connected components, anchored ones take their anchor's key and the others coined keys. |
| IdentityOrder.CleanOrdersAgree | backend/internal/binocolo/ma_company_identity.go:233-358 | Two clean plans over the same observations, in any order and with any repetition, group them alike, give anchored observations the same keys and create as many companies. |
| IdentityOrder.CleanIffNoBridge | backend/internal/binocolo/ma_company_identity.go:251-299 | A batch in a given order is resolved exactly when every observation has ground for an identity and none bridges two companies that the observations before it had not joined. |
| IdentityOrder.AcceptedIffPasses | backend/internal/binocolo/ma_company_identity.go:251-299 | The same condition, for one observation after any conflict-free prefix. |
| IdentityOrder.OrderDecides | backend/internal/binocolo/ma_company_identity.go:251-299 | On an empty registry three observations, a VAT number with a vendor id, the VAT number, the vendor id, are resolved in this order and a conflict when the first comes last. |
| IdentityArrangement.CleanInEveryOrderIff | backend/internal/binocolo/ma_company_identity.go:251-299 | A batch is resolved in every order exactly when every observation has ground, observations that share something with one share something with each other and refer to the same known companies, and none refers to two. |
| IdentityArrangement.CleanInSomeOrderIff | backend/internal/binocolo/ma_company_identity.go:251-299 | A batch is resolved in some order exactly when every observation has ground and no component refers to two known companies. |
| IdentityArrangement.OrderMattersIff | backend/internal/binocolo/ma_company_identity.go:251-299 | Exactly which batches are resolved in one order and rejected in another. |
| IdentityArrangement.GrownIsClean | backend/internal/binocolo/ma_company_identity.go:251-299 | An order that starts each component with an observation of its known company and goes on along shared identifiers is resolved. |
| IdentityWrites.RowServed | backend/internal/binocolo/ma_company_identity.go:308-355 | Every accepted observation has all its identifiers attached under its key, its company promoted or created fiscal when it brings a fiscal identifier, and its timed name planned or written with the new company. |
| IdentityWrites.AttachmentsAgree | backend/internal/binocolo/ma_company_identity.go:330-341 | The plan's attachments never disagree on an owner, with each other or with the registry as it was read. |
| IdentityWrites.KeyGround | backend/internal/binocolo/ma_company_identity.go:269-328 | Every key given out is a company that was read or a new entity of the plan. |
| IdentityWrites.FiscalExactly | backend/internal/binocolo/ma_company_identity.go:308-346 | The companies to create fiscal or to promote are exactly those the plan attaches a fiscal identifier to, also when the company was created vendor-only earlier in the batch. |
| IdentityWrites.NameRow | backend/internal/binocolo/ma_company_identity.go:348-355 | Every planned name is the trimmed non-blank name of a timed observation under that observation's key. |
| IdentityWrites.PlanLists | backend/internal/binocolo/ma_company_identity.go:300-355 | The plan's attachments, new companies, promotions and names are exactly what the rows with a key give, in their order and in full: one attachment an identifier, one company a coined key, one promotion a company, one name a timed named row that found its company. |
| IdentityRegistry.Registry.constructor | backend/internal/binocolo/ma_company_identity_store.go:174-204 | A transaction starts from the committed tables with no writes of its own. |
| IdentityRegistry.Registry.InsertCompany | backend/internal/binocolo/ma_company_identity_store.go:238-251 | The insert adds the company row unless the key is already visible, which is a constraint error. |
| IdentityRegistry.Registry.Attach | backend/internal/binocolo/ma_company_identity_store.go:299-340 | The upsert inserts the identifier row, merges roles and window when the owner is the same, and otherwise changes nothing and reports the owner; a missing company is a foreign-key error. |
| IdentityRegistry.Registry.Promote | backend/internal/binocolo/ma_company_identity_store.go:265-271 | The update turns a vendor-only company fiscal and touches nothing else. |
| IdentityRegistry.Registry.Observe | backend/internal/binocolo/ma_company_identity_store.go:345-360 | The statement replaces the name only for a newer observation time and a non-blank key and name; IdentityHistory.ObserveIsNextName says what it writes. |
| IdentityRegistry.Registry.Interfere | backend/internal/binocolo/ma_company_identity_store.go:174-204 | Before each statement other transactions' commits become visible; own writes stay. |
| IdentityRegistry.Registry.Once | backend/internal/binocolo/ma_company_identity_store.go:206-280 | One attempt, reads, plan and writes in the source's order, ends in the specified state and outcome. |
| IdentityRegistry.Registry.Write | backend/internal/binocolo/ma_company_identity_store.go:238-280 | The write phase stops at the first failing statement and otherwise returns the plan's keys. |
| IdentityRegistry.Registry.AttachRows | backend/internal/binocolo/ma_company_identity_store.go:253-257 | The attachment loop, with its early exit on a race, is the specified fold. |
| IdentityRegistry.Registry.PromoteRows | backend/internal/binocolo/ma_company_identity_store.go:259-272 | The promotion loop is the specified fold. |
| IdentityRegistry.Registry.ObserveRows | backend/internal/binocolo/ma_company_identity_store.go:274-278 | The name loop is the specified fold. |
| IdentityRegistry.Registry.Resolve | backend/internal/binocolo/ma_company_identity_store.go:174-204 | The retry loop with savepoint and rollback computes the specified state and outcome of the batch. |
| IdentityRely.AttachGood | backend/internal/binocolo/ma_company_identity_store.go:282-340 | An attach that lands never changes an owner, never loses a role, and keeps first seen no later than last seen. |
| IdentityRely.PromoteGood | backend/internal/binocolo/ma_company_identity_store.go:259-272 | A promotion never demotes a state and keeps every other row. |
| IdentityRely.ObserveGood | backend/internal/binocolo/ma_company_identity_store.go:345-360 | A name write only ever moves the observation time forward. |
| IdentityRely.DisturbGood | backend/internal/binocolo/ma_company_identity_store.go:174-204 | Legal interference keeps the tables sound, the transaction's own rows visible and the remaining fresh keys unused. |
| IdentityGuarantee.DisturbedState | backend/internal/binocolo/ma_company_identity_store.go:259-272 | Interference keeps "fiscal exactly when it owns a fiscal identifier" for every visible company. |
| IdentityGuarantee.InsertPhase | backend/internal/binocolo/ma_company_identity_store.go:238-251 | The inserts of a plan never hit a constraint and leave the registry consistent except for companies still waiting for their fiscal identifier. |
| IdentityGuarantee.AttachPhase | backend/internal/binocolo/ma_company_identity_store.go:253-257 | The attachments of a plan either all land or stop at an identifier that somebody else committed after it was read. |
| IdentityGuarantee.AttachPhaseAt | backend/internal/binocolo/ma_company_identity_store.go:253-257 | After the attach phase each planned identifier is owned by its planned company with its roles and time covered. |
| IdentityGuarantee.PromotePhaseAt | backend/internal/binocolo/ma_company_identity_store.go:259-272 | After the promotions each promoted company is fiscal. |
| IdentityGuarantee.ObservePhaseAt | backend/internal/binocolo/ma_company_identity_store.go:274-278 | After the name writes each company named by the plan has a name at least as recent. |
| IdentityAttempt.ReadsValid | backend/internal/binocolo/ma_company_identity_store.go:206-229 | What an attempt reads meets the planner's assumptions: fresh keys are unused, owners and known keys exist. |
| IdentityAttempt.PlanInsertable | backend/internal/binocolo/ma_company_identity_store.go:238-251 | The plan's new entities have distinct unused keys and are fiscal only when the plan attaches a fiscal identifier to them. |
| IdentityAttempt.PlanAttachable | backend/internal/binocolo/ma_company_identity_store.go:253-257 | Every planned attachment goes to a visible company and agrees with the rows that were read. |
| IdentityAttempt.FinalSettled | backend/internal/binocolo/ma_company_identity_store.go:206-280 | After a full attempt each observation's company exists, owns all its identifiers, has its roles, window, state and name covered. |
| IdentityAttempt.FinalConsistent | backend/internal/binocolo/ma_company_identity_store.go:206-280 | After a full attempt every company is fiscal exactly when it owns a fiscal identifier. |
| IdentityResolver.AttemptOutcome | backend/internal/binocolo/ma_company_identity_store.go:206-280 | One attempt never hits a constraint: it succeeds completely, or fails without a write of its own, or loses a race to a foreign commit of one of its identifiers. |
| IdentityResolver.FailureSaid | backend/internal/binocolo/ma_company_identity_store.go:228-257 | A failed attempt names the first observation without ground, or else lists every report of the plan in order; a race names an identifier of a row, the owner others have committed and the row's different company. |
| IdentityResolver.CreatedHasId | backend/internal/binocolo/ma_company_identity_store.go:238-257 | No orphans: a company the attempt created owns an identifier. |
| IdentityResolver.RollbackGood | backend/internal/binocolo/ma_company_identity_store.go:179-203 | Rolling back to the savepoint leaves nothing but other transactions' commits. |
| IdentityResolver.ResolveContract | backend/internal/binocolo/ma_company_identity_store.go:174-204 | Under every legal interference success returns keys that own every identifier of their observation, keeps known prior keys, every earlier owner and the state rule, and leaves no orphan; conflict, missing and exhausted retries leave none of the resolver's own writes. |
| IdentityResolver.RacesArePaid | backend/internal/binocolo/ma_company_identity_store.go:179-203 | Each lost attempt is matched by a different identifier of the batch that others committed meanwhile, so with fewer than three identifiers free at the start the attempts never run out. |
| IdentityRaces.BoundIsSharp | backend/internal/binocolo/ma_company_identity_store.go:179-203 | The bound is sharp: a legal environment takes one of three free identifiers in each attempt, all three are lost and the batch ends in the conflict of the last race. |
| IdentityResolver.QuietAttemptNeverRaces | backend/internal/binocolo/ma_company_identity_store.go:179-203 | An attempt during which nobody commits an identifier of the batch is not lost. |
| IdentityResolver.FirstUnlostDecides | backend/internal/binocolo/ma_company_identity_store.go:179-203 | The batch ends as its first attempt that is not lost, in success or in a genuine conflict or missing row. |
| IdentityResolver.LastRaceReported | backend/internal/binocolo/ma_company_identity_store.go:174-204 | When every attempt is lost the outcome is the conflict of the last race, and none of the resolver's own writes is left. |
| IdentityResolver.CommitIsLegalInterference | backend/internal/binocolo/ma_company_identity_store.go:174-204 | Committing a resolved batch is a legal interference for any other resolver that has locked none of the rows written, so resolvers may rely on each other. |
| IdentityReplay.ReplayChangesNothing | backend/internal/binocolo/ma_company_identity_store.go:206-280 | Under any legal interference, observations whose content is recorded resolve to their companies and no write shows, exactly when no other company is visible, at the second read, under a key that one of them carries; otherwise it is a conflict. |
| IdentityReplay.LaterReplay | backend/internal/binocolo/ma_company_identity_store.go:174-280 | After a successful resolve any selection of its observations, in any order, at any later time, in any transaction with its own keys and under any legal interference, resolves to the same keys without a visible write under exactly that condition, and is a conflict otherwise. |
| IdentityReplay.CommittedReplay | backend/internal/binocolo/ma_company_identity_store.go:174-280 | The same in a new transaction that starts from the committed resolve. |
| IdentityReplay.ResolveThenReplay | backend/internal/binocolo/ma_company_identity_store.go:174-280 | The same inside the transaction of the resolve. |
| IdentityReplay.QuietReplay | backend/internal/binocolo/ma_company_identity_store.go:174-280 | When nobody else commits, the replay returns the same keys exactly when no other company is visible at the end of the resolve under a key that a picked observation carries. |
| IdentityReplay.ReplayCanConflict | backend/internal/binocolo/ma_company_identity_store.go:174-280 | A legal environment and one observation whose resolve succeeds and whose replay is a conflict: a company appears meanwhile under the key it carries. |
| IdentityReplay.UnwrittenDisturbed | backend/internal/binocolo/ma_company_identity_store.go:174-280 | Writes that show nothing go on showing nothing whatever others commit. |
| IdentityReplay.EmptyStart | backend/internal/binocolo/ma_company_identity_store.go:40-42 | An empty registry and a supply of numbered keys meet every assumption of the resolver's results. |
| IdentityHistory.AttachIsNextRow | backend/internal/binocolo/ma_company_identity_store.go:299-340 | The attach statement changes the identifier's visible row as specified and no other row. |
| IdentityHistory.RowHistory | backend/internal/binocolo/ma_company_identity_store.go:282-322 | Over any sequence of attachments roles are the OR of all observed roles and the window is exactly the least and greatest instant that counts, so first seen is never after last seen. |
| IdentityHistory.AttachAllFolds | backend/internal/binocolo/ma_company_identity_store.go:253-257 | Attaching a plan, under any legal interference, leaves each identifier's visible row as the fold of its own attachments over the row that was there when the first of them ran. |
| IdentitySerial.CallFolds | backend/internal/binocolo/ma_company_identity_store.go:174-280 | One resolve with nobody else around leaves each identifier's row as the fold of what its plan attaches over the row before. |
| IdentitySerial.RunFolds | backend/internal/binocolo/ma_company_identity_store.go:282-322 | After any number of resolves, one at a time, each identifier's row is the fold of everything applied to it. |
| IdentitySerial.RunRowHistory | backend/internal/binocolo/ma_company_identity_store.go:282-322 | So an identifier that entered during a run of transactions has the OR of all roles observed and the least and greatest instant that counts over all of them, and the owner of its first attachment. |
| IdentityHistory.TimedOrderIrrelevant | backend/internal/binocolo/ma_company_identity_store.go:282-322 | When every attachment is timed the resulting row does not depend on their order. |
| IdentityHistory.ObserveIsNextName | backend/internal/binocolo/ma_company_identity_store.go:345-360 | A real and newer observation gives the company its trimmed name, its instant and its source and changes nothing else of it; any other changes nothing, and no other company is touched. |
| IdentityHistory.NameHistory | backend/internal/binocolo/ma_company_identity_store.go:342-360 | After any sequence the company has the trimmed name, the instant and the source of the observation with the greatest time, the earliest applied on a tie, with its state and origin; it is unchanged exactly when nothing newer came. |
| IdentityHistory.ObserveAllFolds | backend/internal/binocolo/ma_company_identity_store.go:274-278 | Writing the names of a plan, under any legal interference, applies each company's own observations in order with growth by others in between; with none, so that the company is their fold, when its row is locked or nobody else commits. |
| IdentityNames.FoundName | backend/internal/binocolo/ma_company_identity_store.go:342-360 | After a resolve with nobody else around a company that was there has the trimmed name, instant and source of the latest newer row that names it, the first row on a tie, and its own name when none is newer. |
| IdentityNames.CreatedName | backend/internal/binocolo/ma_company_identity_store.go:259-278 | A company that was not there has the name, instant and source of the row that created it, an untimed row naming it without an instant, unless a later row is newer: then those of the latest one. |
| IdentityHistory.TransactionKeeps | backend/internal/binocolo/ma_company_identity_store.go:174-280 | One committed or rolled-back transaction keeps the registry sound and consistent and only lets it grow. |
| IdentityHistory.RunInvariant | backend/internal/binocolo/ma_company_identity_store.go:259-272 | Over every run of resolves a company is fiscal exactly when it owns a fiscal identifier; owners never move, no state is demoted, no role is lost. |
| SearchCache.Store.constructor | backend/internal/binocolo/company_search_cache.go:62-88 | The cache starts without a row for the key. |
| SearchCache.Store.GetValid | backend/internal/binocolo/company_search_cache.go:62-88 | A row is returned exactly when it has not expired, and then only its serving counters change; otherwise nothing changes. |
| SearchCache.Store.Upsert | backend/internal/binocolo/company_search_cache.go:114-171 | The row becomes the response with expiry one TTL after the fetch and cleared counters. |
| CacheGuarantees.Invariant | backend/internal/binocolo/companies.go:64-121 | Every state reachable by any interleaving of any number of requests keeps mutual exclusion, time-ordered writes, TTL spacing and soundness of each request's local facts. |
| CacheGuarantees.AtMostOneFetch | backend/internal/binocolo/companies.go:82-121 | In every interleaving at most one vendor call is in flight. |
| CacheGuarantees.WritesSpaced | backend/internal/binocolo/companies.go:82-121 | Writes are ordered by fetch time, and one by a request that was not forced is at least 24 hours after every earlier write. |
| CacheGuarantees.ServedSound | backend/internal/binocolo/companies.go:64-121 | Every response is the requester's own recorded fetch or a recorded entry unexpired at its check, and a forced request is never served from the cache. CacheReplies.Explained ties the fetch to the vendor's reply. |
| CacheReplies.Explained | backend/internal/binocolo/companies.go:64-121 | In every run an own answer is the vendor's reply to that very request, given while its call was in flight and stamped with the clock after it; an answer from the cache is the last write at its check, unexpired at an instant the request itself read; a failure follows an error or a call without reply. |
| CacheReplies.WritesAreReplies | backend/internal/binocolo/companies.go:94-118 | Every write after the start is the vendor's reply to its writer. |
| CacheReplies.ReplyIsAnswer | backend/internal/binocolo/companies.go:94-119 | A request whose call gets a reply answers with that reply unless something fails after it. |
| CacheReplies.HitIsAnswer | backend/internal/binocolo/companies.go:64-93 | A request that looks and finds the row unexpired is answered with it, whatever happens later, and is counted in the row. |
| CacheReplies.LooksTwice | backend/internal/binocolo/companies.go:64-94 | A request that is not forced waits for the lock only after one look at the row in vain, and calls the vendor only after a second one under the lock. |
| CacheReplies.ForceIsAsked | backend/internal/binocolo/companies.go:64-83 | A request is forced exactly when it arrived so. |
| CacheGuarantees.MovesOrWaits | backend/internal/binocolo/companies.go:64-121 | A request's turn brings it closer to its answer unless it waits for a lock somebody holds, and changes no other request. |
| CacheGuarantees.NoDeadlock | backend/internal/binocolo/company_search_cache.go:90-112 | While a request is unanswered some request can move whatever happens to it, and the lock holder always can. |
| DecimalIT.IncrementDecimalString | backend/internal/aenad/pdf.go:322-335 | The in-place increment returns a string of the same length whose value is one more, or all zeros and the overflow flag. |
| DecimalIT.HalfDigit | backend/internal/aenad/pdf.go:288-293 | Looking at the first digit cut off decides whether the rest is at least half a unit. |
| DecimalIT.CarryValue | backend/internal/aenad/pdf.go:294-303 | A carry out of the decimals into the integer part, one digit longer if needed, adds exactly one unit. |
| DecimalIT.RoundDigits | backend/internal/aenad/pdf.go:288-308 | The kept digits are exactly d decimals and denote the amount rounded half up. |
| DecimalIT.ReadDisplay | backend/internal/aenad/pdf.go:310-317 | Reading the displayed form, grouping dots, comma and sign, gives back the digits it was made of. |
| DecimalIT.DisplayExample | backend/internal/aenad/pdf.go:310-317 | 24276 and decimals 13 are displayed as 24.276,13. |
| DecimalIT.WriteDisplay | backend/internal/aenad/pdf.go:310-317 | Sign, grouped integer part and decimals are put together as specified, whatever the characters. |
| DecimalIT.DecimalToIT | backend/internal/aenad/pdf.go:266-318 | Exactly the digit strings with at most one point and an optional minus are accepted, as AcceptedAmounts spells out, and what is shown reads back as the amount rounded half up with its sign kept. |
| DecimalIT.AcceptedAmounts | backend/internal/aenad/pdf.go:268-286 | A trimmed amount is accepted exactly when it is an optional minus, digits, and possibly one point with digits after it, each part possibly empty. |
| DecimalIT.FormatQtaIT | backend/internal/aenad/pdf.go:245-267 | A numeric quantity reads back exactly; any non-blank value is shown as sign, grouped integer part and decimals without trailing zeros. |
| Thousands.GroupThousandsIT | backend/internal/aenad/pdf.go:337-350 | The left-to-right loop, over characters with an index in bytes, computes the grouping of any text without its leading zeros. |
| Thousands.GroupingOfDigits | backend/internal/aenad/pdf.go:337-350 | On digits that is the grouping by triples from the right. |
| Thousands.GroupedShape | backend/internal/aenad/pdf.go:337-350 | In a grouping of digits a dot stands exactly before every third digit from the right, and not in front. |
| Thousands.UngroupGrouping | backend/internal/aenad/pdf.go:337-350 | On any text the grouping only inserts dots. |
| Thousands.InsertDots | backend/internal/binocolo/ma_deep_cee.go:278-282 | The right-to-left insertion computes the same grouping. |
| Thousands.EmittedIsGrouped | backend/internal/aenad/pdf.go:337-350 | Emitting a dot before every position a multiple of three from the end is the grouping by triples. |
| Thousands.UngroupGrouped | backend/internal/aenad/pdf.go:337-350 | Removing the dots of a grouping gives back the digits. |
| Thousands.FormatEUR | backend/internal/binocolo/ma_deep_cee.go:275-287 | The euro figure is the grouping of the rounded magnitude with its sign and currency. |
| Thousands.GroupBothWays | backend/internal/binocolo/ma_deep_cee.go:278-282 | For every natural number both algorithms write the same string, and dropping its dots gives its decimal digits. |
| NormalizeDecimal.NormalizeInPlace | backend/internal/aenad/documents.go:649-668 | The successive rewrites compute the specified normal form or error. |
| NormalizeDecimal.AcceptedSpellings | backend/internal/aenad/documents.go:646-668 | Exactly these spellings are accepted, each with its canonical form: optional minus, digits or a bare separator first, dot or comma, and a trailing separator even after decimals. |
| NormalizeDecimal.TrailingSeparatorPasses | backend/internal/aenad/documents.go:646-668 | The malformed 1.5. is accepted as 1.5. |
| NormalizeDecimal.OutputIsFixedPoint | backend/internal/aenad/documents.go:646-668 | Every value handed on is a fixed point, matches the pattern and is accepted for display. |
| NormalizeDecimal.PatternFixed | backend/internal/aenad/documents.go:38 | Every string of the pattern is its own normal form. |
| DescHtml.ScanLine | backend/internal/aenad/pdf.go:404-447 | The scanning loop with its bold and italic flags writes the specified pieces, closing what is open at the end of the line. |
| DescHtml.DescToHTML | backend/internal/aenad/pdf.go:394-450 | The description becomes its lines' HTML joined by line breaks, with CRLF read as a line feed. |
| DescHtml.UnescapeEscape | backend/internal/aenad/pdf.go:392 | Escaping loses nothing: unescaping gives the text back. |
| DescHtml.ScanText | backend/internal/aenad/pdf.go:404-447 | The literal characters written for a line are the line without its marker pairs. |
| DescHtml.KeptEscape | backend/internal/aenad/pdf.go:392-447 | Escaping first and dropping markers first give the same text. |
| DescHtml.HtmlReadsBack | backend/internal/aenad/pdf.go:394-450 | Dropping the tags, turning breaks into line feeds and unescaping the HTML yields the description minus exactly the consumed markers. |
| DescLines.CrlfIsBreak | backend/internal/aenad/pdf.go:401-449 | A CRLF is exactly one line break between the HTML of what stands before it and that of what stands after it. |
| DescLines.FeedIsBreak | backend/internal/aenad/pdf.go:401-449 | So is a line feed that no carriage return precedes. |
| DescLines.OneLineHtml | backend/internal/aenad/pdf.go:397-449 | A description without a line feed is the HTML of its one line. |
| DescLines.WordsStyled | backend/internal/aenad/pdf.go:405-446 | Two asterisks around a word make it bold, two slashes italic, three asterisks keep one on each side inside the bold, and a marker nobody closes is closed at the end of the line. |
| DescLines.BothClosed | backend/internal/aenad/pdf.go:441-446 | Styles still open at the end of a line are closed there, bold before italic. |
| DescLines.AddressKept | backend/internal/aenad/pdf.go:428-439 | Slashes after a colon are an address and stay. |
| DescHtml.SpecialsEscaped | backend/internal/aenad/pdf.go:403 | Ampersand and angle brackets become their entities, every other character stays. |
| DescHtml.TagsAlternate | backend/internal/aenad/pdf.go:404-447 | On every line the tags of each style open and close in turn and none stays open. |
| DescHtml.StarRun | backend/internal/aenad/pdf.go:407-427 | Where the scan stands before a maximal run of asterisks it writes the run's own pieces and goes on after it. |
| DescHtml.ScanReaches | backend/internal/aenad/pdf.go:404-447 | The scan of a line reaches every place where no run goes on, with the flags that the text before it leaves. |
| DescHtml.StarsInLine | backend/internal/aenad/pdf.go:407-427 | A maximal run of n asterisks anywhere in an escaped line is written as its own pieces, between those of the text before and after it. |
| DescHtml.StarsInHtml | backend/internal/aenad/pdf.go:402-448 | In the HTML of a line of the description a maximal run of n asterisks stands as its n div 2 bold tags and n mod 2 asterisks, between the HTML of the text before and after it. |
| DescHtml.FlagsAreParity | backend/internal/aenad/pdf.go:404-447 | A style is open after a text exactly when an odd number of its tags has been written. |
| DescHtml.StarPiecesCount | backend/internal/aenad/pdf.go:407-427 | A run of n asterisks becomes n div 2 bold tags and n mod 2 literal asterisks. |
| DescHtml.OddStarIsBold | backend/internal/aenad/pdf.go:407-417 | The odd asterisk of a run of three or more stays inside the bold style. |
| DescHtml.SlashRun | backend/internal/aenad/pdf.go:428-440 | Where the scan stands before a maximal run of slashes it writes the run's own pieces; after a colon its first slash is literal. |
| DescHtml.SlashesInLine | backend/internal/aenad/pdf.go:428-440 | A maximal run of slashes anywhere in an escaped line is written as its own pieces, its first slash literal exactly when the text before it ends with a colon. |
| DescHtml.SlashesInHtml | backend/internal/aenad/pdf.go:402-448 | The same for slashes in the HTML of a line of the description. |
| DescHtml.SlashPiecesCount | backend/internal/aenad/pdf.go:428-440 | The pairable slashes of a run, all but the first after a colon, become half as many italic tags, and the rest stays literal. |
| ArchivePaths.SafeFilenamePlain | backend/internal/afctools/rda_ddt.go:368-393 | A sanitized name is one plain path element: not empty, not a dot name, no separator, no control character. CleanNameIs says which name it is. |
| ArchivePaths.CleanNameIs | backend/internal/afctools/rda_ddt.go:368-393 | An attachment keeps the last path element of its trimmed file name, whichever separators stand around it, without control characters; it is named after its id exactly when no name is left. |
| ArchivePaths.DropControlsOne | backend/internal/afctools/rda_ddt.go:383-388 | The characters below the space and the delete character are dropped, and no others. |
| ArchivePaths.DropControlsJoin | backend/internal/afctools/rda_ddt.go:383-388 | Each character is judged by itself. |
| ArchivePaths.PlainNameKept | backend/internal/afctools/rda_ddt.go:368-393 | A plain name is kept as it is, whatever directories stand before it. |
| ArchivePaths.NameTryPlain | backend/internal/afctools/rda_ddt.go:349-361 | Every candidate with its id and suffix is one plain path element too. |
| ArchivePaths.TriesDistinct | backend/internal/afctools/rda_ddt.go:352-360 | Candidates with different suffixes are different paths. |
| ArchivePaths.TriesRunOut | backend/internal/afctools/rda_ddt.go:355-360 | The suffix search ends: more suffixed candidates than paths in use cannot all be taken. |
| ArchivePaths.PickPath | backend/internal/afctools/rda_ddt.go:349-361 | The search picks the first candidate not in use. |
| ArchivePaths.BuildPaths | backend/internal/afctools/rda_ddt.go:343-366 | Each attachment gets its first free candidate; the paths are pairwise distinct, each the order's folder and one plain name, none the manifest. |
| ArchivePaths.PathGiven | backend/internal/afctools/rda_ddt.go:343-366 | The path is PO- with the order's id, a slash and the attachment's name when no earlier row has that; otherwise the name with the attachment's id before its extension, and with the least free number from 2 on when that is taken too. |
| ArchivePaths.PathsSafe | backend/internal/afctools/rda_ddt.go:304-366 | First-free choice alone makes the paths distinct, confined to their folder and different from the manifest name. |
| ArchivePaths.FolderPlain | backend/internal/afctools/rda_ddt.go:347 | The folder name holds no separator. |
| AtecoRetrieval.Select | backend/internal/binocolo/ma_ateco_retrieval.go:170-187 | The matched concepts are the best-first prefix at or above the relative cut, up to the cap; nothing below the floor; the top concept is always core. |
| AtecoRetrieval.TakeBest | backend/internal/binocolo/ma_ateco_retrieval.go:176-187 | The selection loop with its two exits takes exactly that prefix. |
| AtecoRetrieval.Collect | backend/internal/binocolo/ma_ateco_retrieval.go:276-311 | The include and exclude passes keep the first entry of every search code that is not skipped, with the set of codes seen and the set of core codes. |
| AtecoRetrieval.ResolveFit | backend/internal/binocolo/ma_ateco_retrieval.go:266-350 | The three passes compute the specified candidates and missing codes, or fail when the catalogue fails. |
| AtecoRetrieval.NormalizeCodeIdempotent | backend/internal/binocolo/ma_rules.go:478-482 | A normalized code is its own normal form and keeps its search code. |
| AtecoRetrieval.CleanCodeKept | backend/internal/binocolo/ma_rules.go:478-482 | A code without blanks and small letters, such as 62.01, is kept with its dots, and in any letter case it gives the same code. |
| AtecoRetrieval.Kept6201 | backend/internal/binocolo/ma_rules.go:478-482 | 62.01 is kept as 62.01. |
| AtecoRetrieval.DotsIgnored | backend/internal/binocolo/ateco.go:391-393 | Dots do not matter for a search code. |
| AtecoRetrieval.DottedSearched | backend/internal/binocolo/ateco.go:391-393 | A dotted code is searched for without its dot. |
| AtecoRetrieval.IncludeAt | backend/internal/binocolo/ma_ateco_retrieval.go:276-296 | With concepts best first, an include takes the fit of the best concept that claims it, and is core exactly when some concept at or above the core cut includes it. |
| AtecoRetrieval.ExcludedSetIs | backend/internal/binocolo/ma_ateco_retrieval.go:297-311 | The excluded codes are exactly those some concept excludes and no concept at or above the core cut includes. |
| AtecoRetrieval.CandidateFollowsVerdict | backend/internal/binocolo/ma_ateco_retrieval.go:258-350 | Every candidate has the fit of the order-free rule for its search code and names the best concept for it. |
| AtecoRetrieval.CandidateSource | backend/internal/binocolo/ma_ateco_retrieval.go:312-350 | Each candidate is the catalogue's code for a code its concept includes, or the code its concept excludes, normalized. |
| AtecoRetrieval.CandidatesOrdered | backend/internal/binocolo/ma_ateco_retrieval.go:276-350 | Included candidates stand before excluded ones, and either kind in the order of the concepts. |
| AtecoRetrieval.BrokenIff | backend/internal/binocolo/ma_ateco_retrieval.go:312-340 | Nothing is emitted exactly when the catalogue fails for an include that is not skipped. |
| AtecoRetrieval.CandidatesDistinct | backend/internal/binocolo/ma_ateco_retrieval.go:258-350 | No search code is emitted twice. |
| AtecoRetrieval.VerdictIsEmitted | backend/internal/binocolo/ma_ateco_retrieval.go:258-350 | Every code the rule gives a fit is emitted with it, unless it is an include the catalogue lacks, which is reported. |
| AtecoRetrieval.MissingIsIncluded | backend/internal/binocolo/ma_ateco_retrieval.go:322-326 | What is reported missing is a core or weak include that the catalogue does not have. |
| Cosine.KbCosine | backend/internal/binocolo/ma_ateco_retrieval.go:540-557 | The loop's three sums give the cosine of the whole vectors, 0 for different lengths or a zero vector. |
| Cosine.CauchySchwarz | backend/internal/binocolo/ma_ateco_retrieval.go:546-552 | The square of the dot product never exceeds the product of the squared norms. |
| Cosine.NormNonNegative | backend/internal/binocolo/ma_ateco_retrieval.go:546-555 | A squared norm is not negative and is zero only for the zero vector. |
| Cosine.CosineSquared | backend/internal/binocolo/ma_ateco_retrieval.go:556 | The cosine has the dot product's sign, and its square times the squared norms is the squared dot product. |
| Cosine.CosineBounded | backend/internal/binocolo/ma_ateco_retrieval.go:540-557 | The cosine lies between -1 and 1. |
| Cosine.CosineScales | backend/internal/binocolo/ma_ateco_retrieval.go:540-557 | A positive factor on either vector leaves the cosine unchanged. |
| Cosine.CosineSymmetric | backend/internal/binocolo/ma_ateco_retrieval.go:540-557 | The cosine of two vectors does not depend on their order. |
| SignalWeights.CatalogIsValid | backend/internal/binocolo/ma_catalog.go:74-87 | The catalogue's ids are distinct and its bases positive. |
| SignalWeights.BudgetsSum | backend/internal/binocolo/ma_catalog.go:105-119 | For every thesis, known or not, the family budgets are positive and sum to 100. |
| SignalWeights.BudgetsNamed | backend/internal/binocolo/ma_catalog.go:89-119 | The budgets of a thesis by its name, in any letter case and with spaces around it: successione 30, 50, 20; crescita 35, 20, 45; consolidamento 50, 25, 25; tuck_in, tuckin and tuck-in 45, 30, 25; everything else 40, 30, 30. |
| SignalWeights.TuckInSpelled | backend/internal/binocolo/ma_catalog.go:89-119 | Tuck-In with spaces around it has the budgets 45, 30 and 25. |
| SignalWeights.Bases | backend/internal/binocolo/ma_catalog.go:128-141 | The first loop records the base, or positive override, of exactly the intended signals and the base sum of every family. |
| SignalWeights.SumActive | backend/internal/binocolo/ma_catalog.go:143-150 | Adding the budgets of the active families in any order gives the active budget. |
| SignalWeights.NominalWeights | backend/internal/binocolo/ma_catalog.go:124-165 | Exactly the intended signals get a weight, and it is the specified one. |
| SignalWeights.WeightPositive | backend/internal/binocolo/ma_catalog.go:121-165 | Every weight is positive. |
| SignalWeights.FamilyShare | backend/internal/binocolo/ma_catalog.go:143-163 | A family's weights add up to its thesis budget scaled to the active families, and to nothing for a family without intended signals. |
| SignalWeights.WeightsProportional | backend/internal/binocolo/ma_catalog.go:128-163 | Within a family weights are proportional to the bases, a positive override standing for the default. |
| SignalWeights.DefaultWeights | backend/internal/binocolo/ma_catalog.go:74-163 | A generic strategy that intends everything but the succession signal, without overrides, has the catalogue's bases as weights. |
| SignalWeights.TotalIs100 | backend/internal/binocolo/ma_catalog.go:121-165 | The weights of a strategy that intends any signal sum to exactly 100. |
| SignalWeights.RaisedSignal | backend/internal/binocolo/ma_catalog.go:134-163 | Raising a signal's override never lowers its weight, and raises it exactly when another intended signal stands in its family. |
| SignalWeights.RaisedOthers | backend/internal/binocolo/ma_catalog.go:134-163 | It strictly lowers the other signals of the family and leaves every other family unchanged. |
| SignalWeights.LoneSignalStays | backend/internal/binocolo/ma_catalog.go:134-163 | The keyword signal alone in its family keeps its weight when its override is raised from 5 to 50. |
| CanonicalFiling.SelectMatches | backend/internal/binocolo/ma_deep_adjusted.go:155-173 | The loop computes the list of aligned filings. |
| CanonicalFiling.MatchingCounts | backend/internal/binocolo/ma_deep_adjusted.go:155-173 | Exactly the filings that are validated or overridden and close on the exercise's day are kept, each as often as listed. |
| CanonicalFiling.MatchingInOrder | backend/internal/binocolo/ma_deep_adjusted.go:155-173 | They stay in the order of the list. |
| CanonicalFiling.OneDepositIff | backend/internal/binocolo/ma_deep_adjusted.go:175-216 | Digests show one deposit exactly when every one is present with some figure and all four figures agree, a missing one only with a missing one. |
| CanonicalFiling.Decide | backend/internal/binocolo/ma_deep_adjusted.go:218-239 | It resolves exactly when there are at least two candidates with as many digests, all readable and pairwise equal, and elects the first best candidate. |
| CanonicalFiling.Elect | backend/internal/binocolo/ma_deep_adjusted.go:232-237 | The election loop returns the first candidate that no other beats. |
| CanonicalFiling.ElectedIff | backend/internal/binocolo/ma_deep_adjusted.go:232-250 | The elected filing in full: no candidate is better anchored, none of the same anchoring is more recent, and none of the same anchoring and instant is listed earlier. |
| CanonicalFiling.VendorWins | backend/internal/binocolo/ma_deep_adjusted.go:241-250 | An upload is elected only when no candidate is vendor-anchored, and nothing of the elected rank is more recent. |
| CanonicalFiling.ElectedUnique | backend/internal/binocolo/ma_deep_adjusted.go:232-237 | A list of candidates elects one filing only. |
| CanonicalFiling.OrderMattersIff | backend/internal/binocolo/ma_deep_adjusted.go:208-250 | The elected filing is the same in every order of the candidates exactly when it is better than every other candidate. |
| CanonicalFiling.DistinctTimesDecide | backend/internal/binocolo/ma_deep_adjusted.go:208-250 | Different creation times are enough for order independence. |
| CanonicalFiling.TieGoesToTheFirst | backend/internal/binocolo/ma_deep_adjusted.go:232-250 | Two uploads created at the same instant: the one listed first is elected. |
| CanonicalFiling.OneDepositPermuted | backend/internal/binocolo/ma_deep_adjusted.go:218-231 | Whether the digests show one deposit does not depend on their order. |
| CanonicalFiling.ResolveCanonical | backend/internal/binocolo/ma_deep_adjusted.go:252-285 | A blank fiscal key gives nothing; otherwise no aligned filing gives none, one gives itself, more give the election or an ambiguity counting the candidates, always with the number of filings listed. |
| AdjustedValuation.SumPermuted | backend/internal/binocolo/ma_deep_adjusted.go:338-346 | The sum of a treatment does not depend on the order of the adjustments. |
| AdjustedValuation.SumOne | backend/internal/binocolo/ma_deep_adjusted.go:338-346 | One adjustment counts in full under its own treatment and not under another. |
| AdjustedValuation.SumAppend | backend/internal/binocolo/ma_deep_adjusted.go:338-346 | The sums of two lists add up. |
| AdjustedValuation.SumBoth | backend/internal/binocolo/ma_deep_adjusted.go:338-346 | The loop's two accumulators are the sums by treatment, other treatments ignored. |
| AdjustedValuation.Band | backend/internal/binocolo/ma_deep_adjusted.go:379-400 | The extremes that rest on EBITDA are recomputed as specified, in the figures of EbitdaBand, and one on sales is kept. |
| AdjustedValuation.EbitdaBand | backend/internal/binocolo/ma_deep_adjusted.go:310-400 | Both ends of a recomputed band in the figures given: the low end rests on the prudential EBITDA exactly when that is positive and, where there is a positive turnover, 100 times it reaches the threshold times the turnover, and on the reported one otherwise; the haircut counts between none and 95 percent. |
| AdjustedValuation.ThresholdDecides | backend/internal/binocolo/ma_deep_adjusted.go:310-400 | With a margin of 8 percent the low end is 383 at a threshold of 5 and 468 at a threshold of 9; at 5 with a haircut of 20 percent it is 306. |
| AdjustedValuation.EquityFigures | backend/internal/binocolo/ma_deep_adjusted.go:362-441 | The prudential EBITDA moves by the EBITDA sum; with a bridge, debt is the scorecard's plus the debt sum, both equity ends are the rounded enterprise value less debt and the two funds, and the bridge shows just these with its inherited rows; without one there is neither debt nor equity. |
| AdjustedValuation.RoundIsNearest | backend/internal/binocolo/ma_deep_adjusted.go:382-400 | Rounding gives the nearest whole number, the one farther from zero of two equally near. |
| AdjustedValuation.Rebuild | backend/internal/binocolo/ma_deep_adjusted.go:410-441 | The bridge is rebuilt with the adjusted debt, inherited rows and rounded equity ends. |
| AdjustedValuation.BuildAdjusted | backend/internal/binocolo/ma_deep_adjusted.go:334-443 | The adjusted valuation depends on the two sums only, by the figures of EbitdaBand and EquityFigures, and the second result says exactly when an EBITDA change was withheld from a sales-based extreme. |
| AdjustedValuation.OrderIrrelevant | backend/internal/binocolo/ma_deep_adjusted.go:334-443 | Reordering the adjustments changes nothing. |
| AdjustedValuation.AdjustmentsInherit | backend/internal/binocolo/ma_deep_adjusted.go:326-333 | Method, multiple, haircut, staff fund, tax fund and shareholder loans are inherited, and a value on sales is never moved. |
| AdjustedValuation.DebtMovesEquity | backend/internal/binocolo/ma_deep_adjusted.go:403-441 | Extra net debt d leaves both enterprise values and moves both equity ends by -d within one euro when there is a bridge. |
| AdjustedValuation.SlackIsReached | backend/internal/binocolo/ma_deep_adjusted.go:403-441 | On a valuation of 10 with a debt of 9.5, one euro more of debt moves both equity ends by two, from 1 to -1. |
| AdjustedValuation.EbitdaMovesBand | backend/internal/binocolo/ma_deep_adjusted.go:379-400 | Once an add-back is in, more of it moves both ends that rest on EBITDA by that amount times multiple, haircut factor and spread, within one euro. |
| AdjustedValuation.NoEffectIsBaseline | backend/internal/binocolo/ma_deep_adjusted.go:334-443 | Adjustments that cancel give back the baseline exactly when its stored debt, debt row and equity ends agree with its enterprise values, the scorecard's debt and the two funds; whatever comes back agrees with them. |
| AdjustedValuation.BandOrdered | backend/internal/binocolo/ma_deep_adjusted.go:379-400 | A recomputed band keeps its order exactly when the unrounded low end is not above the high one or both round to the same euro; more than a euro above, it is inverted. |
| AdjustedValuation.EndsInOrderIff | backend/internal/binocolo/ma_deep_adjusted.go:379-400 | With a positive multiple the unrounded ends are in order exactly when 0.85 times the adjusted low base is at most 1.15 times the adjusted EBITDA. |
| AdjustedValuation.PositiveBandOrdered | backend/internal/binocolo/ma_deep_adjusted.go:379-400 | So the order is kept while the adjusted EBITDA is not negative and the prudential one is not above it. |
| AdjustedValuation.SalesBandOrdered | backend/internal/binocolo/ma_deep_adjusted.go:379-400 | With a low end on sales the order is kept exactly when the recomputed high end reaches the stored low end, for whole euros half a euro before rounding. |
| AdjustedValuation.SalesBandInverts | backend/internal/binocolo/ma_deep_adjusted.go:379-400 | A low end on sales of 400 stays above a high end lowered to 288. |
| AdjustedValuation.NegativeBandInverts | backend/internal/binocolo/ma_deep_adjusted.go:379-400 | A negative adjusted EBITDA turns the band over, to -425 and -575. |

## Left out

- IdentityNormalize.AsciiCase: outside the three normal-form theorems, which hold for any letter case, upper and lower case are those of ASCII letters; that Unicode upper case is a letter case in their sense is taken from its tables.
- IdentityRegistry.Registry.Resolve: SQL text, isolation beyond "each statement sees committed rows and own writes", failures of the database itself and of the savepoint statements are not modelled; an error of a statement ends the attempt.
- IdentityRegistry.Registry.InsertCompany: the bookkeeping timestamps of the row are not modelled.
- IdentityResolver.ResolveContract: other transactions may insert and grow rows but not touch rows this transaction has written, as row locks guarantee; fresh keys are a supply that never repeats.
- CacheGuarantees.NoDeadlock: freedom from deadlock, not fairness of the scheduler; lock loss, crashed processes and a failing unlock are outside the model, and cache keys are opaque (a lock shared by two keys only serializes more).
- Thousands.FormatEUR: overflow of the conversion to a 64-bit integer is not modelled.
- Thousands.GroupThousandsIT: strings are sequences of characters, so bytes that are not UTF-8 have no counterpart.
- DecimalIT.DecimalToIT: the parsing of the database value and dates is outside the model.
- AtecoRetrieval.ResolveFit: the catalogue query is a parameter that answers with the code asked for, not at all, or with an error; rationale texts, the remembered map of allowed codes and the embedding call are not modelled.
- Cosine.KbCosine: IEEE rounding is not modelled; the square root is a parameter that is exact.
- SignalWeights.NominalWeights: which signals a strategy intends is a parameter; the measures themselves are not modelled.
- CanonicalFiling.ResolveCanonical: loading filings, a missing filing store and parsing extracts are outside the model or parameters; a figure that is not a number has no counterpart.
- AdjustedValuation.BuildAdjusted: the descriptive fields of a valuation (sector, source, caveat) are copied by the source and not modelled; a baseline built by the engine is an input.
- ArchivePaths.BuildPaths: ids are unbounded integers and names are characters, not UTF-8 bytes; writing the archive is not modelled.
- DescHtml.TagsAlternate: nesting across the two styles is not claimed; the code does not keep it.
- The ledger of identity conflicts (`RecordMACompanyIdentityConflicts`): an insert in a second transaction, without logic of its own.
- HTTP handlers, routing, authorization, logging, traces, JSON, e-mail and vendor clients.
- The derivation of cache keys and lock ids by hashing.
- The reconciliation of filing and vendor figures, and the status of the adjusted view: direct comparisons.
- The web applications.
