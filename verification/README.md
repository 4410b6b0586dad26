# Part listings: prices, drafts, offers and their workers

A Dafny model of the part-listing application's hardest behaviour, with proofs. It covers

- the **bulk price solver**: a formula is an ordered list of components; some rewrite a running cost total, some are affine
  fees in the unknown price, some are targets. Percentages and intermediate amounts are exact reals, money is whole cents,
  and rounding is the nearest cent with halves upward (`Cents`, `Pricing*`);
- the **path of a draft to a listing**: concurrent draft writers (`Drafts`), and preparation, inventory sync, offer, fee
  preview, approval, publication, revision, withdrawal and reconciliation with crashes, lost replies, expired leases and
  overlapping runners between any two writes (`Listing*`). Every guarded update and every transaction is one step, eBay is
  a small remote state whose writes may take effect and still report an error, and every theorem is about all runs;
- **price governance** (`Governance`), **leased pricing jobs and dead letters** (`PricingJobs`), the **outbox and its
  notifications** (`Outbox`), and **idempotent execution** (`Idempotency`), each as a transition system over its database
  writes, the loops also as methods;
- the **codecs and stateful structures**: canonical JSON (`CanonicalJson`, `JsonText`, RFC 8259), base32 (`Base32`,
  section 6 of RFC 4648), the fixed-window rate limiter (`RateLimiter`) and the store cache refresh (`InventoryCache`).

`dafny verify dfyconfig.toml` checks the whole project.

## Where the code does less than one might expect

Each of these is a theorem with the exact condition and, beside it, an input or a run that shows the condition is needed.

- A price can fall when the cost rises, even without subtracted fees, if eBay's own fees exceed the price
  (`AddedFeesCanFall`); if they do not, it never falls (`AddedFeesKeepPriceRising`). The price numerator rises exactly when
  `CostSlope` is not negative (`RisingExactlyWithSlope`).
- Validating the cheapest row is enough exactly when no percentage above 100 can be subtracted from a running total that
  still depends on the cost (`LowestCostDecides`, `LowestCostCanMislead`).
- One live runner per job does not keep remote effects at once: runners of two jobs of one offer can send a second create,
  send a second publish, and record a listing that is not eBay's last. Each of the three is kept by all runs exactly when
  an offer has one live runner (`RemoteEffectsExactly`, with the runs `RunnersOfTwoJobsCreateTwice`,
  `RunnersOfTwoJobsPublishTwice` and `LateRunnerRecordsOldListing`).
- A WITHDRAWN offer can have a live listing, if a publish runner of the same offer was waiting: in all runs it has none
  exactly when an offer has one live runner (`WithdrawnMeansEndedExactly`, `WithdrawnListingIsLive`). Whatever overlaps, the
  runner that writes WITHDRAWN has seen the listing ended (`WithdrawnWasSeenEnded`).
- PUBLISHED is not absorbing: a publish job whose completion fails or whose answer is lost puts the offer back to FEES_READY
  (`LostCompletionPutsBack`).
- An offer's version can go back: never falling is the same as atomic requests and one live runner per job
  (`VersionsNeverRegressExactly`, `OvertakenRunnerTakesVersionBack`, `StaleRequestTakesVersionBack`), and the steps that take
  a version back are exactly the late write of a prepare request and the late write of a revision (`VersionFallsExactly`).
- If something happens between a request's reads and its write, an offer can be queued for publication or revision at a
  price that is no longer approved, and two requests can create two revisions, the later one to the version that the
  earlier one has already stored; each of these is excluded exactly when requests are atomic (`QueuedPricesExactly`,
  `SupersededApprovalIsUsed`, `SupersededApprovalIsRevised`, `DuplicateRequestsReviseTwice`).
- An error handler whose lookup of the job fails marks the job FAILED and leaves the offer in REVISION_QUEUED or
  WITHDRAW_QUEUED with nobody to serve it; that is the only way (`QueuedOffersAreTended`, `BlindHandlerOrphansOffer`).
- A part has at most one active proposal in all runs exactly when creating transactions are serial
  (`AtMostOneActiveProposal`, `CreationKeepsOneExactly`, `OverlappingCreationsLeaveTwo`).
- An empty key among the oldest stops the rate limiter's pruning, and its map then grows past its limit (`SizeIsBounded`,
  `EmptyKeyStopsPruning`). This concerns the exported class alone: the program's one caller puts a scope and a colon in
  front of each key (apps/api/src/http-hardening.ts:60), so its keys are never empty, and with such keys the bound holds
  (`OwnKeySurvives`). A call keeps its own key exactly when the map may hold a key at all.
- A worker that was overtaken restarts or finishes items that another worker has failed; exactly those steps separate
  items from their dead letters (`AgreementBreaksExactly`, `OvertakenWorkerSeparates`).

The unique indexes relied on are in the repository's schema: one history row per draft version
(apps/api/prisma/schema.prisma:1753), one offer per draft (apps/api/prisma/schema.prisma:1615), one offer job per action and
version (apps/api/prisma/schema.prisma:1709), one notification per user and event (apps/api/prisma/schema.prisma:1512), one
idempotency record per key (apps/api/prisma/schema.prisma:1313), one dead letter per item
(apps/api/prisma/schema.prisma:1356) and one cached row per connection and source key (apps/api/prisma/schema.prisma:618).
"No active operation" and the creation of the job are one step only where a theorem asks for atomic requests. How runners
may overlap is a parameter of the model as well, because a lease makes a lone runner likely but does not enforce it.

## Model

| member | source | states |
|---|---|---|
| PricingFormula.NormalizeIsWellFormed | apps/api/src/bulk-pricing-formula.ts:164-203 | an accepted formula keeps its components one for one, with distinct identifiers and only the combinations of kind, type and operator that the later passes allow |
| PricingFormula.NormalizeIdempotent | apps/api/src/bulk-pricing-formula.ts:164-203 | normalizing a normalized formula changes nothing, for both formula versions |
| PricingAcceptance.NormalizeExactly | apps/api/src/bulk-pricing-formula.ts:124-203 | exactly which formulas are accepted, and how each component is completed from its kind and the formula's version |
| PricingPlan.BuildCalculationPlan | apps/api/src/bulk-pricing-formula.ts:267-334 | the loop that updates totals in place, with its early errors, computes the recursive plan, of which the following rows say what it accepts and what its lines are |
| PricingAcceptance.ContextExactly | apps/api/src/bulk-pricing-formula.ts:215-227 | which orders are accepted, and that each amount is the caller's to the nearest cent, or 0 if absent |
| PricingAcceptance.PlanExactly | apps/api/src/bulk-pricing-formula.ts:237-334 | a formula is planned if and only if every enabled component may be used as it is and no running total is refused |
| PricingAcceptance.TotalIsRefusedExactly | apps/api/src/bulk-pricing-formula.ts:229-235 | a running total is refused exactly on division by zero or when more is subtracted than there is |
| PricingLines.LinesAreRight | apps/api/src/bulk-pricing-formula.ts:271-355 | in every answer each line is charged on what its component names: a fixed cost on cost, shipping and the fixed lines before it, a markup on cost, running total or custom amount, a target on the price, a fee on its part of the order or on the payout; and its amount is right to the nearest cent |
| PricingSolver.ReplanIsSamePlan | apps/api/src/bulk-pricing-formula.ts:370-384 | the breakdown and the profit, which plan again from the normalized formula, work on the same plan as the price |
| PricingSolver.SolveMeaning | apps/api/src/bulk-pricing-formula.ts:370-408 | the solver answers exactly when planning and pricing succeed, with the first error otherwise; its profit and lines are those of one plan at one price |
| PricingAcceptance.PriceExactly | apps/api/src/bulk-pricing-formula.ts:370-381 | a plan has a price unless its rates consume the price or it rounds above the cap |
| PricingAcceptance.QuoteAddsUp | apps/api/src/bulk-pricing-formula.ts:370-408 | the answer's revenue, fees, expense impact and target profit add up from its lines and the formula's margins |
| PricingFees.FeesAreShares | apps/api/src/bulk-pricing-formula.ts:237-331 | at every price each fee is its signed percentage of its part of the order, or, on the payout, of the order revenue less all that eBay keeps |
| PricingAccuracy.FeesAreNearlyAffine | apps/api/src/bulk-pricing-formula.ts:336-338 | separately rounded fee lines differ from the exact affine total by at most half a cent per fee |
| PricingAccuracy.SolverAccuracy | apps/api/src/bulk-pricing-formula.ts:336-408 | reported profit is within (D + n + 1)/2 cents of the reported target when the numerator is not negative; a price clamped to 0 still leaves the markup target up to n/2 cents |
| PricingLedger.LedgerBalances | apps/api/src/bulk-pricing-formula.ts:340-407 | each enabled component has exactly one line, in formula order; cost, shipping, fixed lines, fee lines and net profit add up to the order revenue in cents |
| PricingPermutation.FeeOrderIsIrrelevant | apps/api/src/bulk-pricing-formula.ts:318-381 | permuting the external fees, anywhere among the other components, keeps acceptance and price |
| PricingMonotone.FeeTotals | apps/api/src/bulk-pricing-formula.ts:318-331 | fees on the payout add up to one rate on one payout, in coefficient and in constant |
| PricingMonotone.FeeConstants | apps/api/src/bulk-pricing-formula.ts:318-373 | the constants of all fees, stacked payout fees included, are linear in the cost with slope `CostSlope` |
| PricingMonotone.PriceRisesWithCost | apps/api/src/bulk-pricing-formula.ts:370-381 | without an overdraft and with a non-negative cost slope, the solved price never falls as the cost rises |
| PricingMonotone.AddedFeesHaveRisingSlope | apps/api/src/bulk-pricing-formula.ts:318-375 | with added fees only and eBay's own fees at most the price, a consumed rate below 1 keeps the payout rate below 1 and the slope non-negative |
| PricingMonotone.AddedFeesKeepPriceRising | apps/api/src/bulk-pricing-formula.ts:318-381 | a formula that subtracts no fee, cannot overdraw and pays eBay at most the price has a solved price that never falls as the cost rises |
| PricingMonotone.RisingExactlyWithSlope | apps/api/src/bulk-pricing-formula.ts:370-380 | external fees keep the exact price numerator rising in every formula that they end if and only if their cost slope is not negative |
| PricingMonotone.AddedFeesCanFall | apps/api/src/bulk-pricing-formula.ts:318-408 | the solver accepts a formula of added fees only at cost 0 and at cost 10, and its price falls from 555.56 to 511.11 |
| PricingValidation.LowestRow | apps/api/src/bulk-pricing-service.ts:641 | the reduction finds a row of least cost |
| PricingValidation.ValidateJob | apps/api/src/bulk-pricing-service.ts:628-647 | what the job's validation promises about every row, and where its error comes from |
| PricingValidation.AcceptedAtHigherCost | apps/api/src/bulk-pricing-service.ts:640-647 | without an overdraft, acceptance at a cost means acceptance at every higher cost up to the price cap |
| PricingValidation.OverdraftIsReached | apps/api/src/bulk-pricing-formula.ts:305-314 | with an overdraft every pass fails from some cost on, whatever comes before the overdrawing component |
| PricingValidation.RefusedAtSomeCost | apps/api/src/bulk-pricing-service.ts:640-647 | with an overdraft there is a higher cost that is refused for another reason than the cap |
| PricingValidation.LowestCostDecides | apps/api/src/bulk-pricing-service.ts:640-647 | the cheapest row decides for all costs if and only if the formula cannot overdraw |
| PricingValidation.SmallPercentagesNeverOverdraw | apps/api/src/bulk-pricing-formula.ts:305-314 | subtracting at most 100 percent never overdraws |
| PricingValidation.LowestCostCanMislead | apps/api/src/bulk-pricing-service.ts:640-647 | subtracting 150 percent passes at cost 0 and fails at cost 10 |
| Drafts.IndexGuardsEveryWriter | apps/api/src/listing-draft-service.ts:363-398 | the unique index over draft and version makes unguarded writers behave as if they compared the version |
| Drafts.CommitKeepsInv | apps/api/src/listing-draft-service.ts:469-493 | every kind of commit keeps the history gapless and never rewrites a version |
| Drafts.DraftHistory | apps/api/src/listing-draft-service.ts:468-568 | for every interleaving of writers: the history is 1..version, a row is live exactly when live validation wrote its version, and one version means one row |
| Drafts.NoUpdateIsLost | apps/api/src/listing-draft-service.ts:431-568 | whatever others do after a writer's read, its commit takes effect if and only if the version is still the one read and expected, and makes of the row what its kind says |
| ListingProtocol.PayloadTellsTheDraft | apps/api/src/ebay-offer-service.ts:23-53 | two drafts have the same payload if and only if they agree on every field that eBay is told |
| ListingProtocol.NoDriftMeansEqual | apps/api/src/ebay-listing-operation-service.ts:32-57 | no drift over the controlled fields if and only if the payloads are equal |
| ListingContent.NoAba | apps/api/src/ebay-offer-service.ts:68-119 | after every run the offer's payload is built from the content committed, by a live validation, with exactly the offer's version; the same version means the same payload at any two moments |
| ListingContent.EqualVersionsMeanEqualContent | apps/api/src/ebay-listing-operation-service.ts:232-267 | the version comparisons before publishing and revising compare content, and a runner about to send a revision carries a committed payload |
| ListingContent.RunnersStartCurrent | apps/api/src/ebay-offer-service.ts:265-271 | a publication starts only for an approved offer whose payload is the current draft's, a revision only with the current draft's payload, live and synced |
| ListingOrphans.QueuedOffersAreTended | apps/api/src/ebay-listing-operation-service.ts:101-146 | after every run a waiting offer has a job of its action, active exactly when no blind error handler failed it |
| ListingConditions.QueuedPricesExactly | apps/api/src/ebay-offer-service.ts:147-171 | all runs queue publications and revisions only at the price approved at that step, create revisions only to a newer, current version, and have one active revision at most: each of the four if and only if requests are atomic |
| ListingAdmission.PreparationRequest | apps/api/src/ebay-offer-service.ts:63-139 | a prepare request is admitted exactly for a synced, live, approved and complete draft whose offer is neither published nor approved, and stores the draft's version and payload and its job |
| ListingAdmission.PublicationRequest | apps/api/src/ebay-offer-service.ts:141-191 | a publish request is admitted exactly for a previewed, current, still approved offer, and queues its job |
| ListingAdmission.RevisionRequest | apps/api/src/ebay-listing-operation-service.ts:73-118 | a revise request is admitted exactly for a published offer, a newer complete draft and no operation under way, and queues the draft's payload |
| ListingAdmission.WithdrawalRequest | apps/api/src/ebay-listing-operation-service.ts:120-146 | a withdraw request is admitted exactly for a published or drifted offer without an operation under way |
| ListingAdmission.ReconciliationRequest | apps/api/src/ebay-listing-operation-service.ts:148-165 | a reconcile request is admitted exactly for an offer that was published, without an operation under way, and leaves the offer |
| ListingVersions.RevisionKeeps | apps/api/src/ebay-listing-operation-service.ts:249-267 | only the runner of the one active revision stores a version, forward to its job's target |
| ListingConditions.VersionFallsExactly | apps/api/src/ebay-listing-operation-service.ts:249-267 | in any state the offer's version falls in exactly two steps: the late write of a prepare request and the late write of a revision |
| ListingConditions.VersionsNeverRegressExactly | apps/api/src/ebay-listing-operation-service.ts:86-117 | the offer's version never decreases between two moments of any run if and only if requests are atomic and no job has two live runners |
| ListingConditions.VersionsStayBehindDraft | apps/api/src/ebay-offer-service.ts:68-119 | whatever overlaps, the offer's version never passes the draft's |
| ListingRemote.RemoteOfferIsKnown | apps/api/src/ebay-offer-service.ts:213-232 | whatever overlaps, after every run eBay made one offer at most, published a listing again only after the last one ended, and the local remote ID is eBay's |
| ListingConditions.RemoteEffectsExactly | apps/api/src/ebay-offer-service.ts:213-363 | no run sends a create while an offer exists, none sends a publish while a listing is shown, none records a listing but eBay's last: each of the three if and only if an offer has at most one live runner |
| ListingOutcomes.RunnersHaveSeen | apps/api/src/ebay-listing-operation-service.ts:173-335 | whatever overlaps, what a runner stores or acts on (identifier, listing, drift, end of a listing, resolved status) eBay showed at a moment since its last claim |
| ListingOutcomes.WithdrawnWasSeenEnded | apps/api/src/ebay-listing-operation-service.ts:292-335 | whoever makes an offer WITHDRAWN saw it without a live listing, at a moment since which it has been at work without a crash |
| ListingOutcomes.WithdrawnMeansEndedExactly | apps/api/src/ebay-listing-operation-service.ts:292-335 | in all runs a WITHDRAWN offer has no live listing if and only if an offer has at most one live runner |
| ListingProgress.PreparationSucceeds | apps/api/src/ebay-offer-service.ts:213-263 | a preparation that nobody disturbs ends FEES_READY under eBay's identifier: updating the known offer, taking over an unpublished one, or creating one |
| ListingProgress.PublicationSucceeds | apps/api/src/ebay-offer-service.ts:265-303 | a publication that nobody disturbs ends PUBLISHED with a new live listing, or with the one eBay shows already |
| ListingProgress.RevisionSucceeds | apps/api/src/ebay-listing-operation-service.ts:232-290 | a revision that nobody disturbs puts its payload on eBay and ends PUBLISHED at its version |
| ListingProgress.WithdrawalSucceeds | apps/api/src/ebay-listing-operation-service.ts:292-335 | a withdrawal that nobody disturbs ends a live listing and ends WITHDRAWN |
| ListingProgress.ReconciliationSucceeds | apps/api/src/ebay-listing-operation-service.ts:173-231 | a reconciliation that nobody disturbs stores the status, listing and drift that eBay shows |
| ListingProgress.FailureIsCleanedUp | apps/api/src/ebay-listing-operation-service.ts:363-389 | a runner that gives up leaves the offer in the status that its action asks for, and fails the job exactly if it holds the lease; if its lookup fails, it fails the job alone |
| ListingProgress.LostCompletionPutsBack | apps/api/src/ebay-offer-service.ts:319-338 | if a job's completion fails or its answer is lost, the error handler still puts the offer back, a published one to FEES_READY too |
| ListingProgress.JobRowsAreFenced | apps/api/src/ebay-offer-service.ts:305-341 | a runner changes no job row but its own, only under its lease, and only to end it |
| ListingProgress.SyncMovesExactly | apps/api/src/ebay-inventory-sync-service.ts:80-138 | a sync is completed only after a check that its version is current and live, and each step of it moves it as the guarded updates say |
| ListingCounterexamples.BlindHandlerOrphansOffer | apps/api/src/ebay-listing-operation-service.ts:367-387 | a run that ends with a waiting offer and no active job |
| ListingCounterexamples.StaleRequestTakesVersionBack | apps/api/src/ebay-offer-service.ts:68-119 | a run in which a late prepare request stores version 2 over version 3 |
| ListingCounterexamples.SupersededApprovalIsUsed | apps/api/src/ebay-offer-service.ts:160-171 | a run in which an offer is queued for publication at a price that is no longer approved |
| ListingCounterexamples.SupersededApprovalIsRevised | apps/api/src/ebay-listing-operation-service.ts:84-116 | a run in which a revision is created at a price that is no longer approved |
| ListingCounterexamples.DuplicateRequestsReviseTwice | apps/api/src/ebay-listing-operation-service.ts:86-117 | a run with two active revisions, and one in which a revision is created to the version that the offer already has |
| ListingCounterexamples.OvertakenRunnerTakesVersionBack | apps/api/src/ebay-listing-operation-service.ts:407-412 | a run in which a runner that lost its lease stores version 3 over version 4 |
| ListingCounterexamples.RunnersOfTwoJobsCreateTwice | apps/api/src/ebay-offer-service.ts:222-230 | a run in which two prepare runners of one offer both send a create |
| ListingOverlaps.RunnersOfTwoJobsPublishTwice | apps/api/src/ebay-offer-service.ts:265-290 | a run with atomic requests in which the publish runners of two versions of one offer both send a publish |
| ListingOverlaps.LateRunnerRecordsOldListing | apps/api/src/ebay-offer-service.ts:273-303 | a run in which one of them records the listing that it saw over the newer one |
| ListingOverlaps.WithdrawnListingIsLive | apps/api/src/ebay-offer-service.ts:265-290 | a run in which a publish runner lists an offer again that another runner has just withdrawn |
| Governance.FloorIsTight | apps/api/src/pricing-governance-service.ts:62-72 | a price meets both minimums up to half a cent if it is at the rounded floor or above, and misses one if it is a cent or more below |
| Governance.FloorExactly | apps/api/src/pricing-governance-service.ts:38-72 | there is a floor exactly if there is a cost in the market's currency, and it is finite exactly below a margin of 100 percent |
| Governance.ProposedFollowsMarket | apps/api/src/pricing-governance-service.ts:45-72 | the proposed price is the adjusted market price to the nearest cent, or the floor where that is higher, or one cent |
| Governance.ProposedExactly | apps/api/src/pricing-governance-service.ts:153-207 | a proposal waits for a decision unless the rule asks for none and there is a floor |
| Governance.DecisionExactly | apps/api/src/pricing-governance-service.ts:249-297 | which decisions pass for which role, and that they write the proposed price, none, or the given price to the nearest cent |
| Governance.DecisionsAreFinal | apps/api/src/pricing-governance-service.ts:262-297 | between any two moments of a run a decision stays as it is, except that the proposal may be superseded |
| Governance.CreationSees | apps/api/src/pricing-governance-service.ts:177-190 | a creating transaction sees exactly what is pending or in force for its part and marketplace |
| Governance.CreationExactly | apps/api/src/pricing-governance-service.ts:177-207 | a creation adds its proposal and supersedes exactly what its transaction saw and is still pending or in force |
| Governance.ApprovedPricesAreGoverned | apps/api/src/pricing-governance-service.ts:259-297 | after every run an APPROVED price is at or above its floor, and a lower price in force was overridden by OWNER or ADMIN |
| Governance.CreationKeepsOneExactly | apps/api/src/pricing-governance-service.ts:177-207 | a creation keeps one active proposal per part and marketplace if and only if its transaction saw all that are active at its commit |
| Governance.AtMostOneActiveProposal | apps/api/src/pricing-governance-service.ts:153-207 | all runs keep at most one active proposal per part and marketplace if and only if creating transactions are serial |
| Governance.OverlappingCreationsLeaveTwo | apps/api/src/pricing-governance-service.ts:177-207 | two creations that overlap leave two active proposals |
| PricingJobs.TerminalItemsAddUp | apps/api/src/pricing-service.ts:184-191 | all items are terminal if and only if the three counters add up to the item count |
| PricingJobs.PricingJob.RefreshJobProgress | apps/api/src/pricing-service.ts:184-202 | the counting loop writes the refreshed row, only for the lease holder |
| PricingJobs.RefreshTells | apps/api/src/pricing-service.ts:46-52 | each stored counter is the number of items in that state, and status and lease follow from them |
| PricingJobs.ClaimExactly | apps/api/src/pricing-service.ts:292-316 | which claims are made, and what they write |
| PricingJobs.ItemSucceeds | apps/api/src/pricing-service.ts:204-270 | an item that nobody disturbs gets its result, resolves its requeued letter, and the row is refreshed |
| PricingJobs.ItemFails | apps/api/src/pricing-service.ts:271-290 | an item whose work fails is FAILED with an OPEN letter |
| PricingJobs.JobFailsExactly | apps/api/src/pricing-service.ts:324-334 | a run that fails as a whole fails the job exactly if it holds the lease |
| PricingJobs.RequeueExactly | apps/api/src/dead-letter-service.ts:67-116 | exactly a failed item with an open letter of a job that is neither running nor queued can be requeued, and what that writes |
| PricingJobs.JobRowIsFenced | apps/api/src/pricing-service.ts:292-335 | for any workers, crashes and expiries: owner if and only if RUNNING, refreshed terminal rows add up with the implied status, and only the last claimer that still holds the lease changes the row |
| PricingJobs.LostLeaseIsInert | apps/api/src/pricing-service.ts:372-395 | a worker that lost its lease never changes the job row again in that run |
| PricingJobs.AgreementBreaksExactly | apps/api/src/pricing-service.ts:204-290 | a step separates FAILED items from OPEN letters if and only if it starts or finishes a FAILED item |
| PricingJobs.FailedExactlyWhenOpen | apps/api/src/dead-letter-service.ts:12-33 | with one live runner, after every run an item is FAILED if and only if its dead letter is OPEN |
| PricingJobs.RequeuedUntilEnded | apps/api/src/dead-letter-service.ts:35-96 | a REQUEUED letter changes only to RESOLVED together with a result, or to OPEN together with FAILED |
| PricingJobs.OvertakenWorkerSeparates | apps/api/src/pricing-service.ts:209 | two live runners can leave an OPEN letter on an item that is not FAILED |
| PricingJobs.PricingJob.RunPricingJob | apps/api/src/pricing-service.ts:292-335 | an undisturbed claimed run processes exactly the queued items and ends with the status their results imply; without a queued item nothing refreshes the row |
| Outbox.DeliveryIsBounded | apps/api/src/outbox-service.ts:23-77 | after every run: one unexpired claim at most; no attempt ran the publisher twice, so it ran at most as often as there were attempts and at most `maxAttempts` times; one notification per user and event; and the row is PUBLISHED if and only if a delivery returned and was stored, and then everybody it was for has one |
| Outbox.SettledIsFinal | apps/api/src/outbox-service.ts:39-77 | a published event, or one out of attempts without a holder, never changes again |
| Outbox.UnsettledCanChange | apps/api/src/outbox-service.ts:39-77 | any other event still can |
| Outbox.CanStillBeDelivered | apps/api/src/outbox-service.ts:36-77 | an unpublished event with attempts left has a run that delivers it to everybody it is for and publishes it |
| Outbox.LostOutcomeIsFailure | apps/api/src/outbox-service.ts:56-77 | a delivery whose outcome cannot be stored is stored as FAILED to be retried, unless it is PUBLISHED after all |
| Outbox.CandidatesAreClaimable | apps/api/src/outbox-service.ts:24-49 | the claiming update asks for what the query asked for |
| Outbox.OutboxTable.Candidates | apps/api/src/outbox-service.ts:24-35 | the batch is exactly the oldest due candidates up to its size: whoever is left out is younger than a full batch |
| Outbox.OutboxTable.PublishOutboxEvents | apps/api/src/outbox-service.ts:36-79 | an undisturbed poll attempts exactly the batch, leaves all other rows alone, and counts outcomes; a row of the batch ends PUBLISHED if and only if its delivery worked, and otherwise FAILED without an owner, due after one second doubled per earlier attempt, or after a day |
| Idempotency.ExecutionsDoNotOverlap | apps/api/src/idempotency-service.ts:47-85 | of two executions in flight at least one has outlived its reservation |
| Idempotency.SuccessesAgree | apps/api/src/idempotency-service.ts:27-85 | two successes share one saved value and equivalent requests, or the earlier reservation had expired when the later was made |
| Idempotency.DifferentRequestIsRefused | apps/api/src/idempotency-service.ts:27-68 | at the first read of a living record, and at the read after a lost race for the reservation, a caller is refused if and only if its request differs by more than key order |
| Idempotency.RepeatedRequestIsAnswered | apps/api/src/idempotency-service.ts:27-68 | an equivalent request gets exactly the saved body at both reads, and is told to wait if and only if nothing, or null, was saved |
| Idempotency.ReturnedValuesWereExecuted | apps/api/src/idempotency-service.ts:70-80 | what a caller got back is what an execution under that reservation returned |
| Idempotency.LoneCallerExecutes | apps/api/src/idempotency-service.ts:47-85 | a caller that nobody disturbs executes and its record lives 24 hours; if the execution throws, no record stays |
| Idempotency.RecordGoesExactly | apps/api/src/idempotency-service.ts:50-85 | a record is removed exactly by a purge that saw it expired or by its maker's release before completion |
| CanonicalJson.EscapeIsPrefixCode | apps/api/src/idempotency-service.ts:12-17 | an escaped string, lone surrogates included, ends at its first unescaped quotation mark and determines the string |
| CanonicalJson.PrintIsPrefixCode | apps/api/src/idempotency-service.ts:12-17 | the printed text is uniquely decodable, also inside a longer text |
| CanonicalJson.StableJsonIsCanonical | apps/api/src/idempotency-service.ts:12-17 | two values print alike if and only if they are equal up to the order of object keys |
| JsonText.StableJsonIsJson | apps/api/src/idempotency-service.ts:12-17 | read by the grammar of RFC 8259 the text is that value, without white space and with the keys of every object ascending |
| JsonText.EscapeIsRead | apps/api/src/idempotency-service.ts:12-17 | reading an escaped string by section 7 of RFC 8259 gives back the string, lone surrogates included |
| JsonText.EscapeIsWellPaired | apps/api/src/idempotency-service.ts:12-17 | an escaped string has no lone surrogate |
| JsonText.RestStaysRaw | apps/api/src/idempotency-service.ts:12-17 | nothing but quotation marks, backslashes, controls and lone surrogates is escaped |
| Base32.EncodeSymbols | apps/api/src/credential-security.ts:46-60 | the unmasked 32-bit loop computes the padded big-endian number of the bytes, of the right length |
| Base32.DecodeSymbols | apps/api/src/credential-security.ts:62-78 | the decoding loop computes the quotient that drops the trailing bits, of the right length |
| Base32.RoundTrip | apps/api/src/credential-security.ts:46-78 | whatever normalizes to an encoding of some bytes decodes to those bytes |
| Base32.LettersAreTheTable | apps/api/src/credential-security.ts:46-60 | the symbols are the letters of Table 3 of RFC 4648 |
| Base32.NormalizedOne | apps/api/src/credential-security.ts:62-78 | of a typed character letters of the table stay, small letters become them, everything else is dropped |
| Base32.EncodingIsUnique | apps/api/src/credential-security.ts:46-60 | bytes have one encoding only |
| Base32.CanonicalExactlyWhen | apps/api/src/credential-security.ts:62-78 | symbols encode what they decode to if and only if fewer than five bits are dropped and they are zero |
| RateLimiter.FixedWindowRateLimiter.Create | apps/api/src/http-hardening.ts:20-23 | which limits are refused, and with which error |
| RateLimiter.FixedWindowRateLimiter.Consume | apps/api/src/http-hardening.ts:25-41 | the call's answer and the map it leaves |
| RateLimiter.FixedWindowRateLimiter.Prune | apps/api/src/http-hardening.ts:43-50 | the two pruning loops drop expired windows, then the oldest keys |
| RateLimiter.SizeIsBounded | apps/api/src/http-hardening.ts:32-50 | after a call the map is within its limit if and only if it was once the key was set, or none of the oldest live entries that are too many has an empty key |
| RateLimiter.EmptyKeyStopsPruning | apps/api/src/http-hardening.ts:45-49 | under an empty oldest key every new key makes the map larger |
| RateLimiter.OwnKeySurvives | apps/api/src/http-hardening.ts:25-50 | with non-empty keys a call keeps the bound, and keeps its own key if and only if `maxKeys` is at least 1 |
| RateLimiter.OneWindow | apps/api/src/http-hardening.ts:31-38 | inside a window exactly the announced remaining calls are allowed |
| RateLimiter.AnswersOfWindow | apps/api/src/http-hardening.ts:25-41 | the n-th answer of a window tells its end, the limit, whether n is within it and what remains |
| RateLimiter.RetryIsExact | apps/api/src/http-hardening.ts:38-39 | waiting the announced seconds finds a new window, a second less does not |
| RateLimiter.MapRefinesWindow | apps/api/src/http-hardening.ts:25-41 | what the map allows a key that it never evicts is what the key's window alone allows |
| RateLimiter.AllowancesAreLimited | apps/api/src/http-hardening.ts:25-41 | at most the limit per window, and at most twice the limit in any closed span of a window's length, from any state |
| InventoryCache.SourceKeyIsCanonical | apps/api/src/ebay-inventory-management-service.ts:414-426 | keying a row by its own key changes nothing |
| InventoryCache.SourceKeysAreApart | apps/api/src/ebay-inventory-management-service.ts:414-426 | no key belongs to two marketplaces |
| InventoryCache.KeyOfListing | apps/api/src/ebay-inventory-management-service.ts:414-426 | a source with or without its prefixes, or else the listing's number, is the third part of the key |
| InventoryCache.Cache.SyncSite | apps/api/src/ebay-inventory-management-service.ts:877-996 | the sync caches the listings of the first pages it reads, each but the last of which leaves more (unbroken, more announced, not empty, below the total); the last is broken, leaves nothing or is the thousandth; it succeeds and sweeps exactly if no page broke and the delete worked |
| InventoryCache.ReadsAllAnnounced | apps/api/src/ebay-inventory-management-service.ts:877-982 | if every page announces what there is, a sync that does not fail has read every listing of every page |
| InventoryCache.UpsertedRow | apps/api/src/ebay-inventory-management-service.ts:921-971 | fetched rows are fresh but keep marketplace and SKU, others are untouched |
| InventoryCache.FinishedSyncLeaves | apps/api/src/ebay-inventory-management-service.ts:983-993 | exactly which rows a finished sync leaves, for any table |
| InventoryCache.LatestListingShows | apps/api/src/ebay-inventory-management-service.ts:921-971 | a fetched key's row has the content and the available quantity of the last listing fetched under that key |
| InventoryCache.FirstListingNames | apps/api/src/ebay-inventory-management-service.ts:943-971 | the first listing of a new key gives its row the SKU, or the listing's number, and the marketplace |
| InventoryCache.OrderlySyncIsExact | apps/api/src/ebay-inventory-management-service.ts:864-996 | in a cache of earlier rows under their own marketplace's keys, a finished sync leaves exactly the fetched listings of its site, each as last fetched, other sites as they were, and the same again for the next sync |
| InventoryCache.FailedSyncRemovesNothing | apps/api/src/ebay-inventory-management-service.ts:1003-1017 | a sync that fails removes no row |

## Left out

- Express routes, request schemas, configuration, mail, object storage, HTTP to eBay, HTML and dashboards: plumbing.
- Cryptography: SHA-256 is taken as injective on canonical texts; scrypt, AES-GCM, HMAC and TOTP codes are not modelled.
- Binary floating point: the solver and the governed price use exact arithmetic; `Number.EPSILON` is dropped.
- The solver's percentage outputs (net margin, total deduction rate): quotients of amounts that are modelled.
- Trimming and length checks after trimming in the formula schema: strings arrive trimmed.
- One SKU, one marketplace and one offer per run of the listing protocol; payload hashes are implied by versions.
- Draft validation rules, titles, images and compatibility payloads: readiness is an input of each draft write.
- A request's several reads are one step, also where its reads and its first write are separate steps.
- A retried read or idempotent write to eBay is one step of a runner, so other runners do not act between its retries.
- The inventory sync request: its check that the version is current and live is of an earlier moment than its write, so the write asks only for a preparation; of its requeue race the second, unconditional write is not modelled: a failed sync is queued again in one step.
- Fitment jobs, bulk pricing jobs' own runner, retention, account-closure cleanup of pricing items: further writers that no theorem here covers.
- Emails of a notification: only the notification rows are modelled, with a recipient list read once per delivery.
- A caller without an idempotency key: it always executes.
- Upper-casing beyond ASCII in the base32 decoder, and Unicode white space in source keys.
- JSON inputs that are not JSON values (undefined, dates, cycles); numbers are their shortest decimal texts.
- Non-integer limits and times of the rate limiter; the first of its two constructor checks also covers them in the code.
- The store cache's progress messages and its search filters; a page's error after some of its rows is one kind of page.
- Outbox.OutboxTable.PublishOutboxEvents: time stands still during one poll, and no other worker acts.
- PricingJobs.PricingJob.RunPricingJob: one worker without crashes; interleavings are in the transition system of the same module.
- PricingJobs.FailedExactlyWhenOpen: needs one live runner, because item writes are not fenced by the lease.
