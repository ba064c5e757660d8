# Verification of the decision and ledger logic

A Dafny model of the deterministic core of the investment manager: what it decides, how it accounts for what it did, and
what its append-only stores keep. `dafny verify dfyconfig.toml` checks the whole project.

- `TradingCost.dfy`: last-in-first-out matching of fills into round trips. The stack law is a pure recursion on values;
  three conservation laws are instances of one measure that every match keeps. The mutable lots, the per-key stacks and the
  loops are proved to compute that law.
- `Pricing.dfy`, `PortfolioDecision.dfy`: repricing, transition cost, evaluation at a size, selection of one product per
  exposure, sizing, the final review and the published target. The loops of `decide` are proved equal to a specification,
  and the guarantees that only emerge across its phases are proved about that specification.
- `MarketShock.dfy`: the bucketed sliding window, the episode gate and the detector. The detector changed in place refines
  one that rereads the whole history; the limits on its triggers hold for every run of events.
- `ProperScores.dfy`: both categorical scores as squared distances, with one bias-variance law behind their propriety.
- `OutcomeBuckets.dfy`: contract validation, bucket resolution, slot timing and funding completeness.
- `DocumentInformation.dfy`: whole-word coverage, the information classifier, the online store and the migration.
- `ForecastLedger.dfy`, `BlindClaims.dfy`, `MarketFacts.dfy`, `CapitalPanel.dfy`: the stores as state machines over atomic
  steps, the point-in-time queries, and the choice of the forecasts a capital decision is made from.
- `Sums.dfy`, `Sorting.dfy`, `Results.dfy`: finite sums, insertion sort with uniqueness of the result, options and errors.

Decimals are exact reals. Times are integers. String identities are integers with the same equality and order; an identity
derived by hashing is injective in what it hashes. Square roots are any function that is positive on positive numbers, and
an exact root only where a lemma says so. A raised exception is an `Err`, `None` or `Invalid` result.

Three behaviours differ from what the code around them suggests, and are stated as they are:

- The contract validator accepts neighbouring buckets whose shared bound is open on both sides. Settlement still resolves
  every return, but then no return has a unique bucket (`UniqueExactlyWhenBounded`).
- The migration treats an empty URL as no URL, the online store treats it as a URL. They agree exactly when every such row
  adds information to the earlier ones (`BackfillMatchesReplayExactlyWhen`).
- Completing a blind evaluation does not compare the window with the claimed one. Disjointness holds on the indexed columns;
  an exact retry of a claim is honoured exactly while the stored window is unchanged (`RetryReturnsTheClaimExactlyWhen`).

## Model

| member | source | states |
|---|---|---|
| `TradingCost.FeesAreConserved` | src/investment_manager/portfolio/evaluation.py:239-298 | after any fills, fees of round trips plus fees left on open lots equal the fees charged |
| `TradingCost.TurnoverIsConserved` | src/investment_manager/portfolio/evaluation.py:239-298 | round-trip turnover plus open-lot turnover equals the traded notional |
| `TradingCost.ProfitIsConserved` | src/investment_manager/portfolio/evaluation.py:257-298 | realized gross equals the negated signed notional of the fills plus the signed cost of what is open |
| `TradingCost.StacksMirrorPositions` | src/investment_manager/portfolio/evaluation.py:231-298 | per key: positive lots of one side, each with the pro-rata fee of a fill of that key, netting to the signed position; empty iff flat |
| `TradingCost.CountsAreBounded` | src/investment_manager/portfolio/evaluation.py:259-298 | round trips plus open lots never exceed the number of fills |
| `TradingCost.RoundTripsAreFair` | src/investment_manager/portfolio/evaluation.py:246-284 | every round trip pairs two fills of one key and opposite sides and charges each its pro-rata share of its own fee |
| `TradingCost.NewestLeaveFirst` | src/investment_manager/portfolio/evaluation.py:239-290 | an opposite fill leaves exactly the oldest units of the stack, the cut lot keeping its pro-rata fee |
| `TradingCost.LargerFillTurnsTheStack` | src/investment_manager/portfolio/evaluation.py:239-298 | a fill larger than the opposite stack empties it and opens its remainder on the other side |
| `TradingCost.FlatResultIgnoresOrder` | src/investment_manager/portfolio/evaluation.py:225-298 | when everything is closed, profit and fees are the same for every processing order |
| `TradingCost.EvidenceConserves` | src/investment_manager/portfolio/evaluation.py:300-338 | the evidence counts every fill once, totals its notional and splits its fees into closed and open |
| `TradingCost.ReconciledExactlyWhen` | src/investment_manager/portfolio/evaluation.py:332-336 | reconciliation is reported iff an expectation was given and all positions are flat, and is true iff it equals the money the fills moved |
| `TradingCost.EvidenceIgnoresInputOrder` | src/investment_manager/portfolio/evaluation.py:225-230 | the evidence does not depend on the order in which the fills were supplied |
| `TradingCost.OpenExecutionLot.constructor` | src/investment_manager/portfolio/evaluation.py:205-209 | a lot starts with the given fill, quantity and fee |
| `TradingCost.MatchTop` | src/investment_manager/portfolio/evaluation.py:240-290 | one match against the newest lot object, in place: the trip, the shrunk or popped lot and the rest of the fill are those of one step of the stack law |
| `TradingCost.MatchOpposite` | src/investment_manager/portfolio/evaluation.py:239-290 | the matching loop over lot objects computes the stack law |
| `TradingCost.MatchFill` | src/investment_manager/portfolio/evaluation.py:233-298 | one fill against its stack of lot objects, remainder opened, equals the stack law |
| `TradingCost.ReplayInPlace` | src/investment_manager/portfolio/evaluation.py:231-298 | the whole loop over mutable lots and per-key stacks equals the replay on values, or reports the multiplier conflict |
| `TradingCost.EvaluateTradingCost` | src/investment_manager/portfolio/evaluation.py:212-338 | the evidence or the error, in the order of the checks, computed by the in-place replay |
| `Pricing.RemainingTargetGrossBps` | src/investment_manager/portfolio/decision.py:131-175 | the loop over legs returns the forecast minus the executable drift of the retained and added mixture; bad notionals are errors |
| `Pricing.LargerSizeKeepsLessGross` | src/investment_manager/portfolio/decision.py:159-175 | for a fixed holding and ask >= bid, remaining gross never grows with the evaluated size, for long and short legs alike |
| `Pricing.OnlyAddedExposurePaysTheSpread` | src/investment_manager/portfolio/decision.py:159-175 | against the exit-side price of the whole target, exactly the added fraction pays the weighted spread |
| `Pricing.EstimateStateTransitionCost` | src/investment_manager/portfolio/decision.py:178-256 | the accumulating loop returns the fee, spread and depth parts and their total; bad notionals are errors |
| `Pricing.CostInMoneyIgnoresEvaluation` | src/investment_manager/portfolio/decision.py:200-277 | total bps times the evaluation notional is a sum of money that does not mention the evaluation notional |
| `Pricing.CostGrowsAboveCurrent` | src/investment_manager/portfolio/decision.py:200-277 | in money, the cost never falls as the target grows above the holding |
| `Pricing.CostIsNonNegative` | src/investment_manager/portfolio/decision.py:196-256 | no transition has a negative cost |
| `Pricing.SlippageIsFreeExactlyWithinDepth` | src/investment_manager/portfolio/decision.py:221-277 | with a spread on every leg, depth slippage is zero iff every trade of every leg fits the book side it consumes |
| `PortfolioDecision.EligibleIsJustified` | src/investment_manager/portfolio/decision.py:621-733 | an eligible evaluation is current, carries the gross, cost and net of its own size, and clears zero or, when only retaining, the cost of leaving |
| `PortfolioDecision.NoDownsideExactlyWhen` | src/investment_manager/portfolio/decision.py:920-933 | the downside moment vanishes iff no scenario of positive probability loses after costs |
| `PortfolioDecision.FractionIsWithinCap` | src/investment_manager/portfolio/decision.py:906-937 | a positive net edge gets a positive fraction within the single-sleeve cap |
| `PortfolioDecision.FractionBalancesDownside` | src/investment_manager/portfolio/decision.py:934-937 | below the cap the fraction squared times the downside moment equals the net squared, at the cap it is at most that |
| `PortfolioDecision.ChoiceMeaning` | src/investment_manager/portfolio/decision.py:393-429 | without a holding the best eligible product is selected; a holding is kept iff eligible and not beaten after its exit cost; beaten it is left first and nothing is selected |
| `PortfolioDecision.SelectionMeaning` | src/investment_manager/portfolio/decision.py:368-432 | the same for every exposure of a decision, against all its eligible products |
| `PortfolioDecision.ProposalKeepsHoldings` | src/investment_manager/portfolio/decision.py:458-480 | scaling touches only increments: a proposal lies between min(requested, current) and requested |
| `PortfolioDecision.TotalIsBounded` | src/investment_manager/portfolio/decision.py:457-480 | whatever the review keeps, the sizes sum to at most the larger of the limit and the retained holdings |
| `PortfolioDecision.ScaleUsesTheWholeLimit` | src/investment_manager/portfolio/decision.py:457-480 | increments are scaled no further than needed: when they are scaled at all, the proposals sum to exactly max(limit, retained holdings) |
| `PortfolioDecision.GrowthIsJustified` | src/investment_manager/portfolio/decision.py:482-504 | a reviewed size above the holding needs new capital allowed, the entry window open and a strictly positive net at that size |
| `PortfolioDecision.PublishedEconomicsAreJustified` | src/investment_manager/portfolio/decision.py:485-543 | the gross, cost and net of a positive target are those of the evaluation that admitted exactly that size |
| `PortfolioDecision.DecisionLivesOn` | src/investment_manager/portfolio/decision.py:581-596 | the decision ends after its start, within the policy window and the deadline, and within the support of every admitted sleeve |
| `PortfolioDecision.OneProductPerExposure` | src/investment_manager/portfolio/decision.py:378-432 | two sleeves of one exposure that both end positive are the same sleeve |
| `PortfolioDecision.SwitchExitsFirst` | src/investment_manager/portfolio/decision.py:411-425 | while a holding is beaten, no product of its exposure ends with a positive size |
| `PortfolioDecision.DecisionStaysWithinLimit` | src/investment_manager/portfolio/decision.py:433-543 | the desired notionals of all targets sum to at most max(total limit, sum of retained holdings) |
| `PortfolioDecision.PublishedTargetsAreJustified` | src/investment_manager/portfolio/decision.py:482-543 | each target of a decision belongs to one sleeve, grows it only on new capital inside the entry window with positive net, keeps it only on support that beats leaving, and outlives the decision |
| `PortfolioDecision.EveryHoldingIsAnswered` | src/investment_manager/portfolio/decision.py:510-543 | every current holding receives a target |
| `PortfolioDecision.RefusalsAreExplained` | src/investment_manager/portfolio/decision.py:581-619 | no decision is refused as already over; the equity check refuses only when retained holdings alone exceed equity |
| `PortfolioDecision.CurrentExpressions` | src/investment_manager/portfolio/decision.py:378-386 | the scan finds the one holding of every exposure, or that two sleeves hold one exposure |
| `PortfolioDecision.SelectExpressions` | src/investment_manager/portfolio/decision.py:387-429 | the dictionaries and sets filled exposure by exposure are the selection whose meaning is proved above |
| `PortfolioDecision.ReviewAllocation` | src/investment_manager/portfolio/decision.py:485-507 | each proposal is evaluated once more at its own size; exactly the eligible ones are recorded |
| `PortfolioDecision.DecideCases` | src/investment_manager/portfolio/decision.py:339-619 | the phases of `decide` compute the decision whose guarantees are proved above |
| `PortfolioDecision.Decide` | src/investment_manager/portfolio/decision.py:286-338 | disabled or without equity nothing is decided; inconsistent inputs are errors in the order of the checks |
| `MarketShock.ShockWindow.Observe` | src/investment_manager/market/runtime.py:197-228 | a trade of an earlier second is refused; otherwise the move returned is the largest against every accepted sample of the window since the last restart, with at most w + 1 buckets kept |
| `MarketShock.ShockWindow.constructor` | src/investment_manager/market/runtime.py:230-248 | a new window summarizes exactly its first price |
| `MarketShock.ExtremesGiveLargestMove` | src/investment_manager/market/runtime.py:218-228 | the moves against the cached low and high bound, and attain, the largest move against the samples of the window |
| `MarketShock.WindowIsBounded` | src/investment_manager/market/runtime.py:215-217 | seconds strictly increase and span the window, so there are at most w + 1 buckets |
| `MarketShock.SameSecond` | src/investment_manager/market/runtime.py:220-224 | a further trade of the same second only widens the last bucket and stays an exact summary |
| `MarketShock.EpisodesAreApart` | src/investment_manager/market/runtime.py:174-195 | consecutive episode starts are at least a window apart; an episode admits one event, or a calm one and then an urgent one |
| `MarketShock.RateIsBounded` | src/investment_manager/market/runtime.py:174-195 | attempts observed within a span T, in any order, are admitted at most 2 * (T / window + 1) times |
| `MarketShock.MarketShockDetector.AdmitEpisode` | src/investment_manager/market/runtime.py:174-195 | the two remembered fields answer as the whole log of the scope does |
| `MarketShock.MarketShockDetector.Observe` | src/investment_manager/market/runtime.py:105-172 | windows and episodes changed in place answer each event exactly as the full history would; true is returned iff a trigger was offered and inserted |
| `MarketShock.TriggersAreRateLimited` | src/investment_manager/market/runtime.py:140-195 | in every run whose observation times span T, a scope is woken at most 2 * (T / window + 1) times |
| `MarketShock.TriggersAreRealMoves` | src/investment_manager/market/runtime.py:110-172 | every trigger of every run belongs to a watched event that moved by the threshold from a price reported in that run, with priority between 80 and 100 |
| `MarketShock.PriorityMeaning` | src/investment_manager/market/runtime.py:140 | a crossing ranks 100 iff the move is at least five quarters of the threshold, and never below 80 |
| `MarketShock.CrossingStartsAfresh` | src/investment_manager/market/runtime.py:142-171 | after any crossing, published or suppressed, the next trade is weighed against the restart price alone |
| `MarketShock.UrgentMoveIsHeard` | src/investment_manager/market/runtime.py:183-195 | an urgent crossing goes unpublished only if its episode already published an urgent event less than a window ago |
| `ProperScores.BrierIsStrictlyProper` | src/investment_manager/forecast/scoring.py:8-20 | reporting q under p costs exactly the squared distance more than reporting p, and nothing iff q = p |
| `ProperScores.RankedScoreIsStrictlyProper` | src/investment_manager/forecast/scoring.py:23-41 | the excess is the squared distance of the cumulated probabilities over n - 1, zero iff q = p |
| `ProperScores.BiasVariance` | src/investment_manager/forecast/scoring.py:13-41 | the law both scores share: the expected squared distance exceeds that at the mean by the squared distance to the mean |
| `ProperScores.RankedProbabilityScore` | src/investment_manager/forecast/scoring.py:23-41 | the one-pass loop returns the squared distance of cumulations over n - 1, or the error for an unknown bucket or fewer than two |
| `ProperScores.BrierIsDistance` | src/investment_manager/forecast/scoring.py:12-20 | with unique buckets the Brier score is the squared distance to what happened |
| `ProperScores.BrierIsBetweenZeroAndTwo` | src/investment_manager/forecast/scoring.py:8-20 | a distribution scores between 0 and 2, and 0 iff it was certain of what happened |
| `ProperScores.RankedScoreIsNormalized` | src/investment_manager/forecast/scoring.py:23-41 | a distribution scores between 0 and 1 |
| `ProperScores.CertaintyPaysItsError` | src/investment_manager/forecast/scoring.py:33-41 | certainty in bucket j when r happens scores |j - r| / (n - 1) |
| `OutcomeBuckets.EveryReturnIsResolved` | src/investment_manager/forecast/settlement.py:303-308 | for every accepted contract and every return a first containing bucket exists |
| `OutcomeBuckets.UniqueExactlyWhenBounded` | src/investment_manager/forecast/contracts.py:136-147 | the containing bucket is unique iff no interior bound is open, whatever the return |
| `OutcomeBuckets.AnOpenInteriorBoundIsAccepted` | src/investment_manager/forecast/contracts.py:136-147 | a concrete contract with an open interior bound passes the validator |
| `OutcomeBuckets.SettlementPassesTheStore` | src/investment_manager/forecast/repository.py:525-540 | settlement's bucket always passes the store; with no open interior bound exactly the containing bucket passes |
| `OutcomeBuckets.StoreMeansContainingExactlyWhenBounded` | src/investment_manager/forecast/repository.py:530-540 | the store accepts a bucket iff it contains the return, for all returns, iff no interior bound is open |
| `OutcomeBuckets.RepresentativesClimb` | src/investment_manager/forecast/contracts.py:47-59 | with no open interior bound representatives strictly increase |
| `OutcomeBuckets.ExpectedGrossIsInRange` | src/investment_manager/forecast/repository.py:499-511 | the expected return of a distribution lies between the first and the last representative |
| `OutcomeBuckets.SlotExistsExactlyWhen` | src/investment_manager/forecast/contracts.py:342-371 | a slot can be created iff its information is not newer than the slot, is within the contract's positive slack, and its prices are usable |
| `OutcomeBuckets.FreshSlotLeavesTime` | src/investment_manager/forecast/contracts.py:107-124 | a fresh slot leaves more than the minimum horizon after its deadline |
| `OutcomeBuckets.FundingIsCompleteExactlyWhen` | src/investment_manager/forecast/settlement.py:211-223 | the check passes iff every stretch longer than the gap saw a settlement; the early return decides nothing |
| `DocumentInformation.FragmentIsCovered` | src/investment_manager/information/models.py:292-309 | the search loop answers whether some bounded occurrence exists, overlapping ones included |
| `DocumentInformation.CoverageIsTransitive` | src/investment_manager/information/models.py:292-309 | whole words inside whole words are whole words |
| `DocumentInformation.EventFragments` | src/investment_manager/information/models.py:283-289 | the loop lists each non-empty text of the event once |
| `DocumentInformation.RevisionAddsInformation` | src/investment_manager/information/models.py:242-280 | the classifier says no iff the document was seen and all symbols and fragments were known from it |
| `DocumentInformation.CompactionIsInvisible` | src/investment_manager/information/models.py:242-280 | dropping every non-expanding observation never changes what adds information later |
| `DocumentInformation.CompactedIsExpanding` | src/investment_manager/information/models.py:242-280 | a reader who keeps only what expands what it kept keeps exactly the expanding observations |
| `DocumentInformation.EventStore.constructor` | src/investment_manager/information/repository.py:97-114 | an empty store |
| `DocumentInformation.EventStore.Put` | src/investment_manager/information/repository.py:116-204 | a new event is stored with the flag of the rows observed no later and wakes its symbols iff it expands; a taken key is ignored, refused or ambiguous as its holders decide |
| `DocumentInformation.Upgrade` | migrations/versions/e9a5b2c7d130_document_information_expansion.py:41-62 | the single pass with per-document histories flags each row as the rows before it decide |
| `DocumentInformation.BackfillMatchesReplayExactlyWhen` | migrations/versions/e9a5b2c7d130_document_information_expansion.py:41-62 | the backfill equals replaying the online store iff every row with an empty URL expands; rows with another URL, or none, always agree |
| `DocumentInformation.EmptyLocatorsDiverge` | migrations/versions/e9a5b2c7d130_document_information_expansion.py:53-57 | two concrete rows with an empty URL on which backfill and store disagree |
| `DocumentInformation.NothingNewIsSilenced` | src/investment_manager/information/repository.py:193-204 | in any order of arrival, a row that adds to everything observed by its time is flagged |
| `ForecastLedger.ForecastLedger.constructor` | src/investment_manager/forecast/contract_repository.py:32-36 | an empty, lawful ledger |
| `ForecastLedger.ForecastLedger.RecordContract` | src/investment_manager/forecast/contract_repository.py:38-54 | written once; an exact retry changes nothing; other content under a taken key conflicts |
| `ForecastLedger.ForecastLedger.RecordBinding` | src/investment_manager/forecast/contract_repository.py:64-90 | needs its contract; one binding per contract, behavior and permission |
| `ForecastLedger.ForecastLedger.RecordSlot` | src/investment_manager/forecast/contract_repository.py:156-205 | a new slot is written together with its first obligation; a known one only gains the obligation |
| `ForecastLedger.ForecastLedger.RecordDuty` | src/investment_manager/forecast/contract_repository.py:207-246 | an obligation needs its slot and binding and is refused once an answer exists |
| `ForecastLedger.ForecastLedger.RecordAbsence` | src/investment_manager/forecast/contract_repository.py:332-378 | needs the matching obligation and no forecast; an exact retry always succeeds |
| `ForecastLedger.ForecastLedger.RecordForecast` | src/investment_manager/forecast/repository.py:52-83 | needs its contract, slot, obligation and base, and no absence; an exact retry always succeeds |
| `ForecastLedger.RunsOnlyAppend` | src/investment_manager/forecast/contract_repository.py:156-246 | every run of attempts keeps the ledger lawful and leaves every written row in place |
| `ForecastLedger.NoAnswerIsContradicted` | src/investment_manager/forecast/repository.py:405-412 | no (slot, behavior) has both a forecast and a NO_ESTIMATE |
| `ForecastLedger.ForecastWasOwed` | src/investment_manager/forecast/repository.py:413-432 | every forecast answers one earlier obligation, the only one of its slot and behavior |
| `ForecastLedger.AbsenceWasOwed` | src/investment_manager/forecast/contract_repository.py:336-351 | so does every NO_ESTIMATE |
| `ForecastLedger.DutyHasItsSource` | src/investment_manager/forecast/contract_repository.py:207-246 | every obligation follows its slot and binding and precedes every answer |
| `ForecastLedger.CalibratedHasItsBase` | src/investment_manager/forecast/repository.py:433-447 | every calibrated forecast follows the only base forecast of its slot and behavior |
| `ForecastLedger.ForecastFitsItsContract` | src/investment_manager/forecast/repository.py:477-511 | what a stored forecast reports is what the contract of that id prescribes |
| `ForecastLedger.JoinYieldsEachForecastOnce` | src/investment_manager/forecast/repository.py:271-294 | joining forecasts to obligations yields each forecast exactly once, in order |
| `ForecastLedger.RetryPasses` | src/investment_manager/forecast/contract_repository.py:410-429 | everything an admitted row needed is still there, so an exact retry is never refused |
| `ForecastLedger.KeysAreUnique` | src/investment_manager/forecast/contract_repository.py:410-429 | two rows of a ledger that share a unique key are the same row |
| `BlindClaims.BlindEvaluations.constructor` | src/investment_manager/governance/repository.py:96 | no claims |
| `BlindClaims.BlindEvaluations.Claim` | src/investment_manager/governance/repository.py:96-162 | the new table and the answer of one claim, error by error |
| `BlindClaims.BlindEvaluations.Complete` | src/investment_manager/governance/repository.py:173-210 | the new table and the answer of one completion, error by error |
| `BlindClaims.RunsRevealApart` | src/investment_manager/governance/repository.py:96-210 | over every run, granted claims share no plan, query or scope and no moment of a symbol; rows keep their columns |
| `BlindClaims.RevealedStaysRevealed` | src/investment_manager/governance/repository.py:143-152 | once revealed, a window is never granted again, whatever was completed since |
| `BlindClaims.CompletionIsFinal` | src/investment_manager/governance/repository.py:196-209 | a registered result is never changed |
| `BlindClaims.RetryReturnsTheClaimExactlyWhen` | src/investment_manager/governance/repository.py:124-137 | a retry of a granted claim returns the stored claim iff no completion moved the stored window, and never writes |
| `BlindClaims.CompletionMayMoveTheWindow` | src/investment_manager/governance/repository.py:189-210 | a concrete completion moves the window and makes the original retry fail |
| `MarketFacts.InMemoryMarketDataStore.constructor` | src/investment_manager/market/repository.py:240-254 | no facts |
| `MarketFacts.InMemoryMarketDataStore.Put` | src/investment_manager/market/repository.py:256-368 | a new key is stored; a known one keeps its first fact, late volume revisions of bars are ignored, other differences are errors |
| `MarketFacts.InMemoryMarketDataStore.Select` | src/investment_manager/market/repository.py:383-390 | the filter of a query: every visible fact once |
| `MarketFacts.InMemoryMarketDataStore.Latest` | src/investment_manager/market/repository.py:391-395 | the maximum of the visible facts under the rank of their kind |
| `MarketFacts.InMemoryMarketDataStore.Listing` | src/investment_manager/market/repository.py:498-514 | the visible facts in rank order |
| `MarketFacts.InMemoryMarketDataStore.LatestSpotQuote` | src/investment_manager/market/repository.py:370-395 | the spot query, with its errors |
| `MarketFacts.InMemoryMarketDataStore.LatestCrossVenueSpotQuotes` | src/investment_manager/market/repository.py:397-424 | the latest quote of each venue, in venue order |
| `MarketFacts.InMemoryMarketDataStore.LatestPerpetualState` | src/investment_manager/market/repository.py:426-442 | the perpetual state query |
| `MarketFacts.InMemoryMarketDataStore.LatestPerpetualQuote` | src/investment_manager/market/repository.py:444-467 | the perpetual quote query, with its error |
| `MarketFacts.InMemoryMarketDataStore.LatestPerpetualProductRules` | src/investment_manager/market/repository.py:469-483 | the product rules query |
| `MarketFacts.InMemoryMarketDataStore.FundingSettlements` | src/investment_manager/market/repository.py:485-514 | the settlement listing, with its error |
| `MarketFacts.InMemoryMarketDataStore.LatestTradingSchedule` | src/investment_manager/market/repository.py:516-530 | the schedule query |
| `MarketFacts.InMemoryMarketDataStore.LatestTrade` | src/investment_manager/market/repository.py:532-545 | the trade query, an error when nothing is visible |
| `MarketFacts.InMemoryMarketDataStore.MarketSnapshot` | src/investment_manager/market/repository.py:547-594 | quote, trade and the last bars, or an error when one is missing |
| `MarketFacts.LatestMeaning` | src/investment_manager/market/repository.py:391-395 | the latest fact is visible and outranks every visible fact, and is missing iff nothing is visible |
| `MarketFacts.FirstSeenWins` | src/investment_manager/market/repository.py:256-368 | over any run of puts the fact of a key is the first one reported under it |
| `MarketFacts.PastIsStable` | src/investment_manager/market/repository.py:370-594 | after any puts of facts observed later than a query's visible time, every query keeps its answer |
| `MarketFacts.FundingIsChronological` | src/investment_manager/market/repository.py:498-514 | a settlement listing is in time order, within its interval, and complete |
| `MarketFacts.FundingCheckMeaning` | src/investment_manager/forecast/settlement.py:81-91 | settlement's funding check on that listing passes iff no stretch longer than the gap lacks a visible settlement |
| `CapitalPanel.CollectByCutoff` | src/investment_manager/decision_cycle/capital.py:604-622 | one source's forecasts by cutoff, or an error iff one disagrees with the source or two share a cutoff |
| `CapitalPanel.AuthorizedForecastPanel` | src/investment_manager/decision_cycle/capital.py:593-627 | the panel holds exactly one forecast per family, all at the newest cutoff every source has; it is empty iff there is no source or no common cutoff |
| `CapitalPanel.PanelIsUnique` | src/investment_manager/decision_cycle/capital.py:623-627 | the panel is determined by the sources as a set: their order does not matter |
| `CapitalPanel.CutoffNeverRecedes` | src/investment_manager/decision_cycle/capital.py:606-610 | with expired forecasts included, a later reading of a larger ledger never has an older newest cutoff |
| `CapitalPanel.ExpiryMayRecede` | src/investment_manager/decision_cycle/capital.py:606-610 | without them a concrete panel falls back |
| `CapitalPanel.CycleIsItsForecasts` | src/investment_manager/decision_cycle/capital.py:583-591 | two cycles have one identity iff they weigh the same forecasts |
| `CapitalPanel.MergeInstruments` | src/investment_manager/decision_cycle/capital.py:1085-1096 | every instrument once in key order, or an error iff one key has two definitions |
| `CapitalPanel.MergeIsUnique` | src/investment_manager/decision_cycle/capital.py:1085-1096 | the merge depends on the instruments alone, not on grouping, order or repetition |

## Left out

- Decimal context rounding to 28 digits; every arithmetic result is about exact values.
- Network, database engines, locks, clocks, logging and asynchronous runtimes; each public method is one atomic step, also
  where the code uses two transactions.
- Hash computation and the decoding of legacy binding identities; a hashed identity is taken as injective.
- NFKC normalisation, case folding and whitespace joining of document texts; texts start normalised.
- TradingCost: round-trip hash identities, holding-time statistics, fee ratios and the count of fee reversals.
- Pricing: the quote references a cost estimate lists.
- PortfolioDecision: the hash check of a sleeve identity, the freeze time and order of the quote tuple, the decision's reason
  code set, the frozen candidate evaluations and the content hashes of the target; sleeve notionals, payoff projections and
  forecasts are inputs, because the modules that produce them are not part of this model.
- MarketShock: deduplication keys; whether the sink inserts a trigger is an input. `_persistence_due` is a single comparison.
- OutcomeBuckets: field length limits, the orientation list, the spot-midpoint rule, contract and slot identities, and the
  price and funding arithmetic of one leg.
- DocumentInformation: event fields that the classifier does not read, and the contents of the trigger beyond its event and
  symbol; a unique-key clash of trigger rows.
- ForecastLedger: outcome rows, activation times, material-slot queries, JSON snapshot checks and legacy bindings; the row
  validators that do not involve other rows. Refusals before insertion are one error and unique-key conflicts another.
- BlindClaims: the registration of plans, which are given and fixed.
- MarketFacts: the SQL store, whose tie-breaks for trades differ; validation inside a snapshot; the ten put methods, which
  have one shape, are one method over a kind.
- CapitalPanel: the rest of the decision cycle, in particular recovery, execution and account projection.
