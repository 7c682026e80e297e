# Verified model of the prediction-market operator bot

This project models the state machines and the money arithmetic of the bot and proves what they keep, over every input
and every run of operations. It has three layers.

- Pure arithmetic and decisions (paper fills, prices, sizing, policies, signal scores, verdicts) are functions with
  lemmas about their bounds, order and conservation.
- Every service that updates stored state is a class whose methods are proved equal to a specification function from
  the old state and the arguments to the new state and the answer.
- The protocol modules (`proposal_protocol`, `pipeline_protocol`, `trading_system`, `auth_protocol`, `auth_grants`,
  `lockout`, `alert_protocol`, `telegram_polling`, `polling_protocol`, `opportunity_drafting`, `inbox_protocol`) prove properties
  of arbitrary sequences of those operations.

Units: money is in whole cents, prices and probability deltas are in ticks of 0.0001, times are integers, and
configuration ratios and raw market figures are exact reals. The one rounding function, `Common.Round`, enters the main
results through three facts: it fixes grid points, keeps order, and errs by at most half a unit.

A repository is a map by identifier plus append-only logs. Where a query returns rows, the rows are an argument of the
method together with a predicate that says they answer the query; their order is arbitrary. Identifiers come from a
counter, or are arguments that are required never to repeat.

## What the proofs found

- No accepted order is ever judged partially filled; the verdict "partially_filled" is given to rejected orders and to
  no others (`ExecutionEvaluation.PartiallyFilledMeansRejected`).
- A paper fill never beats its reference, so the review outcome "execution_favorable" means exactly that slippage rounded
  to nothing (`DecisionReview.FavorableIff`).
- An accepted size edit of at most half a cent leaves a size of zero (`ProposalProtocol.TinyEditBecomesZero`).
- A password check that answers plain false is rejected without counting towards the lockout
  (`WebAuth.WebAuthService.Login`).
- Requesting analysis on a closed review request, or a refresh that still fails on a closed diagnostics request, makes it
  active again, which can leave two active requests on one subject; `DecisionInbox.ActionKeepsOneActiveIff` gives the
  exact condition and `InboxProtocol.RevivalExample` a run that reaches it.
- An approval that is refused because the proposal expired or failed its policies leaves the review request open
  (`InboxProtocol.RefusedApprovalOrphans`), and no decision through that request can ever succeed afterwards
  (`InboxProtocol.OrphansAreNeverActioned`).
- Repeating an opportunity scan can create an alert, when a market has come to resolve soon since, or when the system has
  come to hold a proposal or research on it; `AlertProtocol.RescanCreatesNothingIff` gives the exact condition and
  `AlertProtocol.RescanExamples` an instance of each.
- A page size of zero or less gives a single page that drops results (`MarketCatalog.PagesPartitionResults`), and a market
  stream that wants no messages reconnects without end (`WebsocketStream.NothingWantedNeverSucceeds`).
- Without the configuration check that a position may not exceed a theme, sizing can break the theme limit;
  `Sizing.ThemeLimitWithoutExposure` says exactly when.
- Merging three configuration layers is not associative; `ConfigMerge.AssociativeIff` gives the exact condition.
- A signal exactly at the confidence threshold is admitted with a size fraction of zero
  (`SignalAdmission.ThresholdAdmitsNothing`), and with a threshold above 0.999999 even full confidence is not proposed at
  the whole maximum (`SignalAdmission.FullConfidenceIff`).
- An unknown sort name sorts the catalog by liquidity ascending, the reverse of the default order
  (`MarketCatalog.OrderOfEachSort` states it beside the others).
- The scorer's documentation says that the five improvements of a momentum market all raise the confidence. They never
  lower it, but they need not raise it: `SignalScoring.MomentumRisesIff` says exactly when they do, and
  `SignalScoring.ImprovementWithoutRise` is an input where all five leave it as it was.

## Files

| file | content |
|---|---|
| `common`, `domain`, `settings`, `tally`, `stable_sorting`, `text_order` | options, rounding, sums, enumerations, validated configuration, counting, stable sorting, string order |
| `paper_trading`, `execution_evaluation`, `decision_review` | paper fills, execution verdicts, decision reviews |
| `policies`, `sizing` | the four policies and their conjunction, position sizing |
| `proposal_lifecycle`, `proposal_protocol` | the lifecycle service; its whole-run properties |
| `execution_pipeline`, `pipeline_protocol`, `trading_system` | order intents; their whole-run properties; both services together |
| `opportunity_drafting` | drafting proposals from scanned opportunities |
| `web_auth`, `lockout`, `auth_protocol`, `auth_grants` | login, sessions and remember tokens; lockout refinement; whole runs; returned cookies against accepted ones |
| `operator_alerts`, `alert_protocol`, `telegram_polling`, `polling_protocol` | alerts and scans; whole runs; notification polling; polling with the inbox |
| `decision_inbox`, `inbox_service`, `inbox_protocol` | operator requests and the review queue; the inbox with the services behind it; whole runs |
| `signal_scoring`, `signal_admission`, `signal_engine` | strategy signals |
| `outcome_analysis`, `market_catalog` | grouped statistics, catalog browsing |
| `config_merge`, `websocket_stream` | configuration layers, market stream with reconnects |

## Model

| member | source | states |
|---|---|---|
| PaperTrading.BuildFillFragments | bot/adapters/polymarket/trading.py:172-203 | the fragment loop computes the specified fragments: skipped sizes keep their position, which fixes later latencies |
| PaperTrading.FillOrder | bot/adapters/polymarket/trading.py:89-146 | the four branches (cancel, expiry, small fill, split fill) fill exactly the planned sizes at the price of the branch, and the reported fill is the sum of the fragments; `EndingOfEachOrder` gives the figures |
| PaperTrading.SimulateOrder | bot/adapters/polymarket/trading.py:65-170 | a paper order ends exactly as specified, rejections included; `EndingOfEachOrder` and `SlippageReported` say what that is from the request alone |
| PaperTrading.FragmentsAddUp | bot/adapters/polymarket/trading.py:172-203 | for any split that does not overfill, fragments add up to the split and each remainder is the size less the prefix sum of fills |
| PaperTrading.FragmentsInOrder | bot/adapters/polymarket/trading.py:172-203 | positions strictly increase; latencies and time stamps follow them |
| PaperTrading.PlanFitsTheOrder | bot/adapters/polymarket/trading.py:89-146 | in every branch the rounded sizes are non-negative, never exceed the order, and reach it exactly when the stage is filled |
| PaperTrading.FillConservation | bot/adapters/polymarket/trading.py:89-170 | for every accepted order the fill is the fragment sum, at most the size; nothing remains exactly when filled; latencies strictly increase; the fill time is the last fragment's |
| PaperTrading.FilledShare | bot/adapters/polymarket/trading.py:89-146 | a cancelled order fills a quarter, an expired one two fifths, each to half a cent; any other is filled completely |
| PaperTrading.SimulatedPriceIsFragmentPrice | bot/adapters/polymarket/trading.py:147-154 | the volume-weighted price is the common fragment price, and its division is never by zero |
| PaperTrading.SimulatedPriceBounds | bot/adapters/polymarket/trading.py:84-154 | for quotes in [0, 1] the price is in [0, 1], never better than the reference, off by at most the slippage plus half a tick, and the reported slippage has the sign that costs the trader |
| PaperTrading.EndingOfEachOrder | bot/adapters/polymarket/trading.py:84-146 | how every accepted order ends, from its fields and plain numerals: stage, reason, price at 6, 8, 4 or 6 basis points off the quote or limit it is entitled to, share filled, and latencies |
| PaperTrading.SlippageReported | bot/adapters/polymarket/trading.py:151-154 | the reported slippage is the relative move of the price to half a hundredth of a basis point, and absent exactly without a price or on a zero reference |
| PaperTrading.FillAtPrice | bot/adapters/polymarket/trading.py:172-203 | the loop over fill sizes at one price: each filled step appends its fragment, each empty one is skipped |
| ExecutionEvaluation.FullFillLatency | bot/adapters/polymarket/trading.py:118-146 | a full fill's latency is one base latency, or two when it was split |
| ExecutionEvaluation.PartiallyFilledMeansRejected | bot/services/execution_evaluation.py:152-171 | over simulation and evaluation, "partially_filled" is the verdict exactly for rejected orders |
| ExecutionEvaluation.DefaultPriceDelta | bot/services/execution_evaluation.py:79-88 | on default quotes a full fill is never dear, and is cheap exactly for a no-side limit above 20 ticks |
| ExecutionEvaluation.DefaultVerdict | bot/services/execution_evaluation.py:145-171 | end to end without overrides: expired above 100 dollars, better than expected exactly for a no-side limit above 0.0020, within range otherwise |
| ExecutionEvaluation.SlowOrDearIsWorse | bot/services/execution_evaluation.py:152-171 | with any quotes and base latency a full fill is worse than expected exactly when it costs more than 50 ticks over the limit or exceeds its latency allowance by over 250 ms |
| ExecutionEvaluation.VerdictOfEachOrder | bot/services/execution_evaluation.py:152-171 | the verdict on every accepted order from its own fields and fill price: cancelled, expired, better, worse or within range, with the thresholds 20, 50 and 250 |
| DecisionReview.FavorableIff | bot/services/decision_review.py:207-213 | a paper fill is favorable exactly when slippage is below half a tick, or half a tick from an even reference, or a buyer's reference is already 1 |
| DecisionReview.JudgementsOf | bot/services/decision_review.py:194-213 | each of the three judgements of a review, exactly when the deltas and the stored execution call for it |
| Settings.ValidatedCaps | bot/config/loader.py:74-100 | a validated configuration has non-negative caps and a position cap within the theme cap |
| Policies.EvaluateMarket | bot/policies/market_policy.py:13-43 | the market policy's reasons, in order; none exactly when every market condition is met |
| Policies.EvaluateRisk | bot/policies/risk_policy.py:12-29 | the risk policy's reasons, in order; none exactly when there is room for a position within all money limits |
| Policies.EvaluateExecution | bot/policies/execution_policy.py:14-23 | the execution policy's reasons, in order; none exactly for the configured order type on fresh data with the kill switch enabled |
| Policies.EvaluateAI | bot/policies/ai_policy.py:13-35 | the AI policy's reasons, in order; none exactly when edge, confidence, agreement and sources suffice |
| Policies.EvaluateAll | bot/policies/composite_policy.py:20-32 | the composite collects every policy's reasons and is empty exactly when all four policies' conditions hold |
| Policies.NoReasonsIffAllowed | bot/policies/composite_policy.py:20-32 | no reasons if and only if every independent condition of the four policies is met |
| Policies.ReasonIff | bot/policies/composite_policy.py:20-32 | each of the twenty reasons is given exactly when the condition it names is the case |
| Sizing.Size | bot/services/sizing.py:28-65 | the reassigning steps compute the specified product, caps, penalty, clamp and rounding; `RecommendationOfEachInput` says what that is from the inputs alone |
| Sizing.RecommendedWithinAllowed | bot/services/sizing.py:28-65 | the recommendation lies between zero and the allowed maximum |
| Sizing.SizingMonotone | bot/services/sizing.py:28-65 | the recommendation never falls with more confidence, edge or liquidity or less exposure, through every clamp, product and rounding |
| Sizing.RecommendedFitsRoom | bot/policies/risk_policy.py:19-28 | with exposures within their caps the recommendation breaks none of the three money limits by more than half a cent |
| Sizing.WholeCentsPassMoneyLimits | bot/policies/risk_policy.py:19-28 | when caps and exposures leave whole cents it breaks none of them at all |
| Sizing.NothingBeyondCaps | bot/services/sizing.py:28-65 | nothing is recommended once an exposure has used up its cap |
| Sizing.ThemeLimitWithoutExposure | bot/config/loader.py:82-88 | without the position-within-theme check, the theme limit survives sizing exactly when the ceiling is already inside it |
| Sizing.RecommendationOfEachInput | bot/services/sizing.py:28-65 | the recommendation of every input to half a cent: the least room under each cap, times a conviction that is a quarter up to a quarter of the way to certainty and proportional above, times an edge share that is half up to half the minimum and proportional to it, less a quarter when liquidity is thin |
| Sizing.QuarterAtTheMinimum | bot/services/sizing.py:39-44 | one input in full: minimum confidence gets 25 dollars of the 100 allowed |
| ProposalLifecycle.ProposalLifecycleService.Create | bot/services/proposal_lifecycle.py:43-64 | creation stores the sized and judged proposal and its review entry |
| ProposalLifecycle.ProposalLifecycleService.ExpireStale | bot/services/proposal_lifecycle.py:137-153 | the loop cancels exactly the stale pending rows, logs each once, and leaves the rest |
| ProposalLifecycle.ProposalLifecycleService.EditSize | bot/services/proposal_lifecycle.py:155-172 | the whole new state of a size edit, each refusal included |
| ProposalLifecycle.ProposalLifecycleService.EditPrice | bot/services/proposal_lifecycle.py:174-191 | the whole new state of a price edit, each refusal included |
| ProposalLifecycle.ProposalLifecycleService.Reject | bot/services/proposal_lifecycle.py:193-215 | the whole new state of a rejection |
| ProposalLifecycle.ProposalLifecycleService.CancelProposal | bot/services/proposal_lifecycle.py:217-241 | the whole new state of a cancellation |
| ProposalLifecycle.ProposalLifecycleService.RequestAnalysis | bot/services/proposal_lifecycle.py:243-263 | analysis is logged and changes no row |
| ProposalLifecycle.ProposalLifecycleService.Approve | bot/services/proposal_lifecycle.py:265-410 | the whole new state of an approval with expiry, missing data, revalidation failure and success; `ApprovedIff` says which from the arguments alone |
| ProposalLifecycle.ProposalLifecycleService.ResolveSnapshot | bot/services/proposal_lifecycle.py:431-467 | a provider failure is logged, a missing context is not |
| ProposalProtocol.ReplayYieldsStatus | bot/services/proposal_lifecycle.py:412-429 | over every run, folding a proposal's review log gives exactly its stored status, the log is a word of the protocol, and four statuses occur |
| ProposalProtocol.RunSettles | bot/services/proposal_lifecycle.py:137-410 | policy-rejected and cancelled proposals never change again; an approved one is only ever cancelled |
| ProposalProtocol.RunKeepsInvariant | bot/services/proposal_lifecycle.py:43-410 | every run keeps row terms, size bounds, the log and the record of approvals consistent |
| ProposalProtocol.ApprovedIff | bot/services/proposal_lifecycle.py:265-374 | approval succeeds exactly for a known, pending, unexpired proposal with fresh data on which its current size meets every condition, each of them spelled out: the edge is fair probability less price, each money limit has its own exposure plus the size |
| ProposalProtocol.FailedSnapshotChangesNoProposal | bot/services/proposal_lifecycle.py:431-467 | without fresh data no proposal changes and at most one error entry is logged |
| ProposalProtocol.EditedSizeInRange | bot/services/proposal_lifecycle.py:155-172 | rounding an allowed amount keeps it within the allowed maximum |
| ProposalProtocol.TinyEditBecomesZero | bot/services/proposal_lifecycle.py:155-172 | an accepted edit leaves zero exactly when the amount is at most half a cent |
| ProposalProtocol.ApprovalRecordsItsData | bot/services/proposal_lifecycle.py:311-410 | an approval stores the price and estimate it was judged on; every other outcome on fresh data is a rejection by policy |
| ProposalProtocol.CreatedProposal | bot/services/proposal_lifecycle.py:43-64 | what a created proposal is: its size, status, price and lifetime, told from its context |
| ProposalProtocol.ExpiryIsExact | bot/services/proposal_lifecycle.py:137-153 | after the expiry loop exactly the pending proposals past their time have been cancelled, each with one more log entry |
| ProposalProtocol.TransitionsIff | bot/services/proposal_lifecycle.py:155-263 | exactly which edits, rejections, cancellations and analyses are accepted, with the edited figures to half a unit |
| ProposalProtocol.LogYieldsTerms | bot/services/proposal_lifecycle.py:155-191 | over every run the size and limit of a proposal are those of its last logged edit of each, or the recommended and suggested ones |
| ExecutionPipeline.ExecutionPipelineService.CreateOrderIntent | bot/services/execution_pipeline.py:40-91 | creation with the supersession loop: exactly the proposal's active intents are retired in favour of the new one |
| ExecutionPipeline.ExecutionPipelineService.PrepareSubmission | bot/services/execution_pipeline.py:93-119 | the whole new state of preparing; `AnswersDecide` says where each answer leads |
| ExecutionPipeline.ExecutionPipelineService.SubmitIntent | bot/services/execution_pipeline.py:121-159 | the whole new state of submitting; semi-auto mode disables the intent before the error; `AnswersDecide` says where each answer leads |
| ExecutionPipeline.ExecutionPipelineService.SimulateIntent | bot/services/execution_pipeline.py:161-261 | one execution row and its fill events are stored with the intent's final status |
| ExecutionPipeline.ExecutionPipelineService.SaveFillEvents | bot/storage/execution_repo.py:175-198 | the loop appends one event per fragment, in order |
| PipelineProtocol.ReachableStatesAreConsistent | bot/services/execution_pipeline.py:40-261 | in every reachable state: at most one active intent per proposal, executions and statuses match one to one, fill events sum to each execution's fill, and semi-auto mode never submits |
| PipelineProtocol.LinksAreAcyclic | bot/services/execution_pipeline.py:51-82 | supersession links stay within a proposal and never come back |
| PipelineProtocol.SupersessionEnds | bot/services/execution_pipeline.py:51-82 | in every reachable state, following the links from any intent ends after some number of steps at exactly one intent, of the same proposal and not superseded |
| PipelineProtocol.RunEvolves | bot/services/execution_pipeline.py:93-228 | over every run size, limit and side never change and terminal intents are never touched |
| PipelineProtocol.AtMostTwoChanges | bot/domain/enums.py:51-69 | every intent changes status at most twice over any run |
| PipelineProtocol.AnswersDecide | bot/services/execution_pipeline.py:93-159 | an accepting answer prepares or submits, a refusing one blocks or rejects, and nothing else changes |
| PipelineProtocol.LiveAdaptersAreRefused | bot/services/execution_pipeline.py:93-140 | on a live adapter nothing is ever prepared or submitted |
| PipelineProtocol.CreatedIff | bot/services/execution_pipeline.py:40-91 | exactly when an intent is created, and that it carries the terms of its proposal |
| PipelineProtocol.SupersededExactly | bot/services/execution_pipeline.py:51-82 | creation supersedes exactly the active intents of the proposal |
| PipelineProtocol.StatusTellsItsOperations | bot/services/execution_pipeline.py:93-228 | over every run each status is the trace of the answers given: whatever was simulated or submitted was first prepared by an accepting answer |
| PipelineProtocol.ExecutionsAreOfTheirIntents | bot/services/execution_pipeline.py:161-261 | over every run each stored execution is the paper result of the side, size and limit of its own intent |
| TradingSystem.EveryIntentWasApproved | bot/services/execution_pipeline.py:46-65 | over runs of both services every intent carries an approval's size, limit and side, given before expiry on data at most 120 seconds old, within the allowed size and the position cap, and yes-sided under a positive minimum edge |
| TradingSystem.ReachableIntentVerdict | bot/services/execution_evaluation.py:70-143 | from creation to verdict: a reachable tradable intent on default quotes is within range up to 100 dollars and expired above |
| OpportunityDrafting.OpportunityProposalBridgeService.DraftOpportunities | bot/services/opportunity_proposal_bridge.py:16-91 | the drafting loop with its set of seen markets, against the specification |
| OpportunityDrafting.DraftsKeep | bot/services/opportunity_proposal_bridge.py:33-89 | a draft run keeps stored proposals, drafts distinct markets that had no active proposal, and keeps one active proposal per market |
| OpportunityDrafting.DraftedExactly | bot/services/opportunity_proposal_bridge.py:33-89 | every opportunity is created or skipped, and a proposal is created on a market exactly when no active one was there and some opportunity on it has data |
| OpportunityDrafting.CreationKeepsOneActiveIff | bot/services/proposal_lifecycle.py:43-64 | a creation keeps one active proposal per market exactly when policy rejects it or its market is free |
| OpportunityDrafting.OwnSnapshotsFit | bot/services/opportunity_proposal_bridge.py:51-63 | drafts made from snapshots of their own markets always meet that condition |
| OpportunityDrafting.OneActiveProposalPerMarket | bot/services/proposal_lifecycle.py:69-82 | over runs of drafts, direct creations and all other operations, no market ever has two active proposals exactly when every creation meets that condition |
| WebAuth.CookieRoundTrip | bot/services/web_auth.py:400-406 | parsing inverts the compound cookie exactly when both parts are non-empty and the identifier has no dot |
| WebAuth.WebAuthService.TrimAttempts | bot/services/web_auth.py:392-395 | the while loop drops exactly the leading entries outside the window |
| WebAuth.WebAuthService.RecordFailure | bot/services/web_auth.py:378-387 | a failure is appended to the trimmed queue |
| WebAuth.WebAuthService.Login | bot/services/web_auth.py:113-168 | the whole new state and answer of a login in each of its six outcomes |
| WebAuth.WebAuthService.AuthenticateRequest | bot/services/web_auth.py:170-193 | the session cookie first, then restoration by a remember token with rotation; `AuthenticatesIff` says exactly when over every run |
| WebAuth.WebAuthService.AuthenticateSessionCookie | bot/services/web_auth.py:266-280 | a session cookie is accepted exactly when known, unrevoked, unexpired, matching and of a known user; `OnlyGrantedCookiesAuthenticate` ties it to the cookie returned |
| WebAuth.WebAuthService.AuthenticateRememberCookie | bot/services/web_auth.py:282-328 | a remember cookie restores a session and is revoked and rotated, or nothing changes; `OnlyGrantedCookiesAuthenticate` ties it to the cookie returned |
| WebAuth.WebAuthService.Logout | bot/services/web_auth.py:195-225 | exactly the session and token named by the cookies are revoked |
| WebAuth.WebAuthService.RevokeAllAuth | bot/storage/auth_repo.py:81-133 | every unrevoked session and token of the user is revoked and nothing else changes |
| Lockout.LoginFollowsQueue | bot/services/web_auth.py:122-139 | a login acts on its own key's queue as the queue machine does and leaves every other key alone |
| Lockout.LockoutRefinement | bot/services/web_auth.py:373-395 | the trimmed queue gives every attempt the verdict that counting in the full log of failures since the last success would give, stays sorted, and never exceeds the allowed failures |
| Lockout.LockoutOverRuns | bot/services/web_auth.py:113-168 | over runs of the whole service with users and addresses interleaved, each key gets exactly the verdicts of its own full log |
| Lockout.LockoutLifts | bot/services/web_auth.py:373-395 | a full queue locks until, and only until, its oldest entry leaves the window |
| AuthProtocol.RememberTokensAreSpentOnce | bot/services/web_auth.py:282-328 | over every run a remember token restores at most one session and each remembered login has at most one live token |
| AuthProtocol.RevokeAllIsFinal | bot/services/web_auth.py:243-253 | after revoking everything of a user no earlier session cookie, remember cookie or pair of that user authenticates, after any further operations |
| AuthProtocol.RevocationIsPermanent | bot/storage/auth_repo.py:74-133 | a revoked session or token stays unusable over every run |
| AuthProtocol.IssuedCookieAuthenticates | bot/services/web_auth.py:330-350 | the cookie a login issues authenticates that user after any operations until expiry or revocation |
| AuthProtocol.RunIsLater | bot/services/web_auth.py:94-253 | users, sessions and tokens are never forgotten or re-termed, and no revocation is undone |
| AuthGrants.OnlyGrantedCookiesAuthenticate | bot/services/web_auth.py:170-328 | over every run a request authenticates only by the very cookie returned to that user, a session cookie for 8 hours and a remember cookie for 30 days; a refused request changes nothing |
| AuthGrants.WrongSecretsAreRefused | bot/services/web_auth.py:266-300 | a secret that was never returned for an identifier gives no user and leaves the state alone |
| AuthGrants.AuthenticatesIff | bot/services/web_auth.py:170-328 | over every run a cookie authenticates exactly when it was returned, its lifetime is not over and what it names is unrevoked; a remember cookie is spent by it |
| AuthGrants.LoginAndLogout | bot/services/web_auth.py:113-225 | exactly when a login succeeds and which cookies it returns; a logout revokes what its cookies name |
| AuthGrants.LoginRefusals | bot/services/web_auth.py:113-139 | each way of refusing a login and what it leaves in the failures of its key |
| OperatorAlerts.OperatorNotificationsService.CreateAlert | bot/services/operator_notifications.py:174-202 | an active alert on the subject stands in for a new one, and the returned alert is active |
| OperatorAlerts.OperatorNotificationsService.CreateMarketOpportunityAlert | bot/services/operator_notifications.py:142-172 | any earlier alert on the subject, in whatever state, suppresses a new one |
| OperatorAlerts.OperatorNotificationsService.TransitionAlert | bot/services/operator_notifications.py:204-219 | the alert state machine with its time stamps and refusals |
| OperatorAlerts.OperatorNotificationsService.Scan | bot/services/operator_notifications.py:78-109 | the proposal scan loop raises exactly the alerts the rows call for |
| OperatorAlerts.OperatorNotificationsService.ScanOpportunities | bot/services/market_opportunity_alerts.py:49-172 | the opportunity scan loop with a clock reading per market, its counters, its final removal of repeats, and its answer when the catalog cannot be listed |
| OperatorAlerts.ScanCreatesDistinct | bot/services/market_opportunity_alerts.py:70-166 | a scan creates only new, distinct alerts, so the final removal of repeats never removes one |
| AlertProtocol.RunKeepsInvariant | bot/services/operator_notifications.py:15-20 | over every run alerts are never deleted and move only along the state machine |
| AlertProtocol.ReachableStoresAreDeduplicated | bot/storage/alerts_repo.py:149-191 | at most one open or acknowledged alert per subject, and at most one opportunity alert ever per type and market |
| AlertProtocol.AtMostTwoChanges | bot/services/operator_notifications.py:204-219 | each alert changes state at most twice over any run |
| AlertProtocol.ScanCreatesNothingIff | bot/services/market_opportunity_alerts.py:70-166 | a scan creates nothing exactly when every alert it calls for exists already, in whatever state |
| AlertProtocol.RescanCreatesNothingIff | bot/services/market_opportunity_alerts.py:70-166 | scanning the same listings under the same rules again, whatever happened to alerts and to the rest of the system in between, creates nothing exactly when every market that has since come to resolve soon, and every one the system has since come to hold context on, already has the alert that says so |
| AlertProtocol.RescanExamples | bot/services/market_opportunity_alerts.py:115-151 | two rescans that create an alert: a market that came to resolve soon, and one that the system came to hold a proposal on |
| AlertProtocol.ScanRaisesExactly | bot/services/market_opportunity_alerts.py:70-166 | after a scan an alert of a type exists for a market exactly when it did before or a scanned market calls for it, told per type from the fields of the market |
| AlertProtocol.ProposalScanRaisesExactly | bot/services/operator_notifications.py:78-109 | after the proposal scan an alert is active exactly when it was before or a row calls for it |
| AlertProtocol.TransitionIff | bot/services/operator_notifications.py:204-219 | exactly which transitions are accepted and the stamp each leaves |
| TelegramPolling.TelegramOperatorService.PollNotifications | bot/services/telegram_operator_service.py:270-311 | one poll's notifications, its whole new state, and the inbox after the requests it makes |
| TelegramPolling.AlertsAreNotifiedOnce | bot/services/telegram_operator_service.py:270-311 | over any sequence of polls an alert is notified exactly once if listed after priming and not at it, and never otherwise |
| TelegramPolling.ProposalsAreNotifiedOnce | bot/services/telegram_operator_service.py:270-311 | the same for pending proposals; one active at priming is never notified |
| TelegramPolling.PrimingScanIsNotified | bot/services/telegram_operator_service.py:387-412 | alerts that the background scan creates during the priming poll are notified exactly once, those open before it never |
| TelegramPolling.RunsAreSpaced | bot/services/telegram_operator_service.py:387-436 | consecutive diagnostics runs and consecutive background scans are at least their interval apart |
| TelegramPolling.FailuresAnnouncedOnChange | bot/services/telegram_operator_service.py:304-311 | over any polls, failing checks are announced exactly when diagnostics are due and their signature differs from that of the last run |
| TelegramPolling.RunsExactlyWhenDue | bot/services/telegram_operator_service.py:387-436 | diagnostics and the background scan run exactly when their interval has passed |
| PollingProtocol.AsksForWhatItNotifies | bot/services/telegram_operator_service.py:290-302 | a poll asks the inbox for a request on exactly the proposals and alerts it notifies |
| PollingProtocol.AsksForChecksWhenDue | bot/services/telegram_operator_service.py:304-311 | over any polls, a request is made on each failing check exactly when diagnostics are due, announced or not |
| PollingProtocol.OneRequestPerNotification | bot/services/telegram_operator_service.py:290-302 | over runs of polls with any actions on requests between them, a proposal or alert has exactly one request ever if it was notified and none if it was not, even after the request was closed |
| DecisionInbox.FindBelow | bot/storage/inbox_repo.py:73-96 | the store finds an active request on a subject if there is one, and then one updated last |
| InboxService.DecisionInboxService.CreateOrUpdateRequest | bot/services/decision_inbox.py:211-239 | the active request found on the subject is refreshed, otherwise one is opened |
| InboxService.DecisionInboxService.CallProposalService | bot/services/inbox_handlers/proposal_review.py:40-90 | each action on a proposal review calls its lifecycle operation, and is refused when that is |
| InboxService.DecisionInboxService.CallAlertService | bot/services/inbox_handlers/alerts.py:26-45 | acknowledging an alert request transitions the alert, and is refused when that is |
| InboxService.DecisionInboxService.ApplyAction | bot/services/decision_inbox.py:149-203 | the whole new state of the inbox, the proposals and the alerts after an action: skip, refusal, look, and handled |
| InboxService.DecisionInboxService.ApplyRequestAction | bot/services/telegram_operator_service.py:191-202 | an action from Telegram is refused, with nothing changed, when the request's view cannot be built, and is the plain action otherwise |
| InboxService.DecisionInboxService.ApplyRequestActionAndGetNext | bot/services/telegram_operator_service.py:204-214 | what is offered after an action is an oldest request still open in the new state, never the same one; after a handled one nothing is offered exactly when the queue is empty |
| DecisionInbox.ActionsDrainQueue | bot/services/decision_inbox.py:130-203 | no action opens a request, and every successful action but a look takes exactly its request out of the queue |
| DecisionInbox.NextIsOldest | bot/services/decision_inbox.py:130-137 | the next request is an oldest open one, and there is none exactly when the queue is empty |
| DecisionInbox.OfferedNext | bot/services/telegram_operator_service.py:204-214 | after a handled request one of the remaining ones is offered, and nothing exactly when none remain |
| DecisionInbox.SessionsDrainQueue | bot/services/decision_inbox.py:130-185 | each successful review shortens the queue by exactly one, so sessions are finite and end with an empty queue |
| DecisionInbox.CreationKeepsOneActive | bot/storage/inbox_repo.py:73-96 | creation keeps one active request per subject |
| DecisionInbox.CreationEffect | bot/services/decision_inbox.py:211-239 | a new request opens exactly when none on the subject is active; else one updated last gets the new time, and nothing else changes |
| DecisionInbox.ActionKeepsOneActiveIff | bot/services/inbox_handlers/proposal_review.py:77-83 | an action keeps one active request per subject exactly when it does not revive a closed duplicate |
| InboxProtocol.ActionedMeansSettled | bot/services/inbox_handlers/proposal_review.py:40-90 | over runs in which proposals and alerts also change on their own, an actioned proposal request means that its proposal has been decided, an actioned alert request that its alert is no longer open |
| InboxProtocol.RefusedApprovalOrphans | bot/services/inbox_handlers/proposal_review.py:48-62 | an approval through a request that is refused for expiry or by policy makes the proposal final and leaves the request and the whole inbox as they were |
| InboxProtocol.OrphansAreNeverActioned | bot/services/inbox_handlers/proposal_review.py:48-76 | once a proposal is cancelled or rejected by policy, no later approval, rejection or cancellation through a request for it succeeds or changes anything |
| InboxProtocol.RevivalExample | bot/services/inbox_handlers/diagnostics.py:29-61 | a run from nothing, of raising and refreshing one check, that ends with two active requests on it |
| InboxProtocol.ActionSucceedsIff | bot/services/telegram_operator_service.py:191-202 | exactly when an action on a stored request succeeds, told from the rows of proposals, alerts and checks; a refused one leaves the inbox alone |
| InboxProtocol.ActionOutcome | bot/services/decision_inbox.py:149-203 | what each successful action makes of its request and record: acknowledged, done with its time, or left alone |
| SignalScoring.MomentumRange | bot/services/signals/scoring.py:52-95 | directional momentum confidence is in (0.405, 1]; it is skipped exactly for a small move or no lag |
| SignalScoring.MomentumRangeIsTight | bot/services/signals/scoring.py:52-95 | neither bound can be improved |
| SignalScoring.MomentumRises | bot/services/signals/scoring.py:52-58 | a stronger move, larger lag, more liquidity, tighter spread or more time never lowers the confidence or turns the signal |
| SignalScoring.MomentumRisesIff | bot/services/signals/scoring.py:52-95 | such an improvement raises the confidence exactly when an input moves inside its range, or the time passes 1800 seconds |
| SignalScoring.ImprovementWithoutRise | bot/services/signals/scoring.py:52-95 | a market better in all five respects with the same confidence |
| SignalScoring.ReversionRange | bot/services/signals/scoring.py:109-157 | directional reversion confidence is in (0.275, 0.875], against the extreme price and only without news |
| SignalScoring.ReversionRangeIsTight | bot/services/signals/scoring.py:109-157 | neither bound can be improved |
| SignalScoring.ReversionRises | bot/services/signals/scoring.py:109-157 | a larger overextension, more liquidity, tighter spread or smaller recent move never lowers the confidence |
| SignalScoring.ReversionRisesIff | bot/services/signals/scoring.py:109-157 | and raises it exactly when an input moves inside its range |
| SignalScoring.MomentumUnclamped | bot/services/signals/scoring.py:52-95 | the clamp around a directional momentum confidence never bites: it is the weighted sum itself |
| SignalScoring.ReversionUnclamped | bot/services/signals/scoring.py:109-157 | the same of a reversion confidence |
| SignalAdmission.FractionWithinCap | bot/services/signals/admission.py:97-109 | the size fraction is non-negative and exceeds the configured maximum by at most its rounding |
| SignalAdmission.FullConfidenceIff | bot/services/signals/admission.py:97-109 | full confidence proposes the whole maximum, for every maximum up to the bankroll, exactly when the threshold is at most 0.999999 |
| SignalAdmission.ThresholdAdmitsNothing | bot/services/signals/admission.py:87-109 | a signal exactly at the threshold is admitted whenever a more confident one would be, with a fraction of zero |
| SignalAdmission.AdmittedAtNothingIff | bot/services/signals/admission.py:55-109 | an admitted signal gets zero exactly under a maximum of at most half a millionth, or when its share of the maximum is at most that |
| SignalAdmission.FractionMonotone | bot/services/signals/admission.py:97-109 | a higher threshold, a smaller maximum or a lower confidence never enlarges the fraction |
| SignalAdmission.AdmissionMonotone | bot/services/signals/admission.py:55-109 | a stricter configuration, a weaker signal and a worse market together admit nothing new and enlarge no fraction |
| SignalAdmission.AdmittedIff | bot/services/signals/admission.py:55-95 | a signal passes exactly when all conditions hold; a legacy-tagged one only under the legacy switch |
| SignalAdmission.RejectedFor | bot/services/signals/admission.py:55-95 | the code of each refused signal, from the first condition that fails, with the legacy tags by name |
| SignalAdmission.FractionIsProportional | bot/services/signals/admission.py:97-109 | up to certainty the fraction is the maximum in proportion to the distance above the threshold, to half a unit |
| SignalEngine.SignalEngine.Evaluate | bot/services/signals/engine.py:73-110 | the loop over enabled scorers, and the evaluation remembered |
| SignalEngine.SignalEngine.LastCounts | bot/services/signals/engine.py:112-139 | the diagnostics counters describe exactly the last evaluation |
| SignalEngine.RejectionCounts | bot/services/signals/engine.py:33-38 | the dictionary has exactly the codes that occur, each with its multiplicity |
| SignalEngine.EvaluationHolds | bot/services/signals/engine.py:84-107 | every enabled strategy is decided once, and each decision is in the list of its outcome |
| SignalEngine.EvaluationConserves | bot/services/signals/engine.py:28-38 | accepted and rejected add up to the enabled strategies, and rejection counts to the rejections |
| SignalEngine.StricterConfigAcceptsLess | bot/services/signals/engine.py:73-110 | through scoring, gate and sizing, a stricter configuration accepts no new signal and enlarges no fraction |
| SignalEngine.BetterMarketAcceptsMore | bot/services/signals/engine.py:73-110 | a better market loses no accepted signal and shrinks no fraction |
| SignalEngine.AcceptedDecision | bot/services/signals/engine.py:84-107 | an accepted decision is directional, never the placeholder, never under automatic execution, and within its strategy's confidence range |
| SignalEngine.ArtifactsAreTradable | bot/services/signals/engine.py:142-174 | exactly the accepted decisions become artifacts, with the side the market move or extreme calls for |
| OutcomeAnalysis.BuildSnapshot | bot/services/outcome_analysis.py:42-126 | the counting loops produce the grouping defined by per-key totals; an unsupported grouping fails exactly when there is something to group |
| OutcomeAnalysis.CountedHolds | bot/services/outcome_analysis.py:50-92 | every bucket holds exactly the totals of its key, after any entries |
| OutcomeAnalysis.CountsAreConserved | bot/services/outcome_analysis.py:66-114 | every reported count summed over the groups is its total over all entries |
| OutcomeAnalysis.SnapshotConserves | bot/services/outcome_analysis.py:66-152 | every count summed over the groups is the count over the input, each item counting once, or by source type once per source of its proposal |
| OutcomeAnalysis.VerdictsSumToEvaluations | bot/services/outcome_analysis.py:87-114 | in each group the verdict counts sum to the evaluation count |
| OutcomeAnalysis.OutcomesPartitionHistory | bot/services/outcome_analysis.py:66-86 | for reviews made by the review service, held and degraded add up to the reviews with history, moved in favor and against to those that also have a proposal, and averages exist exactly when there is history |
| OutcomeAnalysis.GroupsAreSorted | bot/services/outcome_analysis.py:93-114 | one group per key that occurs, strictly increasing by key, each with exactly its key's totals |
| OutcomeAnalysis.SnapshotIgnoresOrder | bot/services/outcome_analysis.py:42-114 | the whole snapshot is independent of the order of the rows |
| OutcomeAnalysis.GroupCountsItems | bot/services/outcome_analysis.py:66-114 | the reviews and evaluations a group counts are those that belong to its key, told from the items and proposals with every band and fallback key |
| OutcomeAnalysis.GroupCountsConfidence | bot/services/outcome_analysis.py:66-114 | held and degraded confidence, from the deltas of the items of a group |
| OutcomeAnalysis.GroupCountsMoves | bot/services/outcome_analysis.py:66-114 | moves in favor and against, from the items of a group |
| OutcomeAnalysis.GroupCountsFills | bot/services/outcome_analysis.py:66-114 | favorable and unfavorable fills, from the items of a group |
| OutcomeAnalysis.GroupCountsVerdicts | bot/services/outcome_analysis.py:87-114 | each listed verdict stands with the number of evaluations of the group that carry it |
| OutcomeAnalysis.GroupFairAverage | bot/services/outcome_analysis.py:93-114 | the average move of the estimate is that of the reviews with history, to half a unit, and absent without any |
| OutcomeAnalysis.GroupConfidenceAverage | bot/services/outcome_analysis.py:93-114 | the same of the confidence |
| MarketCatalog.BrowseMarkets | bot/services/market_catalog.py:163-218 | the loops over the catalog return the requested page of the deduplicated, filtered, sorted results |
| MarketCatalog.FirstOccurrencesAreFirst | bot/services/market_catalog.py:173-179 | deduplication keeps exactly one entry per market, its first |
| MarketCatalog.FilteredKeepsMatches | bot/services/market_catalog.py:185-208 | filtering keeps exactly the matching items |
| MarketCatalog.ResultsAreTheStableOrder | bot/services/market_catalog.py:371-383 | the results are the unique stable sort of the matches by the query's order |
| MarketCatalog.PagesPartitionResults | bot/services/market_catalog.py:118-122 | pages 1 to the last concatenate to the results exactly when the page size is positive or there are no results |
| MarketCatalog.PagesOutsideAndInside | bot/services/market_catalog.py:211-213 | later pages are empty, page numbers below one give the first page, and only the last page is short |
| MarketCatalog.CategoryIsItsWords | bot/services/market_catalog.py:56-58 | a category is its words in lower case with single spaces, however they were separated; without words it is unknown |
| MarketCatalog.ResultsAreWhatIsWanted | bot/services/market_catalog.py:173-208 | a market is a result exactly when it meets every condition of the query and is the first of its identifier; no identifier comes twice |
| MarketCatalog.OrderOfEachSort | bot/services/market_catalog.py:371-383 | each of the five orders, from the money, times and question of two markets |
| MarketCatalog.ResultsAreInOrder | bot/services/market_catalog.py:173-209 | every result may precede those after it, and ties stand as in the catalog |
| ConfigMerge.DeepMerge | bot/config/loader.py:43-50 | the copy-and-overwrite loop computes the recursive merge |
| ConfigMerge.EmptyLayerIsIdentity | bot/config/loader.py:43-50 | an empty layer changes nothing, below or above |
| ConfigMerge.AbsorbedIffCovered | bot/config/loader.py:43-50 | the upper layer alone remains exactly when it names every setting of the lower one |
| ConfigMerge.Idempotent | bot/config/loader.py:43-50 | applying a layer twice is applying it once |
| ConfigMerge.AssociativeIff | bot/config/loader.py:43-50 | three layers may be merged from either end exactly when no section hidden by a plain value is reopened without naming all it had |
| ConfigMerge.NotAssociative | bot/config/loader.py:43-50 | a concrete failure of associativity |
| ConfigMerge.SettingComesFrom | bot/config/loader.py:43-50 | at every path a setting is that of the upper layer, or of the base where the upper layer has nothing on the path |
| WebsocketStream.PublicMarketWebSocketClient.StreamMarket | bot/adapters/polymarket/websocket_market.py:41-75 | the reconnect loop comes as far as specified on any list of connections, and has slept the backoff of its failures |
| WebsocketStream.StreamEnds | bot/adapters/polymarket/websocket_market.py:41-75 | a stream that wants messages ends within max(1, limit) connections, every one before the last failed, and it succeeds with what the last one yields |
| WebsocketStream.NothingWantedNeverSucceeds | bot/adapters/polymarket/websocket_market.py:46-61 | a stream that wants none never succeeds, and goes on connecting as long as connections are accepted |
| WebsocketStream.ReceivedIsPrefix | bot/adapters/polymarket/websocket_market.py:50-61 | a connection yields the wanted number of updates exactly when its frames hold that many, and they are its first ones |
| WebsocketStream.BackoffIsGeometric | bot/adapters/polymarket/websocket_market.py:66-75 | the total wait after n failures is base * (2^n - 1) |
| WebsocketStream.FirstConnectionDecides | bot/adapters/polymarket/websocket_market.py:41-75 | how each connection ends a stream or passes it on, from its frames |

## Left out

- HTTP clients, foreign payload parsing, SQLite, JSON columns and row mapping: quotes, snapshots, parsed frames and query
  answers are inputs; where a query orders rows by time stamp, ties may come in any order.
- Password hashing, SHA-256 and random secrets: the outcome of the password check is an input, digests are injective, and
  identifiers are required not to repeat.
- Clocks: readings are inputs; they need not advance, except where a property says so.
- IEEE floating point at rounding ties: amounts lie on exact grids and ratios are real numbers. No binary number is exactly
  half a cent, so the tie of a size edit does not arise in the source.
- Order sizes finer than a cent and limits finer than a tick: the paper adapter accepts them, the model has none.
- Messages, summaries, explanations, logger calls and audit payloads: a review entry keeps its action and the figures the
  proofs need.
- Alerts raised by the execution pipeline: the optional notification service it may call is not linked to it here.
- Probability snapshots and drift: persistence, component deltas and evidence differences; a drift is its two deltas.
- Source-type contributions of the probability provider: equal shares of one rounded product, an easy sum.
- Relevance matching of scanned markets, and whether the system holds context on them: flags of the scanned market, the
  second of which may change between scans.
- Watch lists, saved views, reporting, the command line, the web interface, the Telegram router and formatter.
- The list of available categories and the batch limit of catalog browsing.
- The flag that marks a background scan in progress: polls do not overlap in the model.
- Live submission guards: they refuse on every path, so only the refusal is modelled.
- Migrations and the demonstration seed.
- OutcomeAnalysis.SnapshotIgnoresOrder: averages are of exact grid values, so it does not see the order in which floating
  point sums are rounded.
- WebsocketStream.PublicMarketWebSocketClient.StreamMarket: a connection delivers finitely many frames before it falls
  silent, so an endless stream of empty frames is not modelled.
- DecisionReview.FavorableIff: leaves out one input, a buyer's expired order at a reference of 0.0625, where binary floating
  point decides a tie that exact decimals decide otherwise.
- OpportunityDrafting.DraftedExactly: a snapshot taken for an opportunity is of its market, as in
  `OpportunityDrafting.DraftsKeep`.
- Policies.EvaluateMarket: blocked title patterns are folded for ASCII letters only.
- MarketCatalog.BrowseMarkets: search text and categories are folded and trimmed for ASCII characters only.
- TelegramPolling.TelegramOperatorService.PollNotifications: one clock reading stands for all requests of a poll.
- InboxService.DecisionInboxService.ApplyAction: the diagnostics run and the making of a decision review are outside
  services; whether they succeed is an input.
