# Verification of the options desk

This project models the autonomous options desk — from picking strikes to the book, the audit
chain and what is stored of it — and proves what it promises. Python floats are reals; `exp`, `log`
and `sqrt` are parameters known by a few facts; SHA-256 and canonical JSON are abstract functions,
and the digest is never assumed injective. Market data, model signals, account readings, broker
replies, ids and clocks are inputs that may be anything.

Four layers:

* **Values.** `Strategies`, `Picking`, `Construction`, `DefinedRisk`, `Condor`, `Risk` and `Sizing` are
  the strategy builders, expiry payoffs, risk gates and position sizing. `Agent` cuts one pass of the
  agent into the pieces of code between two awaits (`Propose`, `Judge`, `Settle`, `Conclude`).
* **Objects.** `Journal.TradingJournal`, `Agent.TradingAgent`, `Desk.TradingDesk` and
  `Persistence.JournalStore` update their fields as the originals do; each method's postcondition
  states the whole new state through the functions of the value layer.
* **Decisions.** `Decisions` says what a pass, a desk and a history decide in terms of what they were
  given: prices, dollars, days and permissions.
* **Histories.** `DeskRuns` folds any sequence of decisions, cycles, closings, kills and resumes.
  `Interleaving` is a state machine whose events are the pieces between two awaits, with any number
  of decisions in flight over the one account object they share. `InterleavedSafety`, `Tightness`,
  `InterleavedAudit`, `KillSwitch`, `Audit` and `DeskLoss` prove properties of every such history.

Beside the desk stand its numeric and ordering cores: `Pricing`, `ImpliedVol`, `Volatility`, `News`,
`Orders`, and `StableSort` (the stable sort Python's `sorted` and `list.sort` provide).

## Main results

* **Concurrency bound, and that it is tight.** With at most k decisions in flight and no equity
  reading above E, total risk, every symbol's risk and the number of open positions stay within the
  budget's limit plus k - 1 per-trade caps (`ConcurrentRiskIsBounded`); for every k and limits of any
  number of caps one run meets all three bounds exactly (`ConcurrentBoundIsMet`), so the plain limits
  hold only for k = 1. In money: the book cannot lose more than that at expiry
  (`ConcurrentLossIsBounded`).
* **Sequential safety** against the equity the latest executions saw, however equity moves
  (`SequentialRiskIsBounded`), and sequential decisions are interleaved ones with nobody else in
  flight (`SequentialDecideIsAnInterleaving`).
* **Defined risk is real** for whatever the desk builds and resizes (`DeskRiskIsDefined`), and it is the
  risk of what is traded: the order sent is worth what the judged legs are worth at every price
  (`OrderIsTheStrategy`, `TradedRiskIsDefined`).
* **What executes.** A pass executes exactly when the confident view's strategy can be built, meets
  every written limit on the account just read, execution is allowed, and the broker accepts
  (`PassDecides`, `DeskDecides`); every execution of a history goes back to such a call
  (`ExecutionsAreAccountedFor`), and a desk of dry runs never trades (`DryDeskNeverTrades`). What is
  built rises with the price for a bullish view and falls for a bearish one (`ProposalFitsTheView`).
* **Prices and Greeks.** The code's Greeks satisfy the Black-Scholes equation with its own prices
  (`BlackScholesEquation`); an implied volatility is priced within a billionth or pinned between two
  volatilities a billionth apart (`ImpliedIsAccurate`).
* **Audit completeness.** Sequentially, line i tells decision i's story (`AuditIsComplete`). However
  decisions interleave and whichever are torn down, the lines can be assigned one to one to the
  decisions recorded, about to be, or torn down after their line, each line telling its own
  (`ConcurrentAuditIsComplete`); the trail balances exactly when none was torn down
  (`TrailBalancesExactly`).
* **Tamper evidence** as "same history, or here is a collision or a preimage of the genesis hash"
  (`TamperEvidence`), and the exact condition for any edit of one entry to go unnoticed
  (`EditIsCaught`).

## Where the code differs from what it says

Each has its exact condition proved for all inputs; module `Witnesses` and `PickCanExceedTarget` hold
concrete inputs on which the code fails.

* `_pick_by_delta` documents a pick just below the target and has a `sell` flag; the code takes the
  nearest quote on either side and ignores the flag (`PickExceedsTarget`, `PickCanExceedTarget`).
* The reported break-even points of an iron condor are the short call strike and the short put strike
  less twice the put credit. Profit is zero at the upper one, for uncrossed short strikes, only
  without any credit (`UpperBreakEven`), and at the lower one when both credits together are twice
  the put credit, or the put width if less (`LowerBreakEven`); both can be wrong, and the lower one
  can be right (`CondorPointsAreWrong`, `CondorLowerPointCanBeRight`). A vertical's point is right
  exactly when it passes as defined risk (`VerticalBreakEven`).
* The reported probability of profit of a put spread uses the signed delta, so it is certainty whenever
  the delta is not positive (`ReportedChances`).
* A spread that costs money is reported with credit zero, so at mid prices the reported loss is a
  bound only under a condition (`VerticalLossAtMids`, `CondorLossAtMids`, `DebitIsHidden`). The loss
  bounds of this project therefore take the reported `max_profit` as the cash received.
* An iron condor's `max_loss` adds both sides, though both are lost together only where the strikes
  cross so far that the long put is at or above the long call, or a side has no width
  (`CondorOverReserve`).
* `scale_strategy` multiplies the per-share `net_credit` (`ScaledCreditIsPerShare`, `CreditIsDoubled`).
* Sizing takes equity as at least one dollar, the gate as at least a millionth, so below one dollar
  a position can be sized past its gate (`SizingMeetsGate`, `SizedPastTheGate`).
* A REDUCE verdict counts as passed: soft gates never stop an execution (`PassedMeansHardGates`).
* The journal is described as breaking on any edit. `verify` alone accepts a forged newest entry, a
  rewritten journal and any prefix; only the head hash tells (`EditIsCaught`, `NewestIsForgeable`,
  `RewriteVerifies`, `PrefixVerifies`, `TamperEvidence`).
* A decision torn down between its journal line and its record, by a cancellation or an emitter that
  raises, leaves an execution that no log and no book knows of (`TrailBalancesExactly`,
  `ExecutionIsTorn`).
* The code's normal distribution misses its reflection law at zero, so put-call parity holds
  exactly when neither d1 nor d2 is zero (`PutCallParity`, `PutCallGreeks`, `ParityIsOff`).
* News selection is documented as deterministic, but items that share a date and an id keep their
  input order (`OrderIndependence`, `RivalsKeepTheirOrder`).
* The kill switch does not recall decisions in flight: until it is released a killed desk's log stands
  still exactly when there are none, and all there are can still be recorded (`KillStopsExactly`); an
  order on its way still goes out (`KilledDeskExecutes`).
* After a restart the stored numbers begin again at zero: they stay distinct exactly as long as no
  more than one life of the desk has stored anything (`NumbersAreDistinctExactly`).

## Model

| member | source | states |
|---|---|---|
| InterleavedSafety.ConcurrentRiskIsBounded | services/trading/desk.py:140-178 | With at most k decisions in flight over the shared account and equity at most e, book plus approved-but-unbooked decisions stay within limit + (k-1) per-trade caps, for total risk, each symbol and positions |
| InterleavedSafety.EveryRunIsOk | services/trading/agent.py:324-492 | In every such run each booked or approved decision has an honest, finite loss within the per-trade cap and sits under its own strategy's symbol |
| InterleavedSafety.ProposeShape | services/trading/agent.py:394-418 | A proposal that goes on is an honest strategy filed under its own underlying; one that stops has not executed |
| InterleavedSafety.GatesBound | services/risk/engine.py:136-169 | What passes the gates fits beside the account figures it was judged against, whichever decision refreshed them |
| Tightness.ConcurrentBoundIsMet | services/trading/desk.py:157-159 | For every k and limits of n caps one run with at most k decisions in flight reaches the concurrent bound exactly in total risk, one symbol's risk and positions |
| DeskRuns.SequentialRiskIsBounded | services/trading/desk.py:140-178 | After any sequence of decide, cycle, close, kill and resume, and any movement of equity: committed risk within budget at the latest execution's equity, each symbol's at that symbol's latest, positions within the limit, every held loss non-negative |
| DeskRuns.SequentialDecideIsAnInterleaving | services/trading/desk.py:140-160 | One undisturbed decide equals its seven interleaved events run alone |
| DeskRuns.AuditIsComplete | services/trading/agent.py:339-492 | In every sequential history the journal verifies and line i tells decision i's story; execution lines are exactly the executed decisions, and every open position has one |
| DeskRuns.KilledDeskIsFrozen | services/trading/desk.py:147-153 | While killed nothing is decided, logged or journalled and the account is not refreshed; the book only loses what is closed |
| Desk.KilledAnswer | services/trading/desk.py:147-153 | A killed desk answers with an abstention numbered by the log |
| DeskRuns.CloseTakesOne | services/trading/desk.py:177-178 | With distinct ids, closing one removes exactly that decision and no other |
| KillSwitch.KillDrains | services/trading/desk.py:82-89 | Until resumed, a killed desk records and opens no more decisions than were in flight when it was killed |
| KillSwitch.KillStopsExactly | services/trading/desk.py:147-159 | In any reachable killed state nothing more is recorded before a resume if and only if nothing is in flight; otherwise every decision in flight can still be recorded |
| Witnesses.KilledDeskExecutes | services/trading/desk.py:147-159 | A run in which the kill is followed by an execution line and a new position |
| DeskLoss.ConcurrentLossIsBounded | services/trading/desk.py:140-178 | Wherever every underlying ends, the book's loss at expiry stays within the concurrent risk bound |
| DeskLoss.SequentialLossIsBounded | services/trading/desk.py:140-178 | Same for sequential histories, within the total budget at the latest execution's equity |
| InterleavedAudit.ConcurrentAuditIsComplete | services/trading/agent.py:339-492 | In every interleaved run the journal verifies, and its lines are assigned one to one to the decisions recorded, finished or torn down after their line, each line telling its own decision's story |
| InterleavedAudit.TrailBalancesExactly | services/trading/desk.py:158-159 | The lines are exactly the decisions recorded or about to be if and only if no decision was torn down after its line was written |
| Witnesses.ExecutionIsTorn | services/trading/agent.py:477-492 | A run that leaves an execution line without log entry or position |
| Audit.PassIsFaithful | services/trading/agent.py:339-492 | Every path of a pass ends with one journal line whose kind, symbol and payload tell the decision's story |
| Desk.TradingDesk.constructor | services/trading/desk.py:28-63 | A new desk is alive, with empty book, log and journal |
| Desk.TradingDesk.TriggerKill | services/trading/desk.py:82-83 | Only the switch changes |
| Desk.TradingDesk.Resume | services/trading/desk.py:89-90 | Only the switch changes |
| Desk.TradingDesk.Snapshot | services/trading/desk.py:98-116 | The account handed to the agent carries live cash and the book's own totals and exposures |
| Desk.TradingDesk.Decide | services/trading/desk.py:140-160 | Nothing changes while killed or when the account cannot be read; otherwise the account is refreshed, one line journalled, one decision logged, and booked if executed |
| Desk.TradingDesk.RunCycle | services/trading/desk.py:162-168 | One decision a symbol in order, none while killed; a raised error loses the results but not what was already recorded |
| Desk.TradingDesk.Record | services/trading/desk.py:170-175 | Every decision is logged, executed ones enter the book under their id |
| Desk.TradingDesk.MarkClosed | services/trading/desk.py:177-178 | Removes the decision with the id, or nothing |
| Book.SnapshotIsExact | services/trading/desk.py:98-116 | The snapshot's committed risk, each symbol's exposure and the position count are the book's true totals |
| Book.ExposuresSumToCommitted | services/trading/desk.py:100-107 | The exposures by symbol of any book add up to the risk committed |
| Book.CloseLowersTotals | services/trading/desk.py:177-178 | Closing lowers every total by exactly what the decision weighed |
| Book.OpenRaisesTotals | services/trading/desk.py:172-173 | Opening raises every total by the decision's weight, less what it overwrites |
| Agent.TradingAgent.Decide | services/trading/agent.py:324-492 | The step-by-step pass returns the decision, and appends the one line, of the composed stages |
| Decisions.PassDecides | services/trading/agent.py:324-492 | A pass executes exactly when the sized strategy of a confident view is acceptable on the account, execution is allowed and the broker accepts; it refuses, errs or ends as a dry run exactly otherwise, with the broker's order id only when executed |
| Decisions.AbstentionReasons | services/trading/agent.py:361-407 | Without a strategy the decision abstains for the first obstacle: no signal, no edge, low confidence, no chain or price, not constructible |
| Decisions.FailedGatesExactly | services/trading/agent.py:435-437 | A refusal names exactly the gates that failed |
| Decisions.DeskDecides | services/trading/desk.py:140-160 | The desk's decision is executed exactly when acceptable on the equity, cash and day just read and the book's own totals, allowed and accepted |
| Decisions.DeskRecords | services/trading/desk.py:155-175 | One log entry and one line are added; an executed decision joins the book in place of its own id, all others stay; any other leaves the book alone |
| Decisions.ExecutionsAreAccountedFor | services/trading/desk.py:140-178 | Every executed decision of every sequential history goes back to a call that allowed execution on an account whose cash covered the loss, above the daily floor, within the expiration window |
| Decisions.OnlyAllowedTasksTrade | services/trading/agent.py:332 | However decisions interleave, one not allowed to execute is never at the broker and never executed |
| Decisions.DryDeskNeverTrades | services/trading/agent.py:449-458 | If no decision may execute, no execution line is written and no position opened |
| Construction.ProposalFitsTheView | services/trading/agent.py:394-418 | A bullish proposal is a put spread whose result rises with the price, a bearish one a call spread whose result falls, a neutral one holds both |
| Journal.TradingJournal.constructor | services/trading/journal.py:39-42 | Starts from given entries with the last one's hash as head |
| Journal.TradingJournal.Append | services/trading/journal.py:51-73 | Appends exactly one entry numbered by position and linked to the head; the chain verifies after if and only if it did before |
| Journal.TradingJournal.Verify | services/trading/journal.py:75-91 | True if and only if every entry commits to its predecessor and its own content |
| Journal.VerifiesInFields | services/trading/journal.py:75-91 | Verifying means every entry repeats its predecessor's hash, or the genesis hash, and hashes all its other fields with it |
| Journal.AppendedFields | services/trading/journal.py:51-73 | The entry appended, field by field |
| Journal.TamperEvidence | services/trading/journal.py:31-33 | Two verifying journals with one head hash are the same up to canonical form, or a backward walk yields two distinct inputs of one digest or a preimage of the genesis hash |
| Journal.SameHistoryIsSameEntries | services/trading/journal.py:31-33 | With an injective canonical form, the same history means the same entries |
| Journal.EditIsCaught | services/trading/journal.py:75-91 | Any edit of one entry, hashes included, goes unnoticed exactly when it keeps the link back, carries its own digest, and is the newest or has the old digest |
| Journal.NewestIsForgeable | services/trading/journal.py:75-91 | The newest entry replaced by any content with a fresh digest still verifies |
| Journal.RewriteVerifies | services/trading/journal.py:75-91 | A chain over any contents can be recomputed and verifies |
| Journal.PrefixVerifies | services/trading/journal.py:75-91 | Every prefix of a verifying journal verifies |
| Journal.AppendKeepsVerdict | services/trading/journal.py:51-73 | Appending never changes whether a journal verifies |
| Persistence.JournalStore.constructor | apps/api/app/services/trading_service.py:23-25 | A process starts over the rows already stored, with the mark before any entry |
| Persistence.JournalStore.ResetDesk | apps/api/app/services/trading_service.py:135-139 | Forgetting the desk moves the mark back and leaves the rows |
| Persistence.JournalStore.SyncJournal | apps/api/app/services/trading_service.py:106-132 | Without a desk nothing happens; otherwise the unsaved entries are appended as rows, the mark moves to the last of them, and their number is returned |
| Persistence.StorageFollowsJournal | apps/api/app/services/trading_service.py:106-132 | Under any interleaving of append, sync and restart the journal verifies, numbers are positions, and the rows are those of earlier lives, none without a restart, followed by a gap-free, duplicate-free prefix of the journal |
| Persistence.SyncedStorageIsComplete | apps/api/app/services/trading_service.py:116-132 | Right after a sync that prefix is the whole journal |
| Persistence.NumbersAreDistinctExactly | apps/api/app/services/trading_service.py:117-131 | Stored numbers are distinct if and only if at most one life of the desk has stored anything |
| Persistence.SyncIsIdempotent | apps/api/app/services/trading_service.py:109-112 | A sync only adds rows, and a second one writes nothing |
| Persistence.RowsLackOnlyTime | apps/api/app/services/trading_service.py:118-128 | A row holds everything of its entry but the time |
| DefinedRisk.DeskRiskIsDefined | services/trading/agent.py:118-129 | For every chain, direction and size, the resized strategy's expiry result lies within [-max_loss, max_profit] at every terminal price |
| DefinedRisk.BuiltRiskIsDefined | services/options/strategies.py:322-364 | The same for strategies built at any size |
| DefinedRisk.VerticalBounds | services/options/strategies.py:84-215 | A vertical's result stays within its reported loss and profit |
| DefinedRisk.VerticalAttains | services/options/strategies.py:130-131 | Both extremes are attained, at the long and at the short strike |
| DefinedRisk.VerticalBreakEven | services/options/strategies.py:141-142 | Profit is zero at a vertical's break-even exactly when the strategy passes as defined risk |
| DefinedRisk.VerticalLossAtMids | services/options/strategies.py:109-111 | At mid prices the reported loss is a bound exactly when the short leg is worth at least the long one |
| Witnesses.DebitIsHidden | services/options/strategies.py:109-111 | A chain whose put spread loses $600 at mid prices where $500 are reported |
| DefinedRisk.CondorPnl | services/options/strategies.py:250-253 | A condor is worth its put side plus its call side, with reported profit as cash and at mid prices |
| Condor.CondorFloor | services/options/strategies.py:250-253 | No condor, crossed or not, loses more than (both widths - slack - total credit) x 100 x quantity, where the slack is what remains of one side when the other is fully lost |
| Condor.CondorBottom | services/options/strategies.py:250-253 | It does lose that much at one of its long strikes |
| Condor.CondorOverReserve | services/options/strategies.py:252-253 | The reported loss exceeds the true worst by exactly slack x 100 x quantity, which is zero exactly when the long put is at or above the long call or a side has no width |
| Condor.UncrossedSlack | services/options/strategies.py:230-253 | For uncrossed short strikes the slack is the smaller width and the worst loss the larger width less the credits |
| Condor.CondorLossAtMids | services/options/strategies.py:250-253 | For every condor, at mid prices the reported loss is a bound exactly when the debits hidden by clamping fit in the slack |
| Condor.ReportedPoints | services/options/strategies.py:255-266 | The reported points are the short put less twice the put credit, and the short call |
| Condor.LowerBreakEven | services/options/strategies.py:255-266 | Profit at the lower point is zero exactly when the credits equal twice the put credit, or the put width if less, plus what of the call side is lost there |
| Condor.UpperBreakEven | services/options/strategies.py:256-266 | Profit at the upper point is zero exactly when the credits equal what of the put side is lost there; uncrossed, only without credit |
| Witnesses.CondorPointsAreWrong | services/options/strategies.py:255-266 | A chain whose condor profits at both reported points |
| Witnesses.CondorLowerPointCanBeRight | services/options/strategies.py:255-266 | A chain whose condor breaks even at the lower point and not at the upper |
| DefinedRisk.ScalingRefinesBuilding | services/trading/agent.py:118-129 | Resizing a one-contract strategy agrees with building at that size on legs, loss, profit and everything but the credit |
| DefinedRisk.ScaledCreditIsPerShare | services/trading/agent.py:127 | The resized credit equals the built one exactly when the size is one or there is no credit |
| Witnesses.CreditIsDoubled | services/trading/agent.py:127 | A spread whose credit of 1 a share becomes 2 at two contracts |
| DefinedRisk.CashSecuredPutRisk | services/options/strategies.py:278-319 | A cash-secured put stays within its bounds and attains both |
| Picking.PickIsNearest | services/options/strategies.py:50-69 | Nothing is picked only when no quote has a delta; the pick is nearest the target, the earliest among ties |
| Picking.PickExceedsTarget | services/options/strategies.py:56-61 | The pick lies above the target exactly when some quote above beats every quote at or below it |
| Picking.PickCanExceedTarget | services/options/strategies.py:56-61 | A concrete chain where the pick lies above the target |
| Strategies.PutPair | services/options/strategies.py:99-107 | Both legs come from the chain, the short one has a delta, and the long put's strike is never above the short one's |
| Strategies.CallPair | services/options/strategies.py:164-172 | Both legs come from the chain, the short one has a delta, and the long call's strike is never below the short one's |
| Picking.PairsByPosition | services/options/strategies.py:99-107 | In the chain ordered by strike the legs are the pick and the quote width positions below it, for puts, or above it, for calls; none exactly when no quote has a delta or the chain ends before |
| Picking.PutsSkipFewerThanWidth | services/options/strategies.py:103-107 | Fewer than width strikes lie strictly between the put legs, exactly width - 1 when strikes are distinct |
| Picking.CallsSkipFewerThanWidth | services/options/strategies.py:168-172 | The same for the call legs |
| Picking.NeighboursProtect | services/options/strategies.py:103-107 | At width one no strike of the chain lies between the legs, on either side |
| Picking.PairsExist | services/options/strategies.py:101-106 | With distinct strikes no pair is found exactly when nothing has a delta or fewer than width strikes lie beyond the pick |
| Construction.SpreadsTradeTheirPairs | services/options/strategies.py:114-145 | A spread exists exactly when its pair does, sells the pick and buys its protection, each leg its quote's own contract and price |
| Construction.MidIsHalfway | services/options/strategies.py:36-39 | The price lies half-way between bid and ask, or is the last trade without either |
| Construction.DaysAreWhole | services/options/strategies.py:144 | Days to expiration are whole days, none once it is past |
| Construction.ReportedChances | services/options/strategies.py:132-143 | The chance is one less the short delta, signed for puts and in size for calls, within zero and one; certainty exactly for non-positive put deltas |
| Construction.CondorReports | services/options/strategies.py:230-275 | A condor exists exactly when both its spreads do, joins their legs and days, and reports the product of their chances, a zero counting as one half |
| Construction.CashSecuredPutReports | services/options/strategies.py:278-319 | A cash-secured put exists exactly when some put has a delta, sells the pick, and its break-even is where profit is zero exactly for a non-negative premium |
| Risk.Evaluate | services/risk/engine.py:113-289 | The gate-by-gate method returns the ten results in order and the verdict; without a finite loss only the first gate |
| Risk.VerdictFromReport | services/risk/engine.py:281-289 | Some failed hard gate refuses, else some failed soft gate reduces, else approve |
| Risk.PassedMeansHardGates | services/risk/engine.py:70-72 | A strategy passes exactly when all eight hard gates hold |
| Risk.VerdictInFigures | services/risk/engine.py:113-289 | Passed exactly when the loss is finite, non-negative and within the per-trade, total and concentration shares of equity, the expiration in its window, the day above its floor, a position free and the cash enough; approved exactly when rank and chance are in bounds too |
| Risk.ReportAgrees | services/risk/engine.py:131-279 | Every reported gate passed exactly as its own figures compare, and only the rank and chance gates are soft |
| Risk.ReportedLosses | services/risk/engine.py:131-279 | The loss and cash gates report the limits in dollars and what the trade makes of them |
| Risk.ReportedConditions | services/risk/engine.py:171-265 | The other gates report their bounds and the figure compared |
| Risk.AcceptanceIsMonotone | services/risk/engine.py:113-289 | What passes still passes with a smaller non-negative loss or in a roomier portfolio, whatever the volatility rank |
| Risk.MonotoneExactly | services/risk/engine.py:82-95 | Acceptance is monotone exactly under budgets with no negative limit, or a negative per-trade one |
| Sizing.SizeIsLargest | services/trading/agent.py:410-416 | The sizes up to max_contracts that fit the sizing limit are exactly 1 to the chosen one, or none when one contract is over it |
| Sizing.OtherwiseOneContract | services/trading/agent.py:412-415 | Without a positive loss one contract is traded |
| Sizing.SizingMeetsGate | services/trading/agent.py:410-416 | After sizing the per-trade gate fails exactly when one contract fails it, for every loss, if and only if equity is at least one dollar or there is nothing to size |
| Witnesses.SizedPastTheGate | services/trading/agent.py:411-416 | Half a dollar of equity, sized at two contracts where the gate takes one |
| Sizing.AcceptedSizesAreDownwardClosed | services/risk/engine.py:113-289 | If a size of a strategy is accepted, so is every smaller size |
| Orders.SubmissionConserves | services/execution/broker/alpaca_options.py:251-284 | Leg by leg the order keeps contract and side, and ratio times units is the quantity asked for; ratios are jointly coprime unless all quantities are zero; one leg goes out plain |
| Orders.RatiosRestore | services/execution/broker/alpaca_options.py:259-260 | ratio x unit == quantity for every leg, zero and negative quantities included |
| Orders.RatiosAreCoprime | services/execution/broker/alpaca_options.py:255-260 | The ratios have greatest common divisor one exactly when some quantity is not zero |
| Orders.GcdAllGreatest | services/execution/broker/alpaca_options.py:259 | Every common divisor of the quantities divides the unit the order is reduced by |
| Orders.DeskOrdersAreOneToOne | services/trading/agent.py:460-468 | Whatever the desk proposes goes out as one multi-leg order for the sized number of units, each leg at ratio one with the built contract and side |
| Orders.OrderIsTheStrategy | services/execution/broker/alpaca_options.py:251-290 | At every terminal price the order sent, each symbol bought or sold times its contracts, is worth what the strategy's legs are worth |
| Orders.TradedRiskIsDefined | services/trading/agent.py:460-468 | The order for whatever the desk proposes ends within the reported loss and profit |
| ImpliedVol.Halve | services/options/pricing.py:143-155 | The loop computes the bisection, for any price curve |
| ImpliedVol.ImpliedVolatility | services/options/pricing.py:118-155 | None for non-positive inputs or a target outside the prices at the ends, otherwise the bisection of the pricing curve |
| ImpliedVol.ImpliedExists | services/options/pricing.py:134-141 | A volatility is answered exactly for positive inputs whose price lies between the Black-Scholes prices at the two ends |
| ImpliedVol.ImpliedIsAccurate | services/options/pricing.py:143-155 | On the default bracket the answer is priced by Black-Scholes within 1e-9, or is the middle of a bracket narrower than 1e-9 whose Black-Scholes prices straddle the price |
| ImpliedVol.ImpliedRecovers | services/options/pricing.py:118-155 | Where Black-Scholes prices increase, the price made from a volatility gives it back within half of 1e-9, or one priced within 1e-9 |
| ImpliedVol.SearchIsSound | services/options/pricing.py:143-154 | For any curve, monotone or not, the last bracket straddles the target inside the first one; a close exit is within the price tolerance, a narrow one is the midpoint of a bracket narrower than it |
| ImpliedVol.DefaultBracketStops | services/options/pricing.py:126-155 | From the default bracket 33 halvings always suffice, so the last return is unreachable, and 32 never end for narrowness |
| ImpliedVol.StopsWhenClose | services/options/pricing.py:144-148 | A midpoint priced within 1e-9 is the answer |
| ImpliedVol.InvertRecovers | services/options/pricing.py:118-155 | Where the curve increases, a price made from a volatility is inverted to within half the tolerance of it or to a volatility priced within the tolerance |
| ImpliedVol.RefusedPricesHaveNoRoot | services/options/pricing.py:130-141 | On an increasing curve only prices no volatility in the bracket has are refused |
| Pricing.Reflection | services/options/pricing.py:28-41 | N(x) + N(-x) = 1 for the code's distribution exactly when x is not zero |
| Pricing.PutCallParity | services/options/pricing.py:61-85 | call - put = spot - discounted strike exactly when neither d1 nor d2 is zero |
| Witnesses.ParityIsOff | services/options/pricing.py:28-41 | An at-the-money input with d1 = 0 on which parity fails |
| Pricing.PutCallGreeks | services/options/pricing.py:88-115 | Gamma and vega agree; deltas differ by one, thetas by the interest on the strike and rhos by the strike's own, each under its exact condition |
| Pricing.BlackScholesEquation | services/options/pricing.py:88-115 | Theta, delta, gamma and price satisfy the Black-Scholes equation; vega is spot squared times gamma, volatility and time; rho is time times what delta leaves of the price |
| Pricing.Quantiles | services/options/pricing.py:44-58 | d1 and d2 in standard deviations: log-moneyness plus carry, plus or less half the variance |
| Pricing.PricesExist | services/options/pricing.py:71-77 | A price exists exactly for positive spot and strike and non-negative time, and is the exercise value at expiry |
| Pricing.FlooredVolatility | services/options/pricing.py:53-54 | A volatility that is not positive is priced as one millionth |
| Pricing.TailIsTheSeries | services/options/pricing.py:29-40 | The tail is the density times the fifth-degree polynomial of the approximation |
| Pricing.NormalShape | services/options/pricing.py:24-41 | The density is the bell curve, and the distribution is a little over one half at zero |
| Volatility.VolatilityRank | services/options/market.py:89-119 | The loop returns the percentile of the current level among the rolling observations |
| Volatility.RealizedVolatilityIs | services/options/market.py:72-86 | The annualized sample deviation, with n - 1 degrees of freedom, of the last window's log-returns; none exactly for a window under two or too few closes |
| Volatility.SegmentsAreFull | services/options/market.py:111-116 | Every sliding segment has a full window and is the spread of exactly those closes |
| Volatility.RankCounts | services/options/iv.py:35-43 | A rank exists exactly for a positive current level and at least five usable observations, and is the share of offsets below that level |
| Volatility.RankInOwnHistory | services/trading/agent.py:177-178 | Ranked in its own history the level is never below itself: the rank is below/n with 5 <= n <= windows and at most (n-1)/n |
| News.SelectNews | services/fundamentals/context.py:136-150 | The two sorts, the dedupe loop and the cut compute the selection by rank |
| News.TwoSortsRank | services/fundamentals/context.py:140-141 | Sorting by id and then stably by date, newest first, is one sort by (date descending, id) |
| News.SelectionIsTheTop | services/fundamentals/context.py:136-150 | At most MAX_NEWS items in rank order, distinct by key, each the highest copy of its key; a missing key means a full budget ranked no lower |
| News.SelectionInFields | services/fundamentals/context.py:136-150 | The same in dates, providers and ids: no provider's article twice, the newest copy of each, and five items no older when one is missing |
| News.OrderIndependence | services/fundamentals/context.py:136-150 | The selection is the same for every order of the input exactly when any two rivals for one rank have a full budget of keys above them |
| Witnesses.RivalsKeepTheirOrder | services/fundamentals/context.py:140-141 | Two items on one date and id are selected in the order they came in |
| News.DistinctRanksAreSettled | services/fundamentals/context.py:136-150 | In particular when distinct items never share date and id |
| StableSort.SortIsStable | services/fundamentals/context.py:141 | Ties keep the order they had in the input |
| StableSort.StableSortIsUnique | services/fundamentals/context.py:140-141 | A list is the sort of another exactly when it is ordered and keeps the other's ties in order |
| StableSort.TwoSortsAreOne | services/fundamentals/context.py:140-141 | Sorting by a minor order and then stably by a major one is one lexicographic sort |
| StableSort.SortSorts | services/options/strategies.py:42-47 | Sorting permutes its input into order |
| StableSort.SortHead | services/options/strategies.py:66-69 | The head of a stable sort is the earliest of the least elements |
| Basics.TextLeIsLexicographic | services/fundamentals/context.py:140 | Text order is lexicographic |
| Basics.UpperIsCaseless | services/trading/agent.py:335 | Upper-casing moves lower-case letters only, and once |

## Left out

* Floating-point rounding, including the four-decimal rounding of `probability_of_profit`, which only a soft gate reads, and the accuracy of the normal-distribution approximation.
* What SHA-256 and canonical JSON compute; the digest is only known to have 64 characters.
* Upper-casing of symbols beyond ASCII letters.
* A negative `width_strikes` (the desk always uses one) and negative volatility windows.
* `strategy_id`, `notes`, decision timestamps and the texts of reasons and gate details.
* Emitted events themselves.
* Model prompting and parsing, market-data fetching, `select_expiration`, `_build_chain` and `enrich_quote`: the signal, chain, rank and spot are inputs.
* The broker's execution of an order: its reply is an input; that contract symbols identify their contracts is assumed where an order is valued. `TradingAgent.run_cycle` and `status` would only add easy members.
* Iron-condor probability of profit as a probability.
* `iv_rank`, `_rank_documents` and the rest of context building: easy members.
* Database failures, concurrent `sync_journal` calls, and verification of stored rows: rows carry no timestamp, so their hashes cannot be recomputed. That stored rows are kept by the database is assumed.
* Missing entries in the close history: the type the code declares has none.
- Risk.Evaluate: the one long function is split into three helper methods, each appending its gates; the detail strings are not modelled.
- ImpliedVol.ImpliedVolatility: the iteration cap is a parameter, and the price curve's monotonicity in volatility is not proved, because `exp` and `log` are abstract; results that need it say so.
- InterleavedSafety.ConcurrentRiskIsBounded: assumes a budget without negative limits and an equity bound of at least the gates' floor of 1e-6, because with a negative limit even the empty book exceeds it.
- Desk.TradingDesk.Decide: an emitter that raises inside the pass, after which the decision is not recorded, is not in the sequential methods; the interleaving has it as `Abandon`.
- Agent.TradingAgent.Decide: the same; the pass emits nothing.
- Desk.TradingDesk.RunCycle: its loop body is a helper method, `DecideNext`; each call carries its own `execute` override, which `run_cycle` always leaves unset; the model is more general.
