# Verified model of the zero-DTE option trading system

The system runs N option strategies beside one selector on a synchronous message bus. A strategy turns a
market event into a trade intent, passes it through gates and greek limits, parks it and publishes it. The
selector collects intents until a debounce alert fires, approves a greedy selection under three caps and
publishes one verdict per intent; the strategy then submits an entry or returns to `Flat`. Everything is
written to an append-only JSON-lines journal that can be loaded and reported on.

This project models that behaviour in Dafny and proves what holds of it over every run.

## How it is built

- **Values first, then objects.** `StrategyFsm`, `Selector` and `TradingSystem` describe one strategy, the
  selector and the whole node as values with one function per callback. `StrategyActor` and `SystemNode` are the
  same components as classes with mutable fields, loops and a bus that calls subscribers one after another;
  every method is proved to change the object's value exactly as its function does. `SystemNode.RunSession`
  carries all theorems about runs over to the objects.
- **One journal file.** As in the node, every component appends to the same file: `System.log` is its sequence of
  records, `SharedFile.NodeJournal` the object, and its text is what `JournalLoad` reads back. A strategy's own
  `journal` is the index its journal object keeps in memory.
- **An auditor that never sees the strategy.** `Audit` folds a journal, record by record, into what an auditor
  who reads only the journal may conclude. The theorems about runs say that every journal a strategy writes is
  accepted, and lemmas about accepted journals say what acceptance means in terms of the records alone.
- **What a function computes is said a second time, without it.** The functions at the leaves (caps, metrics, edges,
  ages, tags, names, texts, the JSON reader) are characterised by lemmas that do not mention them on the other side:
  a cap by real numbers, an edge by its books, an age by nanoseconds, a tag by what the prices show, the reader by a grammar.
- **The engine is an adversary.** Fills, rejections, denials, clock readings, greeks, quotes, the instrument
  cache, fresh ids and whether `cancel_all_orders` raises are inputs of each event, and differ from strategy to strategy while
  the verdicts of one batch are delivered. Single-strategy theorems also
  allow any verdict message: duplicated, stale or for another strategy.

| file | what it holds |
|---|---|
| `Models`, `Messages` | intents, tags, snapshots and their conversions |
| `Diversification`, `GreedyBounds` | the capped greedy selection, its bounds, optimality and order independence |
| `Costs`, `Structures` | quote metrics, edge formulas, choice of a vertical spread |
| `Gates` | the gate stages and greek limits |
| `Audit`, `StrategyFsm`, `StrategyRuns`, `StrategyTheorems`, `Orders` | one strategy: journal, callbacks, invariant, safety over runs, orders sent |
| `RunRecords`, `Evaluations`, `Callbacks` | the same strategy in full: what its records say over runs, what one evaluation does, what every other callback does |
| `StrategyExamples` | runs that reach the states the findings below speak of |
| `StrategyActor` | the strategy as a class |
| `Selector`, `TradingSystem`, `SystemTheorems`, `SystemNode` | the selector, the node, their theorems, and both as classes |
| `SystemLog`, `SystemReports` | the shared journal file over runs of the node, and the report over it |
| `Session`, `Regime` | the session clock and the regime actor |
| `Json`, `JsonLaws`, `JsonGrammar`, `JournalFile`, `JournalLoad`, `JournalRestart`, `JournalSessions` | journal text, its reader, torn files, files continued once and any number of times |
| `StoredAudit`, `SharedFile` | records as stored entries, and the file all components append to |
| `Recovery` | from a run of the node to its torn file and back to every strategy's state |
| `Reports`, `StoredReports` | the two reports over a journal, and over the entries loaded from one |
| `ConfigMerge`, `ConfigLoader` | merging of nested dictionaries and the order of configuration layers |

## What was found on the way

- `select_intents` can lose an intent: of two batch members with the same id where one is approved, the other is
  in neither list (`GreedyBounds.RepeatedIdLosesIntent`). No policy loses one exactly when the ids of the batch are
  distinct (`GreedyBounds.NothingLostIffDistinctIds`); over the node they are, so there nothing is lost.
- A batch with one intent per strategy is judged optimally under every policy exactly when no edge in it is
  negative (`GreedyBounds.AlwaysOptimalIff`), and under one policy exactly when its non-negative members leave no
  room for a negative one (`GreedyBounds.OptimalIff`); for arbitrary batches the choice is worth at least half of any
  selection, and the factor two is reached (`GreedyBounds.HalfIsTight`).
- `_exit_submitted` and `_hedge_submitted` are set and never cleared: a strategy object closes at most one
  position by take-profit or stop-loss, and hedges at most once, over its whole life
  (`StrategyTheorems.OneTriggeredExitPerRun`). Every later position is left alone by ticks at any price until a
  flatten signal is set (`Orders.NoTriggerAfterTheFirst`); any plumbing configuration that trades reaches one
  (`StrategyExamples.LaterPositionIsReached`).
- Flattening at the blackout never works with the pinned engine, whose `cancel_all_orders` always raises for a
  strategy in position (tests/unit/test_flatten_path.py:1-18,86-99). A strategy told to flatten leaves its position
  if and only if cancelling does not raise (`Orders.FlattenLeavesPosition`). While it raises and no message takes the
  signal back, the position stays open over any run, and take-profit and stop-loss are never reached either, since the
  raising call comes before them (`Orders.StuckInPosition`, `StrategyExamples.BlackoutStrands`).
- The tick check of a position never asks which instrument the tick is for, while the strategy is also subscribed to
  its underlying and to the hedge instrument: the first quote of the underlying after an entry sells the spread as a
  take-profit (`Orders.AnyInstrumentTriggers`, `StrategyExamples.UnderlyingQuoteSellsSpread`).
- The selector and the strategy both record a rejection as SELECTOR_REJECTED under the strategy's id in the same
  file. Their payloads differ, the selector's naming the instrument and the edge; a reader that does not tell them
  apart sees each rejection twice.
- A spread is named by the whole units of its strikes, so spreads at different strikes can share one instrument id
  (`Structures.NameTellsStrikes`).
- The IB edge is not monotone in the debit; it is exactly when the intrinsic value covers the commission per unit
  (`Costs.IbEdgeMonotoneIff`), which every edge of at least -10000 bps before slippage forces.
- An exit for which the instrument is not in the cache sends nothing, and outside plumbing mode the strategy waits in
  `Exiting` all the same (`Orders.FlattenLeavesPosition`).
- In plumbing mode the context's edge is never below the minimum, so the edge gate refuses nothing; the same holds
  for contexts of the IB selector, but not of the Deribit one, which does not compare the edge with the minimum: it
  selects a spread at a total loss, which the edge gate then refuses (`StrategyExamples.OnlyDeribitIsRefused`).
- A journal file continued after a torn write cannot be loaded any more once the next writer has finished a line: the
  torn text and the next entry form one finished line, and no such line reads as an entry
  (`JournalRestart.ContinuedFile`). Until then it loads, and what several writers left torn on one last line is
  ignored without an error (`JournalSessions.InterruptedWriters`).
- A restarted node starts every strategy in `Flat`, whatever the file it appends to says of it. Replaying a strategy
  across the restart is defined exactly where it had been left in `Flat` or is not moved any more
  (`Recovery.ReplayAcrossRuns`).
- A session overlay named by the profile is not always the one used: the diversification and streaming files are
  merged over the profile before the name is read, and a name in the streaming file wins
  (`ConfigLoader.StreamingNamesSession`). `ConfigLoader.NamedOverlays` says exactly when the profile's name is used.
- `_deep_merge` is not associative; `ConfigMerge.AssociativeIff` says exactly when it is, in terms of the keys the
  three dictionaries have.
- `max_gross_risk_pct`, `max_daily_loss` and `max_concentration_per_strike` are read by no decision.
- The state diagram `docs/design/state-diagram.puml` omits `PendingApproval` and draws edges the code does not
  have; the model follows the code.

## Model

| member | source | states |
|---|---|---|
| Diversification.RankedSorts | src/nautilus_zerodte/models/diversification.py:30-33 | the ranking is a permutation of the batch in ranked order: larger edge first, then smaller id |
| Diversification.RankedIsUnique | src/nautilus_zerodte/models/diversification.py:30-33 | with distinct ids any ranked permutation of the batch is that ranking, so the sort key is total |
| Diversification.ApproveInOrder | src/nautilus_zerodte/models/diversification.py:36-49 | the loop with its two counter dictionaries, break and continues returns the greedy selection defined without counters |
| Diversification.SelectIntents | src/nautilus_zerodte/models/diversification.py:19-53 | approved is the greedy selection of the ranking, rejected the members without an approved id in order of arrival; no strategy has more approved intents than max(1, top_n * share), and a rejected intent has its id approved, or top_n is reached, its instrument is full, or one more of its strategy would exceed max(1, top_n * share); both empty for an empty batch |
| Diversification.StrategyCapIsShare | src/nautilus_zerodte/models/diversification.py:34 | n intents are within the strategy cap if and only if n is at most the larger of 1 and top_n * share, both taken as real numbers |
| Diversification.SelectionKeepsShares | src/nautilus_zerodte/models/diversification.py:34-53 | the two bounds above, for every batch and policy |
| Diversification.RankedOrder | src/nautilus_zerodte/models/diversification.py:30-33 | of two members the one earlier in the ranking has the larger edge, or the same edge and no larger an id |
| Diversification.RejectedInArrivalOrder | src/nautilus_zerodte/models/diversification.py:51-53 | of two rejected intents the one listed first arrived first |
| GreedyBounds.ApprovedWithinCaps | src/nautilus_zerodte/models/diversification.py:34-49 | the approved intents respect top_n, the instrument cap and the strategy cap |
| GreedyBounds.HalfOfAnySelection | src/nautilus_zerodte/models/diversification.py:30-49 | with non-negative edges, twice the approved total edge is at least that of any selection within all caps, and no such selection has more than twice as many members |
| GreedyBounds.HalfIsTight | src/nautilus_zerodte/models/diversification.py:34-49 | a family of batches on which a selection within the caps has exactly twice the approved edge |
| GreedyBounds.AtLeastAsMany | src/nautilus_zerodte/models/diversification.py:40-49 | with one intent per strategy, on a ranking no selection within top_n and the instrument cap has more members than were approved |
| GreedyBounds.DominatedByOne | src/nautilus_zerodte/models/diversification.py:40-49 | the same on every prefix of the ranking |
| GreedyBounds.OptimalWhenNoLossApproved | src/nautilus_zerodte/models/diversification.py:30-49 | with one intent per strategy and no negative edge approved, no selection within top_n and the instrument cap has a larger total edge |
| GreedyBounds.AlwaysOptimalIff | src/nautilus_zerodte/models/diversification.py:30-49 | with distinct ids and one intent per strategy, this optimality holds under every policy if and only if no edge of the batch is negative |
| GreedyBounds.OptimalIff | src/nautilus_zerodte/models/diversification.py:30-49 | under one policy, with one intent per strategy, it holds if and only if the non-negative members of the batch, counted per instrument up to the instrument cap, reach top_n or leave every instrument of a negative member full |
| GreedyBounds.StrategyCapInert | src/nautilus_zerodte/models/diversification.py:45-46 | with one intent per strategy changing max_per_strategy changes nothing |
| GreedyBounds.ApprovedIffStable | src/nautilus_zerodte/models/diversification.py:40-49 | the approved set is the only set in which every member had room, and every non-member none, given the members ranked ahead of it: each rejected intent is blocked by top_n, a full instrument or a full strategy |
| GreedyBounds.NothingLostIffDistinctIds | src/nautilus_zerodte/models/diversification.py:51-53 | approved and rejected partition the batch under every policy if and only if the ids of the batch are distinct |
| GreedyBounds.DistinctIdsPartition | src/nautilus_zerodte/models/diversification.py:51-53 | with distinct ids they always do, and no id occurs in both |
| GreedyBounds.RepeatedIdLosesIntent | src/nautilus_zerodte/models/diversification.py:51-53 | two intents with one id of which one ends in neither list |
| GreedyBounds.ArrivalOrderIrrelevant | src/nautilus_zerodte/models/diversification.py:30-53 | for distinct ids any permutation of the arrivals gives the same approved list and the same rejected intents |
| Costs.NarrowingHelpsLeg | src/nautilus_zerodte/strategies/selectors/base.py:41-66 | narrowing a positive uncrossed quote never widens its relative spread and never lowers its liquidity |
| Costs.DeribitEdgeMonotone | src/nautilus_zerodte/costs/deribit.py:22-42 | a smaller debit with tighter legs never lowers the Deribit edge |
| Costs.IbEdgeMonotoneIff | src/nautilus_zerodte/costs/ib.py:18-39 | at fixed leg spreads a smaller debit keeps or raises the IB edge if and only if the intrinsic value covers the commission per unit |
| Costs.AcceptedEdgeCoversCommission | src/nautilus_zerodte/costs/ib.py:11-39 | an IB edge that is at least -10000 bps before slippage forces the intrinsic value to cover the commission |
| Costs.IbEdgeMonotoneWhenAccepted | src/nautilus_zerodte/costs/ib.py:18-39 | hence such an IB edge is not lowered by a smaller debit and tighter legs |
| Costs.TwoSidedMetrics | src/nautilus_zerodte/strategies/selectors/base.py:58-66 | of a two-sided quote the mid is half way, spread times mid is the price difference in bps, and liquidity falls linearly from 1 at no spread to 0 at 100 bps |
| Costs.OneSidedMetrics | src/nautilus_zerodte/strategies/selectors/base.py:45-47 | a leg without two positive prices is 100 bps wide and worthless |
| Costs.IntrinsicPays | src/nautilus_zerodte/costs/ib.py:32 | the intrinsic value is 0 up to the low strike, the underlying less that strike between the two, and their distance from the high one on |
| Costs.IbEdgeBooks | src/nautilus_zerodte/costs/ib.py:30-39 | multiplied out by debit and multiplier, edge plus half the leg spreads plus slippage is the intrinsic value less the debit, less the commission of all contracts of a spread |
| Costs.DeribitEdgeBooks | src/nautilus_zerodte/costs/deribit.py:8-42 | the same with the debit in units of the underlying and the taker fee rate for taker orders, the maker fee rate otherwise |
| Costs.NoPriceNoEdge | src/nautilus_zerodte/costs/ib.py:30-31 | where debit or underlying is not positive both edges are 0 |
| Structures.NearestStrike | src/nautilus_zerodte/strategies/selectors/ib.py:136-142 | min over the sorted strikes returns the one strike nearest the target, the lower one on a tie, and it is the only such strike |
| Structures.DefinedRisk | src/nautilus_zerodte/strategies/selectors/ib.py:124-175 | a returned spread uses the listed strikes nearest the money and nearest a width above it, with 0 < high - low < 2 * width; it costs the ask of the low call less the bid of the high one, and that is positive; its liquidity is that of the worse leg and in [min, 1]; its legs are the two calls, the low one first; on IB its edge is at least the minimum |
| Structures.SelectedIff | src/nautilus_zerodte/strategies/selectors/ib.py:132-175 | with low the strike nearest the money and high the one nearest a width above, a spread is selected if and only if the chain is not empty, high is above low, both calls are quoted and liquid enough, the low ask and the high bid are not 0 and the first is larger, and on IB the edge meets its minimum |
| Structures.SelectedIsPriced | src/nautilus_zerodte/strategies/selectors/ib.py:163-173 | edge and debit of a selected spread balance against what the spread of these strikes pays at the underlying price the low call carries, and the spreads of the two legs |
| Structures.CallIsFound | src/nautilus_zerodte/strategies/selectors/base.py:76-80 | a strike within half a cent of k cents finds the call listed there, its quote, its id and its underlying price; that price is the strike where none is given |
| Structures.NameTellsStrikes | src/nautilus_zerodte/strategies/selectors/ib.py:177-183 | two spreads of one selector at non-negative strikes have the same id if and only if their low and their high strikes agree in whole units |
| Structures.SpreadNames | src/nautilus_zerodte/strategies/selectors/ib.py:64-73 | the id of one spread on each venue, letter by letter |
| Structures.ListingOrderIrrelevant | src/nautilus_zerodte/strategies/selectors/deribit.py:128-165 | the selection depends only on which strikes are listed, not on their order or repetition |
| Structures.TighterQuotesNeverHurt | src/nautilus_zerodte/strategies/selectors/ib.py:147-175 | tightening the quotes of the two chosen legs keeps a selected spread selected, with liquidity and edge no lower, while its debit stays positive; the other calls may change in any way; on IB for minima of at least -10000 bps before slippage |
| Gates.CollectOperational | src/nautilus_zerodte/gates/evaluator.py:70-97 | the intent is refused exactly when the context breaks an operational rule; the refusal is at the operational stage and names exactly the broken rules, each once, in their fixed order |
| Gates.EvaluatePreGreek | src/nautilus_zerodte/gates/evaluator.py:100-106 | the loop over the stages returns the first failing stage's result, or passed |
| Gates.PreGreekPassesIff | src/nautilus_zerodte/gates/evaluator.py:23-106 | the five stages pass exactly the admissible intents |
| Gates.RejectionIsFirstFailure | src/nautilus_zerodte/gates/evaluator.py:100-106 | a refusal is that of the first failing stage, names at least one rule, and all earlier stages passed |
| Gates.RefusedWhere | src/nautilus_zerodte/gates/evaluator.py:23-106 | stage and rules of a refusal, read off intent and context: low edge, low liquidity, the blocked context tag, the blocked intent tag, no entry in the session, and else exactly the broken operational rules |
| Gates.CheckRisk | src/nautilus_zerodte/models/risk.py:23-51 | the assessment passes exactly when each projected greek lies within its limit, and names exactly the exceeded limits, each once, delta before gamma before vega |
| Gates.TighteningNeverAdmits | src/nautilus_zerodte/gates/evaluator.py:23-106 | tightening any threshold, observation or limit never admits a refused intent |
| Messages.SnapshotRoundTrip | src/nautilus_zerodte/actors/data_types.py:70-106 | the conversions between intents and snapshots are inverse to each other, field for field |
| Audit.AcceptedReplays | src/nautilus_zerodte/strategies/base.py:526-539 | the transitions of an accepted journal chain from Flat to the audited state and are all legal |
| Audit.SubmitsAreGatedOnce | src/nautilus_zerodte/strategies/base.py:426-448 | in an accepted journal an ORDER_SUBMIT is the only one for its id, follows a GREEK_PASSED for it, and the id is never declined |
| Audit.IdSetsAreRecords | src/nautilus_zerodte/strategies/base.py:381-387 | the auditor's id sets are exactly the ids of the GREEK_PASSED, ORDER_SUBMIT and SELECTOR_REJECTED records |
| Audit.ForeignLinesAreIgnored | src/nautilus_zerodte/actors/selector.py:113-162 | the records the selector and the handlers write under a strategy's id change nothing the auditor concludes from the lines of that id |
| StrategyRuns.RunKeeps | src/nautilus_zerodte/strategies/base.py:135-284 | the strategy invariant holds after every callback of every run |
| StrategyTheorems.JournalReplaysToState | src/nautilus_zerodte/strategies/base.py:526-539 | replaying the transition records gives the live state; all edges are legal; Evaluating never survives a callback; entries minus returns is 1 exactly while engaged, else 0 |
| StrategyTheorems.SubmissionsAreGatedAndUnique | src/nautilus_zerodte/strategies/base.py:255-284 | whatever verdicts arrive, each id is submitted at most once, after its own GREEK_PASSED and never after being declined; an engaged strategy holds the intent it submitted |
| StrategyTheorems.VerdictsAddUp | src/nautilus_zerodte/strategies/base.py:405-411 | published = submitted + declined + parked, and each entry transition is one ORDER_SUBMIT |
| StrategyTheorems.OneTriggeredExitPerRun | src/nautilus_zerodte/strategies/reference.py:262-274 | at most one take-profit or stop-loss exit and at most one hedge over a run |
| StrategyTheorems.SelectedSpreadsPassTheirStages | src/nautilus_zerodte/strategies/reference.py:202-216 | IB and plumbing contexts are never refused at the edge stage, selected structures never at the liquidity stage, and every refusal is at a stage the report counts |
| StrategyExamples.DeribitIsRefused | src/nautilus_zerodte/strategies/selectors/deribit.py:128-165 | any strategy on the Deribit selector whose minimum edge is above a total loss has a run of three events in which it is refused at the edge stage |
| StrategyExamples.OnlyDeribitIsRefused | src/nautilus_zerodte/strategies/selectors/ib.py:174-175 | a strategy that selects structures can be refused at the edge stage if and only if its selector is the Deribit one |
| StrategyTheorems.DryRunSendsNothing | src/nautilus_zerodte/strategies/base.py:354-403 | in dry-run the state is Flat after every callback and nothing reaches the engine or the bus, for any events |
| StrategyTheorems.RunRemembers | src/nautilus_zerodte/strategies/base.py:241-253 | the feed fields are exactly the last session message, regime tag, tick and chain times of the history |
| StrategyTheorems.PassedIffGatesOpen | src/nautilus_zerodte/strategies/base.py:319-361 | one callback appends a GREEK_PASSED record exactly when every gate is open to the context it was offered, and then one only, for its own fresh id; tick and chain readings are compared with the clock in nanoseconds |
| StrategyTheorems.FreshMeansRecent | src/nautilus_zerodte/strategies/base.py:451-465 | a quote is fresh if and only if there is one and it is at most the limit in nanoseconds old; for chains the limit adds the snapshot interval, and nothing is asked where no snapshot is required or in plumbing mode |
| StrategyTheorems.GateSoundness | src/nautilus_zerodte/strategies/base.py:329-478 | whenever a callback of a run appends a GREEK_PASSED record: both actors reported, the last session message allowed entry, no blocked tag, edge and liquidity at their minima, the last tick at most max_underlying_quote_age_secs * 10^9 ns before the clock, the last chain at most max_chain_snapshot_age_secs * 10^9 + chain_snapshot_interval_ms * 10^6 ns, shocked greeks within policy |
| Evaluations.IntentIsTheSpread | src/nautilus_zerodte/strategies/reference.py:124-139 | outside plumbing mode a chain is evaluated if and only if both actors reported and a spread is selected, and the intent carries that spread's id, edge, liquidity, debit and legs, the current regime tag, the underlying price the low call carries and the selector's source |
| Evaluations.IntentIsTheTick | src/nautilus_zerodte/strategies/reference.py:218-235 | in plumbing mode a tick is evaluated if and only if both actors reported; the intent is for its instrument at the mid of the quote, with the larger of minimum edge and 10 and the larger of minimum and quoted liquidity |
| Evaluations.IntentIsTheMoney | src/nautilus_zerodte/strategies/base.py:286-311 | in plumbing mode a chain gives an intent for its series at the mid and liquidity of the call at the money, or at that strike and full liquidity where it has no two-sided quote |
| Evaluations.NoIntentEnds | src/nautilus_zerodte/strategies/base.py:319-326 | without both actors an evaluation changes nothing; without an intent it is the two transition records and nothing else |
| Evaluations.ClosedGateRefuses | src/nautilus_zerodte/strategies/base.py:329-379 | with a gate closed an evaluation is exactly a transition, a GATE_REJECT at the first closed stage with exactly the rules broken there, for the fresh id, and the transition back; nothing else changes |
| Evaluations.DryRunRecords | src/nautilus_zerodte/strategies/base.py:352-356 | with the gates open a dry run adds GREEK_PASSED and DRY_RUN_INTENT with id, instrument and edge, and ends in Flat |
| Evaluations.SelectorIsAsked | src/nautilus_zerodte/strategies/base.py:405-411 | with the selector enabled the intent is parked, published as its snapshot and the strategy waits in PendingApproval; nothing is sent |
| Evaluations.PassedIsSubmitted | src/nautilus_zerodte/strategies/base.py:426-448 | otherwise the intent becomes the active one, transition and ORDER_SUBMIT are recorded, and its entry is ordered |
| Evaluations.EntryOrderIs | src/nautilus_zerodte/strategies/reference.py:141-169 | an entry is a bracket of the configured quantity with exits at m + m * take_profit and m - m * stop_loss around the middle m of the last quote, without exits where there is none; in plumbing mode a purchase of the underlying; for an unknown instrument an ORDER_ERROR and Flat |
| RunRecords.EntryPriceIsTheFill | src/nautilus_zerodte/strategies/base.py:154-191 | over any run the entry price of a position, also of one being left, is the price of the last FILL record before the last transition to InPosition |
| RunRecords.FillSetsPrice | src/nautilus_zerodte/strategies/base.py:184-191 | a fill at p in PendingEntry opens a position with entry price p; in Exiting it ends in Flat with no price and nothing active; in any other state it changes neither state nor entry price |
| Callbacks.FillIs | src/nautilus_zerodte/strategies/base.py:154-191 | a fill adds FILL, LEARNING where an intent is active, and PNL in this order, then the transition, and nothing else but that price |
| RunRecords.RecordsAreInPlace | src/nautilus_zerodte/strategies/base.py:363-403 | over any run every record stands at the stage of its event and names the id of its intent, and a refusal names rules of the stage that refused only |
| RunRecords.RejectedEntryIsGivenUp | src/nautilus_zerodte/strategies/base.py:193-208 | a rejection in PendingEntry adds the record at LIFECYCLE with the active id and the transition to Flat with nothing active; in any other state it changes nothing |
| RunRecords.DeniedEntryIsGivenUp | src/nautilus_zerodte/strategies/base.py:210-225 | the same for a denial, at RISK_ENGINE |
| RunRecords.FlattenWaitsForEntry | src/nautilus_zerodte/strategies/base.py:227-249 | a strategy in PendingEntry that is told to flatten asks to cancel, unless that raises, and goes on waiting; ticks do nothing there |
| RunRecords.HedgeSentIff | src/nautilus_zerodte/strategies/reference.py:190-316 | a hedge is sent if and only if the strategy is in position outside plumbing mode and dry-run, none was tried, the hedge instrument is known and the delta is outside the band; then it is one order against the delta for the smaller of delta and order quantity |
| Callbacks.PriceCheckIs | src/nautilus_zerodte/strategies/reference.py:262-274 | with entry price e > 0 the tick check leaves the position if and only if no exit was triggered and the bid is at or above e + e * take_profit, or at or below e - e * stop_loss |
| Callbacks.ExitIs | src/nautilus_zerodte/strategies/reference.py:171-188 | leaving a position records the transition and sells the configured quantity of what is held, nothing if that is unknown |
| Callbacks.SessionMessageIs | src/nautilus_zerodte/strategies/base.py:241-249 | a session message sets its three fields, and flattens if and only if it says so and a position is open or pending |
| Callbacks.ApprovalIs | src/nautilus_zerodte/strategies/base.py:255-264 | an approval of the parked intent submits the intent the message carries; any other message changes nothing |
| Callbacks.RejectionIs | src/nautilus_zerodte/strategies/base.py:266-284 | a rejection of the parked intent adds the declining record and the transition to Flat, with nothing parked; any other message changes nothing |
| Orders.ExitsCloseEntries | src/nautilus_zerodte/strategies/reference.py:141-188 | over any run each exit order sells the instrument and quantity of the entry order sent last before it, and no entry is closed twice |
| Orders.NeverMoreExitsThanEntries | src/nautilus_zerodte/strategies/reference.py:171-188 | a strategy never sends more exit orders than entry orders |
| Orders.FlattenLeavesPosition | src/nautilus_zerodte/strategies/base.py:227-249 | told to flatten, by a closing message or any tick after one, a strategy leaves its position if and only if cancelling does not raise; if it raises nothing is journalled or sent; otherwise cancel first, then one exit order for what it holds if the instrument is known |
| Orders.StuckInPosition | src/nautilus_zerodte/strategies/base.py:143-152 | in position and told to flatten, while every cancel raises and the signal stays, a strategy remains in that position over any run: no transition is journalled and only hedges are sent |
| StrategyExamples.BlackoutStrands | src/nautilus_zerodte/strategies/base.py:227-249 | any plumbing configuration that trades gets into such a position |
| Orders.TriggersMatchBracket | src/nautilus_zerodte/strategies/reference.py:262-274 | with a positive entry price the tick check leaves the position exactly when no exit was triggered before and the bid reaches one of the two prices of a bracket placed at that price |
| Orders.AnyInstrumentTriggers | src/nautilus_zerodte/strategies/reference.py:262-274 | in position a tick does the same whatever instrument it is for: a bid at either bracket price, quoted for any instrument, leaves the position and sells what is held |
| StrategyExamples.UnderlyingQuoteSellsSpread | src/nautilus_zerodte/strategies/reference.py:83-89 | a run on which a spread bought at 1.0 is sold as a take-profit by a quote of its underlying, with no quote of the spread |
| Orders.NoTriggerAfterTheFirst | src/nautilus_zerodte/strategies/reference.py:262-274 | over any run, after the first take-profit or stop-loss transition a tick without the flatten signal changes nothing in position but the tick time |
| StrategyExamples.LaterPositionIsReached | src/nautilus_zerodte/strategies/reference.py:262-274 | any plumbing configuration that trades reaches a position after a triggered exit |
| Orders.HedgeShrinksDelta | src/nautilus_zerodte/strategies/reference.py:190-316 | a hedge moves the net delta toward zero by the traded quantity, never past it, never more than the configured quantity, and only outside the band and outside dry-run |
| StrategyActor.ReferenceStrategy.OnOptionChain | src/nautilus_zerodte/strategies/base.py:135-141 | the object after the callback has exactly the value of the specified step |
| StrategyActor.ReferenceStrategy.OnQuoteTick | src/nautilus_zerodte/strategies/base.py:143-152 | the same: position management in IN_POSITION, evaluation only in FLAT, and the tick time remembered in every state |
| StrategyActor.ReferenceStrategy.OnOrderFilled | src/nautilus_zerodte/strategies/base.py:154-191 | the same: fill, learning and pnl records, then the entry or exit transition, other states unchanged; a pending entry becomes a position at the price of the fill |
| StrategyActor.ReferenceStrategy.OnOrderRejected | src/nautilus_zerodte/strategies/base.py:193-208 | the same: only a pending entry is given up, with its active intent cleared |
| StrategyActor.ReferenceStrategy.OnOrderDenied | src/nautilus_zerodte/strategies/base.py:210-225 | the same for a denial, recorded at the risk-engine stage |
| StrategyActor.ReferenceStrategy.FlattenPositions | src/nautilus_zerodte/strategies/base.py:227-239 | the same, including the case that cancelling raises before anything changes |
| StrategyActor.ReferenceStrategy.OnSessionPhase | src/nautilus_zerodte/strategies/base.py:241-249 | the session fields take the message's values and a flatten signal flattens an open or pending position |
| StrategyActor.ReferenceStrategy.OnRegimeTag | src/nautilus_zerodte/strategies/base.py:251-253 | the tag and its flag are set together; an unknown text changes nothing |
| StrategyActor.ReferenceStrategy.OnIntentApproved | src/nautilus_zerodte/strategies/base.py:255-264 | the parked intent is submitted from the message; a message that is not about it changes nothing |
| StrategyActor.ReferenceStrategy.OnIntentRejected | src/nautilus_zerodte/strategies/base.py:266-284 | the parked intent is dropped, journalled as declined and the strategy is Flat; other messages change nothing |
| StrategyActor.ReferenceStrategy.RunGatePipeline | src/nautilus_zerodte/strategies/base.py:329-361 | the object's value after the pipeline is that of the specification, computed by the stage loop and the greek check; what that value is, Evaluations.ClosedGateRefuses and the four lemmas after it say |
| StrategyActor.ReferenceStrategy.SubmitApprovedIntent | src/nautilus_zerodte/strategies/base.py:426-448 | active intent, transition, ORDER_SUBMIT record and entry in this order |
| StrategyActor.ReferenceStrategy.SubmitEntry | src/nautilus_zerodte/strategies/reference.py:141-169 | a bracket, a plumbing market order, or a journalled error and Flat |
| StrategyActor.ReferenceStrategy.SubmitExit | src/nautilus_zerodte/strategies/reference.py:171-188 | the exit order for the held instrument, or nothing outside plumbing when it is unknown |
| StrategyActor.ReferenceStrategy.CheckExitTriggers | src/nautilus_zerodte/strategies/reference.py:262-274 | the flag is set and the exit begun, or nothing changes |
| StrategyActor.ReferenceStrategy.OnOptionGreeks | src/nautilus_zerodte/strategies/reference.py:190-200 | the hedge flag is set once and the hedge attempted, or nothing changes |
| StrategyActor.ReferenceStrategy.OnStart | src/nautilus_zerodte/strategies/base.py:82-87 | one STRATEGY_START record |
| StrategyActor.ReferenceStrategy.OnStop | src/nautilus_zerodte/strategies/base.py:113-117 | one STRATEGY_STOP record with the state |
| StrategyActor.ReferenceStrategy.Handle | src/nautilus_zerodte/strategies/base.py:82-99 | any event is one specified step, the verdict topics counting only with the selector enabled, and the shared file gains exactly the records the step journals |
| Selector.FinalizedCounts | src/nautilus_zerodte/actors/selector.py:113-162 | finalize records one approval per approved and one rejection per rejected intent |
| Selector.HumanDecidesIff | src/nautilus_zerodte/approval/classifier.py:10-17 | an approval goes to a human if and only if the edge reaches its threshold, or the notional does, the net debit standing in for an absent or zero notional |
| Selector.VerdictsInOrder | src/nautilus_zerodte/actors/selector.py:64-76 | the verdicts of a batch are first one rejection per rejected intent in order of arrival, then one approval per approved intent in ranked order, each carrying its intent whole and who decided |
| Selector.VerdictsOf | src/nautilus_zerodte/actors/selector.py:93-162 | the records and messages about one intent carry its ids, instrument and edge; the handler's record follows the selector's and is that of the classification |
| SystemNode.SelectorActor.Collect | src/nautilus_zerodte/actors/selector.py:59-91 | the intent is buffered and the one alert re-armed |
| SystemNode.SelectorActor.Publish | src/nautilus_zerodte/actors/selector.py:121-128 | every subscriber handles the verdict in turn, and the shared file gains what each journals, in that order |
| SystemNode.SelectorActor.PublishRejected | src/nautilus_zerodte/actors/selector.py:113-128 | the loop journals and delivers every rejection in order to every subscriber, and the shared file gains each rejection before what its delivery makes the strategies journal |
| SystemNode.SelectorActor.RouteApproval | src/nautilus_zerodte/actors/selector.py:147-162 | classification, the two records of an approval, and its delivery to every subscriber |
| SystemNode.SelectorActor.Finalize | src/nautilus_zerodte/actors/selector.py:64-76 | empty buffer, both journals of verdicts, and subscribers that heard all verdicts, rejections first; nothing for an empty buffer |
| SystemNode.Node.Handle | src/nautilus_zerodte/actors/selector.py:78-91 | one event moves strategies, selector and clock exactly as the specified system step |
| SystemNode.Node.StopSelector | src/nautilus_zerodte/actors/selector.py:52-57 | stopping the selector cancels the alert and has the effect of a finalize on everybody |
| SystemNode.Node.Write | src/nautilus_zerodte/node/factory.py:94-113 | the node's own record goes into the file the components write |
| SystemNode.RunSession | src/nautilus_zerodte/actors/selector.py:34-91 | objects assembled from any configurations on one file and driven through any allowed run have the specified value, satisfy the system invariant, and behind what it held before their file holds the stored text of the run's records |
| SystemTheorems.PendingMatchesBuffer | src/nautilus_zerodte/actors/selector.py:59-76 | after every callback the strategies in PendingApproval and the buffered intents correspond one to one, with distinct ids |
| SystemTheorems.AlertSettlesTheBatch | src/nautilus_zerodte/actors/selector.py:64-76 | whenever the batch is finalised, by the alert or by a stop, each pending strategy gets exactly its verdict: its gated intent is submitted unchanged, or it is back in Flat with nothing sent; nobody stays pending |
| SystemTheorems.ParkedIsTheGatedIntent | src/nautilus_zerodte/strategies/base.py:405-411 | what is parked is the intent built from the context that was gated |
| SystemTheorems.IntentsAreConserved | src/nautilus_zerodte/actors/selector.py:113-162 | over a run queued = approved + rejected + buffered, approvals = ORDER_SUBMITs and rejections = declines |
| SystemTheorems.BatchIsFinalisedInTime | src/nautilus_zerodte/actors/selector.py:81-91 | an open batch has an armed alert due within N batch intervals of its first intent, the clock is not past it, the alert can fire, and the buffer holds at most N intents |
| SystemTheorems.AlertFollowsLastIntent | src/nautilus_zerodte/actors/selector.py:81-88 | over any run the finalize alert is due exactly one batch interval after the last intent was queued: every intent re-arms it and nothing else does |
| SystemTheorems.OneIntentPerStrategy | src/nautilus_zerodte/strategies/base.py:405-411 | with distinct strategy ids a reachable batch holds at most one intent per strategy |
| SystemTheorems.ReachableBatchesAreOptimal | src/nautilus_zerodte/models/diversification.py:30-49 | in every reachable state the selection the selector would make has the largest total edge within top_n and the instrument cap, and the strategy cap is inert |
| Session.AllowsEntryIff | src/nautilus_zerodte/actors/session.py:23-90 | what is published at a moment of the day: entry is allowed exactly while at least one whole minute more than the blackout remains to the close, or always if the blackout is negative; the flatten signal is the opposite, the phase NORMAL or BLACKOUT accordingly, the minutes the whole minutes to the close, 0 after it |
| Session.PermissionIsLostForTheDate | src/nautilus_zerodte/actors/session.py:23-36 | on one UTC date permission and remaining minutes never come back |
| Session.BlackoutIsPermanent | src/nautilus_zerodte/actors/session.py:73-90 | once a blackout snapshot is delivered no callback appends a GREEK_PASSED record until a snapshot of a later date is delivered |
| Regime.TagMeans | src/nautilus_zerodte/actors/regime.py:21-39 | TREND: the mid is away from a positive opening price by at least the trend share of it; CHOP: not that, the mid is positive, there are at least five prices and any two differ by at most the chop share of the mid; PIN_RISK: neither, and some whole number is within the pin share of the positive mid; UNKNOWN: none of these. A tag is computed if and only if it means what the prices show |
| Regime.RegimeActor.OnQuoteTick | src/nautilus_zerodte/actors/regime.py:60-69 | the bounded window, opening price and last tag always amount to the recomputed sequence of tag changes, and the last tag means what the first mid, the last mid and the last twenty show |
| Regime.RegimeActor.CurrentTag | src/nautilus_zerodte/actors/regime.py:54-58 | at any time the tag means what the first mid, the last mid and the last twenty of the whole history show; UNKNOWN before the first tick |
| Regime.LastPublicationIsCurrent | src/nautilus_zerodte/actors/regime.py:60-69 | the last publication is the tag recomputed from the first mid, the last mid and the last twenty |
| Regime.PublicationsAreChanges | src/nautilus_zerodte/actors/regime.py:66-69 | no tag is published twice in a row and each was the tag of some prefix |
| Regime.SubscriberIsUpToDate | src/nautilus_zerodte/strategies/base.py:251-253 | a strategy that received the publications among any other events holds that tag, and it means what the history shows |
| JsonLaws.RoundTrip | src/nautilus_zerodte/journal/service.py:126-129 | reading the text of a value gives the value back, escapes and surrogate pairs included |
| JsonLaws.ValuePrintable | src/nautilus_zerodte/journal/service.py:126-129 | the text of a value holds no character outside ' ' to '~', hence no line break |
| JsonLaws.ValueExtends | src/nautilus_zerodte/journal/service.py:148-149 | what follows a value in the text changes neither the value read nor where it ends |
| JsonLaws.NoPrefixReads | src/nautilus_zerodte/journal/service.py:140-149 | no strict prefix of the text of an object can be read |
| JsonLaws.PlainText | src/nautilus_zerodte/journal/service.py:126-129 | a text of printable characters other than quote and backslash is written between quotes as it is |
| JsonGrammar.DecodesIff | src/nautilus_zerodte/journal/service.py:148-149 | a text is read as a value if and only if, by the grammar of RFC 8259, it is a text of that value between white space: nothing else is accepted, nothing of the grammar is refused, and no text has two values; an escaped half of a surrogate pair stands for no character |
| JournalFile.RecordRoundTrip | src/nautilus_zerodte/models/journal.py:12-22 | an entry stored as an object is read back with every field, for whatever the reader accepts as UUIDs and time stamps |
| JournalFile.ReaderAccepts | src/nautilus_zerodte/models/journal.py:12-23 | an object is read as an entry if and only if each field has a value it may have: null only for the two ids of intent and strategy, ids that are UUIDs, a known stage |
| JournalFile.StageNames | src/nautilus_zerodte/models/enums.py:35-46 | the text of every stage |
| JournalLoad.EntryTextIs | src/nautilus_zerodte/journal/service.py:126-129 | the line of an entry: its seven fields in their order, each name quoted, each value in JSON |
| JournalLoad.RecordIsObject | src/nautilus_zerodte/journal/service.py:148-149 | a line reads as an entry if and only if it is, by the JSON grammar, an object that holds one |
| JournalLoad.StripIs | src/nautilus_zerodte/journal/service.py:145 | stripping takes white space off both ends of a line and leaves none there |
| JournalLoad.NoReturnIsSeen | src/nautilus_zerodte/journal/service.py:137-138 | the three kinds of line ends are seen as line feeds, and no carriage return is seen |
| JournalLoad.Load | src/nautilus_zerodte/journal/service.py:132-154 | the loop over lines computes the specified result, none for a missing file |
| JournalLoad.AnyPrefixLoads | src/nautilus_zerodte/journal/service.py:126-154 | any prefix of a writer's text loads without error to exactly the entries whose text it contains |
| JournalLoad.KeptMeansWritten | src/nautilus_zerodte/journal/service.py:140-154 | an entry is among them exactly when all of its text, the line feed aside, lies in the prefix |
| JournalLoad.WholeFileLoads | src/nautilus_zerodte/journal/service.py:132-154 | the complete file loads to everything that was recorded |
| JournalLoad.LoadBehind | src/nautilus_zerodte/journal/service.py:126-154 | text appended behind finished lines, cut anywhere: what the lines held is loaded first, then the entries written; loading fails exactly when the earlier text does |
| JournalLoad.FailsIffDamaged | src/nautilus_zerodte/journal/service.py:140-154 | loading any text fails exactly when some finished non-blank line cannot be read, for whatever the reader accepts as UUIDs and time stamps |
| JournalRestart.ContinuedFile | src/nautilus_zerodte/journal/service.py:126-154 | a file interrupted anywhere and then continued loads if and only if the cut was between two lines, and then to the entries before and after it |
| JournalSessions.InterruptedWriters | src/nautilus_zerodte/journal/service.py:126-154 | a file appended to by any number of writers, each interrupted anywhere, fails to load if and only if some writer finished its first line while the file before it ended inside a line; otherwise it loads to the entries on finished lines and a last entry that lacks only its line feed |
| JournalRestart.GluedLine | src/nautilus_zerodte/journal/service.py:148-153 | torn text and a whole entry on one line never read as an entry, wherever the cut is |
| JournalRestart.JoinedPieces | src/nautilus_zerodte/journal/service.py:148-153 | beginnings of two or more entries on one line never read as a JSON value, wherever each was cut |
| JournalRestart.Store.Append | src/nautilus_zerodte/journal/service.py:126-129 | the file holds its earlier contents and then the appended entries in order, whichever journal appends |
| JournalRestart.Store.LoadBack | src/nautilus_zerodte/journal/service.py:132-154 | loading a file shared by several journals returns what it held when it was opened and then all their entries in the order of the appends, unless it ended inside a line when it was opened |
| JournalRestart.Journal.Record | src/nautilus_zerodte/journal/service.py:106-124 | one entry is added to the memory index and to the file, the same one |
| SharedFile.NodeJournal.Append | src/nautilus_zerodte/journal/service.py:126-129 | the file stands for its earlier contents and the records appended by any component, in the order of the writes |
| SharedFile.NodeJournal.LoadBack | src/nautilus_zerodte/journal/service.py:132-154 | loading it returns all of these records in that order behind what the file held before |
| SystemLog.FileHoldsEveryJournal | src/nautilus_zerodte/node/wiring/strategy.py:120-122 | over any run of the node with distinct strategy ids, what the shared file holds of each strategy's own records is that strategy's journal |
| SystemLog.FileHoldsTheRest | src/nautilus_zerodte/actors/selector.py:113-162 | over any run of the node what the shared file holds of the verdict records is the selector's journal, and of the node's own one line per event it recorded, in order |
| StoredAudit.StoredReplay | src/nautilus_zerodte/journal/service.py:106-129 | replaying the stored entries of one strategy id from their payload texts is replaying the records that strategy wrote |
| StoredAudit.StoredFields | src/nautilus_zerodte/journal/service.py:106-124 | a stored record has the stage, the ids and the level INFO of what was recorded, and its payload begins with the event name; only the node's carry no strategy id |
| StoredAudit.ReplayAcross | src/nautilus_zerodte/journal/service.py:106-129 | entries of two runs in one file replay exactly if the earlier ones lead to Flat or the later ones do not move the strategy |
| Recovery.TornFileLoads | src/nautilus_zerodte/journal/service.py:132-154 | tearing the file loses records of the run at its end only, whoever wrote them, and nothing the file held before |
| Recovery.SharedFileRecovers | src/nautilus_zerodte/journal/service.py:126-154 | the node's file, behind whatever finished lines it held before, cut anywhere: it loads to what these lines held and then the run's first n records, and fails exactly when they do; for every strategy its own among the n are what its journal held at the cut, the lines of its id are an accepted journal, and replaying them gives the state that journal had reached, the live state if nothing was lost |
| Recovery.ReplayAcrossRuns | src/nautilus_zerodte/strategies/base.py:82-87 | replaying a strategy from the whole file, earlier runs included, gives that state if the earlier entries lead to Flat, the earlier state if this run did not move it, and is undefined otherwise |
| Reports.BuildRejectionReport | src/nautilus_zerodte/journal/service.py:56-70 | both dictionaries hold exactly the positive counts by stage and by rule, and the stage counts sum to the number of rejections |
| Reports.BuildOverview | src/nautilus_zerodte/journal/service.py:73-91 | exact counts by stage, gate rejections, strategies and the last ten entries; the counts sum to the length of the log |
| Reports.CountedIff | src/nautilus_zerodte/journal/service.py:56-91 | the report counts gate rejections and denials outside LIFECYCLE, FILL, PNL and LEARNING; the overview counts gate rejections, and not those at RISK_ENGINE either |
| Reports.ReportsAdd | src/nautilus_zerodte/journal/service.py:56-91 | every number of both reports is additive over concatenated logs |
| Reports.ReportsNest | src/nautilus_zerodte/journal/service.py:56-91 | per stage gate rejections <= report rejections <= entries, with equality of the first two exactly when no denial was recorded there |
| Reports.TotalIsAudited | src/nautilus_zerodte/journal/service.py:39-41 | the report's total is at most the number of rejection records, and equal exactly when all were at counted stages |
| Reports.ReportMatchesRun | src/nautilus_zerodte/strategies/base.py:210-350 | on the journal of any run of one strategy the total is the number of transitions for gate_reject, greek_reject or order_denied |
| SystemReports.NodeReportMatchesRun | src/nautilus_zerodte/journal/service.py:56-70 | over the records the node writes in any run the total is the number of these transitions of all strategies together |
| StoredReports.StoredReport | src/nautilus_zerodte/journal/service.py:56-91 | every number of both reports, by stage and by rule name, is the same over the stored entries, read from their payload texts, as over the records they store |
| SystemReports.NodeReportFromFile | src/nautilus_zerodte/cli/main.py:318-320 | the text of the node's file loads, and the report of what is loaded has that total |
| ConfigMerge.DeepMergeInPlace | src/nautilus_zerodte/config/loader.py:13-20 | the loop over the overlay's items, in any order, computes the merge defined key by key |
| ConfigMerge.MergeTwice | src/nautilus_zerodte/config/loader.py:13-20 | merging an overlay a second time changes nothing |
| ConfigMerge.Congruence | src/nautilus_zerodte/config/loader.py:13-20 | bases that agree under p still agree under p after any s is merged into each |
| ConfigMerge.EarlyProfileIsHidden | src/nautilus_zerodte/config/loader.py:79-113 | base, P, overlays, P merges to the same as base, overlays, P |
| ConfigMerge.LeavesOfMerge | src/nautilus_zerodte/config/loader.py:13-20 | the scalars of a merge are those of the overlay, and those of the base at paths where the overlay is silent |
| ConfigMerge.CoversIff | src/nautilus_zerodte/config/loader.py:13-20 | an overlay hides its base entirely exactly when it has every key of it, and so on inside common dictionaries |
| ConfigMerge.AssociativeIff | src/nautilus_zerodte/config/loader.py:13-20 | merging is associative exactly where no scalar is turned back into a dictionary that does not cover the first |
| ConfigMerge.NotAssociative | src/nautilus_zerodte/config/loader.py:13-20 | an input where it is not |
| ConfigLoader.LoadConfig | src/nautilus_zerodte/config/loader.py:74-119 | the layers are merged in the documented order, each overlay picked from what was merged before it, the two overlay names removed; none when picking raises |
| ConfigLoader.LastLayerDecides | src/nautilus_zerodte/config/loader.py:74-119 | a loaded configuration holds a scalar at a path if and only if the last of base, risk, strategy, fees, diversification, streaming, session and profile that says anything there says it, and never under the two overlay names |
| ConfigLoader.OverlaysOfAdapter | src/nautilus_zerodte/config/loader.py:29-46 | where no overlay is named, a Deribit adapter in any case of letters takes the Deribit fees and session, an IB one the IB fees and the US session, any other no fees and the US session |
| ConfigLoader.OverlaysWithoutAdapter | src/nautilus_zerodte/config/loader.py:29-46 | without an adapter these are the IB ones; a venue that is no dictionary raises |
| ConfigLoader.DiversificationIff | src/nautilus_zerodte/config/loader.py:99-103 | an existing diversification file is laid over if and only if strategies are listed or diversification is switched on; asking raises exactly where no strategies are listed and its entry is no dictionary |
| ConfigLoader.FeesOnly | src/nautilus_zerodte/config/loader.py:91-97 | of a fee file nothing but a non-empty fees entry reaches the configuration |
| ConfigLoader.NamedOverlays | src/nautilus_zerodte/config/loader.py:29-46 | the fee overlay a profile names is picked; the session overlay it names is picked if and only if the diversification and streaming layers merged after the profile hold no other name at their top level (or a falsy one where the adapter default is that name) |
| ConfigLoader.StreamingNamesSession | src/nautilus_zerodte/config/loader.py:105-112 | a session overlay named in the streaming file is laid over last, whatever the profile names |
| ConfigLoader.NamedSessionIsReplaced | src/nautilus_zerodte/config/loader.py:105-112 | files on which the session overlay the profile names is not used |
| ConfigLoader.EarlyPassOnlyPicks | src/nautilus_zerodte/config/loader.py:79-113 | whatever is picked, the result is the defaults, the picked overlays and the profile in this order: the early pass of the profile affects only which overlays are picked |
| ConfigLoader.ProfileSurvivesLoading | src/nautilus_zerodte/config/loader.py:111-116 | every scalar of the profile is in the loaded configuration |

## Left out

- Floating point: numbers are reals, so rounding, infinities and NaN are not modelled; clock readings are integers of nanoseconds.
- UUIDs: an intent id is a natural number whose order stands for the order of the UUID texts; fresh ids are assumed unused, which is what `uuid4` is relied on for.
- NautilusTrader itself: matching, its risk engine, portfolio, greeks and caches are inputs of the events; events the engine delivers while an order is being submitted are taken as the next event.
- Exceptions from parsing instrument ids and from building orders are not modelled; `Orders` assumes the empty text names no instrument.
- Bracket children, partial fills and position reconciliation: the strategy does not track them, and Flat says nothing about venue exposure.
- Subscribing and unsubscribing: subscriptions are taken as active for the whole run, so intents published after the selector has stopped are not modelled.
- Journal payload fields that no decision or report reads are not carried by `Audit.Entry`; when stored, an entry carries an arbitrary id, time and further payload members.
- Command-line programs that append to a node's file from another process while it runs: one process at a time writes the file.
- Learning arithmetic: only the fact that a fill writes a learning record is modelled.
- Json.ParseValue: a depth limit of the JSON reader is not modelled; which texts are UUIDs or time stamps is left open, so what is proved holds for every such check that accepts what the program writes.
- Reports.BuildRejectionReport: the loops work on typed entries; `StoredReports` carries their numbers over to loaded entries. Payloads whose event or rules are not texts, which only a hand-written file can hold, are not modelled.
- StoredReports.StoredReport: the strategies and the last entries of the overview are not carried over.
- ConfigLoader.LoadConfig: the environment overrides and the schema validation that follow are not modelled; how `str` renders a value that is not a text is left open.
- SystemNode.Node.Handle: a strategy's publication is handed to the selector when its callback returns; publishing is the last thing the callback does.
- Handlers that decline an approval: both existing handlers always approve.
- Time zones, calendars and instrument-id formatting beyond the spread id.
- `gated_skeleton.py`, `skeleton.py`, `cli/`, `node/`, `scripts/`, streaming, research, adapters and the planned kill switch.
