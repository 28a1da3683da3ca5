# Feather analytics, replica, journal and full exit: a verified model

This project models four cooperating parts of the repository and proves what their readers rely on.

1. **Analytics engine.** `AnalyticsEngine` ingests a block chain, drops repeated source events, keeps candles at
   seven intervals, as-of indexes, pools, positions and a price book, and takes an incremental path on appends and
   a full rebuild on reorganisations. Its meaning is a function, the replay of the retained blocks
   (`Projection.Replay`); the class invariant `Engine.AnalyticsEngine.Valid` says that every field is what that
   function yields, and every public method keeps it unless applying a block throws.
2. **Server-to-browser replica.** Pools emit sparse absolute updates; the browser folds them into a bounded window
   behind a drain queue with batches in flight. The engine's own updates are followed from the appended blocks to
   the folded window.
3. **Transaction journal.** Twelve statuses driven by wallet results that may be late and by adversarial
   observations, a bounded journal, merging of copies, and the provider protocol over memory and storage.
4. **Full-exit planner.** Recursive bisection under gas, calldata and probe budgets, and canonical encodings of
   workflows, states and batch settings.

## Structure

| part | modules |
|---|---|
| values and arithmetic | `Domain`, `Fixed`, `Grid`, `Decimal`, `SortedIds` |
| engine components | `PriceBook`, `PairIndex`, `Flows`, `Candles`, `Rollups`, `Ledger`, `PoolState`, `Chain`, `Ingest` |
| engine | `Projection` (replay), `Admission`, `ViewInvariants`, `EngineSpec`, `Engine` (class), `EngineQueries` |
| engine theorems | `CandleTheorems`, `LedgerTheorems`, `EngineTheorems`, `ChainTime`, `BlockRanges`, `ChangedCandles`, `ChainSwaps`, `ChainLedger` |
| replica | `Replica`, `ReplicaTheorems`, `EngineReplica`, `PoolStream`, `PoolStreamEffect` (class), `StreamMirrors` |
| journal | `Journal`, `JournalRuns`, `JournalMerge`, `JournalJoin`, `JournalCopies`, `JournalProvider` (class) |
| full exit | `FullExitBins`, `FullExitPlanner` (class), `FullExitCodec`, `FullExitText`, `FullExitJournal` |
| what each operation does, told from its inputs | `SourceEvents`, `Redelivery`, `ChainAnswers`, `PublishedStates`, `PartialEvents`, `Valuations`, `LedgerShares`, `CandlePrices`, `ChainPrices`, `CandleSources`, `SwapSums`, `PoolContents`, `TrustedPrices`, `ReplicaSteps`, `StreamSteps`, `JournalObservations`, `WalletResults`, `KeptRecords`, `MergedFields`, `ExitPlans` |
| inputs at which expectations fail | `PlainBlocks`, `Witnesses` and `LedgerWitnesses` (engines), `JournalWitnesses` (journal runs) |

Code that updates fields step by step is a class or a method with loops, proved against functions; the theorems
are about those functions. What a function yields is told a second time, as a relation between inputs and results that
does not mention how it is computed, in the modules of the row "told from its inputs". Case-folded hashes, addresses
and tokens are abstract identifiers, nullable values are options, a `throw` is an outcome value that keeps the partial
effects the code leaves behind.

## Where the code does not do what one might expect

Each of these has its exact condition and an input at which it happens.

- A block that throws while being applied stays retained, and a retry is answered "duplicate". Applying throws exactly
  when an event changes a pair's identity or a pool's chain, deposits a negative amount, or moves more of a bin than
  is held (`Admission.ReplaysIff`, `EngineTheorems.RetryIsDuplicate`; input `EngineTheorems.PoisonedAppend`). A rewind
  or a fork below the block repairs the engine (`EngineTheorems.UndoThrow`, `Engine.AnalyticsEngine.IngestFork`), unless
  it was the first block (`EngineTheorems.FirstThrowStays`).
- With decreasing block times a rolled-up candle can have a reversed block range, which the browser refuses
  (`BlockRanges.EngineCandleAcceptedIff`; input `Witnesses.ReversedCandle`), and a candle can become final, or
  cease to be final, without being reported (`ChangedCandles.FlipListedIff`; inputs `Witnesses.UnreportedFlip` and
  `Witnesses.UnreportedReopening`).
- The engine accepts "7" and "07" as two bins; its window can then exceed 2r + 1 bins
  (`ReplicaTheorems.WindowsFitIff`; input `Witnesses.AliasedWindow`).
- The drain queue judges an arriving message without the batch in flight. A message that arrives again while it and a
  later one are in flight is therefore accepted, and resets the stream when the batch is shown
  (`StreamSteps.AttestedIs`, `RepeatInFlightResets`; input `StreamSteps.RepeatInFlightExists`).
- Ledger events that move nothing can break a bin (`LedgerTheorems.StepSoundIff`, `ConservationIff`). A withdrawal of
  nothing from an empty bin erases its cost basis (`WithdrawalKeepsBasisIff`; input `LedgerWitnesses.TookNothing`). A
  deposit that mints nothing but is worth something leaves basis without liquidity (`EmptyDepositKeepsSoundIff`; input
  `LedgerWitnesses.MintedNothing`). A transfer of nothing by an owner who holds nothing erases the recipient's known
  basis (`TransferKeepsBasisIff`, `SoundTransferKeepsBasisIff`; input `LedgerWitnesses.SentNothing`).
- A reused price sequence with another sample makes the book depend on the order of offers
  (`PriceBook.OrderIndependentIff`; input `PriceBook.ReusedSequenceDependsOnOrder`).
- `begin` hands out the last record of the sorted journal, which after a clock change or within one millisecond can
  be another record (`JournalRuns.BeginHandleIff`; input `JournalWitnesses.OtherHandle`). If storage does not give that
  record back, `begin` throws with the intent stored and memory stale (`JournalProvider.TransactionJournalProvider.Begin`
  and `StaleOk`; input `JournalWitnesses.DurableCheckThrows`).
- Persisting merges a step with the copy from before it; if the replaced hash had been replaced before, the step's
  active hash is lost (`JournalMerge.PersistedActiveHashIff`; input `JournalWitnesses.ActiveHashLost`).
- A record that confirms before the reported head reaches its receipt is dropped by the loader
  (`Journal.ReceiptLoadableIff`; input `JournalWitnesses.DroppedByLoader`). A reload then forgets that it blocks its
  family (`JournalProvider.SurvivesReloadIff`; input `JournalWitnesses.ForgottenFamily`).
- State and batch encoders do not check the length bound that the parsers enforce (`FullExitCodec.FingerprintRoundTrip`
  and `SettingsRoundTrip`; input `FullExitText.LongFingerprint`). Workflow keys always keep to it
  (`FullExitText.WorkflowReadsBack`).

## Model

| member | source | states |
|---|---|---|
| EngineTheorems.SameBlocksSameState | packages/analytics/src/engine.ts:839-923 | whatever two engines went through, equal policies and retained blocks give equal derived state, candles at all seven intervals, as-of indexes and identity index; a fresh engine that only replays is one of them |
| Engine.AnalyticsEngine.IngestBlock | packages/analytics/src/engine.ts:243-298 | the chain becomes what the block's plan says, the answer matches, derived state is the replay of the retained blocks; it throws after retaining the block exactly when the guard refuses the new chain; otherwise the class invariant holds, also after a fork that drops a head that had thrown, and coverage, reported candle keys and pool updates are as stated; `Redelivery.DuplicateIff` and `ChainAnswers.NewBlockIs` tell the answer from the blocks |
| Engine.AnalyticsEngine.IngestKnown | packages/analytics/src/engine.ts:246-256 | a retained hash is checked for number and payload, as `Redelivery.DuplicateIff` tells, and otherwise changes only the reported keys and updates |
| Engine.AnalyticsEngine.IngestChild | packages/analytics/src/engine.ts:258-279 | a child of the head is appended, or refused on an identity conflict |
| Engine.AnalyticsEngine.AppendBlock | packages/analytics/src/engine.ts:268-278 | the incremental append ends in the same state as a replay of the longer chain; on a throw the block stays retained and the identity index does not advance |
| Engine.AnalyticsEngine.IngestFork | packages/analytics/src/engine.ts:281-298 | a fork replaces everything above its retained parent and rebuilds; if it does not throw, the class invariant holds even when the replaced head had thrown |
| Engine.AnalyticsEngine.ReplaceChain | packages/analytics/src/engine.ts:292-295 | a replaced chain gets the identity index recomputed from its blocks and the replayed state |
| Engine.AnalyticsEngine.RewindCanonicalHead | packages/analytics/src/engine.ts:306-339 | a rewind cuts the chain at the named block and can never throw while rebuilding; it keeps the class invariant, and restores it when the head had thrown |
| EngineTheorems.UndoThrow | packages/analytics/src/engine.ts:243-339 | after an ingested block that threw, a rewind to the block below it gives back, if the block was appended, the engine from before with its candles and indexes, and, if it came in by a fork, the engine cut at the fork's parent |
| EngineTheorems.FirstThrowStays | packages/analytics/src/engine.ts:281-323 | a first block that threw is dropped by no rewind and replaced by no other block |
| Engine.AnalyticsEngine.AugmentHeadPositionSnapshots | packages/analytics/src/engine.ts:380-403 | the head's snapshots for the given owners and pairs are replaced and the state is the replay of the new chain; reorg count, coverage and reported candle keys stay; an augmentation that does not throw also repairs a head that had thrown |
| Engine.AnalyticsEngine.RestoreCheckpoint | packages/analytics/src/engine.ts:405-416 | the blocks retained, the reorganisations counted and the coverage are those of ingesting the checkpoint's blocks one by one up to the first throw; a canonical chain that the guard admits is restored completely |
| EngineTheorems.RestoreExported | packages/analytics/src/engine.ts:349-416 | exporting and restoring into an empty engine with the same policies gives back chain, counts, backfill and all derived state |
| Engine.AnalyticsEngine.constructor | packages/analytics/src/engine.ts:230-241 | a new engine satisfies the class invariant for the empty chain |
| Engine.AnalyticsEngine.Rebuild | packages/analytics/src/engine.ts:839-861 | the full path yields the replay of the retained blocks with every candle level rolled up |
| Engine.AnalyticsEngine.ApplyCanonicalAppend | packages/analytics/src/engine.ts:868-894 | the incremental path yields the state after the block with every level rolled up again, and reports the newly final candles and the buckets of the block's pairs |
| Engine.AnalyticsEngine.NewlyFinalizedCandleKeys | packages/analytics/src/engine.ts:896-914 | reports, for every known pair and interval, the candle that held the previous head if the next head ends it |
| Engine.AnalyticsEngine.ApplyCanonicalBlock | packages/analytics/src/engine.ts:916-923 | prices, then events in order, stopping where one throws; only minute candles of the block's market pairs in its minute change |
| Engine.AnalyticsEngine.ApplyEvent | packages/analytics/src/engine.ts:971-994 | an event's activity row, body and partial count, and the pool update it emits |
| Engine.AnalyticsEngine.IndexPoolActivity | packages/analytics/src/engine.ts:925-969 | every swap, liquidity change and transfer is logged once, in order |
| Engine.AnalyticsEngine.UpdatePair | packages/analytics/src/engine.ts:996-1043 | a market event publishes the pair state or is refused when the pair's identity changed |
| Engine.AnalyticsEngine.IndexState | packages/analytics/src/engine.ts:1476-1500 | a published state enters the as-of index of its pair's history |
| Engine.AnalyticsEngine.ApplyPoolStateObservation | packages/analytics/src/engine.ts:1045-1132 | an observation replaces the pool's state, bins and numeric index, and emits exactly one update, with the contents told by `PoolContents.ObservationIs` |
| Engine.AnalyticsEngine.ApplySwap | packages/analytics/src/engine.ts:1134-1184 | a swap enters the sorted flow index and its minute candle, with missing prices recorded as partial |
| Engine.AnalyticsEngine.UpdateCandlesForSnapshot | packages/analytics/src/engine.ts:1186-1239 | a published state moves its minute candle and no other |
| Engine.AnalyticsEngine.ApplyLiquidity | packages/analytics/src/engine.ts:1298-1339 | a deposit or withdrawal runs through the ledger bin by bin, as `LedgerShares.LiquidityEventIs` tells; the owner's index gains the pair once |
| Engine.AnalyticsEngine.ApplyPositionSnapshot | packages/analytics/src/engine.ts:1341-1354 | a snapshot overrides the owner's position in the pair |
| Engine.AnalyticsEngine.ApplyPositionTransfer | packages/analytics/src/engine.ts:1356-1392 | a transfer runs through the ledger, as `LedgerShares.TransferEventIs` tells; both owners are indexed only if it does not throw |
| Engine.AnalyticsEngine.RecordCanonicalEventIdentities | packages/analytics/src/engine.ts:1528-1538 | the incrementally kept identity index is the recomputed one |
| Engine.AnalyticsEngine.ReplaceCanonicalEventIdentityIndex | packages/analytics/src/engine.ts:1540-1544 | the identity index is recomputed from the retained blocks, which never conflict |
| ViewInvariants.ReplayOk | packages/analytics/src/engine.ts:839-1043 | any chain of valid blocks that replays leaves pair maps, histories, sorted keys, flows, minute candles, owner index and numeric bin indexes in agreement |
| ViewInvariants.ListedOk | packages/analytics/src/engine.ts:1030-1042 | publishing a state keeps sorted keys, current states, first and last timestamps and chain-order histories in agreement |
| ViewInvariants.WithFlowOk | packages/analytics/src/engine.ts:1134-1183 | a swap adds its row to exactly one minute's sums |
| ViewInvariants.SwapRowOk | packages/analytics/src/engine.ts:2244-2253 | the checks on incoming swaps and positive prices bound the rounding of split fees |
| ViewInvariants.AfterTransferOk | packages/analytics/src/engine.ts:1356-1392 | each owner's list names exactly the pairs in which the owner has a position |
| Projection.ReplayPrefixOk | packages/analytics/src/engine.ts:839-861 | every prefix of a chain that replays also replays |
| Projection.ReplayAppend | packages/analytics/src/engine.ts:868-870 | replaying one more block is applying it to the replayed state |
| EngineTheorems.RetryIsDuplicate | packages/analytics/src/engine.ts:246-279 | a block that was retained is answered duplicate when delivered again, even if applying it threw |
| EngineTheorems.FailureIsPermanent | packages/analytics/src/engine.ts:839-861 | no extension of a chain that throws can replay |
| EngineTheorems.PoisonedAppend | packages/analytics/src/engine.ts:273-274 | a concrete first block is refused by the guard, retained, throws whatever the policies are, and is answered duplicate from then on |
| Admission.EventAdmitted | packages/analytics/src/engine.ts:996-1059 | a valid event is applied without a throw exactly when its pair keeps its identity, an observed pool its chain, deposits are not negative, and withdrawals and transfers stay within what is held, counted over the whole event |
| Admission.ReplaysIff | packages/analytics/src/engine.ts:839-923 | a chain of valid blocks replays without a throw exactly when the guard, which follows only identities, pool chains and liquidity, admits it; for decimals up to 255, policies and prices decide nothing |
| Admission.PricesDoNotDecide | packages/analytics/src/engine.ts:839-923 | with decimals up to 255 a chain of valid blocks replays under one set of price policies exactly when it does under any other |
| Admission.WithdrawRuns | packages/analytics/src/engine.ts:1328-1337 | a withdrawal runs exactly when, per bin, the amounts of all its entries together are within what is held, and then takes exactly them |
| Admission.TransferRuns | packages/analytics/src/engine.ts:1362-1389 | a transfer runs exactly when no entry is negative and the entries of each bin together are within what the sender holds, or each alone when the owner transfers to itself; it then moves exactly them |
| EngineTheorems.EngineCandles | packages/analytics/src/engine.ts:1134-1296 | in every reachable engine each candle sums exactly its window's rows of the flow index, loses at most two units of fees per swap, and has coherent prices |
| ChainSwaps.CandlesSumBlocks | packages/analytics/src/engine.ts:1134-1296 | in every reachable engine the candle of an aligned window, at any interval, holds the sums of exactly the pair's swap events in the retained blocks of that window, valued at the prices offered up to their block |
| ChainSwaps.SwapsCounted | packages/analytics/src/engine.ts:1134-1183 | the swaps counted in a window are its swap events, whatever the prices |
| EngineQueries.PairStateAsOf | packages/analytics/src/engine.ts:1463-1474 | the binary search returns what a backwards scan of the chain-order history returns |
| EngineQueries.FirstSeenDecides | packages/analytics/src/engine.ts:499-506 | a pair has a state as of a time exactly when its least timestamp is not later |
| EngineQueries.PairKeysAsOf | packages/analytics/src/engine.ts:496-506 | the paged keys are exactly the pairs with a state at the requested time, in order |
| EngineQueries.QueryPoolMetrics | packages/analytics/src/engine.ts:494-519 | a page materializes one metrics row per visible pair; the missing-state error cannot occur |
| EngineQueries.PoolMetrics | packages/analytics/src/engine.ts:1394-1461 | 24-hour sums run over exactly the swaps with cutoff < time <= as-of, with missing values and coverage masking them |
| EngineQueries.MetricsRoundingLoss | packages/analytics/src/engine.ts:1394-1461 | 24-hour fees, when all are shown, lose between nothing and two units per swap |
| Chain.SourcesUnique | packages/analytics/src/engine.ts:2112-2158 | across a canonical chain each (chain, source event id) occurs at most once |
| Chain.ContextListsOccurrences | packages/analytics/src/engine.ts:2112-2135 | the identity index lists exactly the source keys that occur in the chain |
| Chain.ContextExists | packages/analytics/src/engine.ts:1540-1544 | recomputing the index of a canonical chain never conflicts |
| Chain.CanonicalizeIdempotent | packages/analytics/src/engine.ts:2137-2176 | canonicalizing a retained block again changes nothing |
| Chain.DedupFresh | packages/analytics/src/engine.ts:2142-2158 | a canonical block's source keys are new to its context and distinct |
| Chain.PrefixCanonical | packages/analytics/src/engine.ts:292-295 | every prefix of a canonical chain is canonical |
| Chain.ReplaceHead | packages/analytics/src/engine.ts:400-402 | a head with canonicalized replacement events keeps the chain canonical |
| Ingest.PlanKeepsChain | packages/analytics/src/engine.ts:243-298 | every ingest decision keeps retained blocks valid, canonical, hash-linked, consecutive and of distinct hashes |
| Ingest.AppendRedelivered | packages/analytics/src/engine.ts:246-256 | an appended block is recognised when delivered again |
| Ingest.ForkRedelivered | packages/analytics/src/engine.ts:246-256 | a block that replaced a suffix is recognised when delivered again |
| Ingest.RetainedAppends | packages/analytics/src/engine.ts:410-411 | a retained block offered in order is appended in its retained form |
| Ingest.CanonicalizeBlock | packages/analytics/src/engine.ts:2137-2176 | the loop over events drops repeats, refuses changed payloads and checks that observations come last |
| Ingest.ObservationsAreLast | packages/analytics/src/engine.ts:2160-2174 | no later market event of an observed pool, hence no second observation |
| Ingest.CanonicalEventContext | packages/analytics/src/engine.ts:2112-2135 | the loop over blocks computes the identity index or finds the conflict |
| Ingest.RecordAppended | packages/analytics/src/engine.ts:1528-1538 | recording without conflict checks is the same for a canonical block |
| Ingest.FindByHash | packages/analytics/src/engine.ts:245-245 | the first retained index with the hash |
| Candles.BoundaryNests | packages/analytics/src/engine.ts:1897-1901 | minute, hour, day and Monday-week boundaries nest through every rollup step |
| Candles.BoundaryTiles | packages/analytics/src/engine.ts:1897-1901 | windows of one interval tile the time line |
| Candles.RolledUpUnique | packages/analytics/src/engine.ts:1241-1273 | the rolled-up levels are determined by the minute candles |
| Rollups.RebuildRollupBucket | packages/analytics/src/engine.ts:1275-1296 | one bucket is replaced by the rollup of exactly its source slots, whose fields `CandlePrices.CandlePricesOfMinutes` tells |
| Rollups.RebuildCleans | packages/analytics/src/engine.ts:1275-1296 | a rebuilt bucket is right and can make only the buckets of the same time stale |
| Rollups.MinuteChangeIsLocal | packages/analytics/src/engine.ts:868-894 | changed minutes leave every bucket right but those that hold the block's time |
| Rollups.RebuildChangedPairs | packages/analytics/src/engine.ts:880-892 | rebuilding six buckets per changed pair, lower levels first, restores every level |
| Rollups.RollUp | packages/analytics/src/engine.ts:1253-1263 | merging sorted source candles builds one level, with the fields told by `CandlePrices.CandlePricesOfMinutes` |
| Rollups.BuildCandleRollups | packages/analytics/src/engine.ts:1241-1273 | the full path builds every level from the minutes, with the fields told by `CandlePrices.CandlePricesOfMinutes` |
| Rollups.IncrementalEqualsFull | packages/analytics/src/engine.ts:868-894 | after an append, rebuilding the changed buckets ends in the same candles as dropping all rollups and building every level from the minutes |
| CandleTheorems.CandleSums | packages/analytics/src/engine.ts:1134-1183 | sums that are right per minute are right at every interval through up to three rollup steps |
| CandleTheorems.OneWindowPerLevel | packages/analytics/src/engine.ts:1897-1901 | each swap lies in exactly one window per interval |
| CandleTheorems.CandleRoundingLoss | packages/analytics/src/engine.ts:1812-1840 | 0 <= total - protocol - LP-net fees <= 2 x swaps for every candle without missing fee values |
| CandleTheorems.TouchedCoherent | packages/analytics/src/engine.ts:1186-1200 | a price update keeps OHLC all present or all absent with low and high enclosing open and close |
| CandleTheorems.AllCoherent | packages/analytics/src/engine.ts:1812-1840 | coherent minutes give coherent candles at every interval |
| CandleTheorems.AllRangesOrdered | packages/analytics/src/engine.ts:1812-1840 | ordered block ranges of minutes give ordered ranges at every interval |
| CandleTheorems.BoundariesAgree | apps/web/src/analytics-data.ts:1481-1485 | the browser's remainder test accepts exactly the engine's boundaries |
| CandleTheorems.WindowIs | packages/analytics/src/engine.ts:1897-1901 | the window that holds a time starts no later and ends after it, a whole number of windows from the epoch or, for weeks, from the Monday after it |
| CandleTheorems.AcceptedIffForward | apps/web/src/analytics-data.ts:1146-1191 | a finalized coherent candle passes the browser's range-independent checks exactly when its first block is not after its last |
| ChainTime.EngineCandlesAccepted | apps/web/src/analytics-data.ts:1146-1191 | with non-decreasing block times every candle of a reachable engine passes those checks |
| BlockRanges.EngineCandleAcceptedIff | apps/web/src/analytics-data.ts:1146-1191 | whatever the block times, a candle of a reachable engine passes those checks exactly when some retained block of its pair's earliest minute in the window is not after some retained block of its latest minute; minute candles always pass |
| BlockRanges.CandlesOfBlocks | packages/analytics/src/engine.ts:1186-1296 | at every interval the engine has a candle exactly for the windows in which some retained block holds a market event of the pair |
| BlockRanges.EdgeMinutes | packages/analytics/src/engine.ts:1812-1840 | at every interval a candle has the first block of its earliest minute candle and the last block of its latest |
| Witnesses.ReversedCandle | packages/analytics/src/engine.ts:2230-2235 | an engine that ingested two blocks with times 120 and 60 has a five-minute candle that the browser refuses |
| ChangedCandles.UnreportedUnchanged | packages/analytics/src/engine.ts:661-673 | with non-decreasing block times a candle that an append does not report keeps its content and its finality |
| ChangedCandles.FlipListedIff | packages/analytics/src/engine.ts:896-914 | a candle that becomes final is reported exactly when it starts no later than the previous head; one that ceases to be final is reported exactly when it starts no later than the next head and the block moves its pair |
| Witnesses.UnreportedFlip | packages/analytics/src/engine.ts:896-914 | an engine that ingested blocks with times 120, 60 and 300 has a minute candle that became final without being reported |
| Witnesses.UnreportedReopening | packages/analytics/src/engine.ts:896-914 | an engine that ingested blocks with times 120, 300 and 60 has a minute candle that ceased to be final without being reported |
| ChangedCandles.BlockLocal | packages/analytics/src/engine.ts:868-880 | a block changes minute candles only of its market events' pairs in its own minute |
| Flows.InsertFlowTotal | packages/analytics/src/engine.ts:1608-1615 | whatever the order of arrival a window sum grows by exactly the inserted row |
| Flows.InsertFlowRow | packages/analytics/src/engine.ts:1608-1615 | binary search and splice insert stably and keep the rows sorted |
| Flows.UpperBoundFlowTimestamp | packages/analytics/src/engine.ts:1597-1606 | splits the rows at the timestamp |
| Flows.DayTotals | packages/analytics/src/engine.ts:1394-1447 | the loop between two binary searches sums exactly the 24-hour window |
| Flows.TotalSplits | packages/analytics/src/engine.ts:1812-1829 | sums over adjacent windows add up |
| Flows.WindowRoundingLoss | packages/analytics/src/fixed.ts:12-19 | floor loss of split fees over any window stays within two units per swap |
| Flows.SwapRowSplitsWell | packages/analytics/src/engine.ts:1547-1567 | valuing total, protocol and LP-net fees apart loses at most one unit per token |
| Fixed.SplitValuationLoss | packages/analytics/src/fixed.ts:12-19 | splitting an amount before the floor division loses nothing or one unit |
| PairIndex.LookupRefinesScan | packages/analytics/src/engine.ts:1463-1500 | for any history, monotone in time or not, the index answers as the backwards scan does |
| PairIndex.IndexPairState | packages/analytics/src/engine.ts:1476-1500 | mid-array insertion and repair of prefix bests build the index of the longer history |
| PairIndex.BuildIndexValid | packages/analytics/src/engine.ts:1476-1500 | entries are sorted by time, each carrying the latest state in chain order up to it |
| PairIndex.PairStateAt | packages/analytics/src/engine.ts:1463-1474 | the binary search reads the prefix best before the requested time |
| PairIndex.UpperBoundPairSnapshotTimestamp | packages/analytics/src/engine.ts:1583-1595 | splits the entries at the timestamp |
| SortedIds.InsertSortedUnique | packages/analytics/src/engine.ts:2053-2062 | binary search inserts an absent key in order and leaves a present one |
| PriceBook.LookupJudgesGreatestWinner | packages/analytics/src/pricing.ts:51-105 | after any offers the lookup judges the accepted sample with the greatest (time, sequence) at or before the requested time |
| PriceBook.BookHoldsWinners | packages/analytics/src/pricing.ts:51-69 | the book holds exactly the first acceptable sample per token and sequence |
| PriceBook.OrderIndependentIff | packages/analytics/src/pricing.ts:51-69 | the book is the same for every permutation of the offers, and for every sequence with the same offers however often, exactly when no two acceptable offers of one token and sequence carry different samples |
| PriceBook.ReusedSequenceDependsOnOrder | packages/analytics/src/pricing.ts:62-62 | a concrete clash: two orders of two offers with one sequence give two prices |
| PriceBook.FutureTestUnreachable | packages/analytics/src/pricing.ts:78-80 | the observed-in-the-future test never decides: stale means older than the policy allows |
| PriceBook.TrustedPriceBook.Apply | packages/analytics/src/pricing.ts:51-69 | an accepted sample is inserted in order, anything else changes nothing |
| PriceBook.TrustedPriceBook.Get | packages/analytics/src/pricing.ts:71-86 | the price or the reason why there is none |
| PriceBook.UpperBoundSample | packages/analytics/src/pricing.ts:107-119 | the insertion point by observation time and sequence |
| PriceBook.SampleAt | packages/analytics/src/pricing.ts:94-104 | the binary search finds the greatest sample at or before the time |
| LedgerTheorems.Conservation | packages/analytics/src/engine.ts:1298-1392 | over any interleaving of priced positive deposits, withdrawals and transfers the books of every bin balance exactly despite the floor division, no basis is negative, and no liquidity means no basis |
| ChainLedger.ChainConserves | packages/analytics/src/engine.ts:1298-1392 | in every replayed chain without position snapshots whose ledger operations are priced and positive, every bin's books balance against the deposits, withdrawals and transfers of the retained blocks |
| LedgerTheorems.ConservationIff | packages/analytics/src/engine.ts:1298-1392 | a run of priced operations that may move nothing leaves every bin sound throughout exactly when each operation finds liquidity where it takes from and mints something unless it is worth nothing or the bin holds liquidity; then the books of every bin balance |
| LedgerTheorems.StepSoundIff | packages/analytics/src/engine.ts:1309-1387 | the same for one operation on sound positions |
| LedgerTheorems.TransferKeepsBasisIff | packages/analytics/src/engine.ts:1362-1374 | a transfer leaves the recipient's basis known exactly when it was known and the sender's bin exists, has a known basis and holds liquidity, also for a transfer to oneself |
| LedgerTheorems.SoundTransferKeepsBasisIff | packages/analytics/src/engine.ts:1362-1374 | between sound positions the recipient's basis stays known exactly when the sender's bin holds liquidity: a transfer of nothing from an owner who holds nothing erases it |
| LedgerWitnesses.TookNothing | packages/analytics/src/engine.ts:1328-1336 | an engine that ingested a withdrawal of nothing from a bin not held has that bin with an unknown basis |
| LedgerWitnesses.MintedNothing | packages/analytics/src/engine.ts:1321-1326 | an engine that ingested a deposit worth 100 that mints nothing has a basis of 100 on a bin without liquidity |
| LedgerWitnesses.SentNothing | packages/analytics/src/engine.ts:1361-1374 | an engine in which owner 2 minted ten for a worth of 100 and owner 1, who holds nothing, sent nothing to owner 2, no longer knows the basis of owner 2 |
| LedgerTheorems.WithdrawalKeepsBasisIff | packages/analytics/src/engine.ts:1328-1336 | a withdrawal keeps the basis known exactly when the bin held liquidity: withdrawing nothing from an empty bin erases it |
| LedgerTheorems.EmptyDepositKeepsSoundIff | packages/analytics/src/engine.ts:1321-1326 | a deposit that mints nothing into an empty bin leaves basis without liquidity unless it is worth nothing |
| LedgerTheorems.ShareBounds | packages/analytics/src/engine.ts:1330-1332 | the allocated basis is between nothing and all of it, and all of it when everything leaves; `LedgerShares.ChangeIs` and `TransferIs` tell exactly which share it is |
| Ledger.ApplyLiquidity | packages/analytics/src/engine.ts:1309-1338 | the loop over bins stops where a bin throws, keeping earlier bins; `LedgerShares.ChangeIs` tells each step |
| Ledger.ChangeBin | packages/analytics/src/engine.ts:1309-1338 | one bin of a deposit or withdrawal, with the share of the basis that `LedgerShares.ChangeIs` tells |
| Ledger.ApplyTransfer | packages/analytics/src/engine.ts:1362-1389 | the loop over transferred bins, also when an owner transfers to itself; `LedgerShares.TransferIs` and `SelfTransferIs` tell each step |
| Ledger.ApplySnapshot | packages/analytics/src/engine.ts:1694-1746 | listed bins are overridden, all others emptied, and lost basis is recorded as partial |
| PoolState.ObservedAgrees | packages/analytics/src/engine.ts:1066-1114 | every observation keeps the numeric index and the full bin map in agreement |
| PoolState.ApplyBinUpdates | packages/analytics/src/engine.ts:1077-1114 | the loop over bin updates, with revisions and skipped or repeated unchanged bins; `PoolContents.ObservedIs` tells what is stored and sent |
| PoolState.QueryPoolState | packages/analytics/src/engine.ts:675-695 | the windowed query lists exactly the bins of the window, in order of numeric id, each once |
| PoolState.SortBinsKeeps | packages/analytics/src/engine.ts:1617-1621 | sorting by numeric id keeps the same bins |
| Replica.ApplyPoolStateUpdate | apps/web/src/analytics-data.ts:733-791 | identity, cursor and revision checks, a map filled in a loop, and the bounded window |
| Replica.WindowBounded | apps/web/src/analytics-data.ts:775-782 | the window of a canonical map never exceeds 2r + 1 bins |
| Replica.WindowsEqualIff | apps/web/src/analytics-data.ts:775-782 | two maps show the same window exactly when they agree on its keys |
| ReplicaTheorems.StepMirrors | apps/web/src/analytics-data.ts:733-791 | one emitted update is never refused; the window stays the server's exactly when the window was replaced or no unsent bin entered it |
| ReplicaTheorems.FoldMirrorsServer | apps/web/src/analytics-data.ts:733-791 | over any admissible stretch the fold never fails and shows the server's own window |
| ReplicaTheorems.QueryIsShown | packages/analytics/src/engine.ts:675-695 | the server's listing is the sequence the browser computes from the same bins |
| ReplicaTheorems.WindowsFitIff | packages/analytics/src/engine.ts:675-695 | for any pool whose index agrees, every listing of every window of radius r around any active bin has at most 2r + 1 bins exactly when no two stored texts stand for one numeric bin |
| Witnesses.AliasedWindow | packages/analytics/src/engine.ts:2318-2328 | an engine that ingested an observation of bins 7 and 07, which validation accepts, lists two bins for radius 0 |
| EngineReplica.EngineMirrors | packages/analytics/src/engine.ts:1045-1132 | the updates the engine emits while any blocks are appended, delivered under increasing cursors, fold without failure to the server's state and window, if bin texts are canonical, the bin step is fixed and active-bin moves replace the window |
| EngineReplica.EventsMove | packages/analytics/src/engine.ts:2160-2174 | a block observes a pool at most once, and its update is that observation's |
| PoolStream.EveryRunOk | apps/web/src/pool-workspace-context.tsx:309-388 | under any interleaving of messages, microtasks, attestations and resets what is published is the bootstrap folded over a prefix of the accepted messages, ignored messages are repeats, and the queue is bounded |
| StreamMirrors.EveryPublishedIsServed | apps/web/src/pool-workspace-context.tsx:309-390 | while blocks are appended and the emitted updates arrive in order, each perhaps several times, under any interleaving every snapshot that the browser shows is the server's own state and window at one of the retained blocks |
| StreamMirrors.RunInOrder | apps/web/src/pool-workspace-context.tsx:372-390 | what a run accepts is a delivery in order of everything that arrived, unless it was reset |
| PoolStream.PublishesForward | apps/web/src/pool-workspace-context.tsx:316-362 | a step never moves the published cursor back and publishes nothing after a reset |
| PoolStream.FoldConcat | apps/web/src/pool-workspace-context.tsx:316-340 | folding a batch onto a fold is folding the concatenation |
| PoolStreamEffect.Effect.OnPoolState | apps/web/src/pool-workspace-context.tsx:372-390 | a message is checked against the cache with the waiting messages folded in, then queued, ignored or answered by a reset |
| PoolStreamEffect.Effect.DrainUpdates | apps/web/src/pool-workspace-context.tsx:316-362 | the drain loop up to its next await |
| PoolStreamEffect.Effect.AttestationResolved | apps/web/src/pool-workspace-context.tsx:336-351 | the batch is folded onto the latest cache and published, and draining goes on |
| PoolStreamEffect.Effect.ScheduleDrain | apps/web/src/pool-workspace-context.tsx:364-371 | at most one drain is scheduled or running |
| Journal.ObservedOk | apps/web/src/transaction-journal.ts:267-424 | whatever is reported about transactions that are what their hashes stand for, a record is confirming or canonical only for the reviewed transaction with a successful receipt of its active hash, canonical only with the required confirmations; `JournalObservations` tells when each status is reached |
| Journal.HashlessBinding | apps/web/src/transaction-journal.ts:292-322 | a hashless submission is bound only to a transaction of its account and nonce with the reviewed target, calldata and value |
| Journal.WalletStepsOk | apps/web/src/transaction-journal.ts:171-265 | no wallet result, recovery or deferral, however late, breaks a record |
| Journal.TransactionOk | apps/web/src/transaction-journal.ts:289-322 | binding an observed transaction, matching or replacing, keeps a record sound |
| Journal.ReceiptOk | apps/web/src/transaction-journal.ts:382-424 | receipts of the active hash keep a record sound; `JournalObservations.OwnIs` tells what each does |
| Journal.IncompatibleOk | apps/web/src/transaction-journal.ts:646-669 | an incompatible replacement keeps a record sound |
| Journal.ReceiptLoadableIff | apps/web/src/transaction-journal.ts:822-876 | after a successful receipt the loader takes the record back exactly when the reported head reached the receipt's block and no finalized replacement was left behind |
| JournalWitnesses.DroppedByLoader | apps/web/src/transaction-journal.ts:413-422 | a run of one begin, one wallet hash and one check with head 25 and a receipt of block 30 ends in a record that the loader drops |
| Journal.BlocksFamilyIffMonitored | apps/web/src/transaction-journal.ts:467-515 | what blocks an intent family is exactly what is monitored |
| Journal.TerminalAbsorbs | apps/web/src/transaction-journal.ts:171-265 | terminal records absorb wallet results, abort and recovery |
| JournalRuns.RunsOk | apps/web/src/transaction-journal.ts:133-424 | in every run of gated begins, late wallet results, recoveries and checks of monitored records the journal stays within 200 records with distinct ids, sound records and at most one open remove-liquidity record per family |
| JournalRuns.AfterKeepsOpen | apps/web/src/transaction-journal.ts:777-790 | only a refused begin throws, and every open record is retained |
| JournalRuns.NeverReopens | apps/web/src/transaction-journal.ts:467-515 | no step on a record it can reach reopens a resolved one |
| JournalRuns.BoundedKeeps | apps/web/src/transaction-journal.ts:777-786 | bounding drops terminal records only and fails only on more than 200 open ones |
| JournalRuns.BeginHandleIff | apps/web/src/transaction-journal-react.tsx:107-118 | the last record of the bounded journal, which begin hands out, is the new intent exactly when no retained open record was created later and every retained terminal one earlier |
| JournalWitnesses.DurableCheckThrows | apps/web/src/transaction-journal-react.tsx:108-114 | after a run that ends in a record the loader drops, an intent begun with a clock that moved back is stored while the durable check on the last record throws |
| JournalWitnesses.OtherHandle | apps/web/src/transaction-journal-react.tsx:107-118 | after two begins with a clock that moved back the last record is the first intent's |
| JournalMerge.EvidenceUnion | apps/web/src/transaction-journal.ts:724-738 | merged hash evidence names exactly the hashes of both lists, each once, with the earliest observation time |
| JournalMerge.MergedRecordKeeps | apps/web/src/transaction-journal.ts:569-591 | merging same-id records of one intent keeps all evidence and the greater lifecycle revision |
| JournalMerge.PersistedActiveHashIff | apps/web/src/transaction-journal.ts:740-752 | a step that replaces the active hash, merged with the copy from before it, keeps the new hash exactly when no other replacement of the old one was recorded; else the stale or no hash is active |
| JournalWitnesses.ActiveHashLost | apps/web/src/transaction-journal.ts:740-752 | a run in which a hash is replaced and comes back reaches a record whose next replacement, merged with the copy from before, has no active hash |
| JournalJoin.MergeKeepsIds | apps/web/src/transaction-journal.ts:556-597 | merging keeps every id of both journals up to eviction of terminal records |
| JournalJoin.BoundedIdempotent | apps/web/src/transaction-journal.ts:777-786 | bounding a bounded journal changes nothing |
| JournalJoin.SelfMergeIdentity | apps/web/src/transaction-journal.ts:556-597 | a well-formed journal merged with itself is unchanged |
| JournalJoin.MergeTransactionJournals | apps/web/src/transaction-journal.ts:556-597 | the loops over both record lists |
| JournalJoin.MergeHashEvidence | apps/web/src/transaction-journal.ts:724-738 | the loop over both hash lists |
| JournalProvider.TransactionJournalProvider.Begin | apps/web/src/transaction-journal-react.tsx:86-119 | a refused intent changes nothing; an admitted one is persisted, and a handle is given and memory updated exactly when storage gives the last record back at its revision; where that check throws, storage is new and memory stale, and the invariant holds all the same |
| JournalProvider.TransactionJournalProvider.Commit | apps/web/src/transaction-journal-react.tsx:54-67 | a wallet failure, recovery, or check of a record selected earlier and still at its revision is persisted over what storage gives back, never throws, and keeps the invariant; a stale one is dropped |
| JournalProvider.TransactionJournalProvider.Submitted | apps/web/src/transaction-journal-react.tsx:121-129 | the wallet's hash is persisted whether or not it still applies, and the invariant holds |
| JournalProvider.TransactionJournalProvider.Reload | apps/web/src/transaction-journal-react.tsx:69-77 | what storage gives back after a reload, recovered and persisted, never throws and satisfies the invariant; an open stored record is open afterwards exactly when the loader accepts it |
| JournalProvider.SurvivesReloadIff | apps/web/src/transaction-journal-react.tsx:69-77 | an open stored record is open in the reloaded journal exactly when the loader accepts it |
| JournalWitnesses.ForgottenFamily | apps/web/src/transaction-journal-react.tsx:69-104 | a record that the loader drops blocks its family in memory; after a reload the journal is empty and the same intent is admitted again |
| JournalProvider.OneOpenPerFamily | apps/web/src/transaction-journal-react.tsx:54-119 | memory, what storage gives back, and their merge hold at most one open record per remove-liquidity family, and the merge holds every record that is open in either |
| JournalProvider.CommitOk | apps/web/src/transaction-journal-react.tsx:54-67 | a step on what memory and storage show, persisted, leaves a good archive with every open record in memory, each grown from a known one without reopening a family |
| JournalProvider.BeginOk | apps/web/src/transaction-journal-react.tsx:96-116 | an admitted intent, persisted, leaves a good archive with unique open families |
| JournalProvider.StaleOk | apps/web/src/transaction-journal-react.tsx:108-114 | when the durable check throws, stale memory and new storage together still show every open record |
| JournalProvider.SelectedPossible | apps/web/src/transaction-journal-react.tsx:200-228 | a record still at the revision at which it was selected for a check is still monitored, because lifecycle revisions never go back |
| JournalProvider.CurrentOk | apps/web/src/transaction-journal-react.tsx:56-56 | merging memory with storage does not fail, shows every open record, and holds one open record per family |
| FullExitPlanner.PlanCovered | apps/web/src/full-exit-batching.ts:308-379 | on success the batches concatenate to exactly the bins, keep within the calldata cap and the permitted share of the block's gas, and took 2 x batches - ceil(bins / candidate size) probes within budget |
| FullExitPlanner.BudgetOfTwiceBins | apps/web/src/full-exit-batching.ts:320-372 | with probes that only succeed or lack capacity a budget of twice the bins fails only on an unsafe single bin |
| FullExitPlanner.Planner.ProbeRange | apps/web/src/full-exit-batching.ts:320-370 | the recursive closure over probe count and batches, whose steps `ExitPlans.CandidateIs` tells |
| FullExitPlanner.RunCandidates | apps/web/src/full-exit-batching.ts:374-376 | the loop over candidate ranges |
| FullExitPlanner.PlanFullExitBatches | apps/web/src/full-exit-batching.ts:308-379 | a returned plan covers the normalized bins, every batch's buffered gas times 10,000 is at most the block gas limit times the permitted basis points, calldata and probes keep to their limits, and the bins are those of the given fingerprint's state; invalid input and failed plans return exactly their error |
| FullExitPlanner.CeilDivLeast | apps/web/src/full-exit-batching.ts:545-547 | the least quotient that covers |
| FullExitBins.NormalizeLiveBins | apps/web/src/full-exit-batching.ts:433-452 | the loop refuses duplicates, oversized ids and malformed integers |
| FullExitBins.NormalizeLists | apps/web/src/full-exit-batching.ts:433-452 | normalized bins are exactly the positive entries under strictly increasing ids |
| FullExitBins.NormalizeIgnoresOrder | apps/web/src/full-exit-batching.ts:433-452 | neither order nor empty balances nor spelling of integers matters |
| Decimal.ParsePrint | apps/web/src/full-exit-batching.ts:471-473 | decimal parsing undoes printing |
| Decimal.PrintParse | apps/web/src/full-exit-batching.ts:475-485 | printing undoes parsing exactly without superfluous leading zeros |
| FullExitCodec.WorkflowRoundTrip | apps/web/src/full-exit-batching.ts:176-207 | a created workflow key parses to the normalized identity exactly when within the length bound |
| FullExitCodec.WorkflowCanonical | apps/web/src/full-exit-batching.ts:191-207 | only canonical workflow keys parse |
| FullExitCodec.FingerprintRoundTrip | apps/web/src/full-exit-batching.ts:226-255 | a state fingerprint parses to the state up to the unpinned observed head exactly when within the length bound, which the encoder does not check |
| FullExitText.ManyBinsTooLong | apps/web/src/full-exit-batching.ts:226-255 | with JSON text written out and the limits as they are, every state with more than 111111 bins is over the length bound |
| FullExitText.LongFingerprint | apps/web/src/full-exit-batching.ts:226-255 | a state with 120000 bins of balance one is encoded and does not parse |
| FullExitText.WorkflowReadsBack | apps/web/src/full-exit-batching.ts:176-207 | with JSON text written out and the limits as they are, every created workflow key parses to the normalized identity |
| FullExitCodec.FingerprintCanonical | apps/web/src/full-exit-batching.ts:238-255 | only canonical fingerprints parse |
| FullExitCodec.FingerprintsEqualIff | apps/web/src/full-exit-batching.ts:257-262 | fingerprints are equal exactly when the normalized pinned content is |
| FullExitCodec.SameContentSameFingerprint | apps/web/src/full-exit-batching.ts:226-236 | bin order, empty bins and letter case do not matter |
| FullExitCodec.SettingsRoundTrip | apps/web/src/full-exit-batching.ts:264-306 | encoded batch settings parse back exactly when within the length bound |
| FullExitCodec.SettingsCanonical | apps/web/src/full-exit-batching.ts:288-306 | only canonical settings parse, and their bins are pinned by their state |
| FullExitCodec.BinsRoundTrip | apps/web/src/full-exit-batching.ts:471-485 | normal bins decode from their encoding |
| FullExitJournal.DispositionIs | apps/web/src/full-exit-batching.ts:381-415 | each disposition of a record, and each refusal to give one, exactly under the stated conditions on status, receipt and confirmations |
| FullExitJournal.WaitsWhileMonitored | apps/web/src/full-exit-batching.ts:381-411 | a full exit waits for a record exactly as long as the journal monitors it, and counts only final reviewed successes |
| SourceEvents.CanonicalizeIff | packages/analytics/src/engine.ts:2137-2176 | a block is refused exactly when it is of another chain, a source event comes back with another payload, or an observation is not the last market event of its pair; otherwise it is retained with the first event of each new source and every event without source |
| Redelivery.DuplicateIff | packages/analytics/src/engine.ts:246-256 | a block with a retained hash is a duplicate exactly when, without repeats of earlier source events, it agrees with the retained block in number, parent, time, prices, chain and other events in order, and every position it shows is shown alike there |
| Redelivery.AugmentedRedelivered | packages/analytics/src/engine.ts:2197-2211 | after any number of enrichments of the head with snapshots of positions that a delivered block does not show, delivering the block again is answered duplicate |
| Redelivery.AugmentReplaces | packages/analytics/src/engine.ts:388-400 | an enrichment changes no other event, no header field and no position without a new snapshot; a position with new ones keeps none of its old ones |
| Redelivery.DeliverTwice | packages/analytics/src/engine.ts:243-256 | runs the engine: a block that was retained, a head enriched any number of times, and the block again, which is answered duplicate |
| ChainAnswers.MalformedIff | packages/analytics/src/engine.ts:2230-2329 | a block is refused as malformed exactly when a number is out of range or an event has a bad source, fee, market field or observation, each told |
| ChainAnswers.NewBlockIs | packages/analytics/src/engine.ts:258-298 | a block with a new hash is appended, replaces everything above its retained parent, or is refused for exactly the stated reason, and exactly the stated blocks are retained |
| ChainAnswers.RewindIff | packages/analytics/src/engine.ts:306-323 | each answer of a rewind exactly when the named block is below the head, the head, replaced by another at its height, or outside |
| ChainAnswers.AugmentIff | packages/analytics/src/engine.ts:380-402 | an enrichment is refused exactly when there is no such head, a snapshot names its source wrongly, or the new head is not canonical |
| ChainAnswers.CoverageIs | packages/analytics/src/engine.ts:335-337 | a rewind takes coverage back to the block rewound to and no further |
| PublishedStates.PublishedIs | packages/analytics/src/engine.ts:1006-1033 | a published state has the event's reserves, its or the last known quote, bin and step, the quote's worth or else the token's own price, and misses exactly the tokens that lack a price |
| PublishedStates.QuotesAre | packages/analytics/src/engine.ts:1006-1012 | a block values its events at the prices that the book gives for the pair's two tokens at its time, in this order; there is one exactly when the last sample by then is fresh and certain enough |
| PublishedStates.ActivityIs | packages/analytics/src/engine.ts:925-969 | a swap, liquidity change or transfer is logged under its pair with its own amounts, owners and bins, under its source event or its index |
| PartialEvents.PartialIs | packages/analytics/src/engine.ts:1508-1512 | an event adds exactly the tokens it lacks prices for to the missing ones and counts as partial exactly when there is one, a swap names no protocol share, a transfer moves an unknown basis, or a snapshot contradicts the position |
| Valuations.TruncatesTowardZero | packages/analytics/src/fixed.ts:12-15 | quotients are rounded toward zero |
| Valuations.WorthIs | packages/analytics/src/fixed.ts:17-19 | the worth of an amount is amount times price over ten to the decimals, rounded down |
| Valuations.ValueAmountsIs | packages/analytics/src/engine.ts:1547-1567 | two amounts have a total exactly when each token of which there is some has a price, and then it is the sum of the two worths |
| Valuations.RatioIs | packages/analytics/src/fixed.ts:21-23 | a ratio has eighteen decimals, is rounded toward zero, and there is none over zero |
| LedgerShares.ChangeIs | packages/analytics/src/engine.ts:1309-1338 | one bin of a deposit or withdrawal: what is taken of the basis is taken * liquidity <= basis * removed < (taken + 1) * liquidity, the realised gain grows by the value less it, and no other bin changes |
| LedgerShares.TransferIs | packages/analytics/src/engine.ts:1362-1389 | one bin of a transfer between two owners: the recipient's basis grows by exactly the share that the sender's loses, rounded down, and no other bin changes |
| LedgerShares.SelfTransferIs | packages/analytics/src/engine.ts:1362-1389 | one bin of a transfer to oneself |
| LedgerShares.LiquidityEventIs | packages/analytics/src/engine.ts:1298-1339 | a deposit or withdrawal event applies its entries one after the other, each as stated, at the event's prices |
| LedgerShares.TransferEventIs | packages/analytics/src/engine.ts:1356-1392 | a transfer event applies its entries one after the other, each as stated |
| LedgerShares.SnapshotIs | packages/analytics/src/engine.ts:1694-1746 | a snapshot shows each listed bin as listed, with its basis only if the liquidity agrees, and every other bin of the position as empty |
| CandlePrices.CandlePricesOfMinutes | packages/analytics/src/engine.ts:1812-1840 | at every interval open and close are those of the earliest and latest minute candle with a price, high and low the greatest and least, value locked and last block the latest minute's, and the missing tokens those of all minutes |
| ChainPrices.MinutePrices | packages/analytics/src/engine.ts:1186-1200 | a minute candle's open, high, low and close are the first, greatest, least and last price that the pair's retained market events published in its minute, in chain order |
| ChainPrices.EngineCandlePrices | packages/analytics/src/engine.ts:1186-1296 | in every reachable engine a candle of any interval takes its prices from the minutes of its window, and these from the published states |
| CandleSources.SourceOfMinutes | packages/analytics/src/engine.ts:1877-1883 | a candle names one price source exactly when all minute candles of its window do |
| SwapSums.CandleSumsUp | packages/analytics/src/engine.ts:1134-1296 | in every reachable engine each figure of a candle is the plain sum of that figure over the swap events of its window, with a flag exactly when one of them has none |
| SwapSums.MetricsAre | packages/analytics/src/engine.ts:1394-1461 | each 24-hour figure is the plain sum over exactly the swaps later than a day before the requested time and not later than it, shown exactly when history covers the day and every swap has it; value and ratios are as stated |
| SwapSums.SwapLacks | packages/analytics/src/engine.ts:1134-1170 | a swap lacks a price for exactly the tokens of which it had some amount or fee, and those its pair state lacks |
| PoolContents.ObservedIs | packages/analytics/src/engine.ts:1066-1132 | every listed bin is stored with exactly the listed reserves and supply; its revision grows by one exactly when they changed; other bins stay or, with a replacement, go; the update carries exactly what changed |
| PoolContents.ObservationIs | packages/analytics/src/engine.ts:1045-1132 | an applied observation event stores and sends its own bins, market fields and fees, at its block, for its pair only |
| TrustedPrices.OfferIs | packages/analytics/src/pricing.ts:51-69 | a trusted sample with a new sequence is stored for its token, and nothing else happens |
| TrustedPrices.PriceIs | packages/analytics/src/pricing.ts:71-105 | the price is that of the last sample at or before the time, unless it is older than allowed or its confidence exceeds the allowed basis points of its price |
| ReplicaSteps.ApplyIs | apps/web/src/analytics-data.ts:733-791 | a message is refused exactly when its pool, cursor, past or a bin's revision conflicts with what is shown, kept exactly when it repeats the last, and otherwise exactly the sent and remaining bins of the new window are shown, in order |
| StreamSteps.ArrivalIs | apps/web/src/pool-workspace-context.tsx:372-390 | a message that the shown snapshot with the waiting ones refuses, or the 257th waiting one, resets the stream; a repeat changes nothing; any other waits for a drain |
| StreamSteps.AttestedIs | apps/web/src/pool-workspace-context.tsx:336-351 | the batch in flight is shown, and the stream is then reset exactly when what was accepted no longer folds |
| StreamSteps.ComesToRest | apps/web/src/pool-workspace-context.tsx:309-388 | from every state not reset, if what was accepted folds, the scheduled microtask and at most two attestations bring all of it to the screen |
| StreamSteps.RepeatInFlightResets | apps/web/src/pool-workspace-context.tsx:372-380 | a message delivered again while it is in flight before a later one is accepted, because it is judged without the batch in flight, and resets the stream once that batch is shown |
| StreamSteps.RepeatInFlightExists | apps/web/src/pool-workspace-context.tsx:372-380 | a run with two concrete updates, the first of them delivered twice, ends in such a reset |
| JournalObservations.OwnIs | apps/web/src/transaction-journal.ts:300-424 | a check that concerns the reviewed transaction: every field of the record afterwards, by whether its receipt is there, placed, and canonical |
| JournalObservations.ForeignIs | apps/web/src/transaction-journal.ts:646-669 | a check that finds another transaction on the nonce: every field of the record afterwards |
| JournalObservations.SilentIs | apps/web/src/transaction-journal.ts:350-379 | a check that learns nothing: only time and nonces move the status |
| JournalObservations.VanishedIs | apps/web/src/transaction-journal.ts:337-348 | a receipt that vanished orphans the record and starts the scan again |
| JournalObservations.ReceiptStatusIff | apps/web/src/transaction-journal.ts:267-424 | a check ends confirming, canonical, reverted, orphaned or replaced exactly under the stated conditions on record and report |
| JournalObservations.WaitingStatusIff | apps/web/src/transaction-journal.ts:267-379 | a check ends timed out, reconciling, unknown or submitted exactly under the stated conditions on record and report |
| JournalObservations.BoundReceiptIs | apps/web/src/transaction-journal.ts:382-424 | for a bound record whose receipt is found: confirming or canonical exactly when its block is canonical, it succeeded and the transaction is the reviewed one, reverted exactly when it failed there, orphaned with no confirmations exactly when the block is not canonical, with confirmations from its block to the head |
| WalletResults.SubmittedIs | apps/web/src/transaction-journal.ts:171-190 | a returned hash becomes the record's exactly while it is awaited, also after a timeout or reload |
| WalletResults.NotSubmittedIs | apps/web/src/transaction-journal.ts:192-225 | a refused or unknown submission leaves its reason exactly while it is awaited |
| WalletResults.GivenUpIs | apps/web/src/transaction-journal.ts:234-265 | only a record that waits at the named revision is aborted, only one whose lease has run out is given up |
| KeptRecords.BoundedIs | apps/web/src/transaction-journal.ts:777-790 | bounding keeps all unsettled records and exactly the settled ones with fewer settled ones after them than there is room, by creation time |
| KeptRecords.RefusedIff | apps/web/src/transaction-journal.ts:440-515 | an intent is refused exactly when an earlier same request is unsettled, an earlier exit of its pool is unsettled, or 200 records are all unsettled |
| MergedFields.MergedHashesAre | apps/web/src/transaction-journal.ts:724-738 | merged evidence is ordered by time and knows of each hash its earliest observation, what first replaced it and what it first replaced, and whether any list calls it a replacement |
| MergedFields.MergedRecordIs | apps/web/src/transaction-journal.ts:569-607 | two copies merge into the later one, completed by what only the other knows, with the hash that the evidence lets both agree on, and else reconciling |
| MergedFields.MergeIs | apps/web/src/transaction-journal.ts:556-597 | the merged journal holds the merge of every two namesakes and every other record as it was, and the greater revision |
| ExitPlans.LimitsAre | apps/web/src/full-exit-batching.ts:454-469 | limits are accepted exactly in the stated ranges, with a quarter of gas margin and four fifths of the block by default |
| ExitPlans.CandidateIs | apps/web/src/full-exit-batching.ts:320-370 | a candidate is kept whole exactly when its well-formed probe is within the calldata cap and its buffered gas, the least that covers the margin, is within the permitted share of the block; bisected exactly when it is too much; any other answer stops the plan |
| ExitPlans.PlanIsJustified | apps/web/src/full-exit-batching.ts:320-376 | every batch of a plan was probed as it is with the figures it shows, and is a whole candidate unless a probe said that the range of which it is a half was too much |
| ExitPlans.PlanErrorIs | apps/web/src/full-exit-batching.ts:321-371 | a plan fails only when the probe budget is used up or the last probe gave the reason; an unsafe bin was probed alone and was too much |

## Left out

- Text forms: letter case, hex and decimal formats of the engine's inputs are folded into abstract identifiers and
  integers; bin ids keep their leading zeros because those matter. Canonical fingerprints of events are equality.
- Safe-integer limits, decimals above 255 and non-finite numbers: timestamps, numbers and decimals are integers in
  range; `undefined` and `null` are one absent value.
- Pool fee parameters travel unread; their range checks are not modelled.
- Sorting with `localeCompare` and built-in sorts: a total order and a stable insertion sort.
- Aliasing of entries shared between maps: positions, bins and candles are values stored back under their key.
- `poolStates`, `poolBins` and `poolBinsByNumericId` are one map of pools with three components; they are always
  written together.
- Engine queries beyond pool metrics and windowed pool state: discovery, catalog, activity paging, candle listing,
  wallet positions and overlays, trusted pair prices, health labels, cursors of pages.
- Engine.AnalyticsEngine.IngestBlock: a block that claims to follow a head that threw is not modelled; the code checks
  it against an identity index without that head and applies it to half-applied state. Every other block is.
- Admission.ReplaysIff: decimals above 255, which validation accepts, throw when a price exists, so there prices decide.
- ChainLedger.ChainConserves: chains with position snapshots are left out, because a snapshot overrides positions.
- EngineReplica.EngineMirrors: the transport is a sequence of increasing cursors; connection loss and the bootstrap
  query are outside.
- Browser parsing of scalars and addresses in candles and messages; only the checks between fields are modelled.
- PoolStreamEffect.Effect.AttestationResolved: what an attestation reads over RPC is not modelled, only that it
  succeeds or fails while messages arrive.
- JournalRuns.RunsOk: merging with other tabs is not a step of these runs; merging within one tab is in
  `JournalProvider`. Rechecking a record by hand, which can observe a terminal record, is not a step either.
- JournalProvider.TransactionJournalProvider.Commit: storage events of other tabs, a storage that fails to write, wallet
  and chain lookups, and rendering are outside; the action to commit is a parameter. New ids are assumed to be new to
  everything the tab has seen.
- Journal selection order for monitoring, deployment checks before a lookup, and the block scan itself: any record
  that is monitored may be checked with any observation.
- Journal.ReceiptLoadableIff: of the loader's checks only those between fields that transitions set are modelled.
- FullExitPlanner.Planner.ProbeRange: diagnostics of errors are not modelled, only their kind; a rejected probe is an
  unavailable one.
- JSON text: in `FullExitCodec` texts are a datatype in which an encoding has one canonical layout, and the length
  bounds are parameters; `FullExitText` writes texts out to measure them. Parsing characters is not modelled.
- React components, routes, RPC, GraphQL and event-stream transport, SQL storage, custody, manifests, subgraph,
  discovery metadata, pool creation and liquidity review: they would add only easy members or are not state logic.
